/**
 * `main`: one worker per command-line argument, the collector over what the
 * parent observes of each worker, then the report. Process creation and the
 * pipe are abstracted: the collector's input is what the parent sees.
 */
module Program {
  import opened Wrappers
  import opened CountVector
  import opened LetterCounter
  import opened Worker
  import opened Collector
  import opened Report

  /** The exit status of `main` and the lines it printed. */
  datatype Exit = Exit(status: int, output: seq<string>)

  /** One command-line argument: the file's bytes (None if it cannot be opened) and whether its record write is complete. */
  datatype Job = Job(file: Option<seq<byte>>, writeComplete: bool)

  /** What the parent sees of a worker: exit status 0 and its record, or a failed exit status. */
  function Observe(o: Outcome): WorkerStatus
  {
    match o
    case Success(v) => Succeeded(Record(v))
    case Failure => Failed
  }

  /** What the parent sees of the workers for `jobs`, in argument order. */
  function Observed(jobs: seq<Job>): seq<WorkerStatus>
  {
    if jobs == [] then []
    else
      var j := jobs[|jobs| - 1];
      Observed(jobs[..|jobs| - 1]) + [Observe(Expected(j.file, j.writeComplete))]
  }

  /** The job's worker succeeds. */
  predicate Counted(j: Job)
  {
    j.file.Some? && j.writeComplete
  }

  /** Reference total for letter i: its occurrences summed over the files whose workers succeed. */
  function FilesOccurrences(jobs: seq<Job>, i: nat): nat
  {
    if jobs == [] then 0
    else
      var j := jobs[|jobs| - 1];
      FilesOccurrences(jobs[..|jobs| - 1], i) + (if Counted(j) then Occurrences(j.file.value, i) else 0)
  }

  /** Reference total of all letters over the files whose workers succeed. */
  function FilesAlphaCount(jobs: seq<Job>): nat
  {
    if jobs == [] then 0
    else
      var j := jobs[|jobs| - 1];
      FilesAlphaCount(jobs[..|jobs| - 1]) + (if Counted(j) then AlphaCount(j.file.value) else 0)
  }

  /**
   * `main`: exit 0 silently without arguments; exit 1 with no report on a
   * short record read; otherwise exit 0 after printing the 26 totals.
   */
  method Run(ws: seq<WorkerStatus>) returns (e: Exit)
    ensures |ws| == 0 ==> e == Exit(0, [])
    ensures |ws| > 0 && HasShortRead(ws) ==> e == Exit(1, [])
    ensures |ws| > 0 && !HasShortRead(ws) ==>
      && e.status == 0
      && |e.output| == AlphabetLen
      && forall i :: 0 <= i < AlphabetLen ==> e.output[i] == Line(i, VectorSum(Records(ws))[i])
  {
    if |ws| == 0 {
      return Exit(0, []);
    }
    var collected := Collect(ws);
    if collected.ReadError? {
      return Exit(1, []);
    }
    var lines := ReportTotals(collected.counts);
    return Exit(0, lines);
  }

  /**
   * With the records delivered, the collector never fails, and the total for
   * every letter is its count summed over exactly the files whose workers
   * succeeded; the grand total is the number of letters in those files.
   */
  lemma {:induction false} WorkersCountTheirFiles(jobs: seq<Job>)
    ensures !HasShortRead(Observed(jobs))
    ensures forall i :: 0 <= i < AlphabetLen ==> VectorSum(Records(Observed(jobs)))[i] == FilesOccurrences(jobs, i)
    ensures Sum(VectorSum(Records(Observed(jobs)))) == FilesAlphaCount(jobs)
  {
    if jobs == [] {
      SumOfZeros(AlphabetLen);
    } else {
      var prefix, j := jobs[..|jobs| - 1], jobs[|jobs| - 1];
      WorkersCountTheirFiles(prefix);
      var ws, w := Observed(prefix), Observe(Expected(j.file, j.writeComplete));
      assert Observed(jobs) == ws + [w];
      RecordsAppend(ws, [w]);
      assert Records([w]) == [] + (if Counted(j) then [Tally(j.file.value)] else []);
      if Counted(j) {
        var rs := Records(ws) + [Tally(j.file.value)];
        assert rs[..|rs| - 1] == Records(ws);
        TallyCounts(j.file.value);
        SumOfAdd(VectorSum(Records(ws)), Tally(j.file.value));
      } else {
        assert Records(ws) + [] == Records(ws);
      }
    }
  }

  lemma ObservedAppend(a: seq<Job>, b: seq<Job>)
    ensures Observed(a + b) == Observed(a) + Observed(b)
    decreases |b|
  {
    if b != [] {
      assert (a + b)[..|a + b| - 1] == a + b[..|b| - 1];
      ObservedAppend(a, b[..|b| - 1]);
    } else {
      assert a + b == a;
    }
  }

  /** Counting files A and B in one run gives the sum of the reports of A alone and B alone. */
  lemma RunsAdd(a: seq<Job>, b: seq<Job>)
    ensures Aggregate(Observed(a)).Totals? && Aggregate(Observed(b)).Totals? && Aggregate(Observed(a + b)).Totals?
    ensures Aggregate(Observed(a + b)).counts == Add(Aggregate(Observed(a)).counts, Aggregate(Observed(b)).counts)
  {
    ObservedAppend(a, b);
    WorkersCountTheirFiles(a);
    WorkersCountTheirFiles(b);
    AggregateAdditive(Observed(a), Observed(b));
  }
}
