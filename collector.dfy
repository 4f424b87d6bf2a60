/**
 * The collector: the merge loop of `main`. For each worker, in the order the
 * parent waits for them, it sees either a failed worker (non-zero or abnormal
 * exit status) or a successful one, for which it reads one 26-int record from
 * the pipe; a short read aborts the program.
 */
module Collector {
  import opened CountVector

  /** The result of one `read` of a record from the pipe. */
  datatype Transfer = Record(counts: Vector) | ShortRead

  /** What the parent observes of one worker. */
  datatype WorkerStatus = Failed | Succeeded(read: Transfer)

  /** The collector's verdict: the merged totals, or the fatal read error. */
  datatype Collected = Totals(counts: Vector) | ReadError

  /** The records read for successful workers, in order. */
  function Records(ws: seq<WorkerStatus>): seq<Vector>
  {
    if ws == [] then []
    else
      var last := ws[|ws| - 1];
      Records(ws[..|ws| - 1]) + (if last.Succeeded? && last.read.Record? then [last.read.counts] else [])
  }

  /** Some successful worker's record could not be read in full. */
  predicate HasShortRead(ws: seq<WorkerStatus>)
  {
    Succeeded(ShortRead) in ws
  }

  /** The specified result of collecting: the element-wise sum of the records of exactly the successful workers. */
  function Aggregate(ws: seq<WorkerStatus>): Collected
  {
    if HasShortRead(ws) then ReadError else Totals(VectorSum(Records(ws)))
  }

  lemma {:induction false} RecordsAppend(a: seq<WorkerStatus>, b: seq<WorkerStatus>)
    ensures Records(a + b) == Records(a) + Records(b)
  {
    if b != [] {
      assert (a + b)[..|a + b| - 1] == a + b[..|b| - 1];
      RecordsAppend(a, b[..|b| - 1]);
    } else {
      assert a + b == a;
    }
  }

  /** Each record value occurs in Records(ws) as often as a successful worker with that record occurs in ws. */
  lemma {:induction false} RecordsMultiset(ws: seq<WorkerStatus>, v: Vector)
    ensures multiset(Records(ws))[v] == multiset(ws)[Succeeded(Record(v))]
  {
    if ws != [] {
      var prefix := ws[..|ws| - 1];
      assert ws == prefix + [ws[|ws| - 1]];
      RecordsMultiset(prefix, v);
    }
  }

  /** Extending the waited-for prefix by one worker. */
  lemma RecordsPrefix(ws: seq<WorkerStatus>, i: nat)
    requires i < |ws|
    ensures Records(ws[..i + 1]) == Records(ws[..i]) + (if ws[i].Succeeded? && ws[i].read.Record? then [ws[i].read.counts] else [])
    ensures HasShortRead(ws[..i + 1]) <==> HasShortRead(ws[..i]) || ws[i] == Succeeded(ShortRead)
  {
    assert ws[..i + 1][..i] == ws[..i];
    assert ws[..i + 1] == ws[..i] + [ws[i]];
  }

  /** The inner loop `total_counts[j] += temp_counts[j]` for j = 0..25. */
  method MergeInto(total: array<nat>, temp: Vector)
    requires total.Length == AlphabetLen
    modifies total
    ensures total[..] == Add(old(total[..]), temp)
  {
    var j := 0;
    while j < AlphabetLen
      invariant 0 <= j <= AlphabetLen
      invariant forall k :: 0 <= k < j ==> total[k] == old(total[k]) + temp[k]
      invariant forall k :: j <= k < AlphabetLen ==> total[k] == old(total[k])
    {
      total[j] := total[j] + temp[j];
      j := j + 1;
    }
  }

  /**
   * The `total_counts` loop: starts from all zeros, adds each successful
   * worker's record element-wise, skips failed workers, and stops with the
   * read error at the first short read.
   */
  method Collect(ws: seq<WorkerStatus>) returns (r: Collected)
    ensures r == Aggregate(ws)
    ensures r.ReadError? <==> Succeeded(ShortRead) in ws
    ensures r.Totals? ==> Sum(r.counts) == GrandTotal(Records(ws))
  {
    var total := new nat[AlphabetLen](_ => 0);
    var i := 0;
    while i < |ws|
      invariant 0 <= i <= |ws|
      invariant !HasShortRead(ws[..i])
      invariant total[..] == VectorSum(Records(ws[..i]))
    {
      RecordsPrefix(ws, i);
      match ws[i] {
        case Failed =>
          assert Records(ws[..i]) + [] == Records(ws[..i]);
        case Succeeded(ShortRead) =>
          return ReadError;
        case Succeeded(Record(temp)) =>
          MergeInto(total, temp);
          ghost var rs := Records(ws[..i]) + [temp];
          assert rs[..|rs| - 1] == Records(ws[..i]);
      }
      i := i + 1;
    }
    assert ws[..i] == ws;
    VectorSumTotal(Records(ws));
    return Totals(total[..]);
  }

  /** A failed worker contributes nothing, wherever it finishes. */
  lemma FailedWorkerIgnored(a: seq<WorkerStatus>, b: seq<WorkerStatus>)
    ensures Aggregate(a + [Failed] + b) == Aggregate(a + b)
  {
    RecordsAppend(a + [Failed], b);
    RecordsAppend(a, [Failed]);
    RecordsAppend(a, b);
    assert Records([Failed]) == [];
    assert Records(a + [Failed]) == Records(a) + [] == Records(a);
    assert Succeeded(ShortRead) in a + [Failed] + b <==> Succeeded(ShortRead) in a + b;
  }

  /** The order in which workers are waited for does not change the result. */
  lemma AggregateOrderIndependent(a: seq<WorkerStatus>, b: seq<WorkerStatus>)
    requires multiset(a) == multiset(b)
    ensures Aggregate(a) == Aggregate(b)
  {
    assert Succeeded(ShortRead) in a <==> Succeeded(ShortRead) in multiset(b);
    forall v: Vector
      ensures multiset(Records(a))[v] == multiset(Records(b))[v]
    {
      RecordsMultiset(a, v);
      RecordsMultiset(b, v);
    }
    assert multiset(Records(a)) == multiset(Records(b));
    VectorSumPermutation(Records(a), Records(b));
  }

  /**
   * Which successful worker's record a given read returns does not matter:
   * any pairing of the same records yields the same totals.
   */
  lemma RecordPairingIrrelevant(a: seq<WorkerStatus>, b: seq<WorkerStatus>)
    requires !HasShortRead(a) && !HasShortRead(b)
    requires multiset(Records(a)) == multiset(Records(b))
    ensures Aggregate(a) == Aggregate(b)
  {
    VectorSumPermutation(Records(a), Records(b));
  }

  /** Collecting two groups of workers is merging the two groups' totals. */
  lemma AggregateAdditive(a: seq<WorkerStatus>, b: seq<WorkerStatus>)
    ensures Aggregate(a + b).Totals? <==> Aggregate(a).Totals? && Aggregate(b).Totals?
    ensures Aggregate(a + b).Totals? ==> Aggregate(a + b).counts == Add(Aggregate(a).counts, Aggregate(b).counts)
  {
    RecordsAppend(a, b);
    VectorSumAppend(Records(a), Records(b));
  }
}
