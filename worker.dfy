/**
 * The worker, `process_file`: count one file's letters into a fresh zeroed
 * vector and write the 26-int record to the pipe. Whether `write` transferred
 * the whole record is an input, since the descriptor is not modelled.
 */
module Worker {
  import opened Wrappers
  import opened CountVector
  import opened LetterCounter

  /** What a worker delivers: its file's count vector, or nothing at all. */
  datatype Outcome = Success(counts: Vector) | Failure

  /**
   * The outcome that ProcessFile is proved to return. It is not a second,
   * independent definition. Lemmas use it because they cannot call the
   * method. Its meaning comes from ProcessFile's other ensures clauses and
   * from LetterCounter.TallyCounts.
   */
  function Expected(file: Option<seq<byte>>, writeComplete: bool): Outcome
  {
    if file.Some? && writeComplete then Success(Tally(file.value)) else Failure
  }

  /**
   * `process_file(file_name, out_fd)`: 0 together with the file's own letter
   * counts (from a zeroed vector) when the file opens and the record is written
   * in full; -1 and no vector otherwise.
   */
  method ProcessFile(file: Option<seq<byte>>, writeComplete: bool) returns (status: int, outcome: Outcome)
    ensures status == 0 || status == -1
    ensures status == 0 <==> outcome.Success?
    ensures outcome.Success? <==> file.Some? && writeComplete
    ensures outcome.Success? ==> forall i :: 0 <= i < AlphabetLen ==> outcome.counts[i] == Occurrences(file.value, i)
    ensures outcome == Expected(file, writeComplete)
  {
    var counts := new nat[AlphabetLen](_ => 0);
    assert counts[..] == Zero();
    var counted := CountLetters(file, counts);
    if counted == -1 {
      return -1, Failure;
    }
    if !writeComplete {
      return -1, Failure;
    }
    TallyCounts(file.value);
    return 0, Success(counts[..]);
  }
}
