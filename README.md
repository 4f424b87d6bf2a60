# Parallel letter counts, modelled in Dafny

The program `par_letter_counts` counts, case-insensitively, how often each of
the 26 letters occurs across the files named on its command line. `main`
forks one child per file. Each child runs `process_file`, which counts its
file's letters with `count_letters` into a fresh zeroed 26-slot array and
writes that array as one 26-int record into a shared pipe. The parent waits
for the children in argument order. For every child that exited with status
0 it reads one record from the pipe and adds it element-wise into
`total_counts`. A short read is fatal (exit 1). At the end it prints one line
`<letter> Count: <n>` per letter, from `a` to `z`.

The model keeps the sequential core and replaces processes and the pipe by
what the parent observes:

- `CountVector` (count_vector.dfy): 26-slot vectors of natural numbers, their
  element-wise sum, and the laws of merging: order independence, additivity,
  and conservation of the grand total.
- `LetterCounter` (letter_counter.dfy): C-locale `isalpha`/`tolower`, the scan
  as a specification function (`Scan`) with its reference meaning
  (`Occurrences`), and `CountLetters`, the in-place loop over an `array<nat>`.
  An opened file is `Some(bytes)`; a file that `fopen` cannot open is `None`.
- `Worker` (worker.dfy): `ProcessFile`, which is `process_file`. Whether
  `write` transferred the whole record is an input.
- `Collector` (collector.dfy): the merge loop of `main` over a sequence of
  `WorkerStatus` values, one per child in wait order: `Failed`, or
  `Succeeded` with the read's result, `Record(v)` or `ShortRead`.
- `Report` (report.dfy): the print loop, as a returned sequence of lines,
  with a parser that reads each line back.
- `Program` (program.dfy): `main` as `Run`, plus end-to-end lemmas from files
  to totals.

Behaviour worth noting:

- With no file arguments, `main` returns 0 and prints nothing
  (part1/par_letter_counts.c:57-60). It does not print an all-zero report.
- A short record read ends the run with status 1 and no report
  (part1/par_letter_counts.c:94-97).
- A file that cannot be opened and a failed record write look the same to the
  parent: the child exits 1 and is skipped.

## Model

| member | source | states |
|---|---|---|
| CountVector.SumIncrement | part1/par_letter_counts.c:30 | incrementing one slot raises the sum of all slots by exactly one |
| CountVector.SumOfAdd | part1/par_letter_counts.c:98-100 | the letter total of a merged vector is the sum of the two vectors' letter totals |
| CountVector.VectorSumAppend | part1/par_letter_counts.c:98-100 | merging two batches of vectors equals adding the two batches' partial totals |
| CountVector.VectorSumPermutation | part1/par_letter_counts.c:89-101 | any two arrival orders of the same vectors give the same merged total |
| CountVector.VectorSumTotal | part1/par_letter_counts.c:88-101 | the merged total holds exactly as many letters as all merged vectors together |
| LetterCounter.Slot | part1/par_letter_counts.c:29-30 | for an alphabetic byte, `tolower(c) - 'a'` is in 0..25, and it is the only slot whose letter the byte is, in either case |
| LetterCounter.ScanCountsEachLetter | part1/par_letter_counts.c:11-19 | after a scan, slot i has grown by exactly the number of `'a'+i` and `'A'+i` bytes |
| LetterCounter.ScanCountsAllLetters | part1/par_letter_counts.c:28-32 | a scan adds to all slots together exactly the number of ASCII letters in the input |
| LetterCounter.ScanIgnoresNonLetters | part1/par_letter_counts.c:29-31 | non-letter bytes change no slot: scanning only the input's letters gives the same counts |
| LetterCounter.TallyCounts | part1/par_letter_counts.c:11-19 | from a zeroed vector, slot i is the number of letter-i bytes, and the slots add up to the file's letter count |
| LetterCounter.CountLetters | part1/par_letter_counts.c:20-36 | on open failure returns -1 and leaves `counts` unchanged; otherwise returns 0 and adds each letter's occurrences to its slot in place |
| Worker.ProcessFile | part1/par_letter_counts.c:46-54 | returns 0 with the file's own letter counts exactly when the file opens and the record is written in full; otherwise -1 and no vector |
| Collector.RecordsMultiset | part1/par_letter_counts.c:92-94 | each record is read once for each successful worker that carries it, and never for a failed one |
| Collector.MergeInto | part1/par_letter_counts.c:98-100 | the inner loop adds the record into the total slot by slot |
| Collector.Collect | part1/par_letter_counts.c:88-102 | the read error occurs exactly when some successful worker's read is short; otherwise the result is the element-wise sum of the successful workers' records, with as many letters as those records together |
| Collector.FailedWorkerIgnored | part1/par_letter_counts.c:92 | a failed worker contributes nothing to the result, wherever it occurs |
| Collector.AggregateOrderIndependent | part1/par_letter_counts.c:89-101 | the result does not depend on the order in which workers are waited for |
| Collector.RecordPairingIrrelevant | part1/par_letter_counts.c:91-94 | which successful worker's record a given read returns does not change the totals |
| Collector.AggregateAdditive | part1/par_letter_counts.c:88-101 | collecting two groups of workers succeeds exactly when both groups do, and then gives the element-wise sum of the two groups' totals |
| Report.Decimal | part1/par_letter_counts.c:105 | a printed count is a non-empty string of digits with no leading zero |
| Report.DecimalRoundTrip | part1/par_letter_counts.c:105 | a printed count reads back as the same number |
| Report.LineRoundTrip | part1/par_letter_counts.c:105 | every report line reads back as its own letter index and count |
| Report.ReportTotals | part1/par_letter_counts.c:104-106 | exactly 26 lines; line i is `'a'+i`, then ` Count: `, then total i, and reads back as (i, total i) |
| Program.Run | part1/par_letter_counts.c:56-108 | no arguments: exit 0 with no output; a short read: exit 1 with no output; otherwise exit 0 with the 26 lines of the successful workers' summed records |
| Program.WorkersCountTheirFiles | part1/par_letter_counts.c:70-101 | when records are delivered, collection never fails; the total for each letter is its number of occurrences summed over exactly the files whose workers succeed; the grand total is those files' letter count |
| Program.ObservedAppend | part1/par_letter_counts.c:70-84 | what the parent observes of a run over the files of A then B is what it observes of A followed by what it observes of B |
| Program.RunsAdd | part1/par_letter_counts.c:88-101 | counting files A and B in one run equals adding the totals of a run over A alone and a run over B alone |

## Left out

- Process creation and transport: `fork`, `pipe`, `waitpid`, `close` and `exit` (part1/par_letter_counts.c:62-86, 91). `Run` takes what the parent observes of each child, in wait order.
- The exits with status 1 when `pipe` or `fork` fails (part1/par_letter_counts.c:64-67, 71-74). The model starts once every child has been created.
- Which child's record a given `read` returns: the pipe delivers records in write order, not wait order. The model attaches a record to each successful child. `Collector.RecordPairingIrrelevant` shows that any other pairing of the same records gives the same totals.
- A `write` that transfers only part of a record. The model treats a failed write as transferring nothing. Partial bytes left in the pipe could shift later reads; that is not modelled.
- Abnormal child termination (a signal) is not separated from exit status 1. Both are `Failed`, and the parent skips both at part1/par_letter_counts.c:92.
- A child that completes its `write` (part1/par_letter_counts.c:51) and then dies abnormally before `exit(0)` is `Failed` in the model, with no record in the pipe. In the source its record stays in the pipe and is read for a later successful child, so its counts enter the totals and the last successful child's record is never read. `Collector.FailedWorkerIgnored` and `Collector.RecordPairingIrrelevant` do not cover this case. It is not modelled.
- `perror` and `printf` side effects. Diagnostics are dropped, and the report is a returned sequence of lines without the trailing newlines.
- File I/O (`fopen`, `fgetc`, `fclose`). A file is its byte sequence, or `None` when it cannot be opened.
- Locales: `isalpha` and `tolower` are those of the C locale (ASCII).
- C `int` overflow. All counts are unbounded natural numbers, so a count above `INT_MAX` does not wrap as it would in the source.
