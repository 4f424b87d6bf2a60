/**
 * The letter counter, `count_letters`: scan the bytes of one file and add one
 * to the slot of every ASCII letter met, case-insensitively. The opened file
 * is its sequence of bytes, or None when `fopen` fails.
 */
module LetterCounter {
  import opened Wrappers
  import opened CountVector

  /** A value returned by `fgetc` other than EOF. */
  type byte = b: int | 0 <= b < 256

  /** `isalpha` in the C locale. */
  predicate IsAlpha(c: byte)
  {
    'A' as int <= c <= 'Z' as int || 'a' as int <= c <= 'z' as int
  }

  /** `tolower` in the C locale. */
  function ToLower(c: byte): byte
  {
    if 'A' as int <= c <= 'Z' as int then c - 'A' as int + 'a' as int else c
  }

  /** Byte `c` is the i-th letter of the alphabet, in lower or upper case. */
  predicate IsLetter(c: byte, i: nat)
  {
    c == 'a' as int + i || c == 'A' as int + i
  }

  /** The slot `tolower(c) - 'a'` that an alphabetic byte increments: always in range, and the slot of that very letter. */
  function Slot(c: byte): (k: nat)
    requires IsAlpha(c)
    ensures k < AlphabetLen
    ensures IsLetter(c, k)
    ensures forall i :: 0 <= i < AlphabetLen && IsLetter(c, i) ==> i == k
  {
    ToLower(c) - 'a' as int
  }

  /** How many bytes of `bytes` are the i-th letter, in either case. */
  function Occurrences(bytes: seq<byte>, i: nat): nat
  {
    if bytes == [] then 0
    else Occurrences(bytes[..|bytes| - 1], i) + (if IsLetter(bytes[|bytes| - 1], i) then 1 else 0)
  }

  /** How many bytes of `bytes` are ASCII letters. */
  function AlphaCount(bytes: seq<byte>): nat
  {
    if bytes == [] then 0
    else AlphaCount(bytes[..|bytes| - 1]) + (if IsAlpha(bytes[|bytes| - 1]) then 1 else 0)
  }

  /** The ASCII letters of `bytes`, in order. */
  function Letters(bytes: seq<byte>): seq<byte>
  {
    if bytes == [] then []
    else Letters(bytes[..|bytes| - 1]) + (if IsAlpha(bytes[|bytes| - 1]) then [bytes[|bytes| - 1]] else [])
  }

  /** One turn of the scanning loop on byte `c`. */
  function Step(v: Vector, c: byte): Vector
  {
    if IsAlpha(c) then v[Slot(c) := v[Slot(c)] + 1] else v
  }

  /** The counts after scanning all of `bytes`, starting from `v`. */
  function Scan(v: Vector, bytes: seq<byte>): Vector
  {
    if bytes == [] then v else Step(Scan(v, bytes[..|bytes| - 1]), bytes[|bytes| - 1])
  }

  /** The count vector of one file: its scan from the zero vector. */
  function Tally(bytes: seq<byte>): Vector
  {
    Scan(Zero(), bytes)
  }

  /** Slot i grows by the number of 'a'+i and 'A'+i bytes, and by nothing else. */
  lemma {:induction false} ScanCountsEachLetter(v: Vector, bytes: seq<byte>, i: nat)
    requires i < AlphabetLen
    ensures Scan(v, bytes)[i] == v[i] + Occurrences(bytes, i)
  {
    if bytes != [] {
      ScanCountsEachLetter(v, bytes[..|bytes| - 1], i);
    }
  }

  /** The slots together grow by the number of ASCII letters in the input. */
  lemma {:induction false} ScanCountsAllLetters(v: Vector, bytes: seq<byte>)
    ensures Sum(Scan(v, bytes)) == Sum(v) + AlphaCount(bytes)
  {
    if bytes != [] {
      var prefix, c := bytes[..|bytes| - 1], bytes[|bytes| - 1];
      ScanCountsAllLetters(v, prefix);
      if IsAlpha(c) {
        SumIncrement(Scan(v, prefix), Slot(c));
      }
    }
  }

  /** Non-letter bytes are ignored: deleting them all changes no slot. */
  lemma {:induction false} ScanIgnoresNonLetters(v: Vector, bytes: seq<byte>)
    ensures Scan(v, bytes) == Scan(v, Letters(bytes))
  {
    if bytes != [] {
      var prefix, c := bytes[..|bytes| - 1], bytes[|bytes| - 1];
      ScanIgnoresNonLetters(v, prefix);
      if IsAlpha(c) {
        var ls := Letters(prefix) + [c];
        assert ls[..|ls| - 1] == Letters(prefix);
      } else {
        assert Letters(bytes) == Letters(prefix) + [] == Letters(prefix);
        assert Scan(v, bytes) == Step(Scan(v, prefix), c) == Scan(v, prefix);
      }
    }
  }

  /** The count vector of a file states, slot by slot, the doc comment of `count_letters`, and adds up to its letters. */
  lemma TallyCounts(bytes: seq<byte>)
    ensures forall i :: 0 <= i < AlphabetLen ==> Tally(bytes)[i] == Occurrences(bytes, i)
    ensures Sum(Tally(bytes)) == AlphaCount(bytes)
  {
    forall i | 0 <= i < AlphabetLen {
      ScanCountsEachLetter(Zero(), bytes, i);
    }
    ScanCountsAllLetters(Zero(), bytes);
    SumOfZeros(AlphabetLen);
  }

  /**
   * `count_letters(file_name, counts)`: returns -1 and leaves `counts` alone
   * when the file cannot be opened; otherwise adds the file's letter counts
   * into `counts` in place and returns 0.
   */
  method CountLetters(file: Option<seq<byte>>, counts: array<nat>) returns (status: int)
    requires counts.Length == AlphabetLen
    modifies counts
    ensures file.None? ==> status == -1 && counts[..] == old(counts[..])
    ensures file.Some? ==> status == 0 && counts[..] == Scan(old(counts[..]), file.value)
    ensures file.Some? ==> forall i :: 0 <= i < AlphabetLen ==> counts[i] == old(counts[i]) + Occurrences(file.value, i)
  {
    if file.None? {
      return -1;
    }
    var bytes := file.value;
    var pos := 0;
    while pos < |bytes|
      invariant 0 <= pos <= |bytes|
      invariant counts[..] == Scan(old(counts[..]), bytes[..pos])
    {
      var c := bytes[pos];
      assert bytes[..pos + 1][..pos] == bytes[..pos];
      if IsAlpha(c) {
        var k := ToLower(c) - 'a' as int;
        counts[k] := counts[k] + 1;
      }
      pos := pos + 1;
    }
    assert bytes[..pos] == bytes;
    forall i | 0 <= i < AlphabetLen
      ensures counts[i] == old(counts[i]) + Occurrences(bytes, i)
    {
      ScanCountsEachLetter(old(counts[..]), bytes, i);
      assert old(counts[..])[i] == old(counts[i]);
    }
    return 0;
  }
}
