/**
 * The note-number arithmetic of assignNotes: ball `index` plays the chord interval at
 * `index mod |intervals|` above the key's root (MIDI 60 plus the key index), raised by
 * one octave for each full pass through the chord.
 */
module Notes {

  /** Number of key names; a note's name is keys[note % 12]. */
  const KeyCount: int := 12

  /** MIDI number of middle C, the root of key index 0. */
  const MiddleC: int := 60

  /** The note number of the ball at `index` for the given key index and chord intervals. */
  function NoteNumber(keyIndex: int, intervals: seq<int>, index: nat): int
    requires |intervals| > 0
  {
    MiddleC + keyIndex + intervals[index % |intervals|] + 12 * (index / |intervals|)
  }

  /** The note numbers assignNotes gives to `n` balls, in ball order. */
  function NoteNumbers(keyIndex: int, intervals: seq<int>, n: nat): (r: seq<int>)
    requires |intervals| > 0
    ensures |r| == n
  {
    seq(n, i requires 0 <= i < n => NoteNumber(keyIndex, intervals, i))
  }

  /** JavaScript's `%` on integers: the remainder takes the sign of the dividend. */
  function JsIntRem(a: int, b: int): int
    requires b > 0
  {
    if a >= 0 then a % b else -((-a) % b)
  }

  /** The index into the key-name table that labels a note (note % 12). */
  function NoteNameIndex(note: int): int {
    JsIntRem(note, KeyCount)
  }

  /**
   * A non-negative note always names a key in the table and shares its pitch class
   * with every note a whole number of octaves away; a negative one would index below it.
   */
  lemma NoteNameIndexRange(note: int, octaves: nat)
    ensures note >= 0 ==> 0 <= NoteNameIndex(note) < KeyCount
    ensures note >= 0 ==> NoteNameIndex(note + 12 * octaves) == NoteNameIndex(note)
    ensures note < 0 ==> NoteNameIndex(note) <= 0
  {
    if note >= 0 {
      ModShift(note, octaves);
    }
  }

  lemma {:induction false} ModShift(a: nat, m: nat)
    ensures (a + 12 * m) % 12 == a % 12
  {
    if m > 0 {
      ModShift(a, m - 1);
      assert a + 12 * m == (a + 12 * (m - 1)) + 12;
    }
  }

  /** Whole-number division and remainder after adding one divisor. */
  lemma DivModStep(i: nat, n: nat)
    requires n > 0
    ensures (i + n) % n == i % n && (i + n) / n == i / n + 1
  {
    var q, r := i / n, i % n;
    assert i == q * n + r;
    assert i + n == (q + 1) * n + r;
    DivModUnique(i + n, n, q + 1, r);
  }

  lemma DivModUnique(a: nat, n: nat, q: int, r: int)
    requires n > 0 && 0 <= r < n && a == q * n + r
    ensures a / n == q && a % n == r
  {
    var q', r' := a / n, a % n;
    assert a == q' * n + r';
    assert (q - q') * n == r' - r;
    if q > q' {
      assert (q - q') * n >= n by { MulAtLeast(q - q', n); }
    } else if q < q' {
      assert (q' - q) * n >= n by { MulAtLeast(q' - q, n); }
    }
  }

  lemma MulAtLeast(x: int, n: nat)
    requires x >= 1
    ensures x * n >= n
  {
    assert x * n == (x - 1) * n + n;
    assert (x - 1) * n >= 0;
  }

  /**
   * Balls one chord-length apart play the same chord tone an octave apart, and so carry
   * the same note name.
   */
  lemma OctaveUp(keyIndex: int, intervals: seq<int>, index: nat)
    requires |intervals| > 0
    ensures NoteNumber(keyIndex, intervals, index + |intervals|) == NoteNumber(keyIndex, intervals, index) + 12
    ensures NoteNumber(keyIndex, intervals, index) >= 0 ==>
      NoteNameIndex(NoteNumber(keyIndex, intervals, index + |intervals|)) == NoteNameIndex(NoteNumber(keyIndex, intervals, index))
  {
    DivModStep(index, |intervals|);
    NoteNameIndexRange(NoteNumber(keyIndex, intervals, index), 1);
  }

  /**
   * With a non-negative key index and non-negative chord intervals every ball's note is
   * at least middle C, in the octave its position selects, and names a key in the table.
   */
  lemma NoteNumberValid(keyIndex: int, intervals: seq<int>, index: nat)
    requires |intervals| > 0 && keyIndex >= 0
    requires forall j :: 0 <= j < |intervals| ==> intervals[j] >= 0
    ensures NoteNumber(keyIndex, intervals, index) >= MiddleC + 12 * (index / |intervals|)
    ensures 0 <= NoteNameIndex(NoteNumber(keyIndex, intervals, index)) < KeyCount
  {
    NoteNameIndexRange(NoteNumber(keyIndex, intervals, index), 0);
  }
}
