/**
 * The transport clock and the trigger loop's arithmetic: bar counting from the audio
 * clock, the per-ball retrigger rule that keeps each ball on its rhythm grid, and the
 * choice of the active-ball set.
 */
module Rhythm {
  import opened Util
  import opened Envelope

  /** Length of a ball's rhythm in beats (the rhythm table holds positive values). */
  type Beats = r: real | r > 0.0 witness 1.0

  /** One rhythmic voice: whether it plays, its rhythm, its last trigger time, its miss chance in percent. */
  datatype Ball = Ball(active: bool, beats: Beats, lastPlayTime: real, missChance: int)

  /** Seconds per beat. */
  function BeatDuration(bpm: Bpm): (d: real)
    ensures d > 0.0
  {
    60.0 / bpm as real
  }

  /** Seconds per cycle of a ball's rhythm. */
  function CycleDuration(b: Ball, bpm: Bpm): (c: real)
    ensures c > 0.0
  {
    b.beats * BeatDuration(bpm)
  }

  // ---------------------------------------------------------------------------
  // Bar counting

  /** The whole bars elapsed since `start` (4/4 time): Math.floor of the beats over four. */
  function ElapsedBars(now: real, start: real, bpm: Bpm): int {
    ((now - start) / BeatDuration(bpm) / 4.0).Floor
  }

  lemma FloorMonotone(x: real, y: real)
    requires x <= y
    ensures x.Floor <= y.Floor
  {
  }

  /** The bar count at a later time is never smaller, and it is 0 at the start itself. */
  lemma ElapsedBarsMonotone(start: real, now1: real, now2: real, bpm: Bpm)
    requires now1 <= now2
    ensures ElapsedBars(now1, start, bpm) <= ElapsedBars(now2, start, bpm)
    ensures ElapsedBars(start, start, bpm) == 0
  {
    var d := BeatDuration(bpm);
    assert (now1 - start) / d <= (now2 - start) / d by {
      assert (now2 - start) / d - (now1 - start) / d == (now2 - now1) / d;
    }
    FloorMonotone((now1 - start) / d / 4.0, (now2 - start) / d / 4.0);
  }

  // ---------------------------------------------------------------------------
  // Retrigger

  /** JavaScript's truncation towards zero of a real. */
  function Trunc(x: real): int {
    if x >= 0.0 then x.Floor else -((-x).Floor)
  }

  /** JavaScript's `%` on numbers: the remainder of truncated division, with the dividend's sign. */
  function JsRem(a: real, b: real): real
    requires b != 0.0
  {
    a - b * Trunc(a / b) as real
  }

  /** Taking `k` whole divisors, with `k` the quotient rounded down, leaves less than one divisor. */
  lemma RemainderBounds(a: real, b: real, q: real, kr: real)
    requires b > 0.0 && b * q == a && kr <= q < kr + 1.0
    ensures 0.0 <= a - b * kr < b
  {
    var d := q - kr;
    assert a - b * kr == b * d;
    MulMono(b, 0.0, d);
    MulStrict(b, d, 1.0);
    assert b * 0.0 == 0.0 && b * 1.0 == b;
    assert 0.0 <= b * d < b;
  }

  /** For a non-negative dividend and positive divisor, the remainder is in [0, divisor). */
  lemma JsRemRange(a: real, b: real)
    requires a >= 0.0 && b > 0.0
    ensures 0.0 <= JsRem(a, b) < b
    ensures JsRem(a, b) == a - b * (a / b).Floor as real
  {
    var q := a / b;
    var kr := q.Floor as real;
    DivFacts(a, b);
    DivMul(a, b);
    assert Trunc(q) == q.Floor;
    assert JsRem(a, b) == a - b * kr;
    RemainderBounds(a, b, q, kr);
  }

  /** The new lastPlayTime of a ball that is due: `now` less the remainder of the elapsed time over the cycle. */
  function Retrigger(last: real, now: real, cycle: real): real
    requires cycle > 0.0
  {
    now - JsRem(now - last, cycle)
  }

  /** Stepping back from `now` by less than a cycle to `last` plus `kr >= 1` cycles. */
  lemma WholeCycles(last: real, now: real, cycle: real, rem: real, kr: real)
    requires cycle > 0.0 && kr >= 1.0 && 0.0 <= rem < cycle && rem == (now - last) - cycle * kr
    ensures var r := now - rem;
      r <= now && now - r < cycle && r - last >= cycle && r - last == cycle * kr && (r - last) / cycle == kr
  {
    AtLeastOnce(cycle, kr);
    MulDiv(cycle, kr);
  }

  /**
   * A due ball's new trigger time is not after `now`, is less than a cycle before it,
   * and is a whole, positive number of cycles after the old one.
   */
  lemma RetriggerOnGrid(last: real, now: real, cycle: real)
    requires cycle > 0.0 && now - last >= cycle
    ensures var r := Retrigger(last, now, cycle);
      r <= now && now - r < cycle && r - last >= cycle &&
      IsWhole((r - last) / cycle) &&
      r - last == cycle * ((now - last) / cycle).Floor as real
  {
    var a := now - last;
    JsRemRange(a, cycle);
    DivFacts(a, cycle);
    var k := (a / cycle).Floor;
    assert k >= 1;
    WholeCycles(last, now, cycle, JsRem(a, cycle), k as real);
  }

  /** `x` lies a whole, non-negative number of cycles after `origin`. */
  predicate OnGrid(x: real, origin: real, cycle: real)
    requires cycle > 0.0
  {
    x >= origin && IsWhole((x - origin) / cycle)
  }

  /** Two whole numbers of cycles add up to a whole number of cycles. */
  lemma WholeSum(x: real, y: real, cycle: real, k: int, j: int)
    requires cycle > 0.0 && x / cycle == k as real && y / cycle == j as real
    ensures (x + y) / cycle == (k + j) as real
  {
    DivAdd(x, y, cycle);
  }

  /**
   * Phase preservation: retriggering keeps a ball on the grid of any earlier trigger
   * time, so repeated retriggers never drift off the rhythm.
   */
  lemma RetriggerStaysOnGrid(origin: real, last: real, now: real, cycle: real)
    requires cycle > 0.0 && now - last >= cycle && OnGrid(last, origin, cycle)
    ensures OnGrid(Retrigger(last, now, cycle), origin, cycle)
  {
    RetriggerOnGrid(last, now, cycle);
    var r := Retrigger(last, now, cycle);
    var x, y := r - last, last - origin;
    var k, j := (x / cycle).Floor, (y / cycle).Floor;
    assert x / cycle == k as real;
    assert y / cycle == j as real;
    WholeSum(x, y, cycle, k, j);
    assert x + y == r - origin;
  }

  /** An active ball whose cycle has elapsed since its last trigger is due to play. */
  predicate Due(b: Ball, now: real, bpm: Bpm) {
    b.active && now - b.lastPlayTime >= CycleDuration(b, bpm)
  }

  /**
   * One ball in one frame of updateBalls: an active ball whose cycle has elapsed moves
   * its lastPlayTime onto the latest grid point, whether or not its note was missed;
   * any other ball is left as it is.
   */
  function Retriggered(b: Ball, now: real, bpm: Bpm): (r: Ball)
    ensures r.active == b.active && r.beats == b.beats && r.missChance == b.missChance
    ensures !Due(b, now, bpm) ==> r == b
  {
    var cycle := CycleDuration(b, bpm);
    if Due(b, now, bpm) then b.(lastPlayTime := Retrigger(b.lastPlayTime, now, cycle))
    else b
  }

  /** After a frame, no active ball is a whole cycle or more behind, and none is ahead of `now` unless it already was. */
  lemma RetriggeredCaughtUp(b: Ball, now: real, bpm: Bpm)
    requires b.active
    ensures now - Retriggered(b, now, bpm).lastPlayTime < CycleDuration(b, bpm)
    ensures b.lastPlayTime <= now ==> Retriggered(b, now, bpm).lastPlayTime <= now
  {
    var cycle := CycleDuration(b, bpm);
    if now - b.lastPlayTime >= cycle {
      RetriggerOnGrid(b.lastPlayTime, now, cycle);
    }
  }

  // ---------------------------------------------------------------------------
  // Active-ball set

  /** `perm` lists every index below `n` exactly once: the shuffled order of the balls. */
  predicate IsPermutation(perm: seq<nat>, n: nat) {
    |perm| == n &&
    (forall j :: 0 <= j < n ==> perm[j] < n) &&
    (forall i, j :: 0 <= i < j < n ==> perm[i] != perm[j])
  }

  /** How many elements `slice(0, count)` takes from an array of length `n`, counting a negative end from the back. */
  function SliceLength(count: int, n: nat): (k: nat)
    ensures k <= n
    ensures 0 <= count ==> k == if count < n then count else n
    ensures count < 0 ==> k == if n + count > 0 then n + count else 0
  {
    if count >= 0 then (if count < n then count else n)
    else if n + count > 0 then n + count else 0
  }

  /** The indices of the active balls. */
  function ActiveIndices(bs: seq<Ball>): set<nat> {
    set i: nat | i < |bs| && bs[i].active
  }

  /** The first `k` indices of the shuffled order. */
  function Chosen(perm: seq<nat>, k: nat): set<nat>
    requires k <= |perm|
  {
    set j | 0 <= j < k :: perm[j]
  }

  /**
   * The balls after randomizeBallStates(count), given the shuffled order `perm`: the
   * balls at the first `count` positions of the shuffle are active, the others are not,
   * and nothing else about any ball changes.
   */
  function Randomized(bs: seq<Ball>, count: int, perm: seq<nat>): (r: seq<Ball>)
    requires IsPermutation(perm, |bs|)
  {
    var k := SliceLength(count, |bs|);
    seq(|bs|, i requires 0 <= i < |bs| => bs[i].(active := i in perm[..k]))
  }

  /** Distinct entries give as many chosen indices as positions taken. */
  lemma {:induction false} ChosenSize(perm: seq<nat>, n: nat, k: nat)
    requires IsPermutation(perm, n) && k <= n
    ensures |Chosen(perm, k)| == k
  {
    if k > 0 {
      ChosenSize(perm, n, k - 1);
      assert Chosen(perm, k) == Chosen(perm, k - 1) + {perm[k - 1]};
      assert perm[k - 1] !in Chosen(perm, k - 1);
    }
  }

  /**
   * randomizeBallStates activates exactly the first `SliceLength(count, n)` balls of the
   * shuffle, that many balls in all (min(count, n) for a non-negative count), and keeps
   * every other field of every ball.
   */
  lemma RandomizedActive(bs: seq<Ball>, count: int, perm: seq<nat>)
    requires IsPermutation(perm, |bs|)
    ensures var r, k := Randomized(bs, count, perm), SliceLength(count, |bs|);
      |r| == |bs| &&
      ActiveIndices(r) == Chosen(perm, k) &&
      |ActiveIndices(r)| == k &&
      (forall i :: 0 <= i < |bs| ==>
         r[i].beats == bs[i].beats && r[i].lastPlayTime == bs[i].lastPlayTime && r[i].missChance == bs[i].missChance)
  {
    var r, k := Randomized(bs, count, perm), SliceLength(count, |bs|);
    forall i: nat | i in ActiveIndices(r) ensures i in Chosen(perm, k) {
      assert i in perm[..k];
      var j :| 0 <= j < k && perm[..k][j] == i;
      assert perm[j] == i;
    }
    forall i: nat | i in Chosen(perm, k) ensures i in ActiveIndices(r) {
      var j :| 0 <= j < k && perm[j] == i;
      assert perm[..k][j] == i;
      assert i < |bs|;
    }
    ChosenSize(perm, |bs|, k);
  }

  /** toggleBall: the one ball's active flag flips, and nothing else changes. */
  function Toggled(bs: seq<Ball>, index: nat): (r: seq<Ball>)
    requires index < |bs|
  {
    bs[index := bs[index].(active := !bs[index].active)]
  }

  /** Toggling a ball changes membership of exactly that index in the active set, and toggling twice restores the balls. */
  lemma ToggledActive(bs: seq<Ball>, index: nat)
    requires index < |bs|
    ensures index in ActiveIndices(Toggled(bs, index)) <==> index !in ActiveIndices(bs)
    ensures ActiveIndices(Toggled(bs, index)) - {index} == ActiveIndices(bs) - {index}
    ensures Toggled(Toggled(bs, index), index) == bs
  {
  }

  // ---------------------------------------------------------------------------
  // Random table index

  /** Math.floor(Math.random() * length): a random index into a table. */
  function PickIndex(sample: real, length: nat): int {
    (sample * length as real).Floor
  }

  /** A sample in [0,1) always picks a valid index. */
  lemma PickIndexInRange(sample: real, length: nat)
    requires 0.0 <= sample < 1.0 && length > 0
    ensures 0 <= PickIndex(sample, length) < length
  {
    assert 0.0 <= sample * length as real;
    assert sample * length as real < 1.0 * length as real;
  }
}
