/** The reel position controller. The reel is a long tape of symbols that
    repeats the base pattern [1, 2, 3]; its scroll offset `y` (in pixels,
    negative downwards) is the only state that moves. Animations are
    represented by their terminal values. */
module Reel {

  /** A face of the reel: one, two or three hearts. */
  type SlotValue = v: int | 1 <= v <= 3 witness 1

  const ITEM_HEIGHT: int := 96
  const BASE: seq<SlotValue> := [1, 2, 3]
  const REPEAT: int := 40
  /** Mid-tape index, a whole number of base patterns, around which y is kept. */
  const ANCHOR_BASE_INDEX: int := |BASE| * (REPEAT / 2)
  /** Base patterns covered by one round of the looping spin. */
  const LOOPS_PER_CYCLE: int := 8
  /** Pixel distance of one round of the looping spin. */
  const LOOP_DISTANCE: int := ITEM_HEIGHT * |BASE| * LOOPS_PER_CYCLE
  /** Slots travelled past the stop point before settling. */
  const EXTRA_ITEMS: int := 18
  /** Number of rendered slots on the tape. */
  const TAPE_LENGTH: int := |BASE| * REPEAT

  /** The values the derived constants evaluate to. */
  lemma Constants()
    ensures |BASE| == 3 && ANCHOR_BASE_INDEX == 60 && TAPE_LENGTH == 120
    ensures LOOP_DISTANCE == 2304
  {
  }

  function Max(a: int, b: int): int { if a < b then b else a }
  function Min(a: int, b: int): int { if a < b then a else b }

  /** JavaScript's `%` on integers: truncating, so the result takes the sign
      of the dividend. Only positive divisors occur here. */
  function JsRem(n: int, m: int): (r: int)
    requires m > 0
    ensures n >= 0 ==> 0 <= r < m
    ensures n < 0 ==> -m < r <= 0
    ensures (n - r) % m == 0
  {
    if n >= 0 then
      ModUnique(n - n % m, n / m, 0, m);
      n % m
    else
      var q := (-n) / m;
      assert n + (-n) % m == (-q) * m;
      ModUnique(n + (-n) % m, -q, 0, m);
      -((-n) % m)
  }

  /** `mod(n, m) = ((n % m) + m) % m` with JavaScript's `%`: the
      non-negative residue of n modulo m. */
  function Mod(n: int, m: int): (r: int)
    requires m > 0
    ensures 0 <= r < m
    ensures r == n % m
  {
    var t := JsRem(n, m) + m;
    ModOfShifted(n, m);
    JsRem(t, m)
  }

  lemma ModOfShifted(n: int, m: int)
    requires m > 0
    ensures JsRem(n, m) + m >= 0
    ensures JsRem(JsRem(n, m) + m, m) == n % m
  {
    if n >= 0 {
      ModShiftOnce(n % m, m);
    } else {
      var q, s := (-n) / m, (-n) % m;
      assert -n == q * m + s;
      assert JsRem(n, m) + m == m - s;
      if s == 0 {
        ModUnique(m, 1, 0, m);
        assert n == (-q) * m;
        ModOfMultiple(-q, m);
      } else {
        ModUnique(m - s, 0, m - s, m);
        assert (-q - 1) * m == -(q * m) - m;
        ModUnique(n, -q - 1, m - s, m);
      }
    }
  }

  lemma ModShiftOnce(a: int, m: int)
    requires 0 <= a < m
    ensures (a + m) % m == a
  {
    ModUnique(a + m, 1, a, m);
  }

  lemma ModOfMultiple(q: int, m: int)
    requires m > 0
    ensures (q * m) % m == 0
  {
    ModUnique(q * m, q, 0, m);
  }

  /** Dafny's `%` is determined by the quotient-remainder decomposition. */
  lemma ModUnique(n: int, q: int, r: int, m: int)
    requires m > 0 && 0 <= r < m && n == q * m + r
    ensures n % m == r
  {
    var q', r' := n / m, n % m;
    var d := q - q';
    assert d * m == q * m - q' * m;
    MulSign(d, m);
  }

  lemma {:induction false} MulSign(d: int, m: int)
    requires m > 0
    ensures d >= 1 ==> d * m >= m
    ensures d <= -1 ==> d * m <= -m
    decreases if d < 0 then -d else d
  {
    if d > 1 {
      MulSign(d - 1, m);
      assert d * m == (d - 1) * m + m;
    } else if d < -1 {
      MulSign(d + 1, m);
      assert d * m == (d + 1) * m - m;
    }
  }

  /** `mod` returns a residue in [0, m) that is congruent to n. */
  lemma ModCongruent(n: int, m: int)
    requires m > 0
    ensures 0 <= Mod(n, m) < m
    ensures exists q :: n == q * m + Mod(n, m)
  {
    assert n == (n / m) * m + Mod(n, m);
  }

  /** `Math.round(offset / ITEM_HEIGHT)` for an integer offset: the nearest
      slot index, a tie going up as JavaScript rounds halves. */
  function RoundedIndex(offset: int): (k: int)
    ensures ITEM_HEIGHT * k - ITEM_HEIGHT / 2 <= offset < ITEM_HEIGHT * k + ITEM_HEIGHT / 2
  {
    (offset + ITEM_HEIGHT / 2) / ITEM_HEIGHT
  }

  /** The offset at which slot `index` is centred. */
  function SlotY(index: int): int { -index * ITEM_HEIGHT }

  /** The visible symbol's position in the base pattern, 0..2. */
  function Phase(y: int): int { Mod(RoundedIndex(-y), |BASE|) }

  /** The mid-tape index with the same phase as y. */
  function AnchorOf(y: int): int { ANCHOR_BASE_INDEX + Phase(y) }

  /** What `normalizeYToAnchor` moves y to. */
  function Normalized(y: int): int { SlotY(AnchorOf(y)) }

  /** Rounding the centre of a slot gives back that slot. */
  lemma RoundedIndexOfSlot(index: int)
    ensures RoundedIndex(-SlotY(index)) == index
  {
    var k := RoundedIndex(index * ITEM_HEIGHT);
    assert ITEM_HEIGHT * (k - index) < ITEM_HEIGHT / 2 + 1;
    assert ITEM_HEIGHT * (index - k) < ITEM_HEIGHT / 2 + 1;
  }

  /** Slot index i shows the symbol of phase i mod 3. */
  lemma PhaseOfSlot(index: int)
    ensures Phase(SlotY(index)) == Mod(index, |BASE|)
  {
    RoundedIndexOfSlot(index);
  }

  /** Normalization lands on a mid-tape anchor of the same phase, so the
      visible symbol does not change. */
  lemma NormalizePreservesPhase(y: int)
    ensures ANCHOR_BASE_INDEX <= AnchorOf(y) < ANCHOR_BASE_INDEX + |BASE|
    ensures Mod(AnchorOf(y), |BASE|) == Phase(y)
    ensures Phase(Normalized(y)) == Phase(y)
  {
    var p := Phase(y);
    ModUnique(ANCHOR_BASE_INDEX + p, REPEAT / 2, p, |BASE|);
    PhaseOfSlot(AnchorOf(y));
  }

  /** Normalizing twice is the same as normalizing once; the anchor found
      the second time is the one found the first time. */
  lemma NormalizeIdempotent(y: int)
    ensures AnchorOf(Normalized(y)) == AnchorOf(y)
    ensures Normalized(Normalized(y)) == Normalized(y)
  {
    NormalizePreservesPhase(y);
  }

  /** One round of the looping spin leaves the phase as it was, so the
      repeat is seamless. */
  lemma LoopKeepsPhase(y: int)
    ensures LOOP_DISTANCE % (ITEM_HEIGHT * |BASE|) == 0
    ensures Phase(y - LOOP_DISTANCE) == Phase(y)
  {
    var k := RoundedIndex(-y);
    assert RoundedIndex(-(y - LOOP_DISTANCE)) == k + |BASE| * LOOPS_PER_CYCLE;
    ModUnique(k + |BASE| * LOOPS_PER_CYCLE, k / |BASE| + LOOPS_PER_CYCLE, k % |BASE|, |BASE|);
  }

  /** The tape: slot i shows BASE[i mod 3]. */
  ghost predicate IsTape(items: seq<SlotValue>) {
    |items| == TAPE_LENGTH &&
    forall i :: 0 <= i < |items| ==> items[i] == BASE[i % |BASE|]
  }

  /** Builds the rendered tape by pushing the base pattern over and over. */
  method BuildTape() returns (out: seq<SlotValue>)
    ensures |out| == TAPE_LENGTH == 120
    ensures forall i :: 0 <= i < |out| ==> out[i] == BASE[i % |BASE|] && out[i] == i % |BASE| + 1
  {
    out := [];
    for i := 0 to |BASE| * REPEAT
      invariant |out| == i
      invariant forall k :: 0 <= k < i ==> out[k] == BASE[k % |BASE|]
    {
      out := out + [BASE[i % |BASE|]];
    }
  }

  /** The index the deceleration heads for (before the clamp to the tape):
      at least EXTRA_ITEMS slots past the current position, then the
      smallest forward step to a slot showing `target`. */
  function SpinDownIndex(currentIndex: int, anchorIndex: int, target: SlotValue): (targetIndex: int)
    ensures var baseIndex := Max(currentIndex, anchorIndex) + EXTRA_ITEMS;
      && baseIndex <= targetIndex < baseIndex + |BASE|
      && Mod(targetIndex, |BASE|) == target - 1
      && forall j :: baseIndex <= j < targetIndex ==> Mod(j, |BASE|) != target - 1
  {
    var baseIndex := Max(currentIndex, anchorIndex) + EXTRA_ITEMS;
    var desiredMod := target - 1;
    var delta := Mod(desiredMod - Mod(baseIndex, |BASE|), |BASE|);
    ForwardStep(baseIndex, desiredMod);
    baseIndex + delta
  }

  /** `mod(d - mod(b, 3), 3)` is the smallest forward step from b to a slot
      of phase d. */
  lemma ForwardStep(b: int, d: int)
    requires 0 <= d < |BASE|
    ensures var delta := Mod(d - Mod(b, |BASE|), |BASE|);
      && 0 <= delta < |BASE|
      && Mod(b + delta, |BASE|) == d
      && forall j :: b <= j < b + delta ==> Mod(j, |BASE|) != d
  {
    var q, p := b / 3, b % 3;
    assert b == 3 * q + p;
    var delta := Mod(d - Mod(b, |BASE|), |BASE|);
    if d >= p {
      ModUnique(d - p, 0, d - p, 3);
      ModUnique(b + delta, q, d, 3);
      forall j | b <= j < b + delta
        ensures Mod(j, |BASE|) != d
      {
        ModUnique(j, q, j - 3 * q, 3);
      }
    } else {
      ModUnique(d - p, -1, d - p + 3, 3);
      ModUnique(b + delta, q + 1, d, 3);
      forall j | b <= j < b + delta
        ensures Mod(j, |BASE|) != d
      {
        if j - 3 * q < 3 {
          ModUnique(j, q, j - 3 * q, 3);
        } else {
          ModUnique(j, q + 1, j - 3 * q - 3, 3);
        }
      }
    }
  }

  /** From a normalized position the deceleration target lies on the tape,
      so the clamp leaves it alone; it shows `target`, and normalizing it
      gives the anchor of phase target - 1. */
  lemma StopLandsOnTape(anchorIndex: int, target: SlotValue)
    requires ANCHOR_BASE_INDEX <= anchorIndex < ANCHOR_BASE_INDEX + |BASE|
    ensures var t := SpinDownIndex(anchorIndex, anchorIndex, target);
      && anchorIndex + EXTRA_ITEMS <= t <= ANCHOR_BASE_INDEX + |BASE| - 1 + EXTRA_ITEMS + |BASE| - 1
      && t < TAPE_LENGTH - 1
      && Min(t, TAPE_LENGTH - 1) == t
      && BASE[t % |BASE|] == target
      && AnchorOf(SlotY(t)) == ANCHOR_BASE_INDEX + target - 1
  {
    Constants();
    var t := SpinDownIndex(anchorIndex, anchorIndex, target);
    LandingSlot(t, target);
  }

  /** A slot of phase target - 1 shows target, and normalizing from it
      gives the anchor of that phase. */
  lemma LandingSlot(t: int, target: SlotValue)
    requires Mod(t, |BASE|) == target - 1
    ensures BASE[t % |BASE|] == target
    ensures AnchorOf(SlotY(t)) == ANCHOR_BASE_INDEX + target - 1
  {
    assert BASE[target - 1] == target;
    PhaseOfSlot(t);
  }

  /** A slot of the tape whose index has phase target - 1 shows target. */
  lemma TapeShows(items: seq<SlotValue>, i: int, target: SlotValue)
    requires IsTape(items) && 0 <= i < |items| && Mod(i, |BASE|) == target - 1
    ensures items[i] == target
  {
  }

  /** The offset a stop settles on, the anchor of phase target - 1, is
      centred on a slot of the tape that shows target. */
  lemma SettledSlot(items: seq<SlotValue>, target: SlotValue)
    requires IsTape(items)
    ensures var a := ANCHOR_BASE_INDEX + target - 1;
      && RoundedIndex(-SlotY(a)) == a
      && Phase(SlotY(a)) == target - 1
      && 0 <= a < |items| && items[a] == target
  {
    var a := ANCHOR_BASE_INDEX + target - 1;
    RoundedIndexOfSlot(a);
    ModUnique(a, REPEAT / 2, target - 1, |BASE|);
    TapeShows(items, a, target);
  }

  /** Stands for `spinPlayback.current`: no loop, or the looping spin
      between the offsets `from` and `to`. */
  datatype Playback = NotLooping | Looping(from: int, to: int)

  /** The lowest offset the reel ever reaches: the far end of a loop that
      starts at the deepest anchor. */
  const MIN_Y: int := SlotY(ANCHOR_BASE_INDEX + |BASE| - 1) - LOOP_DISTANCE

  /** An anchor offset lies inside the window y is kept in. */
  lemma AnchorInWindow(anchorIndex: int)
    requires ANCHOR_BASE_INDEX <= anchorIndex < ANCHOR_BASE_INDEX + |BASE|
    ensures MIN_Y <= SlotY(anchorIndex) <= 0
  {
  }

  class SlotReel {
    var y: int
    var spinPlayback: Playback
    const items: seq<SlotValue>

    /** The tape is the repeating pattern, y stays in a fixed window, and a
        running loop goes one round down from a normalized offset. */
    ghost predicate Valid()
      reads this
    {
      && IsTape(items)
      && MIN_Y <= y <= 0
      && (spinPlayback.Looping? ==>
            && spinPlayback.from == Normalized(spinPlayback.from)
            && spinPlayback.to == spinPlayback.from - LOOP_DISTANCE
            && spinPlayback.to <= y <= spinPlayback.from)
    }

    constructor ()
      ensures Valid()
      ensures y == 0 && spinPlayback == NotLooping
    {
      var tape := BuildTape();
      items := tape;
      y := 0;
      spinPlayback := NotLooping;
    }

    /** Cancels the looping spin, if any, where it is. */
    method StopSpinning()
      requires Valid()
      modifies this
      ensures Valid()
      ensures spinPlayback == NotLooping && y == old(y)
    {
      spinPlayback := NotLooping;
    }

    /** Recentres y on the mid-tape anchor of the same phase. */
    method NormalizeYToAnchor() returns (anchorIndex: int)
      requires Valid() && spinPlayback == NotLooping
      modifies this
      ensures Valid() && spinPlayback == NotLooping
      ensures anchorIndex == AnchorOf(old(y))
      ensures ANCHOR_BASE_INDEX <= anchorIndex < ANCHOR_BASE_INDEX + |BASE|
      ensures Mod(anchorIndex, |BASE|) == Mod(RoundedIndex(-old(y)), |BASE|)
      ensures y == SlotY(anchorIndex)
      ensures Phase(y) == Phase(old(y))
    {
      var currentIndex := RoundedIndex(-y);
      var phase := Mod(currentIndex, |BASE|);
      anchorIndex := ANCHOR_BASE_INDEX + phase;
      NormalizePreservesPhase(y);
      AnchorInWindow(anchorIndex);
      y := SlotY(anchorIndex);
    }

    /** Starts the looping spin: cancel any loop, normalize, then loop one
        round of LOOP_DISTANCE down from there. */
    method Start()
      requires Valid()
      modifies this
      ensures Valid()
      ensures y == Normalized(old(y))
      ensures spinPlayback == Looping(y, y - LOOP_DISTANCE)
      ensures Phase(spinPlayback.to) == Phase(spinPlayback.from) == Phase(old(y))
    {
      StopSpinning();
      var loopDistance := ITEM_HEIGHT * |BASE| * LOOPS_PER_CYCLE;
      var _ := NormalizeYToAnchor();
      var from := y;
      var to := from - loopDistance;
      NormalizeIdempotent(old(y));
      LoopKeepsPhase(from);
      spinPlayback := Looping(from, to);
    }

    /** A frame of the looping spin: the environment moves y to any offset
        between the loop's ends. */
    method AnimateLoop(frameY: int)
      requires Valid() && spinPlayback.Looping?
      requires spinPlayback.to <= frameY <= spinPlayback.from
      modifies this
      ensures Valid()
      ensures y == frameY && spinPlayback == old(spinPlayback)
    {
      NormalizePreservesPhase(spinPlayback.from);
      y := frameY;
    }

    /** Stops the reel on `target`: cancel the loop, normalize, decelerate to
        the clamped spin-down index, normalize again and resolve with the
        target. `landedIndex` is the slot the deceleration ends on. */
    method Stop(target: SlotValue) returns (value: SlotValue, ghost landedIndex: int)
      requires Valid()
      modifies this
      ensures Valid()
      ensures value == target
      ensures spinPlayback == NotLooping
      ensures 0 <= landedIndex < |items| - 1 && items[landedIndex] == target
      ensures AnchorOf(old(y)) + EXTRA_ITEMS <= landedIndex < AnchorOf(old(y)) + EXTRA_ITEMS + |BASE|
      ensures y == SlotY(ANCHOR_BASE_INDEX + target - 1)
    {
      StopSpinning();
      var anchorIndex := NormalizeYToAnchor();
      var currentOffset := -y;
      RoundedIndexOfSlot(anchorIndex);
      var currentIndex := Max(0, RoundedIndex(currentOffset));
      assert currentIndex == anchorIndex;
      var targetIndex := SpinDownIndex(currentIndex, anchorIndex, target);
      StopLandsOnTape(anchorIndex, target);
      var safeIndex := Min(targetIndex, |items| - 1);
      assert safeIndex == targetIndex;
      TapeShows(items, safeIndex, target);
      var targetY := SlotY(safeIndex);
      y := targetY;
      landedIndex := safeIndex;
      var settled := NormalizeYToAnchor();
      SettledSlot(items, target);
      value := target;
    }
  }
}
