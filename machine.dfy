/** The slot machine: the phase of a play (idle, spinning, stopping), the
    last result, the per-value counts of real plays and the 10,000-draw
    simulation tally. It drives the reel and the sampler. */
module Machine {
  import opened Sampler
  import opened Reel

  datatype Option<T> = None | Some(value: T)

  datatype PlayPhase = Idle | Spinning | Stopping

  /** The outcome distribution: one heart 60, two hearts 30, three 10. */
  const OPTIONS: seq<WeightedOption<SlotValue>> :=
    [WeightedOption(1, 60.0), WeightedOption(2, 30.0), WeightedOption(3, 10.0)]

  /** Number of draws in one simulation. */
  const SIM_DRAWS: nat := 10000

  /** How often each value came up. */
  type Counts = map<SlotValue, nat>

  const EMPTY_COUNTS: Counts := map[1 := 0, 2 := 0, 3 := 0]

  predicate IsCounts(c: Counts) { 1 in c && 2 in c && 3 in c }

  /** `counts[1] + counts[2] + counts[3]`. */
  function TotalOf(c: Counts): nat
    requires IsCounts(c)
  {
    c[1] + c[2] + c[3]
  }

  /** Adds one play of outcome v to the counts. */
  function Bump(c: Counts, v: SlotValue): (c': Counts)
    requires IsCounts(c)
    ensures IsCounts(c') && c'.Keys == c.Keys
    ensures c'[v] == c[v] + 1
    ensures forall u :: u in c && u != v ==> c'[u] == c[u]
    ensures TotalOf(c') == TotalOf(c) + 1
  {
    c[v := c[v] + 1]
  }

  /** The start button is enabled exactly when `phase` is idle. */
  predicate StartEnabled(p: PlayPhase) { p == Idle }

  /** The stop button is enabled exactly when `phase` is spinning. */
  predicate StopEnabled(p: PlayPhase) { p == Spinning }

  /** The phase moves only around the cycle idle, spinning, stopping, idle. */
  predicate Transition(p: PlayPhase, p': PlayPhase) {
    p' == p || (p == Idle && p' == Spinning) || (p == Spinning && p' == Stopping)
    || (p == Stopping && p' == Idle)
  }

  /** The value the sampler returns for a draw from OPTIONS. */
  function Sample(draw: real): SlotValue {
    OPTIONS[Pick(OPTIONS, draw)].value
  }

  /** The outcomes of the first n draws of a simulation. */
  function Outcomes(draws: nat -> real, n: nat): (s: seq<SlotValue>)
  {
    var sample: nat -> SlotValue := i => Sample(draws(i));
    seq(n, i requires 0 <= i < n => sample(i))
  }

  /** The counts of a sequence of outcomes. */
  function Tally(outcomes: seq<SlotValue>): (c: Counts)
    ensures IsCounts(c)
  {
    if outcomes == [] then EMPTY_COUNTS
    else Bump(Tally(outcomes[..|outcomes| - 1]), outcomes[|outcomes| - 1])
  }

  /** A tally of n outcomes counts n plays. */
  lemma {:induction false} TallyTotal(outcomes: seq<SlotValue>)
    ensures TotalOf(Tally(outcomes)) == |outcomes|
  {
    if outcomes != [] {
      TallyTotal(outcomes[..|outcomes| - 1]);
    }
  }

  /** Counting one more outcome bumps its entry. */
  lemma TallyStep(outcomes: seq<SlotValue>, i: nat, next: Counts, v: SlotValue)
    requires i < |outcomes| && v == outcomes[i]
    requires next == Tally(outcomes[..i])
    ensures v in next
    ensures next[v := next[v] + 1] == Tally(outcomes[..i + 1])
  {
    assert outcomes[..i + 1][..i] == outcomes[..i];
  }

  /** Each entry of the tally is the number of outcomes equal to that value. */
  lemma {:induction false} TallyCounts(outcomes: seq<SlotValue>, v: SlotValue)
    ensures Tally(outcomes)[v] == multiset(outcomes)[v]
  {
    if outcomes != [] {
      var last := |outcomes| - 1;
      var init := outcomes[..last];
      TallyCounts(init, v);
      assert outcomes == init + [outcomes[last]];
      assert multiset(outcomes) == multiset(init) + multiset{outcomes[last]};
    }
  }

  /** The 60/30/10 split: draws in (0, 60] give one heart, (60, 90] two
      and (90, 100] three, so each value has the share of its weight. */
  lemma OptionsBands(draw: real)
    requires 0.0 < draw <= Total(OPTIONS)
    ensures Total(OPTIONS) == 100.0
    ensures Sample(draw) == 1 <==> draw <= 60.0
    ensures Sample(draw) == 2 <==> 60.0 < draw <= 90.0
    ensures Sample(draw) == 3 <==> 90.0 < draw
  {
    PickInterval(OPTIONS, draw, 0);
    PickInterval(OPTIONS, draw, 1);
    PickInterval(OPTIONS, draw, 2);
  }

  /** The simulation loop: n draws, each sampled from OPTIONS and counted in
      place. */
  method SimulateDraws(draws: nat -> real, n: nat) returns (next: Counts)
    ensures next == Tally(Outcomes(draws, n))
    ensures TotalOf(next) == n
  {
    ghost var outcomes := Outcomes(draws, n);
    next := map[1 := 0, 2 := 0, 3 := 0];
    for i := 0 to n
      invariant next == Tally(outcomes[..i])
    {
      var v, _ := WeightedRandom(OPTIONS, draws(i));
      TallyStep(outcomes, i, next, v);
      next := next[v := next[v] + 1];
    }
    assert outcomes[..n] == outcomes;
    TallyTotal(outcomes);
  }

  class SlotMachine {
    const reel: SlotReel
    var phase: PlayPhase
    var result: Option<SlotValue>
    var counts: Counts
    var simCounts: Option<Counts>
    var isSimulating: bool
    /** The value the pending `stop` of the reel resolves with; set while
        the phase is stopping. */
    var pending: Option<SlotValue>

    /** The reel loops exactly while the phase is spinning, and a stop is
        pending exactly while it is stopping. */
    ghost predicate Valid()
      reads this, reel
    {
      && reel.Valid()
      && IsCounts(counts)
      && (simCounts.Some? ==> IsCounts(simCounts.value))
      && (phase == Spinning <==> reel.spinPlayback.Looping?)
      && (phase == Stopping <==> pending.Some?)
    }

    constructor ()
      ensures Valid() && fresh(reel)
      ensures reel.y == 0 && reel.spinPlayback == NotLooping
      ensures phase == Idle && result == None && counts == EMPTY_COUNTS
      ensures simCounts == None && !isSimulating
    {
      reel := new SlotReel();
      phase := Idle;
      result := None;
      counts := EMPTY_COUNTS;
      simCounts := None;
      isSimulating := false;
      pending := None;
    }

    /** The start button: from idle, clear the result, enter spinning and
        start the reel; in any other phase do nothing. */
    method OnStart()
      requires Valid()
      modifies this, reel
      ensures Valid()
      ensures Transition(old(phase), phase)
      ensures !StartEnabled(old(phase)) ==> unchanged(this) && unchanged(reel)
      ensures StartEnabled(old(phase)) ==>
        && phase == Spinning && result == None
        && counts == old(counts) && simCounts == old(simCounts)
        && isSimulating == old(isSimulating)
        && reel.y == Normalized(old(reel.y))
        && reel.spinPlayback == Looping(reel.y, reel.y - LOOP_DISTANCE)
    {
      if phase != Idle {
        return;
      }
      result := None;
      phase := Spinning;
      reel.Start();
    }

    /** The stop button, up to the `await`: from spinning, enter stopping,
        sample the target and ask the reel to stop on it; in any other
        phase do nothing. */
    method OnStop(draw: real)
      requires Valid()
      modifies this, reel
      ensures Valid()
      ensures Transition(old(phase), phase)
      ensures !StopEnabled(old(phase)) ==> unchanged(this) && unchanged(reel)
      ensures StopEnabled(old(phase)) ==>
        && phase == Stopping && pending == Some(Sample(draw))
        && result == old(result) && counts == old(counts)
        && simCounts == old(simCounts) && isSimulating == old(isSimulating)
        && reel.y == SlotY(ANCHOR_BASE_INDEX + Sample(draw) - 1)
    {
      if phase != Spinning {
        return;
      }
      phase := Stopping;
      var target, _ := WeightedRandom(OPTIONS, draw);
      var finalValue, _ := reel.Stop(target);
      pending := Some(finalValue);
    }

    /** The stop button, after the reel's `stop` has resolved: record the
        result, count it and go back to idle. */
    method OnStopResolved()
      requires Valid() && phase == Stopping
      modifies this
      ensures Valid()
      ensures Transition(old(phase), phase)
      ensures phase == Idle && pending == None
      ensures result == old(pending)
      ensures counts == Bump(old(counts), old(pending).value)
      ensures counts[old(pending).value] == old(counts)[old(pending).value] + 1
      ensures forall u :: u in counts && u != old(pending).value ==> counts[u] == old(counts)[u]
      ensures TotalOf(counts) == TotalOf(old(counts)) + 1
      ensures simCounts == old(simCounts) && isSimulating == old(isSimulating)
    {
      var finalValue := pending.value;
      result := Some(finalValue);
      counts := counts[finalValue := counts[finalValue] + 1];
      phase := Idle;
      pending := None;
    }

    /** Clears the play counts and the simulation result, whatever the
        state. */
    method OnResetStats()
      requires Valid()
      modifies this
      ensures Valid()
      ensures counts == EMPTY_COUNTS && TotalOf(counts) == 0 && simCounts == None
      ensures phase == old(phase) && result == old(result)
      ensures pending == old(pending) && isSimulating == old(isSimulating)
    {
      counts := EMPTY_COUNTS;
      simCounts := None;
    }

    /** Draws SIM_DRAWS outcomes (the i-th from `draws(i)`) and stores how
        often each value came up; does nothing while a simulation runs. */
    method OnSimulate(draws: nat -> real)
      requires Valid()
      modifies this
      ensures Valid()
      ensures old(isSimulating) ==> unchanged(this)
      ensures !old(isSimulating) ==>
        && simCounts == Some(Tally(Outcomes(draws, SIM_DRAWS)))
        && TotalOf(simCounts.value) == SIM_DRAWS
        && !isSimulating
      ensures phase == old(phase) && result == old(result)
      ensures counts == old(counts) && pending == old(pending)
    {
      if isSimulating {
        return;
      }
      isSimulating := true;
      simCounts := None;
      var n := SIM_DRAWS;
      var next := SimulateDraws(draws, n);
      simCounts := Some(next);
      isSimulating := false;
    }
  }
}
