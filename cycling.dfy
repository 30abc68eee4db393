/** The automatic advance in loop: the 200 s guard and the mode index
    together, one poll per rendered tick, and over a run of ticks. */
module Cycling {
  import opened Modes
  import opened Timing

  /** EVERY_N_SECONDS(200) in loop: the dwell between automatic advances. */
  const DWELL_SECONDS: nat := 200

  /** m_index and the static timer of the 200 s guard. */
  datatype CycleState = CycleState(mode: nat, timer: Timer)

  /** The guard polled at second `sec` of a tick that rendered: the timer
      restarts whenever it fires, and the mode advances only if it fired
      while cycling is on. */
  function CycleStep(s: CycleState, sec: nat, cycling: bool): (r: CycleState)
    requires s.mode < MODES && NotAfter(s.timer, sec)
    ensures r.mode < MODES && r.timer == PollTimer(s.timer, sec, DWELL_SECONDS).timer
    ensures r.mode == (if cycling && PollTimer(s.timer, sec, DWELL_SECONDS).fired then Next(s.mode) else s.mode)
  {
    var p := PollTimer(s.timer, sec, DWELL_SECONDS);
    CycleState(if p.fired && cycling then Next(s.mode) else s.mode, p.timer)
  }

  /** CycleStep at each of `secs` in turn, with cycling left as it is. */
  function CycleRun(s: CycleState, secs: seq<nat>, cycling: bool): (r: CycleState)
    requires s.mode < MODES && Ascending(s.timer, secs)
    ensures r.mode < MODES
    decreases |secs|
  {
    if secs == [] then s
    else CycleRun(CycleStep(s, secs[0], cycling), secs[1..], cycling)
  }

  /** Over a run of rendered ticks the mode advances exactly once per firing
      of the guard when cycling is on, and not at all when it is off. */
  lemma {:induction false} CycleRunAdvances(s: CycleState, secs: seq<nat>, cycling: bool)
    requires s.mode < MODES && Ascending(s.timer, secs)
    ensures var r := Run(s.timer, secs, DWELL_SECONDS);
      CycleRun(s, secs, cycling) == CycleState(if cycling then AdvanceBy(s.mode, r.fires) else s.mode, r.timer)
    decreases |secs|
  {
    if secs != [] {
      var s' := CycleStep(s, secs[0], cycling);
      CycleRunAdvances(s', secs[1..], cycling);
      if cycling && PollTimer(s.timer, secs[0], DWELL_SECONDS).fired {
        AdvanceByShift(s.mode, Run(s'.timer, secs[1..], DWELL_SECONDS).fires);
      }
    }
  }

  /** However fast loop runs, the mode index moves at most once per 200 s:
      it ends f advances on, with f * 200 seconds elapsed at least. */
  lemma AtMostOneAdvancePerDwell(m: nat, last: nat, secs: seq<nat>, cycling: bool)
    requires m < MODES && Ascending(Armed(last), secs)
    ensures var r := CycleRun(CycleState(m, Armed(last)), secs, cycling);
      var f := Run(Armed(last), secs, DWELL_SECONDS).fires;
      r.timer.Armed? && f * DWELL_SECONDS <= r.timer.last - last &&
      r.mode == (if cycling then AdvanceBy(m, f) else m)
  {
    CycleRunAdvances(CycleState(m, Armed(last)), secs, cycling);
    AtMostOncePerPeriod(last, secs, DWELL_SECONDS);
  }
}
