/** FastLED's EVERY_N_SECONDS / EVERY_N_MILLISECONDS guards, made explicit.
    Each guard is a static timer that is armed the first time its line runs,
    fires when a full period has elapsed since it was last armed, and then
    restarts from the current time. */
module Timing {

  datatype Timer = Unarmed | Armed(last: nat)

  /** The clock never reads earlier than the timer's last restart. */
  predicate NotAfter(t: Timer, now: nat)
  {
    t.Armed? ==> t.last <= now
  }

  datatype Poll = Poll(fired: bool, timer: Timer)

  /** One evaluation of the guard at time `now`. */
  function PollTimer(t: Timer, now: nat, period: nat): (p: Poll)
    requires NotAfter(t, now)
    ensures p.timer.Armed? && p.timer.last <= now
    ensures t.Unarmed? ==> p == Poll(false, Armed(now))
    ensures p.fired ==> t.Armed? && t.last + period <= now && p.timer.last == now
    ensures !p.fired && t.Armed? ==> now < t.last + period && p.timer == t
  {
    match t
    case Unarmed => Poll(false, Armed(now))
    case Armed(last) =>
      if now - last >= period then Poll(true, Armed(now)) else Poll(false, t)
  }

  /** Guard evaluation times that never go back in time. */
  predicate Ascending(t: Timer, times: seq<nat>)
  {
    (|times| > 0 ==> NotAfter(t, times[0])) &&
    forall j, l :: 0 <= j < l < |times| ==> times[j] <= times[l]
  }

  datatype Tally = Tally(fires: nat, timer: Timer)

  /** The guard evaluated at each of `times` in turn: how often it fired and
      the timer it leaves behind. */
  function Run(t: Timer, times: seq<nat>, period: nat): (r: Tally)
    requires Ascending(t, times)
    ensures r.fires <= |times|
    ensures t.Armed? ==> r.timer.Armed? && t.last <= r.timer.last
    ensures |times| > 0 ==> r.timer.Armed? && r.timer.last <= times[|times| - 1]
    decreases |times|
  {
    if times == [] then Tally(0, t)
    else
      var p := PollTimer(t, times[0], period);
      var rest := Run(p.timer, times[1..], period);
      Tally(rest.fires + (if p.fired then 1 else 0), rest.timer)
  }

  /** However fast the guard is evaluated, it fires at most once per period:
      the firings are at least a period apart. */
  lemma {:induction false} AtMostOncePerPeriod(last: nat, times: seq<nat>, period: nat)
    requires Ascending(Armed(last), times)
    ensures var r := Run(Armed(last), times, period);
      r.timer.Armed? && r.fires * period <= r.timer.last - last
    decreases |times|
  {
    if times != [] {
      var p := PollTimer(Armed(last), times[0], period);
      AtMostOncePerPeriod(p.timer.last, times[1..], period);
      var rest := Run(p.timer, times[1..], period);
      if p.fired {
        MultiplySuccessor(rest.fires, period);
      }
    }
  }

  /** Evaluated at least every `gap` time units, the guard never lets more
      than period + gap pass between firings, and at the end less than one
      period has passed since it last fired. */
  lemma {:induction false} FiresEveryPeriod(last: nat, times: seq<nat>, period: nat, gap: nat)
    requires Ascending(Armed(last), times) && |times| > 0 && period > 0
    requires times[0] < last + period + gap
    requires forall j :: 0 < j < |times| ==> times[j] <= times[j - 1] + gap
    ensures var r := Run(Armed(last), times, period);
      r.timer.Armed? &&
      r.timer.last - last <= r.fires * (period + gap) &&
      times[|times| - 1] < r.timer.last + period
    decreases |times|
  {
    var p := PollTimer(Armed(last), times[0], period);
    var rest := Run(p.timer, times[1..], period);
    if |times| > 1 {
      var tail := times[1..];
      assert tail[0] == times[1] <= times[0] + gap;
      assert forall j :: 0 < j < |tail| ==> tail[j] <= tail[j - 1] + gap by {
        forall j | 0 < j < |tail| ensures tail[j] <= tail[j - 1] + gap {
          assert tail[j] == times[j + 1] && tail[j - 1] == times[j];
        }
      }
      FiresEveryPeriod(p.timer.last, tail, period, gap);
      assert times[|times| - 1] == tail[|tail| - 1];
    }
    if p.fired {
      MultiplySuccessor(rest.fires, period + gap);
    }
  }

  /** Consequence: over an interval of evaluations no more than `gap` apart,
      the guard fires at least once for every period + gap that elapsed. */
  lemma FiresAtLeast(last: nat, times: seq<nat>, period: nat, gap: nat)
    requires Ascending(Armed(last), times) && |times| > 0 && period > 0
    requires times[0] < last + period + gap
    requires forall j :: 0 < j < |times| ==> times[j] <= times[j - 1] + gap
    ensures times[|times| - 1] - last < (Run(Armed(last), times, period).fires + 1) * (period + gap)
  {
    FiresEveryPeriod(last, times, period, gap);
    MultiplySuccessor(Run(Armed(last), times, period).fires, period + gap);
  }

  /** One more firing accounts for one more interval. */
  lemma MultiplySuccessor(f: nat, x: nat)
    ensures (f + 1) * x == f * x + x
  {
  }
}
