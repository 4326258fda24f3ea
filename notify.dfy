/** The notification machine shared by every notifying characteristic:
    the `notifying` flag, the GLib timers armed by `timeout_add` that have
    not fired yet, and the values pushed by `PropertiesChanged`. */
module Notify {
  import opened DBus

  /** `pending` counts armed timers; all of them run the same callback.
      `emitted` logs the 'Value' of each PropertiesChanged signal, in order. */
  datatype NotifyState = NotifyState(notifying: bool, pending: nat, emitted: seq<seq<Byte>>)

  const Idle: NotifyState := NotifyState(false, 0, [])

  /** The `_update_*` helper: arm one timer, but only while notifying. */
  function Update(s: NotifyState): NotifyState
  {
    if !s.notifying then s else s.(pending := s.pending + 1)
  }

  /** `StartNotify`: a no-op while notifying; otherwise set the flag and update. */
  function Start(s: NotifyState): NotifyState
  {
    if s.notifying then s else Update(s.(notifying := true))
  }

  /** `StopNotify`: a no-op while not notifying; otherwise clear the flag and
      update (which then arms nothing).  No armed timer is cancelled. */
  function Stop(s: NotifyState): NotifyState
  {
    if !s.notifying then s else Update(s.(notifying := false))
  }

  /** GLib fires one armed timer: the callback pushes `payload` and returns
      `notifying`; the timer stays armed iff it returned true. */
  function Fire(s: NotifyState, payload: seq<Byte>): NotifyState
    requires s.pending > 0
  {
    NotifyState(s.notifying, if s.notifying then s.pending else s.pending - 1, s.emitted + [payload])
  }

  // ---- one-step properties ----

  lemma StartSpec(s: NotifyState)
    ensures Start(s).notifying
    ensures Start(s).emitted == s.emitted
    ensures Start(s).pending == if s.notifying then s.pending else s.pending + 1
  {
  }

  lemma StopSpec(s: NotifyState)
    ensures !Stop(s).notifying
    ensures Stop(s).emitted == s.emitted
    ensures Stop(s).pending == s.pending
  {
  }

  lemma StartIdempotent(s: NotifyState)
    ensures Start(Start(s)) == Start(s)
  {
  }

  lemma StopIdempotent(s: NotifyState)
    ensures Stop(Stop(s)) == Stop(s)
  {
  }

  lemma FireSpec(s: NotifyState, payload: seq<Byte>)
    requires s.pending > 0
    ensures Fire(s, payload).emitted == s.emitted + [payload]
    ensures Fire(s, payload).notifying == s.notifying
    ensures Fire(s, payload).pending == s.pending <==> s.notifying
    ensures !s.notifying ==> Fire(s, payload).pending == s.pending - 1
  {
  }

  // ---- runs: a sequence of host calls and timer firings ----

  datatype Event = StartNotify | StopNotify | Tick

  /** The state after `events`; a Tick fires one armed timer and does
      nothing when none is armed. */
  function Run(s: NotifyState, events: seq<Event>, payload: seq<Byte>): NotifyState
    decreases |events|
  {
    if events == [] then s
    else
      var t := match events[0]
        case StartNotify => Start(s)
        case StopNotify => Stop(s)
        case Tick => if s.pending > 0 then Fire(s, payload) else s;
      Run(t, events[1..], payload)
  }

  /** While notifying, some timer is always armed, so updates keep coming. */
  ghost predicate Live(s: NotifyState) {
    s.notifying ==> s.pending >= 1
  }

  lemma {:induction false} RunKeepsLive(s: NotifyState, events: seq<Event>, payload: seq<Byte>)
    requires Live(s)
    ensures Live(Run(s, events, payload))
    decreases |events|
  {
    if events != [] {
      var t := match events[0]
        case StartNotify => Start(s)
        case StopNotify => Stop(s)
        case Tick => if s.pending > 0 then Fire(s, payload) else s;
      RunKeepsLive(t, events[1..], payload);
    }
  }

  function CountTicks(events: seq<Event>): nat
  {
    if events == [] then 0 else (if events[0] == Tick then 1 else 0) + CountTicks(events[1..])
  }

  /** Values are only ever pushed from timer firings: at most one per Tick,
      never synchronously from StartNotify or StopNotify. */
  lemma {:induction false} EmissionsOnlyFromTicks(s: NotifyState, events: seq<Event>, payload: seq<Byte>)
    ensures var r := Run(s, events, payload);
            |s.emitted| <= |r.emitted| <= |s.emitted| + CountTicks(events) && r.emitted[..|s.emitted|] == s.emitted
    decreases |events|
  {
    if events != [] {
      var t := match events[0]
        case StartNotify => Start(s)
        case StopNotify => Stop(s)
        case Tick => if s.pending > 0 then Fire(s, payload) else s;
      EmissionsOnlyFromTicks(t, events[1..], payload);
      var r := Run(t, events[1..], payload);
      assert r.emitted[..|s.emitted|] == r.emitted[..|t.emitted|][..|s.emitted|];
    }
  }

  function Ticks(n: nat): (events: seq<Event>)
    ensures |events| == n && forall i :: 0 <= i < n ==> events[i] == Tick
  {
    if n == 0 then [] else [Tick] + Ticks(n - 1)
  }

  /** After StopNotify the timers already armed still fire, each pushing one
      last value, and then the machine falls silent. */
  lemma {:induction false} StoppedDrains(s: NotifyState, payload: seq<Byte>)
    requires !s.notifying
    ensures Run(s, Ticks(s.pending), payload) ==
            NotifyState(false, 0, s.emitted + seq(s.pending, _ => payload))
    decreases s.pending
  {
    if s.pending > 0 {
      var t := Fire(s, payload);
      assert Ticks(s.pending)[1..] == Ticks(t.pending);
      StoppedDrains(t, payload);
      assert t.emitted + seq(t.pending, _ => payload) == s.emitted + seq(s.pending, _ => payload);
    }
  }

  /** With no timer armed and not notifying, no sequence of Ticks pushes anything. */
  lemma {:induction false} SilentStaysSilent(s: NotifyState, n: nat, payload: seq<Byte>)
    requires !s.notifying && s.pending == 0
    ensures Run(s, Ticks(n), payload) == s
    decreases n
  {
    if n > 0 {
      assert Ticks(n)[1..] == Ticks(n - 1);
      SilentStaysSilent(s, n - 1, payload);
    }
  }

  /** A run split in two is the second part run from where the first left off. */
  lemma {:induction false} RunAppend(s: NotifyState, a: seq<Event>, b: seq<Event>, payload: seq<Byte>)
    ensures Run(s, a + b, payload) == Run(Run(s, a, payload), b, payload)
    decreases |a|
  {
    if a != [] {
      var t := match a[0]
        case StartNotify => Start(s)
        case StopNotify => Stop(s)
        case Tick => if s.pending > 0 then Fire(s, payload) else s;
      assert (a + b)[0] == a[0] && (a + b)[1..] == a[1..] + b;
      RunAppend(t, a[1..], b, payload);
    } else {
      assert a + b == b;
    }
  }

  /** While notifying, every firing re-arms its timer: k firings push k
      values and leave the flag and the armed timers as they were. */
  lemma {:induction false} NotifyingInterval(s: NotifyState, k: nat, payload: seq<Byte>)
    requires s.notifying && s.pending > 0
    ensures Run(s, Ticks(k), payload) == s.(emitted := s.emitted + seq(k, _ => payload))
    decreases k
  {
    if k > 0 {
      var t := Fire(s, payload);
      assert Ticks(k)[1..] == Ticks(k - 1);
      NotifyingInterval(t, k - 1, payload);
      assert t.emitted + seq(k - 1, _ => payload) == s.emitted + seq(k, _ => payload);
    }
  }

  /** Subscribe, one interval, unsubscribe, two more intervals: the timer
      armed before StopNotify still fires once, so two values are pushed,
      and then nothing is armed. */
  lemma SubscribeThenUnsubscribe(payload: seq<Byte>)
    ensures Run(Idle, [StartNotify, Tick, StopNotify, Tick, Tick], payload) ==
            NotifyState(false, 0, [payload, payload])
  {
  }

  /** StartNotify after StopNotify, before the old timer has fired, arms a
      second timer; both keep re-arming, so each interval (one firing of
      each timer) pushes two values: after m intervals, 2m values. */
  lemma RestartBeforeFiringDoublesTimers(m: nat, payload: seq<Byte>)
    ensures Run(Idle, [StartNotify, StopNotify, StartNotify], payload) == NotifyState(true, 2, [])
    ensures Run(Idle, [StartNotify, StopNotify, StartNotify] + Ticks(2 * m), payload) ==
            NotifyState(true, 2, seq(2 * m, _ => payload))
  {
    var restarted := Run(Idle, [StartNotify, StopNotify, StartNotify], payload);
    RunAppend(Idle, [StartNotify, StopNotify, StartNotify], Ticks(2 * m), payload);
    NotifyingInterval(restarted, 2 * m, payload);
  }
}
