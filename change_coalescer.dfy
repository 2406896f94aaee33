/** The response curve component's change coalescer, as a sequential state machine: every
    parameter notification sets one flag; every timer tick tests and clears it, rebuilds the
    filter chain only if it was set, and always asks for a repaint. */
module ChangeCoalescer {

  /** The flag, how many times the chain has been rebuilt, how many repaints were asked for. */
  datatype CoalescerState = CoalescerState(parametersChanged: bool, chainUpdates: nat, repaints: nat)

  datatype Event = ParameterChanged | TimerTick

  /** A parameter notification: the flag is set, whatever it was. */
  function Notify(s: CoalescerState): (r: CoalescerState)
    ensures r.parametersChanged
    ensures r.chainUpdates == s.chainUpdates && r.repaints == s.repaints
  {
    s.(parametersChanged := true)
  }

  /** A timer tick: test-and-clear the flag, rebuild the chain if it was set, repaint. */
  function Tick(s: CoalescerState): (r: CoalescerState)
    ensures !r.parametersChanged
    ensures r.chainUpdates == s.chainUpdates + (if s.parametersChanged then 1 else 0)
    ensures r.repaints == s.repaints + 1
  {
    CoalescerState(false, if s.parametersChanged then s.chainUpdates + 1 else s.chainUpdates, s.repaints + 1)
  }

  function Step(s: CoalescerState, e: Event): CoalescerState
  {
    match e
    case ParameterChanged => Notify(s)
    case TimerTick => Tick(s)
  }

  /** The state after a sequence of events, oldest first. */
  function Run(s: CoalescerState, events: seq<Event>): (r: CoalescerState)
    ensures r.chainUpdates >= s.chainUpdates && r.repaints >= s.repaints
    ensures events != [] && events[|events| - 1] == TimerTick ==> !r.parametersChanged
    decreases |events|
  {
    if events == [] then s else Step(Run(s, events[..|events| - 1]), events[|events| - 1])
  }

  /** k parameter notifications in a row. */
  function Burst(k: nat): (r: seq<Event>)
    ensures |r| == k
    ensures forall j :: 0 <= j < k ==> r[j] == ParameterChanged
  {
    if k == 0 then [] else Burst(k - 1) + [ParameterChanged]
  }

  function Count(events: seq<Event>, e: Event): nat
  {
    if events == [] then 0 else Count(events[..|events| - 1], e) + (if events[|events| - 1] == e then 1 else 0)
  }

  /** After one or more notifications the flag is set; nothing else changes. */
  lemma {:induction false} BurstSetsFlag(s: CoalescerState, k: nat)
    requires k >= 1
    ensures Run(s, Burst(k)) == s.(parametersChanged := true)
  {
    var b := Burst(k);
    assert b[..|b| - 1] == Burst(k - 1);
    if k > 1 {
      BurstSetsFlag(s, k - 1);
    } else {
      assert Burst(k - 1) == [];
    }
  }

  /** Any number (at least one) of notifications between two ticks leads to exactly one
      chain rebuild on the next tick, which leaves the flag clear and repaints once. */
  lemma BurstCoalesces(s: CoalescerState, k: nat)
    requires k >= 1
    ensures Run(s, Burst(k) + [TimerTick]) == CoalescerState(false, s.chainUpdates + 1, s.repaints + 1)
  {
    var evs := Burst(k) + [TimerTick];
    assert evs[..|evs| - 1] == Burst(k);
    BurstSetsFlag(s, k);
  }

  /** A tick with the flag clear rebuilds nothing; it still repaints. */
  lemma {:induction false} IdleTicksOnlyRepaint(s: CoalescerState, ticks: nat)
    requires !s.parametersChanged
    ensures Run(s, seq(ticks, _ => TimerTick)) == s.(repaints := s.repaints + ticks)
  {
    if ticks > 0 {
      var evs := seq(ticks, _ => TimerTick);
      assert evs[..ticks - 1] == seq(ticks - 1, _ => TimerTick);
      IdleTicksOnlyRepaint(s, ticks - 1);
    }
  }

  /** Over any sequence of events: one repaint per tick, at most one rebuild per tick, and
      no more rebuilds than notifications (plus one for a flag already set at the start). */
  lemma {:induction false} RebuildsBounded(s: CoalescerState, events: seq<Event>)
    ensures Run(s, events).repaints == s.repaints + Count(events, TimerTick)
    ensures Run(s, events).chainUpdates <= s.chainUpdates + Count(events, TimerTick)
    ensures Run(s, events).chainUpdates + (if Run(s, events).parametersChanged then 1 else 0)
         <= s.chainUpdates + Count(events, ParameterChanged) + (if s.parametersChanged then 1 else 0)
    decreases |events|
  {
    if events != [] {
      RebuildsBounded(s, events[..|events| - 1]);
    }
  }

  /** The flag is set exactly when the latest event was a notification. */
  lemma FlagTracksLatestEvent(s: CoalescerState, events: seq<Event>)
    requires events != []
    ensures Run(s, events).parametersChanged <==> events[|events| - 1] == ParameterChanged
  {
  }
}
