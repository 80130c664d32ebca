/**
 * The play/pause debounce guard: a "handled" flag and a pending 200 ms reset
 * timer, one guard per input channel (pointer clicks, keyboard).
 */
module Debounce {

  /** The reset delay, in milliseconds. */
  const WindowMs: nat := 200

  datatype Guard = Guard(handled: bool, timerPending: bool)

  const Clear: Guard := Guard(false, false)

  /** While the component is mounted a reset timer is pending exactly when the flag is set. */
  predicate Consistent(g: Guard) {
    g.handled == g.timerPending
  }

  /**
   * A trigger: dropped while the flag is set; otherwise the flag is set, any
   * old timer is cleared, the toggle runs once and a new timer is started.
   * The second component says whether the toggle ran.
   */
  function Trigger(g: Guard): (r: (Guard, bool))
    ensures r.1 <==> !g.handled
    ensures r.1 ==> r.0 == Guard(true, true)
    ensures !r.1 ==> r.0 == g
    ensures Consistent(g) ==> Consistent(r.0)
  {
    if g.handled then (g, false) else (Guard(true, true), true)
  }

  /** The window elapses: a pending timer fires and clears the flag. */
  function Elapse(g: Guard): (r: Guard)
    ensures g.timerPending ==> r == Clear
    ensures !g.timerPending ==> r == g
    ensures Consistent(g) ==> Consistent(r)
  {
    if g.timerPending then Clear else g
  }

  /** Unmounting clears the timer and leaves the flag as it is. */
  function Cancel(g: Guard): (r: Guard)
    ensures !r.timerPending && r.handled == g.handled
  {
    g.(timerPending := false)
  }

  datatype GuardEvent = Press | WindowElapses

  /** Runs a sequence of channel events; the second component counts the toggles. */
  function Run(g: Guard, events: seq<GuardEvent>): (r: (Guard, nat))
    ensures r.1 <= |events|
    ensures events == [] ==> r == (g, 0)
    decreases |events|
  {
    if events == [] then (g, 0)
    else match events[0]
      case Press =>
        var (g', fired) := Trigger(g);
        var (g'', n) := Run(g', events[1..]);
        (g'', n + if fired then 1 else 0)
      case WindowElapses => Run(Elapse(g), events[1..])
  }

  function Presses(n: nat): (r: seq<GuardEvent>)
    ensures |r| == n && forall i :: 0 <= i < n ==> r[i] == Press
  {
    if n == 0 then [] else [Press] + Presses(n - 1)
  }

  function Spaced(n: nat): (r: seq<GuardEvent>)
    ensures |r| == 2 * n
  {
    if n == 0 then [] else [Press, WindowElapses] + Spaced(n - 1)
  }

  function CountElapses(events: seq<GuardEvent>): nat {
    if events == [] then 0 else (if events[0] == WindowElapses then 1 else 0) + CountElapses(events[1..])
  }

  /** A burst of presses inside one window toggles once from a clear guard, and not at all while the flag is set. */
  lemma {:induction false} BurstTogglesOnce(g: Guard, n: nat)
    requires n >= 1
    ensures Run(g, Presses(n)).1 == if g.handled then 0 else 1
    ensures Run(g, Presses(n)).0 == if g.handled then g else Guard(true, true)
    decreases n
  {
    var rest := Presses(n)[1..];
    assert rest == Presses(n - 1);
    if n > 1 {
      BurstTogglesOnce(Trigger(g).0, n - 1);
    }
  }

  /** Presses separated by an elapsed window each toggle. */
  lemma {:induction false} SpacedPressesEachToggle(n: nat)
    ensures Run(Clear, Spaced(n)) == (Clear, n)
  {
    if n > 0 {
      var s := Spaced(n);
      assert s[1..][1..] == Spaced(n - 1);
      SpacedPressesEachToggle(n - 1);
    }
  }

  /** However events interleave, a channel toggles at most once per elapsed window, plus once if it starts clear. */
  lemma {:induction false} TogglesBoundedByWindows(g: Guard, events: seq<GuardEvent>)
    requires Consistent(g)
    ensures Run(g, events).1 <= CountElapses(events) + (if g.handled then 0 else 1)
    ensures Consistent(Run(g, events).0)
    decreases |events|
  {
    if events != [] {
      match events[0]
      case Press =>
        TogglesBoundedByWindows(Trigger(g).0, events[1..]);
      case WindowElapses =>
        TogglesBoundedByWindows(Elapse(g), events[1..]);
    }
  }
}
