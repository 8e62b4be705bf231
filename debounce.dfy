/**
 * The focus debouncer of auto-status/Plugin.cs (`OnFrameworkUpdate`, lines 119-157):
 * a per-tick state machine over `wasFocused`, `pendingFocus` and `pendingFocusSince`
 * that turns the sampled window focus into confirmed transitions. Time is the
 * `DateTime` tick count (100 ns units) the host clock reads at that tick.
 */
module FocusDebounce {
  import opened Wrappers

  /** `TimeSpan.FromSeconds(2)` in ticks. */
  const DebounceTicks: int := 20_000_000

  datatype DebounceState = DebounceState(
    wasFocused: Option<bool>,
    pendingFocus: Option<bool>,
    pendingFocusSince: int)

  /** What the host reports at one framework update. */
  datatype Sample = Sample(loggedIn: bool, isFocused: bool, now: int)

  datatype StepResult = StepResult(state: DebounceState, confirmed: Option<bool>)

  /** Nothing known yet; `pendingFocusSince` holds `default(DateTime)`. */
  const Initial := DebounceState(None, None, 0)

  /** A pending value always differs from the confirmed one. */
  predicate PendingDiffers(s: DebounceState) {
    s.pendingFocus.Some? ==> s.wasFocused == Some(!s.pendingFocus.value)
  }

  /** One framework update; `confirmed` is the focus handed to ApplyStatus, if any. */
  function Step(s: DebounceState, t: Sample): (r: StepResult)
    ensures PendingDiffers(r.state)
    ensures r.state.pendingFocus == None || r.state.pendingFocus == Some(t.isFocused)
    ensures !t.loggedIn ==> r.state.wasFocused == None && r.state.pendingFocus == None && r.confirmed == None
    ensures t.loggedIn && s.wasFocused == None ==>
      r.state.wasFocused == Some(t.isFocused) && r.state.pendingFocus == None && r.confirmed == None
    ensures t.loggedIn && s.wasFocused == Some(t.isFocused) ==> r.state.pendingFocus == None && r.confirmed == None
    ensures r.confirmed.Some? <==>
      t.loggedIn && s.wasFocused == Some(!t.isFocused) && s.pendingFocus == Some(t.isFocused) &&
      t.now - s.pendingFocusSince >= DebounceTicks
    ensures r.confirmed.Some? ==>
      r.confirmed.value == t.isFocused && r.state.wasFocused == Some(t.isFocused) && r.state.pendingFocus == None
    // a new differing sample starts the dwell; the same one, before 2 s have passed, changes nothing
    ensures t.loggedIn && s.wasFocused == Some(!t.isFocused) && s.pendingFocus != Some(t.isFocused) ==>
      r == StepResult(s.(pendingFocus := Some(t.isFocused), pendingFocusSince := t.now), None)
    ensures (t.loggedIn && s.wasFocused == Some(!t.isFocused) && s.pendingFocus == Some(t.isFocused) &&
             t.now - s.pendingFocusSince < DebounceTicks) ==> r == StepResult(s, None)
  {
    if !t.loggedIn then
      StepResult(s.(wasFocused := None, pendingFocus := None), None)
    else if s.wasFocused.None? then
      StepResult(s.(wasFocused := Some(t.isFocused), pendingFocus := None), None)
    else if s.wasFocused == Some(t.isFocused) then
      StepResult(s.(pendingFocus := None), None)
    else
      assert s.wasFocused == Some(!t.isFocused) by { assert s.wasFocused.value != t.isFocused; }
      if s.pendingFocus != Some(t.isFocused) then
        StepResult(s.(pendingFocus := Some(t.isFocused), pendingFocusSince := t.now), None)
      else if t.now - s.pendingFocusSince < DebounceTicks then
        StepResult(s, None)
      else
        StepResult(s.(wasFocused := Some(t.isFocused), pendingFocus := None), Some(t.isFocused))
  }

  /** The state after a run of ticks. */
  function After(s: DebounceState, ticks: seq<Sample>): DebounceState
    decreases |ticks|
  {
    if ticks == [] then s else Step(After(s, ticks[..|ticks| - 1]), ticks[|ticks| - 1]).state
  }

  /** What tick `k` of a run confirms. */
  function ConfirmedAt(s: DebounceState, ticks: seq<Sample>, k: nat): Option<bool>
    requires k < |ticks|
  {
    Step(After(s, ticks[..k]), ticks[k]).confirmed
  }

  lemma AfterNext(s: DebounceState, ticks: seq<Sample>, k: nat)
    requires k < |ticks|
    ensures After(s, ticks[..k + 1]) == Step(After(s, ticks[..k]), ticks[k]).state
  {
    assert ticks[..k + 1][..k] == ticks[..k];
  }

  /** Ticks `j..k` are all logged in and all sample `v`. */
  predicate Steady(ticks: seq<Sample>, j: nat, k: nat, v: bool)
    requires j <= k < |ticks|
  {
    forall i :: j <= i <= k ==> ticks[i].loggedIn && ticks[i].isFocused == v
  }

  /** When each sample differs from the one before, no tick ever confirms, however the ticks are timed. */
  lemma FlickerNeverConfirms(s: DebounceState, ticks: seq<Sample>)
    requires forall i :: 0 < i < |ticks| ==> ticks[i].isFocused != ticks[i - 1].isFocused
    requires ticks != [] ==> s.pendingFocus != Some(ticks[0].isFocused)
    ensures forall k :: 0 <= k < |ticks| ==> ConfirmedAt(s, ticks, k) == None
  {
    forall k | 0 <= k < |ticks| ensures ConfirmedAt(s, ticks, k) == None {
      if k > 0 {
        AfterNext(s, ticks, k - 1);
      } else {
        assert ticks[..0] == [];
      }
    }
  }

  /** A pending value has been sampled, logged in, on every tick since the one it was first seen on. */
  lemma {:induction false} PendingHasSteadyHistory(s: DebounceState, ticks: seq<Sample>, n: nat)
    requires s.pendingFocus == None
    requires n <= |ticks|
    ensures var st := After(s, ticks[..n]);
      st.pendingFocus.Some? ==>
        exists j :: 0 <= j < n && Steady(ticks, j, n - 1, st.pendingFocus.value) &&
          st.pendingFocusSince == ticks[j].now
  {
    if n == 0 {
      assert ticks[..0] == [];
    } else {
      PendingHasSteadyHistory(s, ticks, n - 1);
      AfterNext(s, ticks, n - 1);
      var prev := After(s, ticks[..n - 1]);
      var st := After(s, ticks[..n]);
      var t := ticks[n - 1];
      if st.pendingFocus.Some? {
        var v := st.pendingFocus.value;
        if prev.pendingFocus == Some(v) {
          var j :| 0 <= j < n - 1 && Steady(ticks, j, n - 2, v) && prev.pendingFocusSince == ticks[j].now;
          assert Steady(ticks, j, n - 1, v);
        } else {
          assert Steady(ticks, n - 1, n - 1, v);
        }
      }
    }
  }

  /**
   * Starting with nothing pending, a tick confirms `v` only after a run of logged-in ticks that all
   * sampled `v` and that spans at least the debounce interval.
   */
  lemma ConfirmationNeedsSteadyRun(s: DebounceState, ticks: seq<Sample>, k: nat, v: bool)
    requires s.pendingFocus == None
    requires k < |ticks| && ConfirmedAt(s, ticks, k) == Some(v)
    ensures exists j :: 0 <= j < k && Steady(ticks, j, k, v) && ticks[k].now - ticks[j].now >= DebounceTicks
  {
    PendingHasSteadyHistory(s, ticks, k);
    var st := After(s, ticks[..k]);
    var j :| 0 <= j < k && Steady(ticks, j, k - 1, v) && st.pendingFocusSince == ticks[j].now;
    assert Steady(ticks, j, k, v);
  }

  /** The states a steady run of `v` goes through when `k` is the first tick a debounce interval after the first. */
  lemma {:induction false} SteadyRunStates(s: DebounceState, ticks: seq<Sample>, k: nat, v: bool, n: nat)
    requires s.wasFocused == Some(!v) && s.pendingFocus != Some(v)
    requires k < |ticks| && forall i :: 0 <= i < |ticks| ==> ticks[i].loggedIn && ticks[i].isFocused == v
    requires forall i :: 0 <= i < k ==> ticks[i].now - ticks[0].now < DebounceTicks
    requires ticks[k].now - ticks[0].now >= DebounceTicks
    requires n <= |ticks|
    ensures After(s, ticks[..n]) ==
      if n == 0 then s
      else if n <= k then DebounceState(Some(!v), Some(v), ticks[0].now)
      else DebounceState(Some(v), None, ticks[0].now)
  {
    if n == 0 {
      assert ticks[..0] == [];
    } else {
      SteadyRunStates(s, ticks, k, v, n - 1);
      AfterNext(s, ticks, n - 1);
    }
  }

  /**
   * A run of logged-in ticks that all sample the new value `v` confirms it exactly once: at the first
   * tick at least the debounce interval after the first one.
   */
  lemma SteadyRunConfirmsOnce(s: DebounceState, ticks: seq<Sample>, k: nat, v: bool)
    requires s.wasFocused == Some(!v) && s.pendingFocus != Some(v)
    requires k < |ticks| && forall i :: 0 <= i < |ticks| ==> ticks[i].loggedIn && ticks[i].isFocused == v
    requires forall i :: 0 <= i < k ==> ticks[i].now - ticks[0].now < DebounceTicks
    requires ticks[k].now - ticks[0].now >= DebounceTicks
    ensures ConfirmedAt(s, ticks, k) == Some(v)
    ensures forall i :: 0 <= i < |ticks| && i != k ==> ConfirmedAt(s, ticks, i) == None
  {
    SteadyRunStates(s, ticks, k, v, k);
    forall i | 0 <= i < |ticks| && i != k ensures ConfirmedAt(s, ticks, i) == None {
      SteadyRunStates(s, ticks, k, v, i);
    }
  }

  /** The tick after a logged-out tick never confirms: it only sets the baseline. */
  lemma NoConfirmationAfterLogout(s: DebounceState, ticks: seq<Sample>, k: nat)
    requires 0 < k < |ticks| && !ticks[k - 1].loggedIn
    ensures ConfirmedAt(s, ticks, k) == None
    ensures After(s, ticks[..k + 1]).wasFocused == if ticks[k].loggedIn then Some(ticks[k].isFocused) else None
    ensures After(s, ticks[..k + 1]).pendingFocus == None
  {
    AfterNext(s, ticks, k - 1);
    AfterNext(s, ticks, k);
  }

  /** The debouncer fields of the plugin, updated in place once per framework update. */
  class FocusDebouncer {
    var wasFocused: Option<bool>
    var pendingFocus: Option<bool>
    var pendingFocusSince: int

    function State(): DebounceState
      reads this
    {
      DebounceState(wasFocused, pendingFocus, pendingFocusSince)
    }

    constructor ()
      ensures State() == Initial
    {
      wasFocused, pendingFocus, pendingFocusSince := None, None, 0;
    }

    /** The debouncing part of OnFrameworkUpdate (auto-status/Plugin.cs:119-155). */
    method Tick(loggedIn: bool, isFocused: bool, now: int) returns (confirmed: Option<bool>)
      modifies this
      ensures State() == Step(old(State()), Sample(loggedIn, isFocused, now)).state
      ensures confirmed == Step(old(State()), Sample(loggedIn, isFocused, now)).confirmed
    {
      confirmed := None;
      if !loggedIn {
        wasFocused := None;
        pendingFocus := None;
        return;
      }
      if wasFocused.None? {
        wasFocused := Some(isFocused);
        pendingFocus := None;
        return;
      }
      if wasFocused == Some(isFocused) {
        pendingFocus := None;
        return;
      }
      if pendingFocus != Some(isFocused) {
        pendingFocus := Some(isFocused);
        pendingFocusSince := now;
        return;
      }
      if now - pendingFocusSince < DebounceTicks {
        return;
      }
      wasFocused := Some(isFocused);
      pendingFocus := None;
      confirmed := Some(isFocused);
    }
  }
}
