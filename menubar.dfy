/**
 * The menu bar of app/components/MenuBar.tsx: a header click highlights the
 * clicked item and advances a click counter; the seventh click turns on a
 * rainbow effect and resets the counter. Two `setTimeout` callbacks later
 * clear the highlight (after 500 ms) and the rainbow (after 3 s). Time is not
 * modelled: a timer firing is an explicit event, and only a timer that has
 * been scheduled and has not fired yet can fire. The cleanup function that
 * `handleMenuClick` returns is discarded by React (it is an event handler,
 * not an effect), so no timer is ever cancelled.
 */
module MenuBar {
  import opened Wrappers

  /** The header items, in display order. */
  const Items: seq<string> := ["File", "Edit", "View", "Special"]

  /** The click count that triggers the rainbow effect. */
  const RainbowTarget: nat := 7

  /**
   * The component state plus the number of scheduled, not yet fired timers
   * of each kind.
   */
  datatype MenuState = MenuState(
    activeItem: Option<string>,
    clickCount: nat,
    isRainbow: bool,
    activeTimers: nat,
    rainbowTimers: nat)

  /** The state after mounting: nothing active, no clicks, no rainbow, no timers. */
  function Initial(): (s: MenuState)
    ensures s.activeItem.None? && s.clickCount == 0 && !s.isRainbow
    ensures s.activeTimers == 0 && s.rainbowTimers == 0
  {
    MenuState(None, 0, false, 0, 0)
  }

  /** The counter never leaves 0..6 in a reachable state. */
  predicate Inv(s: MenuState)
  {
    s.clickCount < RainbowTarget
  }

  /** Whether a click in state `s` is one that reaches the target. */
  predicate Triggers(s: MenuState)
  {
    s.clickCount + 1 == RainbowTarget
  }

  /**
   * `handleMenuClick(item)`: the item becomes active (even if it already
   * was), the counter advances and wraps to 0 on reaching the target, which
   * also turns the rainbow on and schedules its 3 s reset; a 500 ms reset
   * of the active item is always scheduled.
   */
  function AfterClick(s: MenuState, item: string): (r: MenuState)
    requires Inv(s)
    ensures Inv(r)
    ensures r.activeItem == Some(item)
    ensures r.clickCount == (s.clickCount + 1) % RainbowTarget
    ensures r.isRainbow <==> s.isRainbow || Triggers(s)
    ensures r.activeTimers == s.activeTimers + 1
    ensures r.rainbowTimers == s.rainbowTimers + (if Triggers(s) then 1 else 0)
  {
    if Triggers(s) then
      s.(activeItem := Some(item), clickCount := 0, isRainbow := true,
         activeTimers := s.activeTimers + 1, rainbowTimers := s.rainbowTimers + 1)
    else
      s.(activeItem := Some(item), clickCount := s.clickCount + 1,
         activeTimers := s.activeTimers + 1)
  }

  /** The 500 ms callback: `setActiveItem(null)`, and one timer fewer pending. */
  function AfterActiveTimer(s: MenuState): (r: MenuState)
    requires s.activeTimers > 0
    ensures r.activeItem.None? && r.activeTimers == s.activeTimers - 1
    ensures r.clickCount == s.clickCount && r.isRainbow == s.isRainbow
    ensures r.rainbowTimers == s.rainbowTimers
  {
    s.(activeItem := None, activeTimers := s.activeTimers - 1)
  }

  /** The 3 s callback: `setIsRainbow(false)`, and one timer fewer pending. */
  function AfterRainbowTimer(s: MenuState): (r: MenuState)
    requires s.rainbowTimers > 0
    ensures !r.isRainbow && r.rainbowTimers == s.rainbowTimers - 1
    ensures r.activeItem == s.activeItem && r.clickCount == s.clickCount
    ensures r.activeTimers == s.activeTimers
  {
    s.(isRainbow := false, rainbowTimers := s.rainbowTimers - 1)
  }

  /** The events the menu bar reacts to. */
  datatype Event = Click(item: string) | ActiveTimerFires | RainbowTimerFires

  /** Header clicks name a header item; a timer fires only while one is pending. */
  predicate Enabled(s: MenuState, e: Event)
  {
    match e
    case Click(item) => item in Items
    case ActiveTimerFires => s.activeTimers > 0
    case RainbowTimerFires => s.rainbowTimers > 0
  }

  function Apply(s: MenuState, e: Event): (r: MenuState)
    requires Inv(s) && Enabled(s, e)
    ensures Inv(r)
  {
    match e
    case Click(item) => AfterClick(s, item)
    case ActiveTimerFires => AfterActiveTimer(s)
    case RainbowTimerFires => AfterRainbowTimer(s)
  }

  predicate RunEnabled(s: MenuState, es: seq<Event>)
    requires Inv(s)
    decreases |es|
  {
    es == [] || (Enabled(s, es[0]) && RunEnabled(Apply(s, es[0]), es[1..]))
  }

  function Run(s: MenuState, es: seq<Event>): (r: MenuState)
    requires Inv(s) && RunEnabled(s, es)
    ensures Inv(r)
    decreases |es|
  {
    if es == [] then s else Run(Apply(s, es[0]), es[1..])
  }

  /** The number of header clicks in an event sequence. */
  function ClickCount(es: seq<Event>): (n: nat)
    ensures n <= |es|
  {
    if es == [] then 0 else (if es[0].Click? then 1 else 0) + ClickCount(es[1..])
  }

  lemma AdvanceMod(c: nat, n: nat)
    requires c < RainbowTarget
    ensures ((c + 1) % RainbowTarget + n) % RainbowTarget == (c + 1 + n) % RainbowTarget
  {
  }

  /**
   * Whatever the timers do, the counter after a run is the number of clicks
   * so far, modulo 7, counted from the starting counter.
   */
  lemma {:induction false} CountIsClicksModSeven(s: MenuState, es: seq<Event>)
    requires Inv(s) && RunEnabled(s, es)
    ensures Run(s, es).clickCount == (s.clickCount + ClickCount(es)) % RainbowTarget
    decreases |es|
  {
    if es == [] {
    } else {
      var t := Apply(s, es[0]);
      CountIsClicksModSeven(t, es[1..]);
      if es[0].Click? {
        AdvanceMod(s.clickCount, ClickCount(es[1..]));
      }
    }
  }

  /** A run of header clicks only, with no timer firing in between. */
  function Clicks(items: seq<string>): (es: seq<Event>)
    ensures |es| == |items|
    ensures forall i :: 0 <= i < |es| ==> es[i] == Click(items[i])
  {
    if items == [] then [] else [Click(items[0])] + Clicks(items[1..])
  }

  predicate AllItems(items: seq<string>)
  {
    forall i :: 0 <= i < |items| ==> items[i] in Items
  }

  lemma {:induction false} ClicksEnabled(s: MenuState, items: seq<string>)
    requires Inv(s) && AllItems(items)
    ensures RunEnabled(s, Clicks(items))
    decreases |items|
  {
    if items != [] {
      assert Clicks(items)[1..] == Clicks(items[1..]);
      ClicksEnabled(AfterClick(s, items[0]), items[1..]);
    }
  }

  /** Appending one click to a run of clicks. */
  lemma {:induction false} ClicksSnoc(s: MenuState, items: seq<string>, item: string)
    requires Inv(s) && AllItems(items + [item])
    ensures AllItems(items)
    ensures RunEnabled(s, Clicks(items)) && RunEnabled(s, Clicks(items + [item]))
    ensures Run(s, Clicks(items + [item])) == AfterClick(Run(s, Clicks(items)), item)
    decreases |items|
  {
    assert AllItems(items) by {
      forall i | 0 <= i < |items| ensures items[i] in Items {
        assert items[i] == (items + [item])[i];
      }
    }
    ClicksEnabled(s, items);
    ClicksEnabled(s, items + [item]);
    if items == [] {
      assert Clicks([item])[1..] == [];
    } else {
      var t := AfterClick(s, items[0]);
      assert (items + [item])[1..] == items[1..] + [item];
      assert Clicks(items + [item])[1..] == Clicks(items[1..] + [item]);
      assert Clicks(items)[1..] == Clicks(items[1..]);
      ClicksSnoc(t, items[1..], item);
    }
  }

  /** Division and remainder by the target, one step up. */
  lemma DivModStep(n: nat)
    ensures (n + 1) % RainbowTarget == (if n % RainbowTarget + 1 == RainbowTarget then 0 else n % RainbowTarget + 1)
    ensures (n + 1) / RainbowTarget == n / RainbowTarget + (if n % RainbowTarget + 1 == RainbowTarget then 1 else 0)
  {
    var q, p := n / RainbowTarget, n % RainbowTarget;
    assert n == RainbowTarget * q + p;
    if p + 1 == RainbowTarget {
      DivModUnique(n + 1, q + 1, 0);
    } else {
      DivModUnique(n + 1, q, p + 1);
    }
  }

  lemma DivModUnique(a: nat, q: nat, r: nat)
    requires a == RainbowTarget * q + r && r < RainbowTarget
    ensures a / RainbowTarget == q && a % RainbowTarget == r
  {
  }

  /**
   * After `n` header clicks from the initial state (no timer having fired):
   * the counter is `n % 7`, the rainbow has been triggered `n / 7` times (so
   * it is on exactly when `n >= 7`), and one highlight reset is pending per
   * click.
   */
  lemma {:induction false} ClicksFromInitial(items: seq<string>)
    requires AllItems(items)
    ensures RunEnabled(Initial(), Clicks(items))
    ensures Run(Initial(), Clicks(items)).clickCount == |items| % RainbowTarget
    ensures Run(Initial(), Clicks(items)).rainbowTimers == |items| / RainbowTarget
    ensures Run(Initial(), Clicks(items)).isRainbow <==> |items| >= RainbowTarget
    ensures Run(Initial(), Clicks(items)).activeTimers == |items|
    decreases |items|
  {
    ClicksEnabled(Initial(), items);
    if items != [] {
      var n := |items| - 1;
      var front := items[..n];
      assert front + [items[n]] == items;
      ClicksSnoc(Initial(), front, items[n]);
      ClicksFromInitial(front);
      DivModStep(n);
    }
  }

  /** After at least one click, the last item clicked is the active one. */
  lemma {:induction false} LastClickedIsActive(items: seq<string>)
    requires AllItems(items) && items != []
    ensures RunEnabled(Initial(), Clicks(items))
    ensures Run(Initial(), Clicks(items)).activeItem == Some(items[|items| - 1])
  {
    var n := |items| - 1;
    assert items[..n] + [items[n]] == items;
    ClicksSnoc(Initial(), items[..n], items[n]);
  }

  /**
   * A click triggers the rainbow exactly when it is the 7th, 14th, ... click
   * since mounting; in particular the 8th click does not.
   */
  lemma RainbowOnEverySeventhClick(items: seq<string>)
    requires AllItems(items)
    ensures RunEnabled(Initial(), Clicks(items))
    ensures Triggers(Run(Initial(), Clicks(items))) <==> (|items| + 1) % RainbowTarget == 0
  {
    ClicksFromInitial(items);
    DivModStep(|items|);
  }

  /**
   * Because no timer is cancelled, the reset scheduled by an earlier click
   * clears the highlight of a later one while that click's own reset is
   * still pending.
   */
  lemma StaleTimerClearsLaterClick()
    ensures var s := AfterClick(AfterClick(Initial(), "File"), "Edit");
      && s.activeItem == Some("Edit")
      && AfterActiveTimer(s).activeItem.None?
      && AfterActiveTimer(s).activeTimers == 1
  {
  }

  /** The component: its three state variables and the pending timers. */
  class MenuBar {
    var activeItem: Option<string>
    var clickCount: nat
    var isRainbow: bool
    var pendingActiveResets: nat
    var pendingRainbowResets: nat

    function State(): MenuState
      reads this
    {
      MenuState(activeItem, clickCount, isRainbow, pendingActiveResets, pendingRainbowResets)
    }

    ghost predicate Valid()
      reads this
    {
      Inv(State())
    }

    /** The `useState` initial values. */
    constructor ()
      ensures Valid() && State() == Initial()
    {
      activeItem := None;
      clickCount := 0;
      isRainbow := false;
      pendingActiveResets := 0;
      pendingRainbowResets := 0;
    }

    /**
     * `handleMenuClick(item)`. The two counter updates are queued as React
     * batches them: `prev => prev + 1`, then `0` when the rendered count plus
     * one reaches the target; the last one wins.
     */
    method HandleMenuClick(item: string)
      requires Valid() && item in Items
      modifies this
      ensures Valid()
      ensures State() == AfterClick(old(State()), item)
    {
      activeItem := Some(item);
      var next := clickCount + 1;
      if clickCount + 1 == RainbowTarget {
        isRainbow := true;
        pendingRainbowResets := pendingRainbowResets + 1;
        next := 0;
      }
      clickCount := next;
      pendingActiveResets := pendingActiveResets + 1;
    }

    /** The 500 ms callback fires: the highlight goes, nothing else changes. */
    method ActiveTimerFires()
      requires Valid() && pendingActiveResets > 0
      modifies this
      ensures Valid()
      ensures State() == AfterActiveTimer(old(State()))
      ensures clickCount == old(clickCount) && isRainbow == old(isRainbow)
    {
      activeItem := None;
      pendingActiveResets := pendingActiveResets - 1;
    }

    /** The 3 s callback fires: the rainbow goes, nothing else changes. */
    method RainbowTimerFires()
      requires Valid() && pendingRainbowResets > 0
      modifies this
      ensures Valid()
      ensures State() == AfterRainbowTimer(old(State()))
      ensures clickCount == old(clickCount) && activeItem == old(activeItem)
    {
      isRainbow := false;
      pendingRainbowResets := pendingRainbowResets - 1;
    }
  }
}
