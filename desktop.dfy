/**
 * The desktop of app/components/Desktop.tsx: a map from window name to an
 * "is open" flag, one toggle operation that both the desktop icon and the
 * window's close button use, and a window that renders nothing when closed.
 */
module Desktop {
  import opened Wrappers

  /** The `openWindows` state: window name to open flag. */
  type OpenWindows = map<string, bool>

  /** The only window registered by the desktop. */
  const Dca: string := "dca"

  const DcaTitle: string := "DCA AI Strategy"

  /** Initial state: one entry, the DCA window, closed. */
  function Initial(): (m: OpenWindows)
    ensures m.Keys == {Dca} && !m[Dca]
  {
    map[Dca := false]
  }

  /**
   * The JavaScript reading `prev[name]` used as a boolean: a key that is
   * absent reads as `undefined`, which is falsy.
   */
  function IsOpen(m: OpenWindows, name: string): (b: bool)
    ensures b <==> name in m && m[name]
  {
    if name in m then m[name] else false
  }

  /** `toggleWindow(name)`: the functional update `{...prev, [name]: !prev[name]}`. */
  function ToggleWindow(m: OpenWindows, name: string): (r: OpenWindows)
    ensures r.Keys == m.Keys + {name}
    ensures IsOpen(r, name) == !IsOpen(m, name)
    ensures forall k :: k in m && k != name ==> r[k] == m[k]
  {
    m[name := !IsOpen(m, name)]
  }

  /** Toggling a name that is already a key twice gives back the same map. */
  lemma ToggleTwice(m: OpenWindows, name: string)
    requires name in m
    ensures ToggleWindow(ToggleWindow(m, name), name) == m
  {
  }

  /** Toggling an absent name adds it as open; toggling again leaves it as a closed key. */
  lemma ToggleAbsent(m: OpenWindows, name: string)
    requires name !in m
    ensures ToggleWindow(m, name) == m[name := true]
    ensures ToggleWindow(ToggleWindow(m, name), name) == m[name := false]
  {
  }

  /** What the `Window` component produces when it renders something. */
  datatype Frame = Frame(title: string, hasCloseButton: bool)

  /** The `Window` render guard: a closed window renders nothing (`null`). */
  function Window(title: string, isOpen: bool): (r: Option<Frame>)
    ensures r.None? <==> !isOpen
    ensures r.Some? ==> r.value.title == title && r.value.hasCloseButton
  {
    if !isOpen then None else Some(Frame(title, true))
  }

  /** The window area of the desktop for a given state. */
  function Render(m: OpenWindows): (r: Option<Frame>)
    ensures r.Some? <==> IsOpen(m, Dca)
    ensures r.Some? ==> r.value.title == DcaTitle
  {
    Window(DcaTitle, IsOpen(m, Dca))
  }

  /** The two user actions of the desktop. */
  datatype Event = IconClick | CloseClick

  /** The close button exists only on a rendered window; the icon is always there. */
  predicate Enabled(m: OpenWindows, e: Event)
  {
    match e
    case IconClick => true
    case CloseClick => Render(m).Some?
  }

  /** Both the icon and the close button call `toggleWindow('dca')`. */
  function Step(m: OpenWindows, e: Event): (r: OpenWindows)
    ensures r.Keys == m.Keys + {Dca}
    ensures IsOpen(r, Dca) == !IsOpen(m, Dca)
    ensures forall k :: k in m && k != Dca ==> r[k] == m[k]
  {
    match e
    case IconClick => ToggleWindow(m, Dca)
    case CloseClick => ToggleWindow(m, Dca)
  }

  /** Clicking the icon while the window is open closes it, as the close button does. */
  lemma IconClosesOpenWindow(m: OpenWindows)
    requires IsOpen(m, Dca)
    ensures Render(Step(m, IconClick)).None?
    ensures Step(m, IconClick) == Step(m, CloseClick)
  {
  }

  /** Runs a sequence of events, each enabled in the state it meets. */
  function Run(m: OpenWindows, es: seq<Event>): (r: OpenWindows)
    requires RunEnabled(m, es)
    decreases |es|
  {
    if es == [] then m else Run(Step(m, es[0]), es[1..])
  }

  predicate RunEnabled(m: OpenWindows, es: seq<Event>)
    decreases |es|
  {
    es == [] || (Enabled(m, es[0]) && RunEnabled(Step(m, es[0]), es[1..]))
  }

  /**
   * From any state, after an enabled sequence of events the DCA window is
   * open exactly when it was open before and the number of events is even,
   * or closed before and the number is odd; the set of keys never changes
   * once the DCA key is present.
   */
  lemma {:induction false} RunParity(m: OpenWindows, es: seq<Event>)
    requires Dca in m
    requires RunEnabled(m, es)
    ensures Run(m, es).Keys == m.Keys
    ensures IsOpen(Run(m, es), Dca) == (IsOpen(m, Dca) != (|es| % 2 == 1))
    decreases |es|
  {
    if es != [] {
      RunParity(Step(m, es[0]), es[1..]);
    }
  }

  /** From the initial state, the window is shown exactly after an odd number of events. */
  lemma ShownAfterOddClicks(es: seq<Event>)
    requires RunEnabled(Initial(), es)
    ensures Render(Run(Initial(), es)).Some? <==> |es| % 2 == 1
    ensures Run(Initial(), es).Keys == {Dca}
  {
    RunParity(Initial(), es);
  }
}
