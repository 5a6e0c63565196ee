/**
 * The floating instrument panels (piano, guitar, flute): each panel's
 * visibility, position, size and minimised flag, and which panel is in front.
 * The transitions are functions on a `Layout` value; the store class holds the
 * same state in fields and its actions are proved to follow the functions.
 */
module FloatingInstruments {
  import opened Wrappers

  datatype InstrumentType = Piano | Guitar | Flute

  datatype Position = Position(x: int, y: int)

  datatype Size = Size(width: int, height: int)

  datatype InstrumentState = InstrumentState(isVisible: bool, position: Position, size: Size, isMinimized: bool)

  datatype Layout = Layout(instruments: map<InstrumentType, InstrumentState>, activeInstrument: Option<InstrumentType>)

  /** The record holds a panel for every instrument type. */
  predicate Complete(s: Layout)
  {
    forall t: InstrumentType :: t in s.instruments
  }

  /** A record with the three panels is complete: there are no other instrument types. */
  lemma ThreePanels(m: map<InstrumentType, InstrumentState>, active: Option<InstrumentType>)
    requires Piano in m && Guitar in m && Flute in m
    ensures Complete(Layout(m, active))
  {
    forall t: InstrumentType ensures t in m {
      match t
      case Piano =>
      case Guitar =>
      case Flute =>
    }
  }

  /** `defaultInstrumentState`: hidden, not minimised, at x = 20. */
  function DefaultInstrumentState(y: int, width: int, height: int): (d: InstrumentState)
    ensures !d.isVisible && !d.isMinimized && d.position == Position(20, y) && d.size == Size(width, height)
  {
    InstrumentState(false, Position(20, y), Size(width, height), false)
  }

  /** The initial store: three hidden panels stacked down the page, none in front. */
  function Initial(): (s: Layout)
    ensures Complete(s) && s.activeInstrument.None?
    ensures forall t: InstrumentType :: !s.instruments[t].isVisible && !s.instruments[t].isMinimized
  {
    var m := map[Piano := DefaultInstrumentState(100, 520, 220),
                 Guitar := DefaultInstrumentState(340, 520, 180),
                 Flute := DefaultInstrumentState(540, 520, 100)];
    ThreePanels(m, None);
    Layout(m, None)
  }

  /** Two layouts agree on every panel except `t`'s. */
  predicate OthersUnchanged(s: Layout, r: Layout, t: InstrumentType)
    requires Complete(s) && Complete(r)
  {
    forall u: InstrumentType :: u != t ==> r.instruments[u] == s.instruments[u]
  }

  /** `showInstrument`: the panel is shown, restored and brought to the front. */
  function Shown(s: Layout, t: InstrumentType): (r: Layout)
    requires Complete(s)
    ensures Complete(r) && OthersUnchanged(s, r, t)
    ensures r.instruments[t].isVisible && !r.instruments[t].isMinimized && r.activeInstrument == Some(t)
    ensures r.instruments[t].position == s.instruments[t].position && r.instruments[t].size == s.instruments[t].size
  {
    var p := s.instruments[t];
    Layout(s.instruments[t := p.(isVisible := true, isMinimized := false)], Some(t))
  }

  /** `hideInstrument`: the panel is hidden; it leaves the front if it was there. */
  function Hidden(s: Layout, t: InstrumentType): (r: Layout)
    requires Complete(s)
    ensures Complete(r) && OthersUnchanged(s, r, t)
    ensures !r.instruments[t].isVisible && r.activeInstrument != Some(t)
    ensures s.activeInstrument != Some(t) ==> r.activeInstrument == s.activeInstrument
    ensures s.activeInstrument == Some(t) ==> r.activeInstrument.None?
    ensures r.instruments[t] == s.instruments[t].(isVisible := false)
  {
    var p := s.instruments[t];
    Layout(s.instruments[t := p.(isVisible := false)],
           if s.activeInstrument == Some(t) then None else s.activeInstrument)
  }

  /** `toggleInstrument`: the visibility flips and the panel is no longer minimised. */
  function Toggled(s: Layout, t: InstrumentType): (r: Layout)
    requires Complete(s)
    ensures Complete(r) && OthersUnchanged(s, r, t)
    ensures r.instruments[t].isVisible == !s.instruments[t].isVisible && !r.instruments[t].isMinimized
  {
    var p := s.instruments[t];
    var isVisible := !p.isVisible;
    Layout(s.instruments[t := p.(isVisible := isVisible, isMinimized := false)],
           if isVisible then Some(t)
           else if s.activeInstrument == Some(t) then None
           else s.activeInstrument)
  }

  /** `minimizeInstrument`: only the minimised flag of the panel changes. */
  function Minimized(s: Layout, t: InstrumentType): (r: Layout)
    requires Complete(s)
    ensures Complete(r) && OthersUnchanged(s, r, t)
    ensures r.instruments[t] == s.instruments[t].(isMinimized := true)
    ensures r.activeInstrument == s.activeInstrument
  {
    Layout(s.instruments[t := s.instruments[t].(isMinimized := true)], s.activeInstrument)
  }

  /** `restoreInstrument`: the panel is no longer minimised and comes to the front. */
  function Restored(s: Layout, t: InstrumentType): (r: Layout)
    requires Complete(s)
    ensures Complete(r) && OthersUnchanged(s, r, t)
    ensures r.instruments[t] == s.instruments[t].(isMinimized := false)
    ensures r.activeInstrument == Some(t)
  {
    Layout(s.instruments[t := s.instruments[t].(isMinimized := false)], Some(t))
  }

  /** `setPosition`: only the panel's position changes. */
  function PositionSet(s: Layout, t: InstrumentType, position: Position): (r: Layout)
    requires Complete(s)
    ensures Complete(r) && OthersUnchanged(s, r, t)
    ensures r.instruments[t] == s.instruments[t].(position := position)
    ensures r.activeInstrument == s.activeInstrument
  {
    Layout(s.instruments[t := s.instruments[t].(position := position)], s.activeInstrument)
  }

  /** `setSize`: only the panel's size changes. */
  function SizeSet(s: Layout, t: InstrumentType, size: Size): (r: Layout)
    requires Complete(s)
    ensures Complete(r) && OthersUnchanged(s, r, t)
    ensures r.instruments[t] == s.instruments[t].(size := size)
    ensures r.activeInstrument == s.activeInstrument
  {
    Layout(s.instruments[t := s.instruments[t].(size := size)], s.activeInstrument)
  }

  /** `bringToFront`: only the front panel changes, even for a hidden panel. */
  function BroughtToFront(s: Layout, t: InstrumentType): (r: Layout)
    ensures r.instruments == s.instruments && r.activeInstrument == Some(t)
  {
    s.(activeInstrument := Some(t))
  }

  /** `hideAll`: every panel hidden, nothing else about the panels changed, none in front. */
  function AllHidden(s: Layout): (r: Layout)
    requires Complete(s)
    ensures Complete(r) && r.activeInstrument.None?
    ensures forall t: InstrumentType :: r.instruments[t] == s.instruments[t].(isVisible := false)
  {
    var m := map[Piano := s.instruments[Piano].(isVisible := false),
                 Guitar := s.instruments[Guitar].(isVisible := false),
                 Flute := s.instruments[Flute].(isVisible := false)];
    ThreePanels(m, None);
    Layout(m, None)
  }

  /** Toggling a hidden panel is showing it. */
  lemma ToggleHiddenIsShow(s: Layout, t: InstrumentType)
    requires Complete(s) && !s.instruments[t].isVisible
    ensures Toggled(s, t) == Shown(s, t)
  {
  }

  /** Toggling a visible panel is hiding it, with the minimised flag cleared. */
  lemma ToggleVisibleIsHide(s: Layout, t: InstrumentType)
    requires Complete(s) && s.instruments[t].isVisible
    ensures Toggled(s, t) == Hidden(s.(instruments := s.instruments[t := s.instruments[t].(isMinimized := false)]), t)
  {
  }

  /** Toggling twice gives the panel back its visibility and leaves its position and size alone. */
  lemma ToggleTwice(s: Layout, t: InstrumentType)
    requires Complete(s)
    ensures var r := Toggled(Toggled(s, t), t);
      && r.instruments[t] == s.instruments[t].(isMinimized := false)
      && OthersUnchanged(s, r, t)
  {
  }

  /** Hiding a panel just shown puts the layout back to hidden, with no panel in front. */
  lemma HideAfterShow(s: Layout, t: InstrumentType)
    requires Complete(s)
    ensures var r := Hidden(Shown(s, t), t);
      && r.instruments[t] == s.instruments[t].(isVisible := false, isMinimized := false)
      && r.activeInstrument.None?
      && OthersUnchanged(s, r, t)
  {
  }

  /** Hiding all panels is hiding them one at a time, whatever panel was in front. */
  lemma HideAllIsHideEach(s: Layout)
    requires Complete(s)
    ensures AllHidden(s).instruments == Hidden(Hidden(Hidden(s, Piano), Guitar), Flute).instruments
    ensures AllHidden(s) == Hidden(Hidden(Hidden(s, Piano), Guitar), Flute).(activeInstrument := None)
  {
    var r := Hidden(Hidden(Hidden(s, Piano), Guitar), Flute);
    forall t: InstrumentType ensures AllHidden(s).instruments[t] == r.instruments[t] {
    }
    assert AllHidden(s).instruments == r.instruments;
  }

  /** The floating-instruments store. */
  class FloatingInstrumentsStore {
    var instruments: map<InstrumentType, InstrumentState>
    var activeInstrument: Option<InstrumentType>

    function State(): Layout
      reads this
    {
      Layout(instruments, activeInstrument)
    }

    predicate Valid()
      reads this
    {
      Complete(State())
    }

    constructor ()
      ensures Valid() && State() == Initial()
    {
      instruments := Initial().instruments;
      activeInstrument := None;
    }

    method ShowInstrument(t: InstrumentType)
      requires Valid()
      modifies this
      ensures Valid() && State() == Shown(old(State()), t)
    {
      instruments := instruments[t := instruments[t].(isVisible := true, isMinimized := false)];
      activeInstrument := Some(t);
    }

    method HideInstrument(t: InstrumentType)
      requires Valid()
      modifies this
      ensures Valid() && State() == Hidden(old(State()), t)
    {
      instruments := instruments[t := instruments[t].(isVisible := false)];
      if activeInstrument == Some(t) {
        activeInstrument := None;
      }
    }

    method ToggleInstrument(t: InstrumentType)
      requires Valid()
      modifies this
      ensures Valid() && State() == Toggled(old(State()), t)
    {
      var isVisible := !instruments[t].isVisible;
      instruments := instruments[t := instruments[t].(isVisible := isVisible, isMinimized := false)];
      if isVisible {
        activeInstrument := Some(t);
      } else if activeInstrument == Some(t) {
        activeInstrument := None;
      }
    }

    method MinimizeInstrument(t: InstrumentType)
      requires Valid()
      modifies this
      ensures Valid() && State() == Minimized(old(State()), t)
    {
      instruments := instruments[t := instruments[t].(isMinimized := true)];
    }

    method RestoreInstrument(t: InstrumentType)
      requires Valid()
      modifies this
      ensures Valid() && State() == Restored(old(State()), t)
    {
      instruments := instruments[t := instruments[t].(isMinimized := false)];
      activeInstrument := Some(t);
    }

    method SetPosition(t: InstrumentType, position: Position)
      requires Valid()
      modifies this
      ensures Valid() && State() == PositionSet(old(State()), t, position)
    {
      instruments := instruments[t := instruments[t].(position := position)];
    }

    method SetSize(t: InstrumentType, size: Size)
      requires Valid()
      modifies this
      ensures Valid() && State() == SizeSet(old(State()), t, size)
    {
      instruments := instruments[t := instruments[t].(size := size)];
    }

    method BringToFront(t: InstrumentType)
      requires Valid()
      modifies this
      ensures Valid() && State() == BroughtToFront(old(State()), t)
    {
      activeInstrument := Some(t);
    }

    method HideAll()
      requires Valid()
      modifies this
      ensures Valid() && State() == AllHidden(old(State()))
    {
      instruments := map[Piano := instruments[Piano].(isVisible := false),
                         Guitar := instruments[Guitar].(isVisible := false),
                         Flute := instruments[Flute].(isVisible := false)];
      activeInstrument := None;
      ThreePanels(instruments, None);
    }
  }
}
