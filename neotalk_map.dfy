/**
 * The interactive campus map: pins for three points of interest, a tooltip
 * per pin, and a bottom drawer with the interpreter video that traps keyboard
 * focus while it is open.
 *
 * The document's focus is abstracted: the drawer's focusable candidates are a
 * sequence of elements, `document.activeElement` is an element id together
 * with whether the drawer contains it, and a handler that moves focus returns
 * the id of the element it focuses. The optional `onPoiOpen` callback is
 * returned as the POI it is notified with.
 */
module NeoTalkMap {

  import opened Wrappers

  datatype PoiId = Recepcao | Napne | Biblioteca

  /** A pin: its id, label, position on the map in percent, colour and whether it opens the drawer. */
  datatype Poi = Poi(id: PoiId, name: string, x: int, y: int, color: string, active: bool)

  const Pois: seq<Poi> := [
    Poi(Recepcao, "Recepção", 49, 63, "#79D56B", true),
    Poi(Napne, "NAPNE", 76, 36, "#FF3B3B", true),
    Poi(Biblioteca, "Biblioteca", 60, 20, "#FF3B3B", false)
  ]

  /** Only the library is inactive. */
  lemma OnlyLibraryInactive()
    ensures forall i :: 0 <= i < |Pois| ==> (!Pois[i].active <==> Pois[i].id == Biblioteca)
  {
  }

  // ---------------------------------------------------------------------------
  // Looking up the current POI: `POIS.find(...) ?? POIS[0]`
  // ---------------------------------------------------------------------------

  /** Index of the first POI with the given id. */
  function FindIndex(pois: seq<Poi>, id: PoiId): (r: Option<nat>)
    ensures r.None? <==> forall i :: 0 <= i < |pois| ==> pois[i].id != id
    ensures r.Some? ==> r.value < |pois| && pois[r.value].id == id
    ensures r.Some? ==> forall j :: 0 <= j < r.value ==> pois[j].id != id
    decreases |pois|
  {
    if pois == [] then None
    else if pois[0].id == id then Some(0)
    else
      match FindIndex(pois[1..], id)
      case None => None
      case Some(k) => Some(k + 1)
  }

  /** `Array.prototype.find`: the first POI with the id, if any. */
  function Find(pois: seq<Poi>, id: PoiId): Option<Poi> {
    match FindIndex(pois, id)
    case None => None
    case Some(k) => Some(pois[k])
  }

  /** The POI whose id is `activePoi`, falling back to the first POI. */
  function CurrentPoi(pois: seq<Poi>, activePoi: PoiId): Poi
    requires |pois| > 0
  {
    Find(pois, activePoi).GetOr(pois[0])
  }

  /** The lookup returns the first POI with the id when there is one, and the first POI otherwise. */
  lemma CurrentPoiLookup(pois: seq<Poi>, activePoi: PoiId)
    requires |pois| > 0
    ensures CurrentPoi(pois, activePoi) in pois
    ensures (exists i :: 0 <= i < |pois| && pois[i].id == activePoi) ==>
              CurrentPoi(pois, activePoi).id == activePoi
    ensures (forall i :: 0 <= i < |pois| ==> pois[i].id != activePoi) ==>
              CurrentPoi(pois, activePoi) == pois[0]
  {
  }

  /** With the fixed table the fallback is never taken: the current POI always has the active id. */
  lemma CurrentPoiOfTable(activePoi: PoiId)
    ensures CurrentPoi(Pois, activePoi).id == activePoi
  {
  }

  // ---------------------------------------------------------------------------
  // Focus trap
  // ---------------------------------------------------------------------------

  /** An element of the drawer matching the focusable selectors. */
  datatype Element = Element(id: nat, disabled: bool)

  /** `document.activeElement`: its id and whether the drawer contains it. */
  datatype ActiveElement = ActiveElement(id: nat, inDrawer: bool)

  /** The candidates without a `disabled` attribute, in document order. */
  function Focusable(candidates: seq<Element>): (r: seq<Element>)
    ensures |r| <= |candidates|
    ensures forall i :: 0 <= i < |r| ==> r[i] in candidates && !r[i].disabled
    ensures forall i :: 0 <= i < |candidates| && !candidates[i].disabled ==> candidates[i] in r
    decreases |candidates|
  {
    if candidates == [] then []
    else if candidates[0].disabled then Focusable(candidates[1..])
    else [candidates[0]] + Focusable(candidates[1..])
  }

  /** The filter maps a single element to itself or to nothing. */
  lemma FocusableSingle(e: Element)
    ensures Focusable([e]) == if e.disabled then [] else [e]
  {
    assert [e][1..] == [];
  }

  /**
   * The filter keeps document order and duplicates: it distributes over
   * concatenation, which with `FocusableSingle` fixes the result on every
   * sequence.
   */
  lemma {:induction false} FocusableConcat(a: seq<Element>, b: seq<Element>)
    ensures Focusable(a + b) == Focusable(a) + Focusable(b)
    decreases |a|
  {
    if a == [] {
      assert a + b == b;
    } else {
      var ab := a + b;
      assert ab[0] == a[0] && ab[1..] == a[1..] + b;
      FocusableConcat(a[1..], b);
      if a[0].disabled {
        assert Focusable(ab) == Focusable(a[1..] + b);
      } else {
        assert Focusable(ab) == [a[0]] + (Focusable(a[1..]) + Focusable(b));
      }
    }
  }

  /** A run of disabled candidates contributes nothing. */
  lemma {:induction false} AllDisabledNone(c: seq<Element>)
    requires forall i :: 0 <= i < |c| ==> c[i].disabled
    ensures Focusable(c) == []
    decreases |c|
  {
    if c != [] {
      AllDisabledNone(c[1..]);
    }
  }

  /** The first focusable element is the first enabled candidate. */
  lemma {:induction false} FocusableFirst(c: seq<Element>, j: nat)
    requires j < |c| && !c[j].disabled
    requires forall i :: 0 <= i < j ==> c[i].disabled
    ensures Focusable(c) != [] && Focusable(c)[0] == c[j]
    decreases j
  {
    if j > 0 {
      FocusableFirst(c[1..], j - 1);
    }
  }

  /** The last focusable element is the last enabled candidate. */
  lemma FocusableLast(c: seq<Element>, j: nat)
    requires j < |c| && !c[j].disabled
    requires forall i :: j < i < |c| ==> c[i].disabled
    ensures Focusable(c) != [] && Focusable(c)[|Focusable(c)| - 1] == c[j]
  {
    assert c == (c[..j] + [c[j]]) + c[j + 1..];
    FocusableConcat(c[..j] + [c[j]], c[j + 1..]);
    FocusableConcat(c[..j], [c[j]]);
    AllDisabledNone(c[j + 1..]);
  }

  /**
   * The Tab rule: focus outside the drawer goes to the first element, Tab on
   * the last wraps to the first, Shift-Tab on the first wraps to the last;
   * otherwise the handler leaves focus to the browser (`None`).
   */
  function TabTarget(shiftKey: bool, focusable: seq<Element>, active: ActiveElement): Option<nat> {
    if focusable == [] then None
    else
      var first, last := focusable[0], focusable[|focusable| - 1];
      if !active.inDrawer then Some(first.id)
      else if !shiftKey && active.id == last.id then Some(first.id)
      else if shiftKey && active.id == first.id then Some(last.id)
      else None
  }

  /** The four cases of the Tab rule. */
  lemma TabRule(shiftKey: bool, f: seq<Element>, active: ActiveElement)
    ensures f == [] ==> TabTarget(shiftKey, f, active) == None
    ensures f != [] && !active.inDrawer ==> TabTarget(shiftKey, f, active) == Some(f[0].id)
    ensures f != [] && active.inDrawer && !shiftKey && active.id == f[|f| - 1].id ==>
              TabTarget(shiftKey, f, active) == Some(f[0].id)
    ensures f != [] && active.inDrawer && shiftKey && active.id == f[0].id ==>
              TabTarget(shiftKey, f, active) == Some(f[|f| - 1].id)
    ensures f != [] && active.inDrawer && (shiftKey || active.id != f[|f| - 1].id)
                    && (!shiftKey || active.id != f[0].id) ==>
              TabTarget(shiftKey, f, active) == None
  {
  }

  /** The trap: whenever the Tab handler moves focus, it moves it to an enabled candidate of the drawer. */
  lemma TabStaysInDrawer(shiftKey: bool, candidates: seq<Element>, active: ActiveElement)
    ensures var r := TabTarget(shiftKey, Focusable(candidates), active);
            r.Some? ==> exists i :: 0 <= i < |candidates| && candidates[i].id == r.value && !candidates[i].disabled
  {
  }

  /**
   * The effect on `isDrawerOpen`: an open, mounted drawer focuses its first
   * candidate, disabled or not (the effect does not filter); otherwise focus
   * does not move.
   */
  function InitialFocus(isDrawerOpen: bool, drawer: Option<seq<Element>>): (r: Option<nat>)
    ensures r.Some? <==> isDrawerOpen && drawer.Some? && drawer.value != []
    ensures r.Some? ==> r.value == drawer.value[0].id
  {
    if isDrawerOpen && drawer.Some? && drawer.value != [] then Some(drawer.value[0].id) else None
  }

  /**
   * When the first candidate is enabled, opening the drawer focuses the same
   * element as a Tab pressed from outside it.
   */
  lemma InitialFocusAgreesWithTab(c: seq<Element>, shiftKey: bool, outside: ActiveElement)
    requires c != [] && !outside.inDrawer
    ensures !c[0].disabled ==> InitialFocus(true, Some(c)) == TabTarget(shiftKey, Focusable(c), outside)
  {
    if !c[0].disabled {
      FocusableFirst(c, 0);
    }
  }

  // ---------------------------------------------------------------------------
  // The component
  // ---------------------------------------------------------------------------

  class NeoTalkMapView {
    /** The `defaultOpen` prop. */
    const defaultOpen: bool

    var isDrawerOpen: bool
    var activeTooltip: Option<PoiId>
    var activePoi: PoiId

    constructor (defaultOpen: bool)
      ensures this.defaultOpen == defaultOpen
      ensures isDrawerOpen == defaultOpen && activeTooltip == None && activePoi == Recepcao
    {
      this.defaultOpen := defaultOpen;
      isDrawerOpen := defaultOpen;
      activeTooltip := None;
      activePoi := Recepcao;
    }

    /**
     * The mount effects: an initially open drawer announces the active POI,
     * and an open drawer focuses its first candidate.
     */
    method OnMount(drawer: Option<seq<Element>>) returns (notified: Option<PoiId>, focus: Option<nat>)
      ensures defaultOpen ==> notified == Some(activePoi)
      ensures !defaultOpen ==> notified == None
      ensures focus == InitialFocus(isDrawerOpen, drawer)
    {
      notified := if defaultOpen then Some(activePoi) else None;
      focus := InitialFocus(isDrawerOpen, drawer);
    }

    /**
     * `setDrawerOpen(open)` followed by the effects on `isDrawerOpen`: when the
     * flag changes to closed, the tooltip is cleared; when it changes to open,
     * the drawer's first candidate is focused. Setting the value it already
     * has re-runs no effect.
     */
    method SetDrawerOpen(open: bool, drawer: Option<seq<Element>>) returns (focus: Option<nat>)
      modifies this`isDrawerOpen, this`activeTooltip
      ensures isDrawerOpen == open
      ensures old(isDrawerOpen) && !open ==> activeTooltip == None
      ensures !(old(isDrawerOpen) && !open) ==> activeTooltip == old(activeTooltip)
      ensures focus == if old(isDrawerOpen) != open then InitialFocus(open, drawer) else None
    {
      var changed := isDrawerOpen != open;
      isDrawerOpen := open;
      focus := None;
      if changed && !isDrawerOpen {
        activeTooltip := None;
      }
      if changed {
        focus := InitialFocus(isDrawerOpen, drawer);
      }
    }

    /** `closeTooltip(poiId)`, on leaving a pin: only that pin's tooltip closes. */
    method CloseTooltip(poiId: PoiId)
      modifies this`activeTooltip
      ensures old(activeTooltip) == Some(poiId) ==> activeTooltip == None
      ensures old(activeTooltip) != Some(poiId) ==> activeTooltip == old(activeTooltip)
    {
      if activeTooltip == Some(poiId) {
        activeTooltip := None;
      }
    }

    /** `handleKeyDown`: Escape closes the drawer, Tab wraps focus inside it. */
    method HandleKeyDown(key: string, shiftKey: bool, drawer: Option<seq<Element>>, active: ActiveElement)
      returns (focus: Option<nat>)
      modifies this`isDrawerOpen, this`activeTooltip
      ensures key == "Escape" ==> !isDrawerOpen
      ensures old(isDrawerOpen) && key == "Escape" ==> activeTooltip == None
      ensures !old(isDrawerOpen) || key != "Escape" ==>
                isDrawerOpen == old(isDrawerOpen) && activeTooltip == old(activeTooltip)
      ensures !old(isDrawerOpen) || key != "Tab" ==> focus == None
      ensures old(isDrawerOpen) && key == "Tab" ==>
                focus == (if drawer.Some? then TabTarget(shiftKey, Focusable(drawer.value), active) else None)
    {
      focus := None;
      if !isDrawerOpen {
        if key == "Escape" {
          focus := SetDrawerOpen(false, drawer);
        }
        return;
      }
      if key == "Escape" {
        focus := SetDrawerOpen(false, drawer);
        return;
      }
      if key == "Tab" {
        if drawer.None? {
          return;
        }
        var focusable := Focusable(drawer.value);
        if focusable == [] {
          return;
        }
        var first, last := focusable[0], focusable[|focusable| - 1];
        if !active.inDrawer {
          focus := Some(first.id);
          return;
        }
        if !shiftKey && active.id == last.id {
          focus := Some(first.id);
        } else if shiftKey && active.id == first.id {
          focus := Some(last.id);
        }
      }
    }

    /** `openDrawerForPoi(poiId)`; a closed drawer that opens takes focus. */
    method OpenDrawerForPoi(poiId: PoiId, drawer: Option<seq<Element>>) returns (notified: Option<PoiId>, focus: Option<nat>)
      modifies this`isDrawerOpen, this`activeTooltip, this`activePoi
      ensures activePoi == poiId && isDrawerOpen
      ensures activeTooltip == old(activeTooltip)
      ensures notified == Some(poiId)
      ensures focus == if old(isDrawerOpen) then None else InitialFocus(true, drawer)
    {
      activePoi := poiId;
      focus := SetDrawerOpen(true, drawer);
      notified := Some(poiId);
    }

    /**
     * `toggleDrawer`: flips the drawer, announces the active POI when it
     * opens, and focuses the drawer's first candidate when it opens.
     */
    method ToggleDrawer(drawer: Option<seq<Element>>) returns (notified: Option<PoiId>, focus: Option<nat>)
      modifies this`isDrawerOpen, this`activeTooltip
      ensures isDrawerOpen == !old(isDrawerOpen)
      ensures isDrawerOpen ==> notified == Some(activePoi) && activeTooltip == old(activeTooltip)
      ensures !isDrawerOpen ==> notified == None && activeTooltip == None
      ensures focus == InitialFocus(isDrawerOpen, drawer)
    {
      var next := !isDrawerOpen;
      notified := if next then Some(activePoi) else None;
      focus := SetDrawerOpen(next, drawer);
    }

    /** A click on a pin: always shows its tooltip; only an active POI opens the drawer. */
    method ClickPin(poi: Poi, drawer: Option<seq<Element>>) returns (notified: Option<PoiId>, focus: Option<nat>)
      requires poi in Pois
      modifies this`isDrawerOpen, this`activeTooltip, this`activePoi
      ensures activeTooltip == Some(poi.id)
      ensures poi.active ==> isDrawerOpen && activePoi == poi.id && notified == Some(poi.id)
      ensures poi.active ==> focus == if old(isDrawerOpen) then None else InitialFocus(true, drawer)
      ensures !poi.active ==>
                isDrawerOpen == old(isDrawerOpen) && activePoi == old(activePoi) && notified == None && focus == None
    {
      activeTooltip := Some(poi.id);
      notified, focus := None, None;
      if poi.active {
        notified, focus := OpenDrawerForPoi(poi.id, drawer);
      }
    }

    /** Focusing a pin shows its tooltip. */
    method FocusPin(poiId: PoiId)
      modifies this`activeTooltip
      ensures activeTooltip == Some(poiId)
    {
      activeTooltip := Some(poiId);
    }

    /**
     * A `mousedown` anywhere in the document: `target` says whether the event
     * has a target and, if so, whether it lies inside a pin. A press off every
     * pin closes the tooltip.
     */
    method MouseDownAnywhere(target: Option<bool>)
      modifies this`activeTooltip
      ensures target == Some(false) ==> activeTooltip == None
      ensures target != Some(false) ==> activeTooltip == old(activeTooltip)
    {
      if target.None? {
        return;
      }
      if !target.value {
        activeTooltip := None;
      }
    }

    /** The POI named in the drawer. */
    function CurrentPoiShown(): (p: Poi)
      reads this
      ensures p in Pois && p.id == activePoi
    {
      CurrentPoiOfTable(activePoi);
      CurrentPoiLookup(Pois, activePoi);
      CurrentPoi(Pois, activePoi)
    }
  }

  /** Clicking the inactive library pin never opens the drawer nor changes the active POI. */
  method LibraryPinScenario(defaultOpen: bool, drawer: Option<seq<Element>>) returns (notified: Option<PoiId>, focus: Option<nat>)
    ensures notified == None && focus == None
  {
    var m := new NeoTalkMapView(defaultOpen);
    notified, focus := m.ClickPin(Pois[2], drawer);
    assert m.isDrawerOpen == defaultOpen && m.activePoi == Recepcao;
    assert m.activeTooltip == Some(Biblioteca);
  }
}
