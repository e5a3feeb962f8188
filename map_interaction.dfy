/** `MapInteraction` and the page-level handlers, as an object whose fields are
    the state the site keeps in the DOM and in closures: the marker classes and
    glows, the two panels, the home/map switch, the panel's current page
    (`data-current`) and the closure variables of the swipe handlers. Every
    handler is a method proved to leave exactly the state the matching function
    of `Panel` or `Swipe` describes. */
module MapView {
  import opened Basics
  import opened Locations
  import Panel
  import Swipe

  class MapInteraction {
    const locationData: LocationData
    const allCrafts: seq<string>
    const locationNames: seq<string>
    /** The marker elements, in document order. */
    const markers: array<Panel.Marker>
    var contentOpen: bool
    var aboutOpen: bool
    var mapShown: bool
    var page: int
    var currentLocation: Option<string>
    // the closure variables of the current swipe handlers
    var isDragging: bool
    var hasMoved: bool
    var startX: int
    var currentX: int

    function PanelView(): Panel.View
      reads this, markers
    {
      Panel.View(markers[..], contentOpen, aboutOpen, mapShown, page, currentLocation)
    }

    function SwipeView(): Swipe.SwipeState
      reads this
    {
      Swipe.SwipeState(Swipe.Gesture(isDragging, hasMoved, startX, currentX), page)
    }

    /** The constructor: the parsed location records and the markers of the
        overlay, none of them active yet. */
    constructor (records: seq<Record>, markerLocations: seq<string>)
      requires DistinctKeys(records)
      ensures locationData == LocationMap(records)
      ensures allCrafts == AllCrafts(Values(records))
      ensures locationNames == LocationNames(Values(records))
      ensures fresh(markers)
      ensures PanelView() == Panel.Initial(Panel.Unlit(markerLocations))
      ensures SwipeView().gesture == Swipe.Idle
      ensures Panel.Consistent(PanelView())
    {
      locationData := LocationMap(records);
      allCrafts := AllCrafts(Values(records));
      locationNames := LocationNames(Values(records));
      var unlit := Panel.Unlit(markerLocations);
      markers := new Panel.Marker[|unlit|](j requires 0 <= j < |unlit| => unlit[j]);
      contentOpen, aboutOpen, mapShown, page, currentLocation := false, false, false, 0, None;
      isDragging, hasMoved, startX, currentX := false, false, 0, 0;
      new;
      assert markers[..] == unlit;
      Panel.InitialConsistent(unlit);
    }

    /** The loop of `showLocation` and `closePanel` that removes the active class
        and the glow from every marker. */
    method ClearMarkers()
      modifies markers
      ensures forall j :: 0 <= j < markers.Length ==> markers[j] == Panel.Cleared(old(markers[j]))
    {
      var j := 0;
      while j < markers.Length
        invariant j <= markers.Length
        invariant forall k :: 0 <= k < j ==> markers[k] == Panel.Cleared(old(markers[k]))
        invariant forall k :: j <= k < markers.Length ==> markers[k] == old(markers[k])
      {
        markers[j] := Panel.Cleared(markers[j]);
        j := j + 1;
      }
    }

    /** The clearing loop followed by marking marker `i` active and glowing. */
    method MarkOnlyActive(i: nat)
      requires i < markers.Length
      modifies markers
      ensures markers[..] == Panel.Activated(old(markers[..]), i)
    {
      ClearMarkers();
      markers[i] := markers[i].(active := true, glow := Panel.ActiveGlow);
    }

    /** `showLocation` after a click on marker `i`. Setting up the panel also
        installs fresh swipe handlers, whose drag has not started. */
    method ShowLocation(i: nat)
      requires i < markers.Length
      modifies this, markers
      ensures PanelView() == Panel.ShowLocation(old(PanelView()), locationData, i)
      ensures markers[i].location in locationData ==> SwipeView().gesture == Swipe.Idle
      ensures markers[i].location !in locationData ==> SwipeView() == old(SwipeView())
      ensures old(Panel.Consistent(PanelView())) ==> Panel.Consistent(PanelView())
    {
      ghost var before := PanelView();
      var key := markers[i].location;
      if key in locationData {
        currentLocation := Some(key);
        page := 0;
        MarkOnlyActive(i);
        aboutOpen := false;
        contentOpen := true;
        isDragging, hasMoved, startX, currentX := false, false, 0, 0;
      }
      if Panel.Consistent(before) {
        Panel.ApplyKeepsConsistent(before, locationData, Panel.ClickMarker(i));
      }
    }

    /** `closePanel`. */
    method ClosePanel()
      modifies this, markers
      ensures PanelView() == Panel.ClosePanel(old(PanelView()))
      ensures SwipeView().gesture == old(SwipeView().gesture)
      ensures old(Panel.Consistent(PanelView())) ==> Panel.Consistent(PanelView())
    {
      ghost var before := PanelView();
      contentOpen := false;
      page := 0;
      ClearMarkers();
      assert markers[..] == Panel.Activated(before.markers, -1);
      if Panel.Consistent(before) {
        Panel.ApplyKeepsConsistent(before, locationData, Panel.ClosePanelAction);
      }
    }

    /** `highlightMarker`, on entering marker `i`'s dot. */
    method HighlightMarker(i: nat)
      requires i < markers.Length
      modifies markers
      ensures PanelView() == Panel.Hover(old(PanelView()), i)
    {
      if !markers[i].active {
        markers[i] := markers[i].(glow := Panel.HoverGlow);
      }
    }

    /** Leaving marker `i`'s dot. */
    method LeaveMarker(i: nat)
      requires i < markers.Length
      modifies markers
      ensures PanelView() == Panel.Leave(old(PanelView()), i)
    {
      if !markers[i].active {
        markers[i] := markers[i].(glow := Panel.NoGlow);
      }
    }

    /** `goToPage`, from a navigation button (the parsed `data-next` or
        `data-prev`) or a swipe. */
    method GoToPage(pageIndex: int)
      modifies this
      ensures PanelView() == Panel.GoToPage(old(PanelView()), pageIndex)
      ensures SwipeView().gesture == old(SwipeView().gesture)
    {
      page := pageIndex;
    }

    method ShowMap()
      modifies this
      ensures PanelView() == Panel.ShowMap(old(PanelView()))
      ensures SwipeView() == old(SwipeView())
    {
      mapShown := true;
    }

    method GoHome()
      modifies this
      ensures PanelView() == Panel.GoHome(old(PanelView()))
      ensures SwipeView() == old(SwipeView())
    {
      mapShown := false;
      contentOpen := false;
      aboutOpen := false;
    }

    method ToggleInfo()
      modifies this
      ensures PanelView() == Panel.ToggleInfo(old(PanelView()))
      ensures SwipeView() == old(SwipeView())
    {
      contentOpen := false;
      aboutOpen := !aboutOpen;
    }

    method CloseAbout()
      modifies this
      ensures PanelView() == Panel.CloseAbout(old(PanelView()))
      ensures SwipeView() == old(SwipeView())
    {
      aboutOpen := false;
    }

    method Escape()
      modifies this
      ensures PanelView() == Panel.Escape(old(PanelView()))
      ensures SwipeView() == old(SwipeView())
    {
      if contentOpen {
        contentOpen := false;
      }
      if aboutOpen {
        aboutOpen := false;
      }
    }

    /** `handleStart`. */
    method HandleStart(x: int)
      modifies this
      ensures SwipeView() == Swipe.Step(old(SwipeView()), Swipe.Press(x))
      ensures PanelView() == old(PanelView())
    {
      isDragging := true;
      hasMoved := false;
      startX := x;
      currentX := startX;
    }

    /** `handleMove`. */
    method HandleMove(x: int)
      modifies this
      ensures SwipeView() == Swipe.Step(old(SwipeView()), Swipe.Drag(x))
      ensures PanelView() == old(PanelView())
    {
      if !isDragging {
        return;
      }
      currentX := x;
      var diff := currentX - startX;
      if Swipe.Abs(diff) < Swipe.Deadzone {
        return;
      }
      hasMoved := true;
    }

    /** `handleEnd`. */
    method HandleEnd()
      modifies this
      ensures SwipeView() == Swipe.Step(old(SwipeView()), Swipe.Release)
      ensures PanelView() == old(PanelView()).(page := SwipeView().page)
    {
      if !isDragging {
        return;
      }
      isDragging := false;
      var diff := currentX - startX;
      var currentPage := page;
      if !hasMoved || Swipe.Abs(diff) < Swipe.SnapDistance {
        return;
      }
      if diff > Swipe.TurnDistance && currentPage < Swipe.LastPage {
        GoToPage(currentPage + 1);
      } else if diff < -Swipe.TurnDistance && currentPage > 0 {
        GoToPage(currentPage - 1);
      }
    }
  }
}
