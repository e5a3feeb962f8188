/** What the map page shows, as state: the markers with their active class and
    the glow on their dots, whether the content panel and the about panel are
    open, whether the map or the home page is shown, the page of the content
    panel and the location last shown. Each handler of the map, the panel and
    the buttons is a function from the state before to the state after. */
module Panel {
  import opened Basics
  import opened Locations

  /** The filter on a marker's dot: none, the hover glow or the active glow. */
  datatype Glow = NoGlow | HoverGlow | ActiveGlow

  datatype Marker = Marker(location: string, active: bool, glow: Glow)

  datatype View = View(
    markers: seq<Marker>,
    contentOpen: bool,
    aboutOpen: bool,
    mapShown: bool,
    page: int,
    currentLocation: Option<string>)

  /** The page as it loads: the home page, both panels closed. */
  function Initial(markers: seq<Marker>): (v: View)
    ensures !v.contentOpen && !v.aboutOpen && !v.mapShown && v.page == 0
  {
    View(markers, false, false, false, 0, None)
  }

  /** The markers of the overlay as the page loads: none active, none glowing. */
  function Unlit(locations: seq<string>): (r: seq<Marker>)
    ensures |r| == |locations|
    ensures forall j :: 0 <= j < |r| ==> r[j] == Marker(locations[j], false, NoGlow)
  {
    seq(|locations|, j requires 0 <= j < |locations| => Marker(locations[j], false, NoGlow))
  }

  /** A marker with its active class removed and its glow cleared. */
  function Cleared(m: Marker): Marker {
    m.(active := false, glow := NoGlow)
  }

  /** The markers after the clearing loop of `showLocation` and `closePanel`,
      with marker `i` (if any) then made active and glowing. */
  function Activated(ms: seq<Marker>, i: int): (r: seq<Marker>)
    ensures |r| == |ms|
    ensures forall j :: 0 <= j < |r| ==> r[j].location == ms[j].location
    ensures forall j :: 0 <= j < |r| ==> (r[j].active <==> j == i)
    ensures forall j :: 0 <= j < |r| ==> r[j].glow == (if j == i then ActiveGlow else NoGlow)
  {
    seq(|ms|, j requires 0 <= j < |ms| =>
      if j == i then ms[j].(active := true, glow := ActiveGlow) else Cleared(ms[j]))
  }

  /** `showLocation` for a click on marker `i`: nothing happens for a location
      without a record; otherwise the panel opens on the photos page with only
      this marker active, and the about panel closes. */
  function ShowLocation(v: View, data: LocationData, i: nat): View
    requires i < |v.markers|
  {
    var key := v.markers[i].location;
    if key !in data then v
    else v.(markers := Activated(v.markers, i), contentOpen := true, aboutOpen := false,
            page := 0, currentLocation := Some(key))
  }

  /** `closePanel`: the close button or a click on the panel's backdrop. */
  function ClosePanel(v: View): View {
    v.(markers := Activated(v.markers, -1), contentOpen := false, page := 0)
  }

  /** `highlightMarker`: hovering a marker's dot lights it unless it is active. */
  function Hover(v: View, i: nat): View
    requires i < |v.markers|
  {
    if v.markers[i].active then v
    else v.(markers := v.markers[i := v.markers[i].(glow := HoverGlow)])
  }

  /** Leaving a marker's dot clears its glow unless it is active. */
  function Leave(v: View, i: nat): View
    requires i < |v.markers|
  {
    if v.markers[i].active then v
    else v.(markers := v.markers[i := v.markers[i].(glow := NoGlow)])
  }

  /** `goToPage`: the page index is stored as given, without clamping. */
  function GoToPage(v: View, page: int): View {
    v.(page := page)
  }

  /** "Start exploring" and the feature cards. */
  function ShowMap(v: View): View {
    v.(mapShown := true)
  }

  /** The home button: back to the home page with both panels closed. */
  function GoHome(v: View): View {
    v.(mapShown := false, contentOpen := false, aboutOpen := false)
  }

  /** The info button: closes the content panel and toggles the about panel. */
  function ToggleInfo(v: View): View {
    v.(contentOpen := false, aboutOpen := !v.aboutOpen)
  }

  /** The about panel's close button, or a click on its backdrop. */
  function CloseAbout(v: View): View {
    v.(aboutOpen := false)
  }

  /** The Escape key closes whichever panel is open. */
  function Escape(v: View): View {
    v.(contentOpen := false, aboutOpen := false)
  }

  /** Every handler, for reasoning about sequences of them. */
  datatype Action =
    | ClickMarker(i: nat) | ClosePanelAction | HoverMarker(i: nat) | LeaveMarker(i: nat)
    | NavigateTo(page: int) | ShowMapAction | GoHomeAction | ToggleInfoAction
    | CloseAboutAction | EscapeAction

  function Apply(v: View, data: LocationData, a: Action): View {
    match a
    case ClickMarker(i) => if i < |v.markers| then ShowLocation(v, data, i) else v
    case ClosePanelAction => ClosePanel(v)
    case HoverMarker(i) => if i < |v.markers| then Hover(v, i) else v
    case LeaveMarker(i) => if i < |v.markers| then Leave(v, i) else v
    case NavigateTo(p) => GoToPage(v, p)
    case ShowMapAction => ShowMap(v)
    case GoHomeAction => GoHome(v)
    case ToggleInfoAction => ToggleInfo(v)
    case CloseAboutAction => CloseAbout(v)
    case EscapeAction => Escape(v)
  }

  function ApplyAll(v: View, data: LocationData, actions: seq<Action>): View
    decreases |actions|
  {
    if actions == [] then v else ApplyAll(Apply(v, data, actions[0]), data, actions[1..])
  }

  // ------------------------------------------------------------ properties

  /** A click on a marker whose location has no record changes nothing. */
  lemma ShowLocationUnknown(v: View, data: LocationData, i: nat)
    requires i < |v.markers| && v.markers[i].location !in data
    ensures ShowLocation(v, data, i) == v
  {
  }

  /** A click on a marker with a record: exactly that marker is active and
      glowing, the panel is open on page 0, the about panel is closed, and the
      location is remembered. */
  lemma ShowLocationOpensPanel(v: View, data: LocationData, i: nat)
    requires i < |v.markers| && v.markers[i].location in data
    ensures var r := ShowLocation(v, data, i);
      && |r.markers| == |v.markers|
      && (forall j :: 0 <= j < |r.markers| ==> (r.markers[j].active <==> j == i))
      && r.markers[i].glow == ActiveGlow
      && (forall j :: 0 <= j < |r.markers| && j != i ==> r.markers[j].glow == NoGlow)
      && r.page == 0 && r.contentOpen && !r.aboutOpen && r.mapShown == v.mapShown
      && r.currentLocation == Some(v.markers[i].location)
  {
  }

  /** Closing the panel leaves no marker active or glowing and the page at 0. */
  lemma ClosePanelClears(v: View)
    ensures var r := ClosePanel(v);
      && !r.contentOpen && r.page == 0 && |r.markers| == |v.markers|
      && forall j :: 0 <= j < |r.markers| ==> !r.markers[j].active && r.markers[j].glow == NoGlow
  {
  }

  /** Hovering an inactive, unlit marker and leaving it restores the view. */
  lemma HoverThenLeave(v: View, i: nat)
    requires i < |v.markers| && !v.markers[i].active && v.markers[i].glow == NoGlow
    ensures Leave(Hover(v, i), i) == v
  {
    assert v.markers[i := v.markers[i]] == v.markers;
  }

  /** The invariants of the page: the two panels are never open together, at
      most one marker is active, and a marker is active exactly when it shows
      the active glow. */
  predicate Consistent(v: View) {
    && !(v.contentOpen && v.aboutOpen)
    && (forall j, k :: 0 <= j < k < |v.markers| ==> !(v.markers[j].active && v.markers[k].active))
    && (forall j :: 0 <= j < |v.markers| ==> (v.markers[j].active <==> v.markers[j].glow == ActiveGlow))
  }

  lemma InitialConsistent(markers: seq<Marker>)
    requires forall j :: 0 <= j < |markers| ==> !markers[j].active && markers[j].glow == NoGlow
    ensures Consistent(Initial(markers))
  {
  }

  /** Every handler keeps the page consistent. */
  lemma ApplyKeepsConsistent(v: View, data: LocationData, a: Action)
    requires Consistent(v)
    ensures Consistent(Apply(v, data, a))
  {
    match a
    case HoverMarker(i) =>
      if i < |v.markers| && !v.markers[i].active {
        var r := Hover(v, i);
        assert forall j :: 0 <= j < |r.markers| ==> r.markers[j].active == v.markers[j].active;
      }
    case LeaveMarker(i) =>
      if i < |v.markers| && !v.markers[i].active {
        var r := Leave(v, i);
        assert forall j :: 0 <= j < |r.markers| ==> r.markers[j].active == v.markers[j].active;
      }
    case _ =>
  }

  /** From a consistent page, any sequence of handlers never opens both panels
      together, and at most one marker is ever active. */
  lemma {:induction false} ApplyAllKeepsConsistent(v: View, data: LocationData, actions: seq<Action>)
    requires Consistent(v)
    ensures Consistent(ApplyAll(v, data, actions))
    ensures |ApplyAll(v, data, actions).markers| == |v.markers|
    decreases |actions|
  {
    if actions != [] {
      ApplyKeepsConsistent(v, data, actions[0]);
      ApplyKeepsMarkerCount(v, data, actions[0]);
      ApplyAllKeepsConsistent(Apply(v, data, actions[0]), data, actions[1..]);
    }
  }

  lemma ApplyKeepsMarkerCount(v: View, data: LocationData, a: Action)
    ensures |Apply(v, data, a).markers| == |v.markers|
  {
  }
}
