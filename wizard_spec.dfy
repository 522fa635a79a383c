/**
 * The wizard's page state as a value, and each event handler of script.js as a
 * function from the state before to the state after. The class in wizard.dfy
 * updates the same state in place and is proved to agree with these functions.
 */
module WizardSpec {
  import opened Options
  import opened Geo
  import opened Fares
  import opened Addresses

  /** What the result panel shows after "Show fare" (script.js:354-390). */
  datatype FareResult = FareResult(
    distanceKm: real,
    passengers: int,
    fare: int,
    currentAddress: string,
    destinationAddress: string)

  /** Everything the handlers read or write. `step` is the card carrying the 'active' class. */
  datatype View = View(
    step: nat,
    currentCoords: Option<Point>,
    destinationCoords: Option<Point>,
    next3Disabled: bool,              // toStep3Btn has the 'disabled' class
    next4Disabled: bool,              // toStep4Btn has the 'disabled' class
    currentMapInitialized: bool,      // mapsInitialized[0]
    destinationMapInitialized: bool,  // mapsInitialized[1]
    currentMarker: Option<Point>,     // position of currentMarker, None when null
    destinationMarker: Option<Point>,
    currentAddress: string,           // text of #currentAddress
    destinationAddress: string,       // text of #destinationAddress
    loadingShown: bool,               // #loadingOverlay is displayed
    result: Option<FareResult>)       // contents of #result

  /** The page after `showStep(0)` at load: nothing picked, both next buttons disabled. */
  function Initial(): View {
    View(0, None, None, true, true, false, false, None, None, "", "", false, None)
  }

  predicate GoodResult(r: FareResult) {
    r.distanceKm >= 0.0 && 1 <= r.passengers <= 3 && r.fare == Fare(r.distanceKm, r.passengers)
  }

  /**
   * What holds on every page the handlers can produce: one step is shown, each
   * marker sits at its step's coordinates, an enabled next button means its point
   * is set, the later steps are only shown once their points exist, and the
   * result panel holds a fare computed by the fare rule.
   */
  predicate Consistent(v: View) {
    && v.step < 4
    && v.currentMarker == v.currentCoords
    && v.destinationMarker == v.destinationCoords
    && (!v.next3Disabled ==> v.currentCoords.Some?)
    && (!v.next4Disabled ==> v.destinationCoords.Some?)
    && (v.step == 1 ==> v.currentMapInitialized)
    && (v.step == 2 ==> v.destinationMapInitialized)
    && (v.step >= 2 ==> v.currentCoords.Some?)
    && (v.step == 3 ==> v.destinationCoords.Some? && v.result.Some?)
    && (v.result.Some? ==> GoodResult(v.result.value))
  }

  /** `showStep(step)` (script.js:41-91), without its presentation and timers. */
  function ShowStepSpec(v: View, step: nat): View
    requires step < 4
  {
    v.(step := step,
       next3Disabled := v.next3Disabled || step == 1,
       next4Disabled := v.next4Disabled || step == 2,
       currentMapInitialized := v.currentMapInitialized || step == 1,
       destinationMapInitialized := v.destinationMapInitialized || step == 2)
  }

  /** `setCurrentMarker(lat, lng)` (script.js:154-163) up to the start of the lookup. */
  function SetCurrentMarkerSpec(v: View, p: Point): View {
    v.(currentMarker := Some(p), currentCoords := Some(p), next3Disabled := false,
       currentAddress := LoadingText, loadingShown := true)
  }

  /** `setDestinationMarker(lat, lng)` (script.js:289-298) up to the start of the lookup. */
  function SetDestinationMarkerSpec(v: View, p: Point): View {
    v.(destinationMarker := Some(p), destinationCoords := Some(p), next4Disabled := false,
       destinationAddress := LoadingText, loadingShown := true)
  }

  /**
   * The click, search and geolocation handlers of the current-location map.
   * Without a map there is nothing to click or search, and a late geolocation
   * fix makes `setCurrentMarker` throw at `addTo(currentMap)` (script.js:156)
   * before it changes anything.
   */
  function PickCurrentSpec(v: View, ev: PickEvent): View {
    if !v.currentMapInitialized then v
    else
      match AcceptedPoint(ev)
      case Some(p) => SetCurrentMarkerSpec(v, p)
      case None => v
  }

  /** The same for the destination map, where the throw is at script.js:291. */
  function PickDestinationSpec(v: View, ev: PickEvent): View {
    if !v.destinationMapInitialized then v
    else
      match AcceptedPoint(ev)
      case Some(p) => SetDestinationMarkerSpec(v, p)
      case None => v
  }

  /** The `then`/`catch` completion of `updateCurrentAddress`. */
  function ResolveCurrentSpec(v: View, outcome: Lookup): View {
    v.(currentAddress := AddressText(outcome), loadingShown := false)
  }

  /** The `then`/`catch` completion of `updateDestinationAddress`. */
  function ResolveDestinationSpec(v: View, outcome: Lookup): View {
    v.(destinationAddress := AddressText(outcome), loadingShown := false)
  }

  /** The two guards of the `toStep3Btn` handler (script.js:227-236). */
  predicate MayEnterDestinationStep(v: View) {
    !v.next3Disabled && v.currentCoords.Some?
  }

  function ToStep3Spec(v: View): View {
    if MayEnterDestinationStep(v) then ShowStepSpec(v, 2) else v
  }

  /**
   * The guards of the `toStep4Btn` handler (script.js:343-354): the two explicit
   * ones, and `currentCoords.lat` in the haversine call, which throws on null.
   */
  predicate MayEnterResultStep(v: View) {
    !v.next4Disabled && v.destinationCoords.Some? && v.currentCoords.Some?
  }

  function ToStep4Spec(v: View, distKm: real, passengers: int): View
    requires distKm >= 0.0 && 1 <= passengers <= 3
  {
    if MayEnterResultStep(v) then
      var r := FareResult(distKm, passengers, Fare(distKm, passengers),
                          v.currentAddress, v.destinationAddress);
      ShowStepSpec(v.(result := Some(r)), 3)
    else v
  }

  /** The restart handler (script.js:394-409). */
  function RestartSpec(v: View): View {
    ShowStepSpec(v.(currentCoords := None, destinationCoords := None,
                    currentMarker := None, destinationMarker := None,
                    currentMapInitialized := false, destinationMapInitialized := false,
                    next3Disabled := true, next4Disabled := true), 0)
  }

  /** Everything the page reacts to. */
  datatype Event =
    | ToStep2Clicked
    | CurrentPicked(ev: PickEvent)
    | DestinationPicked(ev: PickEvent)
    | CurrentAddressResolved(outcome: Lookup)
    | DestinationAddressResolved(outcome: Lookup)
    | ToStep3Clicked
    | ToStep4Clicked(distKm: real, passengers: int)
    | RestartClicked

  /** The distance is never negative and the selector offers only 1, 2 or 3. */
  predicate EventOk(e: Event) {
    e.ToStep4Clicked? ==> e.distKm >= 0.0 && 1 <= e.passengers <= 3
  }

  function Apply(v: View, e: Event): View
    requires EventOk(e)
  {
    match e
    case ToStep2Clicked => ShowStepSpec(v, 1)
    case CurrentPicked(ev) => PickCurrentSpec(v, ev)
    case DestinationPicked(ev) => PickDestinationSpec(v, ev)
    case CurrentAddressResolved(o) => ResolveCurrentSpec(v, o)
    case DestinationAddressResolved(o) => ResolveDestinationSpec(v, o)
    case ToStep3Clicked => ToStep3Spec(v)
    case ToStep4Clicked(d, n) => ToStep4Spec(v, d, n)
    case RestartClicked => RestartSpec(v)
  }

  function Run(v: View, events: seq<Event>): View
    requires forall i :: 0 <= i < |events| ==> EventOk(events[i])
    decreases |events|
  {
    if events == [] then v else Run(Apply(v, events[0]), events[1..])
  }

  // ---------------------------------------------------------------- lemmas

  lemma ToStep2KeepsConsistent(v: View)
    requires Consistent(v)
    ensures Consistent(ShowStepSpec(v, 1))
  {
  }

  lemma PickKeepsConsistent(v: View, ev: PickEvent)
    requires Consistent(v)
    ensures Consistent(PickCurrentSpec(v, ev))
    ensures Consistent(PickDestinationSpec(v, ev))
  {
  }

  lemma ResolveKeepsConsistent(v: View, outcome: Lookup)
    requires Consistent(v)
    ensures Consistent(ResolveCurrentSpec(v, outcome))
    ensures Consistent(ResolveDestinationSpec(v, outcome))
  {
  }

  lemma ToStep3KeepsConsistent(v: View)
    requires Consistent(v)
    ensures Consistent(ToStep3Spec(v))
  {
  }

  lemma ToStep4KeepsConsistent(v: View, distKm: real, passengers: int)
    requires Consistent(v)
    requires distKm >= 0.0 && 1 <= passengers <= 3
    ensures Consistent(ToStep4Spec(v, distKm, passengers))
  {
  }

  lemma RestartKeepsConsistent(v: View)
    requires Consistent(v)
    ensures Consistent(RestartSpec(v))
  {
  }

  /** Every handler keeps the page consistent. */
  lemma ApplyKeepsConsistent(v: View, e: Event)
    requires Consistent(v) && EventOk(e)
    ensures Consistent(Apply(v, e))
  {
    match e
    case ToStep2Clicked => ToStep2KeepsConsistent(v);
    case CurrentPicked(ev) => PickKeepsConsistent(v, ev);
    case DestinationPicked(ev) => PickKeepsConsistent(v, ev);
    case CurrentAddressResolved(o) => ResolveKeepsConsistent(v, o);
    case DestinationAddressResolved(o) => ResolveKeepsConsistent(v, o);
    case ToStep3Clicked => ToStep3KeepsConsistent(v);
    case ToStep4Clicked(d, n) => ToStep4KeepsConsistent(v, d, n);
    case RestartClicked => RestartKeepsConsistent(v);
  }

  /** Any sequence of events keeps the page consistent. */
  lemma {:induction false} RunKeepsConsistent(v: View, events: seq<Event>)
    requires Consistent(v)
    requires forall i :: 0 <= i < |events| ==> EventOk(events[i])
    ensures Consistent(Run(v, events))
    decreases |events|
  {
    if events != [] {
      ApplyKeepsConsistent(v, events[0]);
      RunKeepsConsistent(Apply(v, events[0]), events[1..]);
    }
  }

  /** Every page reachable from the loaded page is consistent. */
  lemma {:induction false} ReachableIsConsistent(events: seq<Event>)
    requires forall i :: 0 <= i < |events| ==> EventOk(events[i])
    ensures Consistent(Run(Initial(), events))
  {
    RunKeepsConsistent(Initial(), events);
  }

  /** "Next" on the passenger step has no guard: it always shows step 1 with its button disabled. */
  lemma ToStep2Unguarded(v: View)
    ensures Apply(v, ToStep2Clicked).step == 1
    ensures Apply(v, ToStep2Clicked).next3Disabled
    ensures Apply(v, ToStep2Clicked).currentMapInitialized
  {
  }

  /**
   * Showing a step twice is the same as showing it once: re-entering a step
   * re-disables its next button and does not initialise its map again.
   */
  lemma ShowStepIdempotent(v: View, step: nat)
    requires step < 4
    ensures ShowStepSpec(ShowStepSpec(v, step), step) == ShowStepSpec(v, step)
  {
  }

  /** A rejected "Next" changes nothing; an accepted one shows the destination step. */
  lemma ToStep3Guard(v: View)
    ensures !MayEnterDestinationStep(v) ==> ToStep3Spec(v) == v
    ensures MayEnterDestinationStep(v) ==>
      ToStep3Spec(v).step == 2 && ToStep3Spec(v).next4Disabled
  {
  }

  /** A rejected "Show fare" changes nothing; an accepted one shows the fare for the distance. */
  lemma ToStep4Guard(v: View, distKm: real, passengers: int)
    requires distKm >= 0.0 && 1 <= passengers <= 3
    ensures !MayEnterResultStep(v) ==> ToStep4Spec(v, distKm, passengers) == v
    ensures MayEnterResultStep(v) ==>
      var w := ToStep4Spec(v, distKm, passengers);
      w.step == 3 && w.result.Some? && w.result.value.fare == Fare(distKm, passengers)
  {
  }

  /** A click or search outside the region leaves the page as it was. */
  lemma PickOutsideRegionIgnored(v: View, p: Point)
    requires !InZamboanga(p)
    ensures PickCurrentSpec(v, MapClick(p)) == v && PickCurrentSpec(v, SearchResult(p)) == v
    ensures PickDestinationSpec(v, MapClick(p)) == v && PickDestinationSpec(v, SearchResult(p)) == v
  {
  }

  /** A failed or unsupported geolocation leaves the page as it was. */
  lemma FailedGeolocationIgnored(v: View, fix: Fix)
    requires !fix.Located?
    ensures PickCurrentSpec(v, Geolocation(fix)) == v
    ensures PickDestinationSpec(v, Geolocation(fix)) == v
  {
  }

  /** A pick on a step whose map does not exist, for instance a fix arriving after Restart, changes nothing. */
  lemma PickWithoutMapIgnored(v: View, ev: PickEvent)
    ensures !v.currentMapInitialized ==> PickCurrentSpec(v, ev) == v
    ensures !v.destinationMapInitialized ==> PickDestinationSpec(v, ev) == v
  {
  }

  /**
   * An accepted pick on an existing map replaces the marker: afterwards the
   * single marker of that step sits at the new point, whatever was there
   * before, and its next button is enabled. The other step is untouched.
   */
  lemma AcceptedPickReplacesMarker(v: View, ev: PickEvent)
    requires AcceptedPoint(ev).Some?
    ensures v.currentMapInitialized ==>
      var w := PickCurrentSpec(v, ev);
      && w.currentMarker == w.currentCoords == AcceptedPoint(ev)
      && !w.next3Disabled && w.step == v.step
      && w.destinationCoords == v.destinationCoords && w.destinationMarker == v.destinationMarker
    ensures v.destinationMapInitialized ==>
      var w := PickDestinationSpec(v, ev);
      && w.destinationMarker == w.destinationCoords == AcceptedPoint(ev)
      && !w.next4Disabled && w.step == v.step
      && w.currentCoords == v.currentCoords && w.currentMarker == v.currentMarker
  {
  }

  /**
   * After an accepted pick on an existing map the address paragraph reads
   * "Loading address..." with the overlay shown; it ends with the text for the
   * lookup's outcome and the overlay hidden, whichever way the lookup completes.
   * The lookup touches neither the step nor the next button.
   */
  lemma PickThenResolveCurrent(v: View, ev: PickEvent, outcome: Lookup)
    requires v.currentMapInitialized && AcceptedPoint(ev).Some?
    ensures PickCurrentSpec(v, ev).currentAddress == LoadingText
    ensures PickCurrentSpec(v, ev).loadingShown
    ensures var w := ResolveCurrentSpec(PickCurrentSpec(v, ev), outcome);
      && !w.loadingShown && !w.next3Disabled && w.step == v.step
      && w.currentCoords == AcceptedPoint(ev)
      && (outcome.FetchFailed? ==> w.currentAddress == FetchFailedText)
      && (outcome.NoName? ==> w.currentAddress == NotFoundText)
      && (outcome.Answered? && outcome.displayName == [] ==> w.currentAddress == NotFoundText)
      && (outcome.Answered? && outcome.displayName != [] ==>
            w.currentAddress == Shorten(outcome.displayName))
  {
  }

  /** The same for the destination paragraph. */
  lemma PickThenResolveDestination(v: View, ev: PickEvent, outcome: Lookup)
    requires v.destinationMapInitialized && AcceptedPoint(ev).Some?
    ensures PickDestinationSpec(v, ev).destinationAddress == LoadingText
    ensures PickDestinationSpec(v, ev).loadingShown
    ensures var w := ResolveDestinationSpec(PickDestinationSpec(v, ev), outcome);
      && !w.loadingShown && !w.next4Disabled && w.step == v.step
      && w.destinationCoords == AcceptedPoint(ev)
      && (outcome.FetchFailed? ==> w.destinationAddress == FetchFailedText)
      && (outcome.NoName? ==> w.destinationAddress == NotFoundText)
      && (outcome.Answered? && outcome.displayName == [] ==> w.destinationAddress == NotFoundText)
      && (outcome.Answered? && outcome.displayName != [] ==>
            w.destinationAddress == Shorten(outcome.displayName))
  {
  }

  /**
   * Restart, from any step, returns to the loaded page except for what the
   * handler leaves alone: the two address texts, the loading overlay and the
   * result panel.
   */
  lemma RestartResets(v: View)
    ensures RestartSpec(v) == Initial().(currentAddress := v.currentAddress,
                                         destinationAddress := v.destinationAddress,
                                         loadingShown := v.loadingShown,
                                         result := v.result)
  {
  }

  /** Once at the result step, the panel shows a fare of at least 35 ending in 5. */
  lemma ResultStepShowsFare(v: View)
    requires Consistent(v) && v.step == 3
    ensures v.result.Some?
    ensures v.result.value.fare >= 35 && v.result.value.fare % 10 == 5
  {
  }
}
