/**
 * The module-level state of script.js as an object whose handlers update it in
 * place. Each method is proved to produce the page that the matching function
 * of WizardSpec describes, and to keep the page consistent.
 */
module Wizard {
  import opened Options
  import opened Geo
  import opened Fares
  import opened Addresses
  import opened WizardSpec

  /** The card shown by `Shown(step)`: index of the first card marked active. */
  function ActiveIndex(cards: seq<bool>): (i: nat)
    ensures i <= |cards|
    ensures i < |cards| ==> cards[i]
    ensures forall j :: 0 <= j < i ==> !cards[j]
  {
    if cards == [] then 0
    else if cards[0] then 0
    else 1 + ActiveIndex(cards[1..])
  }

  /** The 'active' classes of the four step cards after `showStep(step)`. */
  function Shown(step: nat): seq<bool>
    requires step < 4
  {
    seq(4, i => i == step)
  }

  /** The step shown is recovered from the cards' classes. */
  lemma ActiveIndexOfShown(step: nat)
    requires step < 4
    ensures ActiveIndex(Shown(step)) == step
  {
    var i := ActiveIndex(Shown(step));
    assert Shown(step)[step];
    assert i <= step;
  }

  class FareWizard {
    var cards: array<bool>            // `stepCards[i].classList.contains('active')`
    var mapsInitialized: array<bool>
    var currentCoords: Option<Point>
    var destinationCoords: Option<Point>
    var next3Disabled: bool
    var next4Disabled: bool
    var currentMarker: Option<Point>
    var destinationMarker: Option<Point>
    var currentAddress: string
    var destinationAddress: string
    var loadingShown: bool
    var result: Option<FareResult>
    // How often each map has been created since the page loaded or was restarted.
    ghost var currentMapBuilds: nat
    ghost var destinationMapBuilds: nat

    /** The arrays have their sizes, and each map is built at most once per flag. */
    ghost predicate Wellformed()
      reads this, mapsInitialized
    {
      && cards.Length == 4
      && mapsInitialized.Length == 2
      && cards != mapsInitialized
      && currentMapBuilds == (if mapsInitialized[0] then 1 else 0)
      && destinationMapBuilds == (if mapsInitialized[1] then 1 else 0)
    }

    function Snapshot(): View
      reads this, cards, mapsInitialized
      requires cards.Length == 4 && mapsInitialized.Length == 2
    {
      View(ActiveIndex(cards[..]), currentCoords, destinationCoords, next3Disabled, next4Disabled,
           mapsInitialized[0], mapsInitialized[1], currentMarker, destinationMarker,
           currentAddress, destinationAddress, loadingShown, result)
    }

    /** Exactly one card is active and the page is consistent. */
    ghost predicate Valid()
      reads this, cards, mapsInitialized
    {
      && Wellformed()
      && ActiveIndex(cards[..]) < 4
      && cards[..] == Shown(ActiveIndex(cards[..]))
      && Consistent(Snapshot())
    }

    /** The step on screen: the one card with the 'active' class. */
    function Step(): (s: nat)
      reads this, cards, mapsInitialized
      requires Valid()
      ensures s < 4 && cards[s]
      ensures forall i :: 0 <= i < cards.Length && i != s ==> !cards[i]
    {
      var s := ActiveIndex(cards[..]);
      assert forall i :: 0 <= i < 4 ==> cards[i] == Shown(s)[i];
      s
    }

    /** Page load, ending with `showStep(0)` (script.js:35-39, 94). */
    constructor ()
      ensures Valid() && Snapshot() == Initial()
      ensures currentMapBuilds == 0 && destinationMapBuilds == 0
    {
      cards := new bool[4](_ => false);
      mapsInitialized := new bool[2](_ => false);
      currentCoords, destinationCoords := None, None;
      next3Disabled, next4Disabled := true, true;
      currentMarker, destinationMarker := None, None;
      currentAddress, destinationAddress := "", "";
      loadingShown := false;
      result := None;
      currentMapBuilds, destinationMapBuilds := 0, 0;
      new;
      ShowStep(0);
    }

    /**
     * `showStep(step)`: mark only card `step` active, re-disable the next button
     * of a location step, and create that step's map if it has not been created.
     */
    method ShowStep(step: nat)
      requires step < 4 && Wellformed()
      modifies this, cards, mapsInitialized
      ensures Wellformed() && cards == old(cards) && mapsInitialized == old(mapsInitialized)
      ensures cards[..] == Shown(step) && ActiveIndex(cards[..]) == step
      ensures Snapshot() == ShowStepSpec(old(Snapshot()), step)
      ensures currentMapBuilds == old(currentMapBuilds) + (if step == 1 && !old(mapsInitialized[0]) then 1 else 0)
      ensures destinationMapBuilds == old(destinationMapBuilds) + (if step == 2 && !old(mapsInitialized[1]) then 1 else 0)
    {
      ToggleActive(step);
      ActiveIndexOfShown(step);
      if step == 1 {
        next3Disabled := true;
      }
      if step == 2 {
        next4Disabled := true;
      }
      if step == 1 && !mapsInitialized[0] {
        currentMapBuilds := currentMapBuilds + 1;
        mapsInitialized[0] := true;
      }
      if step == 2 && !mapsInitialized[1] {
        destinationMapBuilds := destinationMapBuilds + 1;
        mapsInitialized[1] := true;
      }
    }

    /** The `stepCards.forEach` loop of `showStep`: only card `step` keeps the 'active' class. */
    method ToggleActive(step: nat)
      requires step < 4 && cards.Length == 4
      modifies cards
      ensures cards[..] == Shown(step)
    {
      for i := 0 to 4
        invariant forall k :: 0 <= k < i ==> cards[k] == (k == step)
      {
        cards[i] := i == step;
      }
    }

    /** The `toStep2Btn` handler (script.js:95-97). */
    method ToStep2()
      requires Valid()
      modifies this, cards, mapsInitialized
      ensures Valid() && cards == old(cards) && mapsInitialized == old(mapsInitialized)
      ensures Snapshot() == Apply(old(Snapshot()), ToStep2Clicked)
      ensures Step() == 1 && next3Disabled && currentMapBuilds == 1
    {
      ghost var before := Snapshot();
      ShowStep(1);
      ToStep2KeepsConsistent(before);
    }

    /** `setCurrentMarker(lat, lng)` (script.js:154-163), starting the address lookup. */
    method SetCurrentMarker(p: Point)
      requires Valid()
      modifies this
      ensures Valid() && cards == old(cards) && mapsInitialized == old(mapsInitialized)
      ensures currentMapBuilds == old(currentMapBuilds) && destinationMapBuilds == old(destinationMapBuilds)
      ensures Snapshot() == SetCurrentMarkerSpec(old(Snapshot()), p)
    {
      currentMarker := Some(p);
      currentCoords := Some(p);
      next3Disabled := false;
      currentAddress := LoadingText;
      loadingShown := true;
    }

    /** `setDestinationMarker(lat, lng)` (script.js:289-298), starting the address lookup. */
    method SetDestinationMarker(p: Point)
      requires Valid()
      modifies this
      ensures Valid() && cards == old(cards) && mapsInitialized == old(mapsInitialized)
      ensures currentMapBuilds == old(currentMapBuilds) && destinationMapBuilds == old(destinationMapBuilds)
      ensures Snapshot() == SetDestinationMarkerSpec(old(Snapshot()), p)
    {
      destinationMarker := Some(p);
      destinationCoords := Some(p);
      next4Disabled := false;
      destinationAddress := LoadingText;
      loadingShown := true;
    }

    /**
     * The click (script.js:115-123), search (136-147) and "locate me" (203-226)
     * handlers of the current-location step.
     */
    method PickCurrent(ev: PickEvent)
      requires Valid()
      modifies this
      ensures Valid() && cards == old(cards) && mapsInitialized == old(mapsInitialized)
      ensures currentMapBuilds == old(currentMapBuilds) && destinationMapBuilds == old(destinationMapBuilds)
      ensures Snapshot() == PickCurrentSpec(old(Snapshot()), ev)
    {
      if !mapsInitialized[0] {
        // No map: nothing to click or search, and `addTo(currentMap)` throws.
        return;
      }
      match AcceptedPoint(ev)
      case Some(p) =>
        SetCurrentMarker(p);
      case None =>
    }

    /**
     * The click (script.js:250-258), search (271-282) and "locate me" (319-342)
     * handlers of the destination step.
     */
    method PickDestination(ev: PickEvent)
      requires Valid()
      modifies this
      ensures Valid() && cards == old(cards) && mapsInitialized == old(mapsInitialized)
      ensures currentMapBuilds == old(currentMapBuilds) && destinationMapBuilds == old(destinationMapBuilds)
      ensures Snapshot() == PickDestinationSpec(old(Snapshot()), ev)
    {
      if !mapsInitialized[1] {
        // No map: nothing to click or search, and `addTo(destinationMap)` throws.
        return;
      }
      match AcceptedPoint(ev)
      case Some(p) =>
        SetDestinationMarker(p);
      case None =>
    }

    /** Completion of `updateCurrentAddress` (script.js:186-197). */
    method ResolveCurrentAddress(outcome: Lookup)
      requires Valid()
      modifies this
      ensures Valid() && cards == old(cards) && mapsInitialized == old(mapsInitialized)
      ensures currentMapBuilds == old(currentMapBuilds) && destinationMapBuilds == old(destinationMapBuilds)
      ensures Snapshot() == ResolveCurrentSpec(old(Snapshot()), outcome)
    {
      currentAddress := AddressText(outcome);
      loadingShown := false;
    }

    /** Completion of `updateDestinationAddress` (script.js:306-317). */
    method ResolveDestinationAddress(outcome: Lookup)
      requires Valid()
      modifies this
      ensures Valid() && cards == old(cards) && mapsInitialized == old(mapsInitialized)
      ensures currentMapBuilds == old(currentMapBuilds) && destinationMapBuilds == old(destinationMapBuilds)
      ensures Snapshot() == ResolveDestinationSpec(old(Snapshot()), outcome)
    {
      destinationAddress := AddressText(outcome);
      loadingShown := false;
    }

    /** The `toStep3Btn` handler (script.js:227-238). */
    method ToStep3() returns (advanced: bool)
      requires Valid()
      modifies this, cards, mapsInitialized
      ensures Valid() && cards == old(cards) && mapsInitialized == old(mapsInitialized)
      ensures advanced == MayEnterDestinationStep(old(Snapshot()))
      ensures Snapshot() == ToStep3Spec(old(Snapshot()))
      ensures !advanced ==> currentMapBuilds == old(currentMapBuilds) && destinationMapBuilds == old(destinationMapBuilds)
      ensures advanced ==> Step() == 2 && destinationMapBuilds == 1
    {
      ghost var before := Snapshot();
      if next3Disabled {
        return false;
      }
      if currentCoords.None? {
        return false;
      }
      ShowStep(2);
      ToStep3KeepsConsistent(before);
      advanced := true;
    }

    /**
     * The `toStep4Btn` handler (script.js:343-392), given the haversine
     * distance between the two points.
     */
    method ToStep4(distKm: real, passengers: int) returns (advanced: bool)
      requires distKm >= 0.0 && 1 <= passengers <= 3
      requires Valid()
      modifies this, cards, mapsInitialized
      ensures Valid() && cards == old(cards) && mapsInitialized == old(mapsInitialized)
      ensures currentMapBuilds == old(currentMapBuilds) && destinationMapBuilds == old(destinationMapBuilds)
      ensures advanced == MayEnterResultStep(old(Snapshot()))
      ensures Snapshot() == ToStep4Spec(old(Snapshot()), distKm, passengers)
      ensures advanced ==> Step() == 3 && result.Some? && result.value.fare == Fare(distKm, passengers)
    {
      ghost var before := Snapshot();
      if next4Disabled {
        return false;
      }
      if destinationCoords.None? {
        return false;
      }
      if currentCoords.None? {
        // `currentCoords.lat` throws: the handler stops before changing anything.
        return false;
      }
      var fare := Fare(distKm, passengers);
      result := Some(FareResult(distKm, passengers, fare, currentAddress, destinationAddress));
      ShowStep(3);
      ToStep4KeepsConsistent(before, distKm, passengers);
      advanced := true;
    }

    /** The restart handler (script.js:394-409). */
    method Restart()
      requires Valid()
      modifies this, cards
      ensures Valid() && cards == old(cards) && fresh(mapsInitialized)
      ensures Snapshot() == RestartSpec(old(Snapshot()))
      ensures Step() == 0 && currentCoords.None? && destinationCoords.None?
      ensures currentMapBuilds == 0 && destinationMapBuilds == 0
    {
      ghost var before := Snapshot();
      ForgetPoints();
      ShowStep(0);
      RestartKeepsConsistent(before);
    }

    /** The assignments of the restart handler before its `showStep(0)`; `mapsInitialized` gets a new array. */
    method ForgetPoints()
      requires Wellformed()
      modifies this
      ensures Wellformed() && cards == old(cards) && fresh(mapsInitialized)
      ensures !mapsInitialized[0] && !mapsInitialized[1]
      ensures currentCoords.None? && destinationCoords.None? && currentMarker.None? && destinationMarker.None?
      ensures next3Disabled && next4Disabled
      ensures currentAddress == old(currentAddress) && destinationAddress == old(destinationAddress)
      ensures loadingShown == old(loadingShown) && result == old(result)
    {
      currentCoords := None;
      destinationCoords := None;
      currentMarker := None;
      destinationMarker := None;
      mapsInitialized := new bool[2](_ => false);
      currentMapBuilds, destinationMapBuilds := 0, 0;
      next3Disabled := true;
      next4Disabled := true;
    }
  }
}
