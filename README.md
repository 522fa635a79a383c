# ZamboFareCalculator — a Dafny model of the fare wizard

ZamboFareCalculator is a browser page that estimates tricycle fares inside Zamboanga City.
It is a four-step wizard:

1. choose the passenger count;
2. pick the current location on a map;
3. pick the destination;
4. read the fare.

This project models the sequential logic of `script.js`:

- **`fares.dfy`**: the fare rule. It charges 35 for the first kilometre, adds a flat 10 for a third passenger, and adds 10 for every started kilometre after the first (`ceil(dist - 1)`, with the ceiling defined through `Floor`).
- **`addresses.dfy`**: the address text.
  - `shortenToZamboanga` is modelled over `seq<char>` with an explicit first-index search.
  - The completion of a reverse-geocode lookup is modelled from its three outcomes: a display name, no name, or a failed fetch.
- **`geo.dfy`**: points, the fixed inclusive region box, and the three pick events.
  - A map click or a search result is refused outside the box.
  - Device geolocation is accepted anywhere.
- **`wizard_spec.dfy`**: the page state as a value (`View`).
  - Every handler is a function from the state before to the state after.
  - An invariant `Consistent` is proved to hold on every page reachable from page load (`Run` over any event sequence).
- **`wizard.dfy`**: the same handlers as an object, `FareWizard`, that updates its fields in place.
  - The step on screen is held the way the page holds it: as the `active` class of four cards (an `array<bool>` that `showStep` loops over).
  - `mapsInitialized` is a two-element array that Restart replaces with a new one.
  - The constructor yields `Initial()`.
  - The handler methods `ToStep2`, `PickCurrent`, `PickDestination`, `ResolveCurrentAddress`, `ResolveDestinationAddress`, `ToStep3`, `ToStep4` and `Restart` are each proved to produce exactly the `View` that the matching `WizardSpec` function describes and to keep `Valid()`.
  - `ShowStep` is proved against `ShowStepSpec` under `Wellformed()` alone, because Restart calls it on a state it is still rebuilding.

The haversine distance is an input: `ToStep4` receives a non-negative distance in kilometres.

Three behaviours of the code worth noting:

- The restart handler does not clear the two address paragraphs, the loading overlay or the result panel. `RestartResets` states this exactly.
- The "locate me" handlers call `setCurrentMarker`/`setDestinationMarker` without the region check that clicks and searches make. `GeolocationSkipsRegionCheck` shows a point outside the region that is accepted.
- A geolocation fix that arrives after Restart finds no map: `addTo` on the missing map throws before anything changes (script.js:156, script.js:291). `PickWithoutMapIgnored` states that such a pick leaves the page as it was.

## Model

| member | source | states |
|---|---|---|
| `Geo.AcceptedPoint` | script.js:115-147 | a click or search point reaches the marker iff it lies in the inclusive box 6.78–8 N, 121.90–122.32 E; a geolocation fix reaches it iff the device located it, whatever the point |
| `Geo.GeolocationSkipsRegionCheck` | script.js:203-216 | a point outside the region is refused as a click or search but accepted from geolocation |
| `Fares.Ceil` | script.js:358 | `Math.ceil`: the least integer not below x |
| `Fares.Fare` | script.js:356-358 | every fare is at least 35 and ends in 5; up to 1 km it is 35, or 45 with three passengers |
| `Fares.StartedKmExists` | script.js:358 | every non-negative distance has a count of started kilometres beyond the first |
| `Fares.StartedKmUnique` | script.js:358 | the count of started kilometres beyond the first is unique for each distance |
| `Fares.FareCountsStartedKm` | script.js:356-358 | the fare is 35, plus 10 for a third passenger, plus 10 per started kilometre after the first |
| `Fares.FareAroundFirstKm` | script.js:358 | exactly 1 km adds nothing; any distance in (1, 2] adds exactly 10 |
| `Fares.FareMonotone` | script.js:358 | for a fixed passenger count the fare never decreases as the distance grows |
| `Fares.ThirdPassengerAddsTen` | script.js:357 | one and two passengers pay alike; a third adds 10 at every distance |
| `Fares.FareExamples` | script.js:356-358 | 0 km and 1 km cost 35, 1 km with three passengers 45, 1.01 km and 2 km cost 45, 2.5 km costs 55 |
| `Addresses.IndexFrom` | script.js:173 | the first occurrence at or after a start index, or -1 when none follows |
| `Addresses.IndexOf` | script.js:173 | `indexOf`: the first occurrence of the pattern, or -1 exactly when it never occurs |
| `Addresses.Shorten` | script.js:172-178 | the result is a prefix of the address; without "Zamboanga City" it is the address; with it, it ends with the city name and contains it nowhere else |
| `Addresses.ShortenCutsAfterFirstOccurrence` | script.js:173-176 | the result is the prefix that ends exactly where the first "Zamboanga City" ends |
| `Addresses.ShortenIdempotent` | script.js:172-177 | shortening twice equals shortening once |
| `Addresses.AddressText` | script.js:186-196 | a non-empty display name shows as its shortened prefix; a missing or empty one as "Address not found."; a failed fetch as "Unable to fetch address." |
| `WizardSpec.ToStep2KeepsConsistent` | script.js:95-97 | "Next" on the passenger step keeps the page consistent |
| `WizardSpec.PickKeepsConsistent` | script.js:154-163 | any pick event on either map keeps the page consistent (marker at the coordinates, unlocked button only with a point) |
| `WizardSpec.ResolveKeepsConsistent` | script.js:186-197 | an address lookup completing either way keeps the page consistent |
| `WizardSpec.ToStep3KeepsConsistent` | script.js:227-238 | the guarded move to the destination step keeps the page consistent |
| `WizardSpec.ToStep4KeepsConsistent` | script.js:343-391 | the guarded move to the result step keeps the page consistent and stores a fare computed by the fare rule |
| `WizardSpec.RestartKeepsConsistent` | script.js:394-409 | restart keeps the page consistent |
| `WizardSpec.ApplyKeepsConsistent` | script.js:95-409 | every handler keeps the page consistent |
| `WizardSpec.RunKeepsConsistent` | script.js:95-409 | any sequence of events keeps the page consistent |
| `WizardSpec.ReachableIsConsistent` | script.js:35-39 | every page reachable from page load is consistent |
| `WizardSpec.ToStep2Unguarded` | script.js:95-97 | "Next" on the passenger step always shows the current-location step, its button disabled and its map initialised |
| `WizardSpec.ShowStepIdempotent` | script.js:59-90 | showing a step again leaves the page unchanged: its next button stays disabled and its map flag stays set (that the map is created at most once is stated by `Wizard.FareWizard.ShowStep`) |
| `WizardSpec.ToStep3Guard` | script.js:227-237 | with the button disabled or no current point, nothing changes; otherwise the destination step is shown with its button disabled |
| `WizardSpec.ToStep4Guard` | script.js:343-358 | with the button disabled or a point missing, nothing changes; otherwise the result step is shown with the fare for the distance |
| `WizardSpec.PickOutsideRegionIgnored` | script.js:115-119 | a click or search outside the region leaves the whole page unchanged, on either map |
| `WizardSpec.FailedGeolocationIgnored` | script.js:203-224 | a denied or unsupported geolocation leaves the whole page unchanged |
| `WizardSpec.PickWithoutMapIgnored` | script.js:154-160 | a pick while the step's map does not exist (a fix arriving after Restart) leaves the page unchanged, since `addTo` throws first |
| `WizardSpec.AcceptedPickReplacesMarker` | script.js:154-160 | on an existing map, an accepted pick leaves the step's single marker and coordinates at the new point, unlocks its button, and leaves the step and the other map alone |
| `WizardSpec.PickThenResolveCurrent` | script.js:180-197 | the current address first reads "Loading address..." with the overlay shown, then ends with the outcome's text ("Address not found." for no name or an empty one) and the overlay hidden; the step and the next button are untouched |
| `WizardSpec.PickThenResolveDestination` | script.js:300-317 | the same for the destination address |
| `WizardSpec.RestartResets` | script.js:394-408 | from any step, restart gives the loaded page except for the address texts, the overlay and the result panel, which it leaves |
| `WizardSpec.ResultStepShowsFare` | script.js:354-391 | on the result step the panel holds a fare of at least 35 ending in 5 |
| `Wizard.ActiveIndex` | script.js:43-45 | the index of the first card marked active, and no earlier card is active |
| `Wizard.ActiveIndexOfShown` | script.js:43-45 | after the cards are toggled for a step, that step is the one shown |
| `Wizard.FareWizard.Step` | script.js:43-45 | exactly one card carries the active class, and it is the step returned |
| `Wizard.FareWizard.constructor` | script.js:35-39 | the loaded page: step 0, no points or markers, no map initialised, both next buttons disabled |
| `Wizard.FareWizard.ToggleActive` | script.js:43-45 | the loop leaves only the chosen card active |
| `Wizard.FareWizard.ShowStep` | script.js:41-91 | shows the step; re-disables the next button of a location step; creates that step's map only if it was not created since load or restart |
| `Wizard.FareWizard.ToStep2` | script.js:95-97 | shows the current-location step with no guard |
| `Wizard.FareWizard.SetCurrentMarker` | script.js:154-163 | replaces the marker, stores the point, unlocks "Next", starts the lookup |
| `Wizard.FareWizard.SetDestinationMarker` | script.js:289-298 | the same for the destination |
| `Wizard.FareWizard.PickCurrent` | script.js:115-147 | the click, search and geolocation handlers of the current map, as `PickCurrentSpec`: nothing changes while the map does not exist |
| `Wizard.FareWizard.PickDestination` | script.js:250-282 | the click, search and geolocation handlers of the destination map, as `PickDestinationSpec`: nothing changes while the map does not exist |
| `Wizard.FareWizard.ResolveCurrentAddress` | script.js:186-197 | sets the current address text for the outcome and hides the overlay |
| `Wizard.FareWizard.ResolveDestinationAddress` | script.js:306-317 | sets the destination address text for the outcome and hides the overlay |
| `Wizard.FareWizard.ToStep3` | script.js:227-238 | advances exactly when the button is enabled and a current point is set; otherwise nothing changes |
| `Wizard.FareWizard.ToStep4` | script.js:343-392 | advances exactly when the button is enabled and both points are set, storing the fare for the distance; otherwise nothing changes |
| `Wizard.FareWizard.Restart` | script.js:394-409 | step 0, no points or markers, fresh uninitialised map flags, both next buttons disabled |
| `Wizard.FareWizard.ForgetPoints` | script.js:396-407 | the field resets of the restart handler before its final `showStep(0)` |

## Left out

- `haversine` (script.js:2-11) uses floating-point trigonometry. `ToStep4` and `Fare` take the distance as a non-negative real instead.
- Fare: the rule is computed exactly over reals. The double-precision rounding of `dist - 1` is not modelled.
- `parseInt` of the passenger selector (script.js:355) is not modelled. The passenger count is an integer in 1..3, the only values the selector offers.
- Map construction, tiles, `setMaxBounds`, `setView` and the GeoSearch controls (script.js:105-114, 125-135, 240-249, 260-270) are foreign library calls. Only the events they deliver are modelled.
  - Creating a map is recorded as a ghost counter.
  - The map itself is created later by a timer, while `mapsInitialized` is set at once. Only the flag is modelled.
- The Nominatim `fetch` and `navigator.geolocation` are network and device I/O. Only their outcomes are modelled (`Lookup`, `Fix`).
- Overlapping lookups can complete in any order, and the last completion wins the address text. This async interleaving is not modelled; each completion is an event applied in the order it arrives.
- Timers and layout work (`requestAnimationFrame`, `setTimeout`, `invalidateSize`) are not modelled.
- Presentation is not modelled:
  - progress-bar widths and step circles;
  - the result HTML and `toFixed`;
  - `alert` and `console.log`;
  - the "Locating..." text on a locate button and its disabling while a request is in flight.
- The page markup is not part of this model. The model starts with both next buttons disabled, empty address paragraphs and the overlay hidden.
- Events are accepted at any step. The model does not encode which controls are visible, because geolocation and lookup callbacks arrive asynchronously.
- `ToStep4`: when the destination is set but `currentCoords` is null, the handler throws in the haversine call before changing anything. The model treats this as a rejection that leaves the state unchanged.
