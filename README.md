# Quick Ride customer component — a Dafny model

This project models the logic of the customer component of the Quick Ride
courier-booking app (`src/App.jsx`): the three-step booking form (locations,
contact details, review), the map-pick transaction that commits a picked point
into the pickup or dropoff of the draft, the simulated dispatch that binds a
free rider from a fixed roster to a new ride under a cap of three active rides,
the cancellation of rides, and the phone formatting used to open a WhatsApp
chat with a rider.

Layout:

- `wrappers.dfy` — `Option`, the component's `null`-or-value.
- `draft.dfy` (module `Draft`) — the booking draft, the contact details, a
  picked location, JavaScript truthiness of a stored coordinate (`null` and
  `0` are both unset) and the two Continue guards.
- `phone.dfy` (module `Phone`) — digit filtering and the `234` country-code
  formatting.
- `dispatch.dfy` (module `Dispatch`) — riders, rides and their frozen order
  snapshot, the roster filter for free riders, the random pick, and removal of
  a ride by id.
- `transitions.dfy` (module `Transitions`) — the component state `AppState`,
  each handler as a function on it with what it promises, the invariant `Inv`
  and the lemmas that the handlers keep it.
- `component.dfy` (module `Component`) — class `RideApp`, whose fields are the
  component's state and whose methods are the handlers, each proved to
  perform its transition and to keep `Inv`.

Modelling choices:

- Coordinates are `Option<real>`; the guards use truthiness, so a coordinate
  equal to `0` blocks the first Continue just as `null` does.
- The three-second dispatch timer is split in two: `BookRideStart` (capacity
  check, spinner on, and the values the timer captures: the active rides, the
  draft and the photo of that render) and `BookRideComplete`, which works on
  those captured values. Free riders are therefore computed against the rides
  of the click, while the new ride is appended to the current rides without a
  second capacity check, as in the source.
- The step buttons are rendered only at their own step and only while the
  spinner is off (src/App.jsx:814): the first Continue at step 1, the second
  Continue and the first Back at step 2, Confirm Booking and the second Back
  at step 3. `ContinueToDetails`, `ContinueToRider`, `Back` and
  `BookRideStart` require exactly that.
- The bound of three active rides holds because only one dispatch can be in
  flight: Confirm Booking is not rendered while the spinner is on. `Inv` ties
  the spinner to the pending timer.
- `Math.random()` is the parameter `random` in [0, 1); the rider drawn is
  `free[floor(random * |free|)]`. `Date.now()` (the ride id) and the ISO
  booking time are parameters `now` and `bookedAt`; ride ids need not be
  unique. The cancel confirmation dialog is the parameter `confirmed`. The
  reverse-geocoded address of a map click is the parameter `address`.
- The roster is a constructor parameter with distinct ids; `SampleRiders` is
  the component's three riders.

Behaviour of the code worth knowing:

- Confirming a pick is not guarded by the handler; only its button is disabled
  while the pending latitude is falsy.
- No handler clears `tempLocation`: cancelling a pick leaves it, and opening
  the map for an end with unset coordinates does not reset it
  (`StalePickCarriesOver`). Closing the modal drops the map object
  (src/App.jsx:383-386), so once the map library has loaded every opening
  builds a new map, and that map sets `tempLocation` to the user's position
  (or the Port Harcourt default) when the address lookup for it returns
  (src/App.jsx:167-171, 280-281). In the model that is a `PickCoordinates` after
  each `OpenMap` (`MapLoadReplacesPick`); it replaces both a stale pick and a
  pick preloaded from the draft. The stale pick carries over only if Confirm
  is clicked before that lookup returns, or if the map library never loads.
- The ride registry does not re-check capacity when it appends a ride.
- Confirm Booking is disabled while three rides are active
  (src/App.jsx:1073), so the handler's own capacity branch
  (src/App.jsx:467-470), where `BookRideStart` changes nothing, is reached
  only past a disabled button; the model keeps the branch, and the fourth
  attempt in `FillRegistry` exercises it.
- Reaching the review step does not mean the locations are chosen. The
  Same Package button is shown only on the Active Rides tab
  (src/App.jsx:1215-1231), which a successful dispatch reaches after resetting
  the draft (src/App.jsx:537, 557). The places it keeps are then unset, only
  the contact guard stands before step 3, and Confirm Booking books a ride
  whose order has null pickup and dropoff (`SamePackageAfterDispatch`).
- Rides only have the status "active"; cancelling removes them.

## Model

| member | source | states |
|---|---|---|
| `Draft.DefaultBooking` | src/App.jsx:71-80 | the default draft has all four coordinates null (so the locations guard fails), empty addresses, package type document and rider type bike |
| `Draft.WithPlace` | src/App.jsx:361-376 | writing a location into one end makes that end read back as the location and leaves the other end, the package type and the rider type unchanged |
| `Draft.EditContact` | src/App.jsx:970-1000 | each contact input sets its own field and keeps the other two |
| `Phone.Digits` | src/App.jsx:706 | the digit filter yields only digits, is no longer than its input and leaves an all-digit string unchanged |
| `Phone.DigitsAppend` | src/App.jsx:706 | filtering digits commutes with concatenation |
| `Phone.DigitsIdempotent` | src/App.jsx:706 | filtering digits twice equals filtering once |
| `Phone.TrunkStripped` | src/App.jsx:712-713 | a national number loses exactly one leading trunk `0`, and is kept when it has none |
| `Phone.International` | src/App.jsx:709-717 | the result is all digits and starts with 234; a number already starting with 234 is kept; otherwise what follows 234 is the number without its trunk `0` |
| `Phone.NormalizePhone` | src/App.jsx:704-717 | the WhatsApp number is all digits and starts with 234; it equals the input's digits when those already start with 234, and is 234 followed by those digits less one leading 0 otherwise |
| `Phone.NormalizePhoneIdempotent` | src/App.jsx:704-717 | formatting an already formatted number changes nothing |
| `Phone.NormalizePhoneIgnoresSeparators` | src/App.jsx:706 | inserting non-digit separators into a number does not change its formatted form |
| `Phone.NormalizeTrunkExample` | src/App.jsx:711-713 | 08012345678 becomes 2348012345678 |
| `Phone.NormalizeInternationalExample` | src/App.jsx:710 | 2348012345678 is kept |
| `Phone.NormalizePlusPrefixed` | src/App.jsx:706-717 | a number typed with a leading `+` is formatted from the digits after it |
| `Phone.NormalizeTypedInternationalExample` | src/App.jsx:706-710 | +2348012345678 becomes 2348012345678 |
| `Phone.NormalizeBareExample` | src/App.jsx:714-715 | 8012345678 becomes 2348012345678 |
| `Dispatch.SampleRidersDistinct` | src/App.jsx:100-128 | the built-in roster holds three riders with distinct ids |
| `Dispatch.FreeRiders` | src/App.jsx:497-500 | a rider is free exactly when it is on the roster and no ride holds its id; the free list keeps distinct ids |
| `Dispatch.NoFreeRiderIffAllBound` | src/App.jsx:497-503 | no rider is free exactly when every roster id is held by a ride |
| `Dispatch.FreeRiderExists` | src/App.jsx:497-503 | with distinct roster ids, rides holding distinct roster riders, and fewer rides than riders, some rider is free |
| `Dispatch.PickIndex` | src/App.jsx:509 | `floor(random * n)` for random in [0, 1) is a valid index below n |
| `Dispatch.PickIndexHits` | src/App.jsx:509 | every index below n is drawn, by random = k / n, which lies in [0, 1) |
| `Dispatch.OrderOf` | src/App.jsx:515-524 | the ride's order copies the draft's addresses, coordinates and package type and the photo |
| `Dispatch.RemoveRide` | src/App.jsx:698 | a ride is kept exactly when it was there and its id differs; an absent id keeps the list unchanged |
| `Dispatch.RemoveRideAppend` | src/App.jsx:698 | removal acts piecewise on a concatenation, so the kept rides stay in order |
| `Dispatch.RemoveRideKeepsDistinct` | src/App.jsx:698 | removing rides never binds a rider twice |
| `Dispatch.AppendFreeKeepsDistinct` | src/App.jsx:534 | appending a ride whose rider no ride holds keeps riders distinct across rides |
| `Transitions.InitialSound` | src/App.jsx:21-88 | the mounted component satisfies the invariant |
| `Transitions.ContinueToDetails` | src/App.jsx:453-457 | callable at step 1 with the spinner off, as its button is rendered; the step changes only to 2 and only when all four coordinates are truthy, and does so whenever they are; nothing else changes |
| `Transitions.ContinueToRider` | src/App.jsx:459-463 | callable at step 2 with the spinner off, as its button is rendered; the step changes only to 3 and only when phone, WhatsApp and email are non-empty, and does so whenever they are; nothing else changes |
| `Transitions.Back` | src/App.jsx:1013-1080 | the Back buttons of steps 2 and 3 (lines 1014 and 1079), with the spinner off, set the step one back and change nothing else |
| `Transitions.ResetDraft` | src/App.jsx:602-620 | step 1, default draft, empty contact and no photo; rides, pick and dispatch state untouched |
| `Transitions.BookSameRide` | src/App.jsx:561-570 | step 2 with empty contact while the places, package and photo are kept |
| `Transitions.SamePackageAfterDispatch` | src/App.jsx:1215-1231 | after a successful dispatch, Same Package, a complete contact and Continue reach step 3 with the default draft and no location chosen, and Confirm Booking would capture a draft with null pickup and dropoff |
| `Transitions.BookNewRide` | src/App.jsx:573-576 | the draft is reset while the rides and any pending dispatch are kept |
| `Transitions.ResetBooking` | src/App.jsx:667-690 | the draft is reset, the spinner is off and no ride remains |
| `Transitions.SetPackageType` | src/App.jsx:877-880 | sets the package type and keeps both ends and the rider type of the draft, so every other draft field |
| `Transitions.SetContactField` | src/App.jsx:970-1000 | an input edit changes only the contact details |
| `Transitions.AttachImage` | src/App.jsx:435-444 | a captured or uploaded photo is stored as is and nothing else changes |
| `Transitions.RemoveImage` | src/App.jsx:446-451 | the photo is dropped and nothing else changes |
| `Transitions.OpenMap` | src/App.jsx:337-359 | the modal opens for the target; the pending pick is preloaded from that end exactly when both its coordinates are truthy, else the previous pick stays |
| `Transitions.PickCoordinates` | src/App.jsx:284-307 | a map click sets only the pending pick, to the clicked point and its address |
| `Transitions.CloseMap` | src/App.jsx:380-388 | cancel closes the modal and clears its target without touching the draft or the pending pick |
| `Transitions.ConfirmLocation` | src/App.jsx:361-378 | the pending pick is written into the end named by the target and the other end and package are kept; with no target the draft is unchanged; the modal closes |
| `Transitions.CancelledPickKeepsDraft` | src/App.jsx:337-388 | open, pick, cancel leaves the draft as it was |
| `Transitions.ConfirmedPickCommits` | src/App.jsx:337-378 | open, pick, confirm writes exactly the picked point into the chosen end |
| `Transitions.StalePickCarriesOver` | src/App.jsx:337-359 | after picking the pickup, opening an unset dropoff and confirming before any new pick copies the pickup point into the dropoff |
| `Transitions.MapLoadReplacesPick` | src/App.jsx:166-281 | once the new map's lookup of the user's position returns, the pending pick is that position whatever was preloaded or left over, and the draft is untouched |
| `Transitions.BookRideStart` | src/App.jsx:465-495 | callable at step 3 with the spinner off, as Confirm Booking is rendered; at capacity nothing changes; below it the spinner turns on and the timer captures the rides, draft and photo; nothing else changes |
| `Transitions.Assign` | src/App.jsx:496-534 | all riders busy exactly when no rider is free; otherwise the ride has a roster rider whose id no captured ride holds, id `now`, status active and the captured draft as its order |
| `Transitions.AnyFreeRiderDrawable` | src/App.jsx:497-524 | conversely, every free rider is drawn for some random in [0, 1), with id `now`, status active and the captured draft as its order |
| `Transitions.BookRideComplete` | src/App.jsx:496-558 | the spinner stops; with all riders busy nothing else changes; otherwise the ride is appended to the current rides and the draft is reset |
| `Transitions.CancelRide` | src/App.jsx:692-701 | a declined confirmation or an absent id changes nothing; a confirmed one keeps exactly the rides with another id, in their order (`RemoveRide`); only the rides change |
| `Transitions.BookRideStartSound` | src/App.jsx:465-495 | starting a dispatch keeps the invariant |
| `Transitions.BookRideCompleteSound` | src/App.jsx:496-557 | completing a dispatch keeps at most three rides, roster riders and no rider bound twice |
| `Transitions.CancelRideSound` | src/App.jsx:692-701 | cancelling keeps the invariant |
| `Transitions.DispatchAppendsOne` | src/App.jsx:511-557 | a successful dispatch appends exactly one ride after the unchanged earlier rides, with a roster rider no current ride holds and the captured draft as order, and resets the draft to step 1, document, empty contact, no photo |
| `Transitions.AllBusyKeepsDraft` | src/App.jsx:502-506 | with every roster id held, rides, step, draft, contact and photo are untouched and the spinner stops |
| `Transitions.SampleRosterNeverBusy` | src/App.jsx:55-128 | with the three built-in riders and a cap of three, a dispatch past the capacity check always finds a free rider |
| `Transitions.SingleRiderRosterBusy` | src/App.jsx:496-506 | with a one-rider roster whose rider is on a captured ride, the dispatch finds all riders busy |
| `Component.RideApp.constructor` | src/App.jsx:21-88 | the mounted component's state is the initial state and satisfies the invariant |
| `Component.RideApp.ContinueToDetails` | src/App.jsx:453-457 | performs `Transitions.ContinueToDetails` in place and keeps the invariant |
| `Component.RideApp.ContinueToRider` | src/App.jsx:459-463 | performs `Transitions.ContinueToRider` in place and keeps the invariant |
| `Component.RideApp.Back` | src/App.jsx:1013-1080 | performs `Transitions.Back` in place and keeps the invariant |
| `Component.RideApp.ResetBookingForm` | src/App.jsx:602-620 | performs `Transitions.ResetDraft` in place and keeps the invariant |
| `Component.RideApp.BookSameRide` | src/App.jsx:562-571 | performs `Transitions.BookSameRide` in place and keeps the invariant |
| `Component.RideApp.BookNewRide` | src/App.jsx:573-576 | performs `Transitions.BookNewRide` in place and keeps the invariant |
| `Component.RideApp.ResetBooking` | src/App.jsx:667-690 | performs `Transitions.ResetBooking` in place and keeps the invariant |
| `Component.RideApp.SetPackageType` | src/App.jsx:877-880 | performs `Transitions.SetPackageType` in place and keeps the invariant |
| `Component.RideApp.SetContactField` | src/App.jsx:970-1000 | performs `Transitions.SetContactField` in place and keeps the invariant |
| `Component.RideApp.AttachImage` | src/App.jsx:435-444 | performs `Transitions.AttachImage` in place and keeps the invariant |
| `Component.RideApp.RemoveImage` | src/App.jsx:446-451 | performs `Transitions.RemoveImage` in place and keeps the invariant |
| `Component.RideApp.OpenMap` | src/App.jsx:337-359 | performs `Transitions.OpenMap` in place and keeps the invariant |
| `Component.RideApp.PickCoordinates` | src/App.jsx:284-307 | performs `Transitions.PickCoordinates` in place and keeps the invariant |
| `Component.RideApp.CloseMap` | src/App.jsx:380-388 | performs `Transitions.CloseMap` in place and keeps the invariant |
| `Component.RideApp.ConfirmLocation` | src/App.jsx:361-378 | performs `Transitions.ConfirmLocation` in place and keeps the invariant |
| `Component.RideApp.BookRideStart` | src/App.jsx:465-495 | performs `Transitions.BookRideStart` in place, reports whether the dispatch started (exactly when fewer than three rides are active) and keeps the invariant |
| `Component.RideApp.BookRideComplete` | src/App.jsx:496-558 | performs `Transitions.BookRideComplete` in place, returns the outcome of `Transitions.Assign` and keeps the invariant |
| `Component.RideApp.CancelRide` | src/App.jsx:692-701 | performs `Transitions.CancelRide` in place and keeps the invariant |
| `Component.FillDraft` | src/App.jsx:337-463 | picking both ends on the map, filling in the contact and pressing both Continue buttons reaches step 3 with the rides unchanged |
| `Component.FillRegistry` | src/App.jsx:465-558 | with the three built-in riders, three dispatches leave three rides with three different roster riders, and a fourth dispatch does not start and leaves those rides unchanged |
| `Component.OneRiderRoster` | src/App.jsx:465-558 | with a one-rider roster, the first dispatch assigns that rider; the second passes the capacity check and finds every rider busy |

## Left out

- Rendering, icons, CSS classes and the active tab (src/App.jsx:5-18, 724-1371): presentation only; handlers that switch the tab are modelled without it.
- Theme state, `localStorage` and `matchMedia` (src/App.jsx:35-45, 131-139): browser I/O.
- Loading OpenLayers, the map widget and its marker (src/App.jsx:142-171, 224-282), browser geolocation (src/App.jsx:199-222) and the Nominatim reverse and forward geocoding requests (src/App.jsx:284-335): foreign libraries and network I/O. A resolved lookup is `PickCoordinates` with its address as a parameter; the `toFixed(6)` fallback text is float formatting.
- Camera capture and file reading (src/App.jsx:391-444): device I/O; only their result, an opaque photo, is modelled (`AttachImage`).
- Haversine distances and the ETA (src/App.jsx:622-665): floating-point trigonometry and `Math.ceil`.
- The rider-motion simulation, `riderLocation`, the `+0.01` start offset of a ride's rider position, `rideActive` and `assignedRider` (src/App.jsx:173-197, 525-528): float arithmetic on an interval timer whose effect never runs, since `rideActive` is never set true.
- Confetti, explosions and the celebratory alert (src/App.jsx:540-554, 578-600): randomised visual effects on timers.
- `alert`, `window.confirm`, `console.log`, `window.open` of the WhatsApp link: dialogs and I/O; the confirmation is a parameter, and the link's number is `NormalizePhone`.
- The uniform distribution of the random rider pick: the model states that exactly the free riders can be drawn, not their probabilities.
- Component.RideApp.BookRideStart: requires step 3 and no pending dispatch, the only state in which Confirm Booking is rendered; a second timer in flight would break the bound of three rides.
- Component.RideApp.ResetBooking: requires that no dispatch is pending; the handler is not wired to any control, and while a timer is pending it would turn the spinner off with the timer still armed, which the model's one pending timer does not represent.
