/**
 * The handlers of the customer component as transitions of its state: the
 * three-step booking form, the map-pick transaction, the delayed dispatch and
 * the list of active rides. `AppState` is the component's state at one
 * render, each handler is a function on it stating what it promises, and
 * `Inv` is what every handler keeps. Module `Component` holds the same
 * handlers as methods that update the state in place.
 */
module Transitions {
  import opened Wrappers
  import opened Draft
  import opened Dispatch

  /** `MAX_RIDES`: how many rides may be active at once. */
  const MaxRides: nat := 3

  /**
   * What the three-second dispatch timer captured when Confirm Booking was
   * clicked: the active rides, the draft and its photo of that render.
   */
  datatype DispatchRequest = DispatchRequest(seen: seq<Ride>, draft: Booking, image: Option<Image>)

  /** How a dispatch ended: a ride with a rider, or every rider busy. */
  datatype Outcome = Assigned(ride: Ride) | AllRidersBusy

  datatype AppState = AppState(
    step: int,
    booking: Booking,
    contact: Contact,
    packageImage: Option<Image>,
    tempLocation: Location,
    mapSelectMode: Option<Target>,
    showMapModal: bool,
    activeRides: seq<Ride>,
    searching: bool,
    pending: Option<DispatchRequest>)

  /** The state of a freshly mounted component. */
  function Initial(): AppState
  {
    AppState(1, DefaultBooking(), EmptyContact(), None, Location(None, None, ""),
             None, false, [], false, None)
  }

  /** What a pending dispatch needs to keep the ride list sound when it completes. */
  predicate PendingSound(p: DispatchRequest, rides: seq<Ride>, roster: seq<Rider>)
  {
    |rides| < MaxRides &&
    |p.seen| < MaxRides &&
    DistinctRiders(p.seen) &&
    (forall r :: r in p.seen ==> r.rider in roster) &&
    (forall r :: r in rides ==> r in p.seen)
  }

  /**
   * The invariant of the component: a valid step, a roster with distinct ids,
   * at most MaxRides active rides with roster riders and no rider bound twice,
   * and the spinner shown exactly while one dispatch is pending.
   */
  predicate Inv(s: AppState, roster: seq<Rider>)
  {
    1 <= s.step <= 3 &&
    DistinctIds(roster) &&
    |s.activeRides| <= MaxRides &&
    (forall r :: r in s.activeRides ==> r.rider in roster) &&
    DistinctRiders(s.activeRides) &&
    (s.searching <==> s.pending.Some?) &&
    (s.pending.Some? ==> PendingSound(s.pending.value, s.activeRides, roster))
  }

  lemma InitialSound(roster: seq<Rider>)
    requires DistinctIds(roster)
    ensures Inv(Initial(), roster)
  {
  }

  // ---------------------------------------------------------------- stepper

  /**
   * `handleContinueToDetails`, whose button is rendered only at step 1 while
   * no dispatch is running: step 2, only when all four coordinates are truthy.
   */
  function ContinueToDetails(s: AppState): (t: AppState)
    requires s.step == 1 && !s.searching
    ensures t.step != s.step ==> LocationsChosen(s.booking) && t.step == 2
    ensures LocationsChosen(s.booking) ==> t.step == 2
    ensures t == s.(step := t.step)
  {
    if LocationsChosen(s.booking) then s.(step := 2) else s
  }

  /**
   * `handleContinueToRider`, whose button is rendered only at step 2 while no
   * dispatch is running: step 3, only when phone, WhatsApp and email are all
   * filled in.
   */
  function ContinueToRider(s: AppState): (t: AppState)
    requires s.step == 2 && !s.searching
    ensures t.step != s.step ==> ContactComplete(s.contact) && t.step == 3
    ensures ContactComplete(s.contact) ==> t.step == 3
    ensures t == s.(step := t.step)
  {
    if ContactComplete(s.contact) then s.(step := 3) else s
  }

  /** The Back buttons of steps 2 and 3: each goes one step back. */
  function Back(s: AppState, to: int): (t: AppState)
    requires (to == 1 || to == 2) && s.step == to + 1 && !s.searching
    ensures t.step == to && t == s.(step := to)
  {
    s.(step := to)
  }

  /** `resetBookingForm`: step 1, the default draft, no contact, no photo. */
  function ResetDraft(s: AppState): (t: AppState)
    ensures t.step == 1 && t.booking == DefaultBooking() && t.contact == EmptyContact()
    ensures t.packageImage == None
    ensures t == s.(step := 1, booking := t.booking, contact := t.contact, packageImage := None)
  {
    s.(step := 1, booking := DefaultBooking(), contact := EmptyContact(), packageImage := None)
  }

  /**
   * `handleBookSameRide`: back to the contact step with empty contact, the
   * draft's places, package and photo kept. Its button is shown only on the
   * Active Rides tab, which a dispatch reaches after resetting the draft, so
   * the places it keeps are then the unset ones (`SamePackageAfterDispatch`).
   */
  function BookSameRide(s: AppState): (t: AppState)
    ensures t.step == 2 && t.contact == EmptyContact()
    ensures t.booking == s.booking && t.packageImage == s.packageImage
    ensures t == s.(step := 2, contact := EmptyContact())
  {
    s.(step := 2, contact := EmptyContact())
  }

  /** `handleBookNewRide`: the whole draft back to its defaults. */
  function BookNewRide(s: AppState): (t: AppState)
    ensures t == ResetDraft(s)
    ensures t.activeRides == s.activeRides && t.pending == s.pending
  {
    ResetDraft(s)
  }

  /** `resetBooking`: the draft back to its defaults, the spinner off and every ride dropped. */
  function ResetBooking(s: AppState): (t: AppState)
    ensures t.activeRides == [] && !t.searching
    ensures t == ResetDraft(s).(activeRides := [], searching := false)
  {
    ResetDraft(s).(activeRides := [], searching := false)
  }

  /** The package-type selector. */
  function SetPackageType(s: AppState, p: PackageType): (t: AppState)
    ensures t.booking.packageType == p
    ensures PlaceOf(t.booking, Pickup) == PlaceOf(s.booking, Pickup)
    ensures PlaceOf(t.booking, Dropoff) == PlaceOf(s.booking, Dropoff)
    ensures t.booking.riderType == s.booking.riderType
    ensures t == s.(booking := t.booking)
  {
    s.(booking := s.booking.(packageType := p))
  }

  /** The phone, WhatsApp and email inputs. */
  function SetContactField(s: AppState, f: ContactField, v: string): (t: AppState)
    ensures t == s.(contact := EditContact(s.contact, f, v))
  {
    s.(contact := EditContact(s.contact, f, v))
  }

  /** A photo handed over by the camera or the file picker. */
  function AttachImage(s: AppState, image: Image): (t: AppState)
    ensures t == s.(packageImage := Some(image))
  {
    s.(packageImage := Some(image))
  }

  /** `removePackageImage`. */
  function RemoveImage(s: AppState): (t: AppState)
    ensures t == s.(packageImage := None)
  {
    s.(packageImage := None)
  }

  // ------------------------------------------------------------ map picking

  /**
   * `openMapForPickup` / `openMapForDropoff`: open the modal for one end and
   * preload the pending pick with that end only when both its coordinates are
   * truthy; otherwise the previous pending pick stays.
   */
  function OpenMap(s: AppState, target: Target): (t: AppState)
    ensures t.mapSelectMode == Some(target) && t.showMapModal
    ensures Truthy(PlaceOf(s.booking, target).lat) && Truthy(PlaceOf(s.booking, target).lng) ==>
              t.tempLocation == PlaceOf(s.booking, target)
    ensures !(Truthy(PlaceOf(s.booking, target).lat) && Truthy(PlaceOf(s.booking, target).lng)) ==>
              t.tempLocation == s.tempLocation
    ensures t == s.(mapSelectMode := Some(target), showMapModal := true, tempLocation := t.tempLocation)
  {
    var here := PlaceOf(s.booking, target);
    var u := s.(mapSelectMode := Some(target), showMapModal := true);
    if Truthy(here.lat) && Truthy(here.lng) then u.(tempLocation := here) else u
  }

  /**
   * `updateLocationFromCoords`: a map click (or a search hit) sets the pending
   * pick; `address` is the reverse geocoder's answer or the coordinate fallback.
   */
  function PickCoordinates(s: AppState, lat: real, lng: real, address: string): (t: AppState)
    ensures t.tempLocation == Location(Some(lat), Some(lng), address)
    ensures t == s.(tempLocation := t.tempLocation)
  {
    s.(tempLocation := Location(Some(lat), Some(lng), address))
  }

  /** `closeMapModal`: the cancel of a pick; only the modal and its target change. */
  function CloseMap(s: AppState): (t: AppState)
    ensures !t.showMapModal && t.mapSelectMode == None
    ensures t.booking == s.booking && t.tempLocation == s.tempLocation
    ensures t == s.(showMapModal := false, mapSelectMode := None)
  {
    s.(showMapModal := false, mapSelectMode := None)
  }

  /**
   * `confirmLocationSelection`: the commit of a pick into the end named by the
   * modal's target (none when there is no target), then the modal closes.
   */
  function ConfirmLocation(s: AppState): (t: AppState)
    ensures s.mapSelectMode.Some? ==>
              PlaceOf(t.booking, s.mapSelectMode.value) == s.tempLocation &&
              PlaceOf(t.booking, Other(s.mapSelectMode.value)) == PlaceOf(s.booking, Other(s.mapSelectMode.value))
    ensures s.mapSelectMode.None? ==> t.booking == s.booking
    ensures t.booking.packageType == s.booking.packageType && t.booking.riderType == s.booking.riderType
    ensures t == CloseMap(s).(booking := t.booking)
  {
    var b := if s.mapSelectMode.Some? then WithPlace(s.booking, s.mapSelectMode.value, s.tempLocation)
             else s.booking;
    CloseMap(s.(booking := b))
  }

  /** A pick that is cancelled leaves the draft as it was before the modal opened. */
  lemma CancelledPickKeepsDraft(s: AppState, target: Target, lat: real, lng: real, address: string)
    ensures CloseMap(PickCoordinates(OpenMap(s, target), lat, lng, address)).booking == s.booking
  {
  }

  /** A pick that is confirmed writes exactly that point into the chosen end. */
  lemma ConfirmedPickCommits(s: AppState, target: Target, lat: real, lng: real, address: string)
    ensures ConfirmLocation(PickCoordinates(OpenMap(s, target), lat, lng, address)).booking ==
            WithPlace(s.booking, target, Location(Some(lat), Some(lng), address))
  {
  }

  /**
   * The handlers never clear the pending pick: opening the dropoff map while
   * the dropoff is unset and confirming at once copies the pickup that was
   * picked last. When the map library has loaded, every opening builds a new
   * map, which sets the pending pick to the user's position once that
   * position's address lookup returns (`MapLoadReplacesPick`); the stale pick
   * survives only if Confirm comes before that lookup, or if the map never
   * loads.
   */
  lemma StalePickCarriesOver(s: AppState, lat: real, lng: real, address: string)
    requires !Truthy(s.booking.dropoffLat)
    ensures var picked := ConfirmLocation(PickCoordinates(OpenMap(s, Pickup), lat, lng, address));
            PlaceOf(ConfirmLocation(OpenMap(picked, Dropoff)).booking, Dropoff) ==
            Location(Some(lat), Some(lng), address)
  {
  }

  /**
   * What building the map does after an opening: the lookup of the user's
   * position (or the Port Harcourt default) replaces the pending pick,
   * whether it was preloaded from the draft or left over from the last pick.
   */
  lemma MapLoadReplacesPick(s: AppState, target: Target, userLat: real, userLng: real, address: string)
    ensures var t := PickCoordinates(OpenMap(s, target), userLat, userLng, address);
            t.tempLocation == Location(Some(userLat), Some(userLng), address) &&
            t.mapSelectMode == Some(target) && t.booking == s.booking
  {
  }

  // --------------------------------------------------------------- dispatch

  /**
   * `handleBookRide` up to its timer, whose Confirm Booking button is rendered
   * only at step 3 while no dispatch is running: at capacity nothing changes;
   * otherwise the spinner turns on and the timer captures the rides, the draft
   * and the photo.
   */
  function BookRideStart(s: AppState): (t: AppState)
    requires s.step == 3 && !s.searching
    ensures |s.activeRides| >= MaxRides ==> t == s
    ensures |s.activeRides| < MaxRides ==>
              t.searching && t.pending == Some(DispatchRequest(s.activeRides, s.booking, s.packageImage))
    ensures t == s.(searching := t.searching, pending := t.pending)
  {
    if |s.activeRides| >= MaxRides then s
    else s.(searching := true, pending := Some(DispatchRequest(s.activeRides, s.booking, s.packageImage)))
  }

  /**
   * The body of the dispatch timer: the riders free with respect to the rides
   * captured at the click, and one of them drawn with `random` in [0, 1); the
   * new ride snapshots the captured draft and carries `now` as its id.
   */
  function Assign(req: DispatchRequest, roster: seq<Rider>, random: real, now: int, bookedAt: string): (o: Outcome)
    requires 0.0 <= random < 1.0
    ensures o.AllRidersBusy? <==> FreeRiders(roster, req.seen) == []
    ensures o.Assigned? ==>
              o.ride.rider in roster && o.ride.rider.id !in BoundIds(req.seen) &&
              o.ride.id == now && o.ride.status == Active && o.ride.bookedAt == bookedAt &&
              o.ride.order == OrderOf(req.draft, req.image)
  {
    var free := FreeRiders(roster, req.seen);
    if |free| == 0 then AllRidersBusy
    else
      var rider := free[PickIndex(random, |free|)];
      Assigned(Ride(now, rider, OrderOf(req.draft, req.image), Active, bookedAt))
  }

  /**
   * Every free rider can be drawn: the converse of `Assign`'s ensures, so
   * the riders that may be bound are exactly the free ones.
   */
  lemma AnyFreeRiderDrawable(req: DispatchRequest, roster: seq<Rider>, x: Rider, now: int, bookedAt: string)
    requires x in FreeRiders(roster, req.seen)
    ensures exists random :: 0.0 <= random < 1.0 &&
              Assign(req, roster, random, now, bookedAt) == Assigned(Ride(now, x, OrderOf(req.draft, req.image), Active, bookedAt))
  {
    var free := FreeRiders(roster, req.seen);
    var k :| 0 <= k < |free| && free[k] == x;
    var random := k as real / |free| as real;
    PickIndexHits(k, |free|);
    assert Assign(req, roster, random, now, bookedAt) == Assigned(Ride(now, x, OrderOf(req.draft, req.image), Active, bookedAt));
  }

  /**
   * What the dispatch timer does to the state: with every rider busy only the
   * spinner stops; otherwise the ride is appended to the current rides, the
   * spinner stops and the draft is reset.
   */
  function BookRideComplete(s: AppState, roster: seq<Rider>, random: real, now: int, bookedAt: string): (t: AppState)
    requires s.pending.Some? && 0.0 <= random < 1.0
    ensures !t.searching && t.pending == None
    ensures Assign(s.pending.value, roster, random, now, bookedAt).AllRidersBusy? ==>
              t == s.(searching := false, pending := None)
    ensures Assign(s.pending.value, roster, random, now, bookedAt).Assigned? ==>
              t == ResetDraft(s).(activeRides := s.activeRides + [Assign(s.pending.value, roster, random, now, bookedAt).ride],
                                 searching := false, pending := None)
  {
    match Assign(s.pending.value, roster, random, now, bookedAt)
    case AllRidersBusy => s.(searching := false, pending := None)
    case Assigned(ride) =>
      ResetDraft(s).(activeRides := s.activeRides + [ride], searching := false, pending := None)
  }

  /** `cancelRide`: after a confirmation, the rides whose id is `id` are dropped. */
  function CancelRide(s: AppState, id: int, confirmed: bool): (t: AppState)
    ensures !confirmed ==> t == s
    ensures confirmed ==> forall r :: r in t.activeRides <==> r in s.activeRides && r.id != id
    ensures confirmed ==> t.activeRides == RemoveRide(s.activeRides, id)
    ensures (forall r :: r in s.activeRides ==> r.id != id) ==> t == s
    ensures t == s.(activeRides := t.activeRides)
  {
    if confirmed then s.(activeRides := RemoveRide(s.activeRides, id)) else s
  }

  // ---------------------------------------------------------- what is kept

  lemma BookRideStartSound(s: AppState, roster: seq<Rider>)
    requires Inv(s, roster) && s.step == 3 && !s.searching
    ensures Inv(BookRideStart(s), roster)
  {
  }

  /**
   * The completion of a dispatch keeps every part of the invariant, in
   * particular the bound on active rides and that no rider is bound twice.
   */
  lemma BookRideCompleteSound(s: AppState, roster: seq<Rider>, random: real, now: int, bookedAt: string)
    requires Inv(s, roster) && s.pending.Some? && 0.0 <= random < 1.0
    ensures Inv(BookRideComplete(s, roster, random, now, bookedAt), roster)
  {
    var req := s.pending.value;
    var o := Assign(req, roster, random, now, bookedAt);
    if o.Assigned? {
      assert BoundIds(s.activeRides) <= BoundIds(req.seen);
      AppendFreeKeepsDistinct(s.activeRides, o.ride);
    }
  }

  lemma CancelRideSound(s: AppState, roster: seq<Rider>, id: int, confirmed: bool)
    requires Inv(s, roster)
    ensures Inv(CancelRide(s, id, confirmed), roster)
  {
    if confirmed {
      RemoveRideKeepsDistinct(s.activeRides, id);
    }
  }

  /**
   * A dispatch that succeeds appends exactly one ride at the end, with a free
   * roster rider and a snapshot of the captured draft, and resets the draft.
   */
  lemma DispatchAppendsOne(s: AppState, roster: seq<Rider>, random: real, now: int, bookedAt: string)
    requires Inv(s, roster) && s.pending.Some? && 0.0 <= random < 1.0
    requires FreeRiders(roster, s.pending.value.seen) != []
    ensures var t := BookRideComplete(s, roster, random, now, bookedAt);
            |t.activeRides| == |s.activeRides| + 1 &&
            t.activeRides[..|s.activeRides|] == s.activeRides &&
            t.activeRides[|s.activeRides|].rider in roster &&
            t.activeRides[|s.activeRides|].rider.id !in BoundIds(s.activeRides) &&
            t.activeRides[|s.activeRides|].order == OrderOf(s.pending.value.draft, s.pending.value.image) &&
            t.step == 1 && t.booking.packageType == Document && t.contact == EmptyContact() &&
            t.packageImage == None && !t.searching
  {
  }

  /**
   * "Same Package" right after a successful dispatch: the draft was reset by
   * the dispatch, so filling in the contact and pressing Continue reaches the
   * review step with no location chosen, and Confirm Booking would capture a
   * draft without a pickup point.
   */
  lemma SamePackageAfterDispatch(s: AppState, roster: seq<Rider>, random: real, now: int, bookedAt: string,
                                 phone: string, whatsapp: string, email: string)
    requires Inv(s, roster) && s.pending.Some? && 0.0 <= random < 1.0
    requires FreeRiders(roster, s.pending.value.seen) != []
    requires phone != "" && whatsapp != "" && email != ""
    ensures var t := BookRideComplete(s, roster, random, now, bookedAt);
            var filled := SetContactField(SetContactField(SetContactField(BookSameRide(t),
                            PhoneField, phone), WhatsappField, whatsapp), EmailField, email);
            var v := ContinueToRider(filled);
            v.step == 3 && !v.searching && v.booking == DefaultBooking() && !LocationsChosen(v.booking) &&
            (|v.activeRides| < MaxRides ==>
               BookRideStart(v).pending.value.draft.pickupLat == None &&
               BookRideStart(v).pending.value.draft.dropoffLat == None)
  {
  }

  /**
   * With every rider busy the rides and the whole draft (step, places,
   * contact, photo) are untouched and only the spinner stops.
   */
  lemma AllBusyKeepsDraft(s: AppState, roster: seq<Rider>, random: real, now: int, bookedAt: string)
    requires s.pending.Some? && 0.0 <= random < 1.0
    requires forall x :: x in roster ==> x.id in BoundIds(s.pending.value.seen)
    ensures var t := BookRideComplete(s, roster, random, now, bookedAt);
            t.activeRides == s.activeRides && t.step == s.step && t.booking == s.booking &&
            t.contact == s.contact && t.packageImage == s.packageImage && !t.searching
  {
  }

  /**
   * With the three sample riders and a cap of three, a dispatch that got past
   * the capacity check always finds a free rider.
   */
  lemma SampleRosterNeverBusy(s: AppState, random: real, now: int, bookedAt: string)
    requires Inv(s, SampleRiders()) && s.pending.Some? && 0.0 <= random < 1.0
    ensures Assign(s.pending.value, SampleRiders(), random, now, bookedAt).Assigned?
  {
    SampleRidersDistinct();
    FreeRiderExists(SampleRiders(), s.pending.value.seen);
  }

  /** With a one-rider roster whose rider is on a ride, every dispatch finds all riders busy. */
  lemma SingleRiderRosterBusy(s: AppState, rider: Rider, random: real, now: int, bookedAt: string)
    requires s.pending.Some? && 0.0 <= random < 1.0
    requires exists r :: r in s.pending.value.seen && r.rider.id == rider.id
    ensures Assign(s.pending.value, [rider], random, now, bookedAt) == AllRidersBusy
  {
  }
}
