/** The customer component, its state held in fields and updated in place by its handlers. */
module Component {
  import opened Wrappers
  import opened Draft
  import opened Dispatch
  import opened Transitions

  /** The component's state, updated in place by its handlers. */
  class RideApp {
    var step: int
    var booking: Booking
    var contact: Contact
    var packageImage: Option<Image>
    var tempLocation: Location
    var mapSelectMode: Option<Target>
    var showMapModal: bool
    var activeRides: seq<Ride>
    var searching: bool
    var pending: Option<DispatchRequest>
    const roster: seq<Rider>

    function State(): AppState
      reads this
    {
      AppState(step, booking, contact, packageImage, tempLocation, mapSelectMode,
               showMapModal, activeRides, searching, pending)
    }

    ghost predicate Valid()
      reads this
    {
      Inv(State(), roster)
    }

    constructor (riders: seq<Rider>)
      requires DistinctIds(riders)
      ensures Valid() && State() == Initial() && roster == riders
    {
      step := 1;
      booking := DefaultBooking();
      contact := EmptyContact();
      packageImage := None;
      tempLocation := Location(None, None, "");
      mapSelectMode := None;
      showMapModal := false;
      activeRides := [];
      searching := false;
      pending := None;
      roster := riders;
    }

    method ContinueToDetails()
      requires Valid() && step == 1 && !searching
      modifies this
      ensures Valid() && State() == Transitions.ContinueToDetails(old(State()))
    {
      if Truthy(booking.pickupLat) && Truthy(booking.pickupLng) &&
         Truthy(booking.dropoffLat) && Truthy(booking.dropoffLng) {
        step := 2;
      }
    }

    method ContinueToRider()
      requires Valid() && step == 2 && !searching
      modifies this
      ensures Valid() && State() == Transitions.ContinueToRider(old(State()))
    {
      if contact.phone != "" && contact.whatsapp != "" && contact.email != "" {
        step := 3;
      }
    }

    method Back(to: int)
      requires Valid() && (to == 1 || to == 2) && step == to + 1 && !searching
      modifies this
      ensures Valid() && State() == Transitions.Back(old(State()), to)
    {
      step := to;
    }

    method ResetBookingForm()
      requires Valid()
      modifies this
      ensures Valid() && State() == ResetDraft(old(State()))
    {
      step := 1;
      packageImage := None;
      booking := DefaultBooking();
      contact := EmptyContact();
    }

    method BookSameRide()
      requires Valid()
      modifies this
      ensures Valid() && State() == Transitions.BookSameRide(old(State()))
    {
      step := 2;
      contact := EmptyContact();
    }

    method BookNewRide()
      requires Valid()
      modifies this
      ensures Valid() && State() == Transitions.BookNewRide(old(State()))
    {
      ResetBookingForm();
    }

    method ResetBooking()
      requires Valid() && !searching
      modifies this
      ensures Valid() && State() == Transitions.ResetBooking(old(State()))
    {
      step := 1;
      searching := false;
      packageImage := None;
      activeRides := [];
      booking := DefaultBooking();
      contact := EmptyContact();
    }

    method SetPackageType(p: PackageType)
      requires Valid()
      modifies this
      ensures Valid() && State() == Transitions.SetPackageType(old(State()), p)
    {
      booking := booking.(packageType := p);
    }

    method SetContactField(f: ContactField, v: string)
      requires Valid()
      modifies this
      ensures Valid() && State() == Transitions.SetContactField(old(State()), f, v)
    {
      contact := EditContact(contact, f, v);
    }

    method AttachImage(image: Image)
      requires Valid()
      modifies this
      ensures Valid() && State() == Transitions.AttachImage(old(State()), image)
    {
      packageImage := Some(image);
    }

    method RemoveImage()
      requires Valid()
      modifies this
      ensures Valid() && State() == Transitions.RemoveImage(old(State()))
    {
      packageImage := None;
    }

    method OpenMap(target: Target)
      requires Valid()
      modifies this
      ensures Valid() && State() == Transitions.OpenMap(old(State()), target)
    {
      mapSelectMode := Some(target);
      showMapModal := true;
      var here := PlaceOf(booking, target);
      if Truthy(here.lat) && Truthy(here.lng) {
        tempLocation := here;
      }
    }

    method PickCoordinates(lat: real, lng: real, address: string)
      requires Valid()
      modifies this
      ensures Valid() && State() == Transitions.PickCoordinates(old(State()), lat, lng, address)
    {
      tempLocation := Location(Some(lat), Some(lng), address);
    }

    method CloseMap()
      requires Valid()
      modifies this
      ensures Valid() && State() == Transitions.CloseMap(old(State()))
    {
      showMapModal := false;
      mapSelectMode := None;
    }

    method ConfirmLocation()
      requires Valid()
      modifies this
      ensures Valid() && State() == Transitions.ConfirmLocation(old(State()))
    {
      if mapSelectMode.Some? {
        booking := WithPlace(booking, mapSelectMode.value, tempLocation);
      }
      CloseMap();
    }

    /** Returns whether the capacity check let the dispatch start. */
    method BookRideStart() returns (started: bool)
      requires Valid() && step == 3 && !searching
      modifies this
      ensures Valid() && State() == Transitions.BookRideStart(old(State()))
      ensures started <==> |old(activeRides)| < MaxRides
    {
      if |activeRides| >= MaxRides {
        return false;
      }
      searching := true;
      pending := Some(DispatchRequest(activeRides, booking, packageImage));
      started := true;
    }

    method BookRideComplete(random: real, now: int, bookedAt: string) returns (outcome: Outcome)
      requires Valid() && searching && 0.0 <= random < 1.0
      modifies this
      ensures Valid() && State() == Transitions.BookRideComplete(old(State()), roster, random, now, bookedAt)
      ensures outcome == Assign(old(pending).value, roster, random, now, bookedAt)
    {
      ghost var before := State();
      BookRideCompleteSound(before, roster, random, now, bookedAt);
      var req := pending.value;
      var free := FreeRiders(roster, req.seen);
      if |free| == 0 {
        searching := false;
        pending := None;
        return AllRidersBusy;
      }
      var rider := free[PickIndex(random, |free|)];
      var ride := Ride(now, rider, OrderOf(req.draft, req.image), Active, bookedAt);
      activeRides := activeRides + [ride];
      searching := false;
      pending := None;
      step := 1;
      packageImage := None;
      booking := DefaultBooking();
      contact := EmptyContact();
      outcome := Assigned(ride);
    }

    method CancelRide(id: int, confirmed: bool)
      requires Valid()
      modifies this
      ensures Valid() && State() == Transitions.CancelRide(old(State()), id, confirmed)
    {
      CancelRideSound(State(), roster, id, confirmed);
      if confirmed {
        activeRides := RemoveRide(activeRides, id);
      }
    }
  }

  /**
   * The user's path through the form: pick a pickup and a dropoff on the map,
   * continue, fill in the three contact fields and continue to the review.
   */
  method FillDraft(app: RideApp)
    requires app.Valid() && app.step == 1 && !app.searching
    modifies app
    ensures app.Valid() && app.step == 3 && !app.searching
    ensures app.activeRides == old(app.activeRides)
  {
    app.OpenMap(Pickup);
    app.PickCoordinates(4.8156, 7.0498, "Pickup");
    app.ConfirmLocation();
    app.OpenMap(Dropoff);
    app.PickCoordinates(4.8400, 7.0100, "Dropoff");
    app.ConfirmLocation();
    app.ContinueToDetails();
    app.SetContactField(PhoneField, "08012345678");
    app.SetContactField(WhatsappField, "08012345678");
    app.SetContactField(EmailField, "a@b.c");
    app.ContinueToRider();
  }

  /**
   * Three dispatches with the three built-in riders: each binds a different
   * rider, the list fills up, and a fourth Confirm Booking is turned away
   * with the three rides left as they were.
   */
  method FillRegistry() returns (rides: seq<Ride>, fourthStarted: bool, ridesAfter: seq<Ride>)
    ensures |rides| == MaxRides && DistinctRiders(rides)
    ensures forall r :: r in rides ==> r.rider in SampleRiders()
    ensures !fourthStarted && ridesAfter == rides
  {
    SampleRidersDistinct();
    var app := new RideApp(SampleRiders());
    var k := 0;
    while k < MaxRides
      invariant 0 <= k <= MaxRides
      invariant app.Valid() && app.roster == SampleRiders()
      invariant |app.activeRides| == k && !app.searching && app.step == 1
    {
      FillDraft(app);
      var started := app.BookRideStart();
      SampleRosterNeverBusy(app.State(), 0.0, k, "");
      var outcome := app.BookRideComplete(0.0, k, "");
      k := k + 1;
    }
    FillDraft(app);
    rides := app.activeRides;
    fourthStarted := app.BookRideStart();
    ridesAfter := app.activeRides;
  }

  /**
   * A one-rider roster: after its rider is bound to a ride, a second dispatch
   * passes the capacity check and then finds every rider busy.
   */
  method OneRiderRoster(rider: Rider) returns (first: Outcome, secondStarted: bool, second: Outcome)
    ensures first.Assigned? && first.ride.rider == rider
    ensures secondStarted && second == AllRidersBusy
  {
    var app := new RideApp([rider]);
    FillDraft(app);
    var started := app.BookRideStart();
    first := app.BookRideComplete(0.0, 1, "");
    FillDraft(app);
    secondStarted := app.BookRideStart();
    second := app.BookRideComplete(0.0, 2, "");
  }
}
