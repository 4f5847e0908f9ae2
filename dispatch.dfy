/**
 * Riders, rides and the simulated dispatch: which riders are free, how one is
 * drawn, and how a ride is removed from the list of active rides.
 */
module Dispatch {
  import opened Wrappers
  import opened Draft

  /** A roster entry (the profile image, always `null`, is not kept). */
  datatype Rider = Rider(
    id: int,
    name: string,
    phone: string,
    rating: real,
    totalDeliveries: nat,
    vehicleType: string)

  /** Every index below `n` is drawn by some `random` in [0, 1): `k / n`. */
  lemma PickIndexHits(k: nat, n: nat)
    requires k < n
    ensures 0.0 <= k as real / n as real < 1.0
    ensures PickIndex(k as real / n as real, n) == k
  {
    assert (k as real / n as real) * n as real == k as real;
  }

  /** The frozen copy of the draft that a ride keeps. */
  datatype Order = Order(
    pickup: string,
    dropoff: string,
    pickupLat: Coord,
    pickupLng: Coord,
    dropoffLat: Coord,
    dropoffLng: Coord,
    packageType: PackageType,
    packageImage: Option<Image>)

  /** The only status a ride ever has; a cancelled ride is removed instead. */
  datatype RideStatus = Active

  /** `id` comes from `Date.now()` and `bookedAt` is the ISO time of booking. */
  datatype Ride = Ride(id: int, rider: Rider, order: Order, status: RideStatus, bookedAt: string)

  /** The three riders hard-wired into the component. */
  function SampleRiders(): seq<Rider>
  {
    [ Rider(1, "Ebuka Okonkwo", "07059865233", 4.9, 1234, "bike"),
      Rider(2, "Chioma Adeleke", "08012345678", 4.8, 892, "car"),
      Rider(3, "Ahmed Ibrahim", "09087654321", 4.7, 2156, "bike") ]
  }

  /** No two roster entries share an id. */
  predicate DistinctIds(roster: seq<Rider>)
  {
    forall i, j :: 0 <= i < j < |roster| ==> roster[i].id != roster[j].id
  }

  lemma SampleRidersDistinct()
    ensures DistinctIds(SampleRiders()) && |SampleRiders()| == 3
  {
  }

  /** `activeRides.map(ride => ride.rider.id)`, as a set. */
  function BoundIds(rides: seq<Ride>): set<int>
  {
    set r | r in rides :: r.rider.id
  }

  /** No rider is bound to two of the rides. */
  predicate DistinctRiders(rides: seq<Ride>)
  {
    forall i, j :: 0 <= i < j < |rides| ==> rides[i].rider.id != rides[j].rider.id
  }

  /** The roster filtered down to the riders whose id no ride holds, in roster order. */
  function FreeRiders(roster: seq<Rider>, rides: seq<Ride>): (free: seq<Rider>)
    ensures forall x :: x in free <==> x in roster && x.id !in BoundIds(rides)
    ensures |free| <= |roster|
    ensures DistinctIds(roster) ==> DistinctIds(free)
  {
    if roster == [] then []
    else
      var rest := FreeRiders(roster[1..], rides);
      if roster[0].id in BoundIds(rides) then rest
      else
        assert forall x :: x in rest ==> x in roster[1..];
        [roster[0]] + rest
  }

  /** Every roster id is held by a ride exactly when no rider is free. */
  lemma {:induction false} NoFreeRiderIffAllBound(roster: seq<Rider>, rides: seq<Ride>)
    ensures FreeRiders(roster, rides) == [] <==> forall x :: x in roster ==> x.id in BoundIds(rides)
  {
    var free := FreeRiders(roster, rides);
    if free != [] {
      assert free[0] in free;
    }
  }

  /**
   * Pigeonhole: when the rides hold distinct riders from the roster and there are
   * fewer rides than roster entries, some rider is still free.
   */
  lemma {:induction false} FreeRiderExists(roster: seq<Rider>, rides: seq<Ride>)
    requires DistinctIds(roster) && DistinctRiders(rides)
    requires forall r :: r in rides ==> r.rider in roster
    requires |rides| < |roster|
    ensures FreeRiders(roster, rides) != []
  {
    var rosterIds := set x | x in roster :: x.id;
    RosterIdsCount(roster);
    BoundIdsCount(rides);
    assert !(rosterIds <= BoundIds(rides)) by {
      if rosterIds <= BoundIds(rides) {
        SubsetCardinality(rosterIds, BoundIds(rides));
      }
    }
    var id :| id in rosterIds && id !in BoundIds(rides);
    var x :| x in roster && x.id == id;
    assert x in FreeRiders(roster, rides);
  }

  lemma SubsetCardinality(a: set<int>, b: set<int>)
    requires a <= b
    ensures |a| <= |b|
  {
    assert b == a + (b - a);
  }

  lemma {:induction false} RosterIdsCount(roster: seq<Rider>)
    requires DistinctIds(roster)
    ensures |set x | x in roster :: x.id| == |roster|
  {
    if roster != [] {
      var tail := roster[1..];
      RosterIdsCount(tail);
      assert (set x | x in roster :: x.id) == {roster[0].id} + (set x | x in tail :: x.id);
    }
  }

  lemma {:induction false} BoundIdsCount(rides: seq<Ride>)
    requires DistinctRiders(rides)
    ensures |BoundIds(rides)| == |rides|
  {
    if rides != [] {
      var tail := rides[1..];
      BoundIdsCount(tail);
      assert BoundIds(rides) == {rides[0].rider.id} + BoundIds(tail);
    }
  }

  /**
   * `Math.floor(Math.random() * n)`: the index drawn for a random number in
   * [0, 1) always lies in [0, n).
   */
  function PickIndex(random: real, n: nat): (k: nat)
    requires 0.0 <= random < 1.0 && n > 0
    ensures k < n
  {
    var x := random * n as real;
    assert 0.0 <= x < n as real;
    x.Floor
  }

  /** The frozen copy of the draft (and its photo) that a new ride keeps. */
  function OrderOf(b: Booking, image: Option<Image>): (o: Order)
    ensures o.pickupLat == b.pickupLat && o.pickupLng == b.pickupLng && o.pickup == b.pickupAddress
    ensures o.dropoffLat == b.dropoffLat && o.dropoffLng == b.dropoffLng && o.dropoff == b.dropoffAddress
    ensures o.packageType == b.packageType && o.packageImage == image
  {
    Order(b.pickupAddress, b.dropoffAddress, b.pickupLat, b.pickupLng,
          b.dropoffLat, b.dropoffLng, b.packageType, image)
  }

  /** `rides.filter(ride => ride.id !== id)`. */
  function RemoveRide(rides: seq<Ride>, id: int): (kept: seq<Ride>)
    ensures forall r :: r in kept <==> r in rides && r.id != id
    ensures (forall r :: r in rides ==> r.id != id) ==> kept == rides
    ensures |kept| <= |rides|
  {
    if rides == [] then []
    else
      var rest := RemoveRide(rides[1..], id);
      if rides[0].id == id then rest
      else
        assert rides == [rides[0]] + rides[1..];
        [rides[0]] + rest
  }

  /** Filtering works piecewise, so the kept rides stay in their original order. */
  lemma {:induction false} RemoveRideAppend(a: seq<Ride>, b: seq<Ride>, id: int)
    ensures RemoveRide(a + b, id) == RemoveRide(a, id) + RemoveRide(b, id)
  {
    if a == [] {
      assert a + b == b;
    } else {
      assert (a + b)[1..] == a[1..] + b;
      RemoveRideAppend(a[1..], b, id);
    }
  }

  /** Removing rides never binds a rider twice. */
  lemma {:induction false} RemoveRideKeepsDistinct(rides: seq<Ride>, id: int)
    requires DistinctRiders(rides)
    ensures DistinctRiders(RemoveRide(rides, id))
  {
    if rides != [] {
      var tail := rides[1..];
      assert DistinctRiders(tail) by {
        forall i, j | 0 <= i < j < |tail| ensures tail[i].rider.id != tail[j].rider.id {
          assert tail[i] == rides[i + 1] && tail[j] == rides[j + 1];
        }
      }
      RemoveRideKeepsDistinct(tail, id);
      var rest := RemoveRide(tail, id);
      if rides[0].id != id {
        var kept := RemoveRide(rides, id);
        assert kept == [rides[0]] + rest;
        forall k | 0 < k < |kept| ensures kept[0].rider.id != kept[k].rider.id {
          assert kept[k] in rest;
          assert kept[k] in tail;
          var m :| 0 <= m < |tail| && tail[m] == kept[k];
          assert rides[m + 1] == kept[k];
        }
      }
    }
  }

  /** Appending a ride whose rider no earlier ride holds keeps riders distinct. */
  lemma AppendFreeKeepsDistinct(rides: seq<Ride>, ride: Ride)
    requires DistinctRiders(rides)
    requires ride.rider.id !in BoundIds(rides)
    ensures DistinctRiders(rides + [ride])
  {
  }
}
