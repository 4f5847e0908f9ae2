/** The booking draft: the single in-progress order that the three-step form composes. */
module Draft {
  import opened Wrappers

  /** A latitude or longitude as the component stores it: `null` until a point is picked. */
  type Coord = Option<real>

  /** JavaScript truthiness of a stored coordinate: both `null` and `0` are falsy. */
  predicate Truthy(c: Coord)
  {
    c.Some? && c.value != 0.0
  }

  /** The four options of the package-type selector. */
  datatype PackageType = Document | Food | SmallPackage | LargeItem

  /** The opaque payload (a data URL) produced by the camera or the file picker. */
  type Image = string

  datatype Booking = Booking(
    pickupAddress: string,
    pickupLat: Coord,
    pickupLng: Coord,
    dropoffAddress: string,
    dropoffLat: Coord,
    dropoffLng: Coord,
    packageType: PackageType,
    riderType: string)

  datatype Contact = Contact(phone: string, whatsapp: string, email: string)

  /** Which contact input an edit comes from. */
  datatype ContactField = PhoneField | WhatsappField | EmailField

  /** A picked point: the shape of `tempLocation` and of each end of the booking. */
  datatype Location = Location(lat: Coord, lng: Coord, address: string)

  /** The end of the delivery a map pick is for (`mapSelectMode`). */
  datatype Target = Pickup | Dropoff

  function Other(t: Target): (u: Target)
    ensures u != t
  {
    if t == Pickup then Dropoff else Pickup
  }

  /** The draft every reset restores: no points, document package, bike. */
  function DefaultBooking(): (b: Booking)
    ensures b.pickupLat == None && b.pickupLng == None
    ensures b.dropoffLat == None && b.dropoffLng == None
    ensures !LocationsChosen(b)
    ensures b.pickupAddress == "" && b.dropoffAddress == ""
    ensures b.packageType == Document && b.riderType == "bike"
  {
    Booking("", None, None, "", None, None, Document, "bike")
  }

  function EmptyContact(): Contact
  {
    Contact("", "", "")
  }

  /** The guard of the first Continue button: all four coordinates truthy. */
  predicate LocationsChosen(b: Booking)
  {
    Truthy(b.pickupLat) && Truthy(b.pickupLng) && Truthy(b.dropoffLat) && Truthy(b.dropoffLng)
  }

  /** The guard of the second Continue button: all three contact strings non-empty. */
  predicate ContactComplete(c: Contact)
  {
    c.phone != "" && c.whatsapp != "" && c.email != ""
  }

  /** The pickup or dropoff fields of a booking, read as one location. */
  function PlaceOf(b: Booking, t: Target): Location
  {
    match t
    case Pickup => Location(b.pickupLat, b.pickupLng, b.pickupAddress)
    case Dropoff => Location(b.dropoffLat, b.dropoffLng, b.dropoffAddress)
  }

  /** Overwrites the pickup or dropoff fields of a booking with a location. */
  function WithPlace(b: Booking, t: Target, loc: Location): (r: Booking)
    ensures PlaceOf(r, t) == loc
    ensures PlaceOf(r, Other(t)) == PlaceOf(b, Other(t))
    ensures r.packageType == b.packageType && r.riderType == b.riderType
  {
    match t
    case Pickup => b.(pickupLat := loc.lat, pickupLng := loc.lng, pickupAddress := loc.address)
    case Dropoff => b.(dropoffLat := loc.lat, dropoffLng := loc.lng, dropoffAddress := loc.address)
  }

  /** Sets one contact field, as each input's change handler does. */
  function EditContact(c: Contact, f: ContactField, v: string): (r: Contact)
    ensures f == PhoneField ==> r.phone == v && r.whatsapp == c.whatsapp && r.email == c.email
    ensures f == WhatsappField ==> r.whatsapp == v && r.phone == c.phone && r.email == c.email
    ensures f == EmailField ==> r.email == v && r.phone == c.phone && r.whatsapp == c.whatsapp
  {
    match f
    case PhoneField => c.(phone := v)
    case WhatsappField => c.(whatsapp := v)
    case EmailField => c.(email := v)
  }
}
