/** The entities of the booking application and their status vocabularies. */
module Types {
  import opened Wrappers

  datatype UserRole = Client | Provider | Admin

  function UserRoleName(r: UserRole): string
  {
    match r
    case Client => "client"
    case Provider => "provider"
    case Admin => "admin"
  }

  /** Reads a role as it appears in stored data; any other text is not a role. */
  function ParseUserRole(s: string): (r: Option<UserRole>)
    ensures r.Some? ==> UserRoleName(r.value) == s
    ensures r.None? ==> forall x :: UserRoleName(x) != s
  {
    if s == "client" then Some(Client)
    else if s == "provider" then Some(Provider)
    else if s == "admin" then Some(Admin)
    else None
  }

  datatype UserStatus = Active | Inactive | Banned

  function UserStatusName(s: UserStatus): string
  {
    match s
    case Active => "active"
    case Inactive => "inactive"
    case Banned => "banned"
  }

  function ParseUserStatus(s: string): (r: Option<UserStatus>)
    ensures r.Some? ==> UserStatusName(r.value) == s
    ensures r.None? ==> forall x :: UserStatusName(x) != s
  {
    if s == "active" then Some(Active)
    else if s == "inactive" then Some(Inactive)
    else if s == "banned" then Some(Banned)
    else None
  }

  datatype HotelStatus = Draft | Submitted | Approved | Rejected | Pending

  function HotelStatusName(s: HotelStatus): string
  {
    match s
    case Draft => "DRAFT"
    case Submitted => "SUBMITTED"
    case Approved => "APPROVED"
    case Rejected => "REJECTED"
    case Pending => "PENDING"
  }

  function ParseHotelStatus(s: string): (r: Option<HotelStatus>)
    ensures r.Some? ==> HotelStatusName(r.value) == s
    ensures r.None? ==> forall x :: HotelStatusName(x) != s
  {
    if s == "DRAFT" then Some(Draft)
    else if s == "SUBMITTED" then Some(Submitted)
    else if s == "APPROVED" then Some(Approved)
    else if s == "REJECTED" then Some(Rejected)
    else if s == "PENDING" then Some(Pending)
    else None
  }

  /** A hotel status filter: one status, or "ALL". */
  datatype HotelStatusFilter = AllStatuses | OnlyStatus(status: HotelStatus)

  datatype BookingStatus = BookingPending | Confirmed | Cancelled | Completed | NoShow

  function BookingStatusName(s: BookingStatus): string
  {
    match s
    case BookingPending => "pending"
    case Confirmed => "confirmed"
    case Cancelled => "cancelled"
    case Completed => "completed"
    case NoShow => "no-show"
  }

  function ParseBookingStatus(s: string): (r: Option<BookingStatus>)
    ensures r.Some? ==> BookingStatusName(r.value) == s
    ensures r.None? ==> forall x :: BookingStatusName(x) != s
  {
    if s == "pending" then Some(BookingPending)
    else if s == "confirmed" then Some(Confirmed)
    else if s == "cancelled" then Some(Cancelled)
    else if s == "completed" then Some(Completed)
    else if s == "no-show" then Some(NoShow)
    else None
  }

  datatype PaymentStatus = PaymentPending | Paid | Refunded | Failed

  function PaymentStatusName(s: PaymentStatus): string
  {
    match s
    case PaymentPending => "pending"
    case Paid => "paid"
    case Refunded => "refunded"
    case Failed => "failed"
  }

  function ParsePaymentStatus(s: string): (r: Option<PaymentStatus>)
    ensures r.Some? ==> PaymentStatusName(r.value) == s
    ensures r.None? ==> forall x :: PaymentStatusName(x) != s
  {
    if s == "pending" then Some(PaymentPending)
    else if s == "paid" then Some(Paid)
    else if s == "refunded" then Some(Refunded)
    else if s == "failed" then Some(Failed)
    else None
  }

  /** Every status name reads back as the status it names, so distinct statuses have distinct names. */
  lemma NamesReadBack(r: UserRole, u: UserStatus, h: HotelStatus, b: BookingStatus, p: PaymentStatus)
    ensures ParseUserRole(UserRoleName(r)) == Some(r)
    ensures ParseUserStatus(UserStatusName(u)) == Some(u)
    ensures ParseHotelStatus(HotelStatusName(h)) == Some(h)
    ensures ParseBookingStatus(BookingStatusName(b)) == Some(b)
    ensures ParsePaymentStatus(PaymentStatusName(p)) == Some(p)
  {
  }

  /** An account; the four trailing fields are optional. Numbers are whole numbers here. */
  datatype User = User(
    id: string,
    fullName: string,
    gender: string,
    age: int,
    birthday: string,
    idCard: string,
    email: string,
    phone: string,
    username: string,
    password: string,
    role: UserRole,
    twoFactorEnabled: bool,
    status: UserStatus,
    createdAt: string,
    businessLicense: Option<string>,
    address: Option<string>,
    businessType: Option<string>,
    taxCode: Option<string>)

  /** A hotel listing; contact details, price and capacity are optional. */
  datatype Hotel = Hotel(
    id: string,
    ownerId: string,
    name: string,
    slug: string,
    address: string,
    description: string,
    businessTypes: seq<string>,
    starRating: int,
    totalRooms: int,
    amenities: seq<string>,
    checkInTime: string,
    checkOutTime: string,
    status: HotelStatus,
    images: seq<string>,
    createdAt: string,
    phone: Option<string>,
    email: Option<string>,
    price: Option<int>,
    maxGuests: Option<int>,
    rooms: Option<int>)

  datatype RoomType = RoomType(
    id: string,
    hotelId: string,
    name: string,
    slug: Option<string>,
    capacity: int,
    bedType: string,
    size: int,
    description: Option<string>,
    amenities: seq<string>,
    basePrice: int,
    images: seq<string>)

  /** A reservation; only the payment method and the special requests are optional. */
  datatype Booking = Booking(
    id: string,
    customerId: string,
    hotelId: string,
    roomIds: seq<string>,
    roomTypeId: string,
    checkIn: string,
    checkOut: string,
    adults: int,
    children: int,
    totalPrice: int,
    status: BookingStatus,
    paymentStatus: PaymentStatus,
    paymentMethod: Option<string>,
    specialRequests: Option<string>,
    createdAt: string)
}
