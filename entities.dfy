/** The rows of the booking database: users, venues with their images,
    additional services, packages with their package services, and bookings
    with the price snapshots of the services booked. Columns the schema
    declares NOT NULL are plain values; nullable columns are Options. */
module Entities {
  import opened Common
  import opened DateTimes

  datatype PaymentStatus = Pending | Completed | Failed | Refunded | Canceled

  /** `PaymentStatus.ToString()` */
  function PaymentStatusName(p: PaymentStatus): string {
    match p
    case Pending => "Pending"
    case Completed => "Completed"
    case Failed => "Failed"
    case Refunded => "Refunded"
    case Canceled => "Canceled"
  }

  /** Basic = 1, Intermediate = 2, Advance = 3, Custom = 4 */
  datatype PackageTier = Basic | Intermediate | Advance | Custom

  /** The tier's numeric value, by which `OrderBy(p => p.Tier)` sorts. */
  function TierValue(t: PackageTier): int {
    match t
    case Basic => 1
    case Intermediate => 2
    case Advance => 3
    case Custom => 4
  }

  /** `PackageTier.ToString()` */
  function TierName(t: PackageTier): string {
    match t
    case Basic => "Basic"
    case Intermediate => "Intermediate"
    case Advance => "Advance"
    case Custom => "Custom"
  }

  datatype ServiceCategory = Food | Decoration | Entertainment | Photography | Other

  /** The Status a venue under maintenance carries. */
  const MaintenanceStatus: string := "Maintenance"
  /** The Status of a booking that CreateBooking writes. */
  const ConfirmedStatus: string := "Confirmed"
  /** The Status of a booking after CancelBooking; such bookings no longer
      hold their days. */
  const CanceledStatus: string := "Canceled"
  /** The Role a new registration gets. */
  const DefaultRole: string := "User"

  datatype User = User(
    id: Guid,
    name: string,
    email: string,
    contactNumber: Option<string>,
    passwordHash: string,
    role: string,
    createdAt: Ticks)

  /** A venue with its VenueImage rows, as their URLs in insertion order. */
  datatype Venue = Venue(
    id: Guid,
    name: string,
    address: string,
    images: seq<string>,
    venueType: string,
    status: string,
    rating: real,
    createdAt: Ticks,
    updatedAt: Ticks)

  datatype AdditionalService = AdditionalService(
    id: Guid,
    name: string,
    description: Option<string>,
    price: Cents,
    venueId: Guid,
    category: ServiceCategory,
    isActive: bool,
    createdAt: Ticks)

  datatype VenuePackage = VenuePackage(
    id: Guid,
    name: string,
    description: Option<string>,
    tier: PackageTier,
    baseCapacity: Int32,
    baseDurationHours: Int32,
    basePrice: Cents,
    pricePerAdditionalPerson: Cents,
    pricePerAdditionalHour: Cents,
    includesDecoration: bool,
    includesCake: bool,
    includesSoundSystem: bool,
    includedServicesDescription: Option<string>,
    venueId: Guid,
    updatedAt: Ticks,
    createdAt: Ticks,
    isActive: bool)

  datatype PackageService = PackageService(
    id: Guid,
    name: string,
    description: Option<string>,
    price: Cents,
    packageId: Guid,
    isIncludedInPackage: bool,
    isAvailableForCustomization: bool)

  /** The price an additional service had when it was booked. */
  datatype BookingAdditionalService = BookingAdditionalService(
    id: Guid,
    additionalServiceId: Guid,
    priceAtBooking: Cents,
    quantity: int)

  /** The price a package service had when it was booked. */
  datatype BookingPackageService = BookingPackageService(
    id: Guid,
    packageServiceId: Guid,
    priceAtBooking: Cents,
    quantity: int,
    isIncludedInPackage: bool)

  /** A booking with its snapshot rows (whose BookingId is this booking's id). */
  datatype Booking = Booking(
    id: Guid,
    venueId: Guid,
    packageId: Option<Guid>,
    userId: Guid,
    startTime: Ticks,
    endTime: Ticks,
    isCustomPackage: bool,
    customPackageName: Option<string>,
    modifiedCapacity: Option<Int32>,
    modifiedDurationHours: Option<Int32>,
    basePackageCost: Cents,
    capacityExtensionCost: Cents,
    durationExtensionCost: Cents,
    additionalServicesCost: Cents,
    totalCost: Cents,
    paymentStatus: PaymentStatus,
    status: string,
    additionalServices: seq<BookingAdditionalService>,
    packageServices: seq<BookingPackageService>,
    createdAt: Ticks,
    updatedAt: Option<Ticks>)

  /** A booking that still holds its days: `b.Status != "Canceled"`. */
  predicate NotCanceled(b: Booking) {
    b.status != CanceledStatus
  }

  /** The sum of the snapshot prices of the booked additional services. */
  function SnapshotAdditionalCost(b: Booking): Cents {
    SumBy(b.additionalServices, (s: BookingAdditionalService) => s.priceAtBooking)
  }

  /** The sum of the snapshot prices of the booked package services that the
      package does not already include. */
  function SnapshotPackageServicesCost(b: Booking): Cents {
    SumBy(Filter(b.packageServices, (s: BookingPackageService) => !s.isIncludedInPackage),
          (s: BookingPackageService) => s.priceAtBooking)
  }

  /** What every booking that CreateBooking writes satisfies: it ends after
      it starts, its additional-services cost is the sum of its snapshots,
      and its total is the sum of its parts. */
  ghost predicate WellFormedBooking(b: Booking) {
    b.endTime > b.startTime
    && b.additionalServicesCost == SnapshotAdditionalCost(b)
    && b.totalCost == b.basePackageCost + b.capacityExtensionCost + b.durationExtensionCost
                      + b.additionalServicesCost + SnapshotPackageServicesCost(b)
  }

  /** Two bookings share at least one calendar day. */
  predicate DaysOverlap(a: Booking, b: Booking) {
    Date(a.startTime) <= Date(b.endTime) && Date(a.endTime) >= Date(b.startTime)
  }

  /** No two bookings of the same venue that are not canceled share a day. */
  ghost predicate ActiveBookingsDisjoint(bs: seq<Booking>) {
    forall i, j ::
      (0 <= i < j < |bs| && bs[i].venueId == bs[j].venueId && NotCanceled(bs[i]) && NotCanceled(bs[j]))
      ==> !DaysOverlap(bs[i], bs[j])
  }
}
