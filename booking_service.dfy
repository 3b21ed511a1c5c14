/** BookingService: creating a booking (a fixed sequence of checks, a cost
    breakdown and price snapshots of the services booked), cancelling one,
    checking a venue's availability day by day, and the booking queries. */
module BookingService {
  import opened Common
  import opened DateTimes
  import opened Text
  import opened Sorting
  import opened Entities
  import opened Dtos
  import opened Data
  import opened MethodResults

  const VenueNotFound: string := "Venue not found."
  const VenueUnderMaintenance: string := "Venue is under maintenance."
  const PackageNotFound: string := "Selected package not found."
  const InvalidAdditionalServices: string := "One or more selected additional services are invalid."
  const InvalidPackageServices: string := "One or more selected package services are invalid."
  const EndNotAfterStart: string := "End time must be after start time."
  const VenueAlreadyBooked: string := "Venue is already booked for the requested day(s)."
  const BookingNotFound: string := "Booking not found."
  /** The prefix CreateBookingAsync puts before the message of a caught exception. */
  const CreateFailure: string := "Failed to create booking: "
  /** The prefix CheckVenueAvailabilityAsync puts before the message of a caught exception. */
  const AvailabilityFailure: string := "Failed to check availability: "

  // ---------------------------------------------------------------------
  // CreateBookingAsync: the checks before the timing
  // ---------------------------------------------------------------------

  /** The active package with the given id, if any. */
  function ActivePackage(packages: seq<VenuePackage>, id: Guid): (r: Option<VenuePackage>)
    ensures r.Some? ==> r.value in packages && r.value.id == id && r.value.isActive
    ensures r.None? <==> forall p :: p in packages ==> !(p.id == id && p.isActive)
  {
    FindFirst(packages, (p: VenuePackage) => p.id == id && p.isActive)
  }

  function SelectedAdditionalIds(dto: CreateBookingDto): seq<Guid> {
    dto.selectedAdditionalServiceIds.GetOr([])
  }

  function SelectedPackageServiceIds(dto: CreateBookingDto): seq<Guid> {
    dto.selectedPackageServiceIds.GetOr([])
  }

  /** The venue's additional services whose ids were selected, in table order. */
  function MatchAdditionalServices(services: seq<AdditionalService>, ids: seq<Guid>, venueId: Guid): (r: seq<AdditionalService>)
    ensures |r| <= |services|
    ensures forall s :: s in r <==> s in services && s.id in ids && s.venueId == venueId
  {
    Filter(services, (s: AdditionalService) => s.id in ids && s.venueId == venueId)
  }

  /** The package's services whose ids were selected, in table order. */
  function MatchPackageServices(services: seq<PackageService>, ids: seq<Guid>, packageId: Guid): (r: seq<PackageService>)
    ensures |r| <= |services|
    ensures forall s :: s in r <==> s in services && s.id in ids && s.packageId == packageId
  {
    Filter(services, (s: PackageService) => s.id in ids && s.packageId == packageId)
  }

  /** `ids.Any(id => !rows.Any(r => r.Id == id))` */
  predicate AnyUnmatched<T>(ids: seq<Guid>, rows: seq<T>, key: T -> Guid) {
    exists id :: id in ids && forall i :: 0 <= i < |rows| ==> key(rows[i]) != id
  }

  /** The venue exists and is not under maintenance. */
  predicate VenueOpen(venues: seq<Venue>, dto: CreateBookingDto) {
    FindVenue(venues, dto.venueId).Some? && FindVenue(venues, dto.venueId).value.status != MaintenanceStatus
  }

  /** No package was asked for, or an active package has the id asked for. */
  predicate PackageResolves(packages: seq<VenuePackage>, dto: CreateBookingDto) {
    dto.packageId.None? || exists p :: p in packages && p.id == dto.packageId.value && p.isActive
  }

  /** Every selected additional-service id is a service of the venue. */
  predicate AdditionalServicesResolve(services: seq<AdditionalService>, dto: CreateBookingDto) {
    forall id :: id in SelectedAdditionalIds(dto) ==>
      exists s :: s in services && s.id == id && s.venueId == dto.venueId
  }

  /** What the checks up to the package services settle: the venue, the
      package and the services the booking is for. */
  datatype Offer = Offer(
    venue: Venue,
    package: Option<VenuePackage>,
    additionalServices: seq<AdditionalService>,
    packageServices: seq<PackageService>)

  /** The first five checks of CreateBookingAsync, in the source's order. */
  function SelectOffer(venues: seq<Venue>, packages: seq<VenuePackage>, services: seq<AdditionalService>,
                       packageServices: seq<PackageService>, dto: CreateBookingDto): (r: Result<Offer>)
    ensures r == Err(VenueNotFound) <==> forall v :: v in venues ==> v.id != dto.venueId
    ensures r == Err(VenueUnderMaintenance) <==>
      FindVenue(venues, dto.venueId).Some? && FindVenue(venues, dto.venueId).value.status == MaintenanceStatus
    ensures r == Err(PackageNotFound) <==> VenueOpen(venues, dto) && !PackageResolves(packages, dto)
    ensures r == Err(InvalidAdditionalServices) <==>
      VenueOpen(venues, dto) && PackageResolves(packages, dto) && !AdditionalServicesResolve(services, dto)
    ensures r == Err(InvalidPackageServices) <==>
      VenueOpen(venues, dto) && PackageResolves(packages, dto) && AdditionalServicesResolve(services, dto)
      && dto.packageId.Some?
      && (exists id :: id in SelectedPackageServiceIds(dto)
            && forall s :: s in packageServices ==> !(s.id == id && s.packageId == dto.packageId.value))
    ensures r.Ok? ==>
      r.value.venue in venues && r.value.venue.id == dto.venueId && r.value.venue.status != MaintenanceStatus
    ensures r.Ok? ==> (r.value.package.Some? <==> dto.packageId.Some?)
    ensures r.Ok? && r.value.package.Some? ==>
      r.value.package.value in packages && r.value.package.value.isActive
      && r.value.package.value.id == dto.packageId.value
    ensures r.Ok? ==> r.value.additionalServices == MatchAdditionalServices(services, SelectedAdditionalIds(dto), dto.venueId)
    ensures r.Ok? ==> forall id :: id in SelectedAdditionalIds(dto) ==>
      exists s :: s in r.value.additionalServices && s.id == id
    ensures r.Ok? && r.value.package.Some? ==>
      forall s :: s in r.value.packageServices <==>
        s in packageServices && s.id in SelectedPackageServiceIds(dto) && s.packageId == dto.packageId.value
    ensures r.Ok? && r.value.package.Some? ==> forall id :: id in SelectedPackageServiceIds(dto) ==>
      exists s :: s in r.value.packageServices && s.id == id
    ensures r.Ok? && r.value.package.None? ==> r.value.packageServices == []
    ensures r.Ok? ==> |r.value.packageServices| <= |packageServices|
  {
    match FindVenue(venues, dto.venueId)
    case None => Err(VenueNotFound)
    case Some(venue) =>
      if venue.status == MaintenanceStatus then Err(VenueUnderMaintenance)
      else
        var package := if dto.packageId.Some? then ActivePackage(packages, dto.packageId.value) else None;
        if dto.packageId.Some? && package.None? then Err(PackageNotFound)
        else
          var additionalIds := SelectedAdditionalIds(dto);
          var additional := MatchAdditionalServices(services, additionalIds, dto.venueId);
          if AnyUnmatched(additionalIds, additional, (s: AdditionalService) => s.id) then Err(InvalidAdditionalServices)
          else
            var packageServiceIds := SelectedPackageServiceIds(dto);
            if package.Some? && |packageServiceIds| > 0 then
              var chosen := MatchPackageServices(packageServices, packageServiceIds, package.value.id);
              if AnyUnmatched(packageServiceIds, chosen, (s: PackageService) => s.id) then Err(InvalidPackageServices)
              else Ok(Offer(venue, package, additional, chosen))
            else Ok(Offer(venue, package, additional, []))
  }

  // ---------------------------------------------------------------------
  // CreateBookingAsync: timing, conflicts and costs
  // ---------------------------------------------------------------------

  /** `ModifiedDurationHours ?? package?.BaseDurationHours ?? (int)Duration`,
      which the end time then counts in days. */
  function EffectiveDuration(dto: CreateBookingDto, package: Option<VenuePackage>): Int32 {
    match dto.modifiedDurationHours
    case Some(h) => h
    case None =>
      match package
      case Some(p) => p.baseDurationHours
      case None => dto.duration
  }

  /** The end time of the requested booking, or the message it fails with:
      AddDays and AddTicks throw when the result is not representable, and an
      end not after the start is refused. */
  function ScheduleEnd(dto: CreateBookingDto, package: Option<VenuePackage>): (r: Result<Ticks>)
    ensures var days := EffectiveDuration(dto, package);
      r.Ok? <==> days > 0 && dto.startTime + days * TicksPerDay <= MaxTicks
    ensures var days := EffectiveDuration(dto, package);
      r.Ok? ==> r.value == dto.startTime + days * TicksPerDay - 1 && r.value > dto.startTime
    ensures var days := EffectiveDuration(dto, package);
      r == Err(EndNotAfterStart) <==> days <= 0 && 0 < dto.startTime + days * TicksPerDay
  {
    var days := EffectiveDuration(dto, package);
    match EndTimeFor(dto.startTime, days)
    case None => Err(CreateFailure + AddDaysError(days))
    case Some(endTime) =>
      EndTimeAfterStart(dto.startTime, days);
      if endTime <= dto.startTime then Err(EndNotAfterStart) else Ok(endTime)
  }

  /** A booking of the venue that still holds its days and shares a day with
      `startDate..endDate`. */
  predicate Conflicts(b: Booking, venueId: Guid, startDate: int, endDate: int) {
    b.venueId == venueId && NotCanceled(b) && Date(b.startTime) <= endDate && Date(b.endTime) >= startDate
  }

  /** The availability query both CreateBookingAsync and
      CheckVenueAvailabilityAsync run. */
  predicate HasConflict(bookings: seq<Booking>, venueId: Guid, startDate: int, endDate: int) {
    exists i :: 0 <= i < |bookings| && Conflicts(bookings[i], venueId, startDate, endDate)
  }

  /** The charge for going beyond a package's base amount: the excess, in
      unchecked 32-bit arithmetic, times the unit price; nothing when the
      requested amount is absent or not larger. */
  function ExtensionCost(requested: Option<Int32>, base: Int32, unitPrice: Cents): Cents {
    if requested.Some? && requested.value > base then Wrap32(requested.value - base) * unitPrice else 0
  }

  /** The base price, capacity extension and duration extension a booking
      with this package pays; all zero without a package. */
  function PackageCosts(dto: CreateBookingDto, package: Option<VenuePackage>): (Cents, Cents, Cents) {
    match package
    case None => (0, 0, 0)
    case Some(p) =>
      (p.basePrice,
       ExtensionCost(dto.modifiedCapacity, p.baseCapacity, p.pricePerAdditionalPerson),
       ExtensionCost(dto.modifiedDurationHours, p.baseDurationHours, p.pricePerAdditionalHour))
  }

  function AdditionalServicesCost(services: seq<AdditionalService>): Cents {
    SumBy(services, (s: AdditionalService) => s.price)
  }

  /** The price of the chosen package services the package does not include. */
  function PackageServicesCost(services: seq<PackageService>): Cents {
    SumBy(Filter(services, (s: PackageService) => !s.isIncludedInPackage), (s: PackageService) => s.price)
  }

  /** Everything CreateBookingAsync decides before it builds the booking. */
  datatype Quote = Quote(
    offer: Offer,
    endTime: Ticks,
    basePackageCost: Cents,
    capacityExtensionCost: Cents,
    durationExtensionCost: Cents,
    additionalServicesCost: Cents,
    packageServicesCost: Cents,
    totalCost: Cents)

  /** The quote adds up: the services cost is the sum of their prices and the
      total is the sum of the parts. */
  predicate QuoteAddsUp(q: Quote) {
    q.additionalServicesCost == AdditionalServicesCost(q.offer.additionalServices)
    && q.packageServicesCost == PackageServicesCost(q.offer.packageServices)
    && q.totalCost == q.basePackageCost + q.capacityExtensionCost + q.durationExtensionCost
                      + q.additionalServicesCost + q.packageServicesCost
  }

  /** The checks CreateBookingAsync runs once the offer is settled (the end
      time, the conflict query, and the UserId foreign key that SaveChanges
      enforces), then the cost breakdown. */
  function QuoteOffer(users: seq<User>, bookings: seq<Booking>, dto: CreateBookingDto, offer: Offer): (r: Result<Quote>)
    ensures r.Ok? ==> r.value.offer == offer && ScheduleEnd(dto, offer.package) == Ok(r.value.endTime)
    ensures r.Ok? ==> !HasConflict(bookings, dto.venueId, Date(dto.startTime), Date(r.value.endTime))
    ensures r.Ok? ==> exists u :: u in users && u.id == dto.userId
    ensures r.Ok? ==> QuoteAddsUp(r.value)
    ensures r.Ok? && offer.package.None? ==>
      r.value.basePackageCost == 0 && r.value.capacityExtensionCost == 0 && r.value.durationExtensionCost == 0
    ensures r.Ok? && offer.package.Some? ==>
      var p := offer.package.value;
      r.value.basePackageCost == p.basePrice
      && r.value.capacityExtensionCost == ExtensionCost(dto.modifiedCapacity, p.baseCapacity, p.pricePerAdditionalPerson)
      && r.value.durationExtensionCost == ExtensionCost(dto.modifiedDurationHours, p.baseDurationHours, p.pricePerAdditionalHour)
    ensures r == Err(VenueAlreadyBooked) <==>
      ScheduleEnd(dto, offer.package).Ok?
      && HasConflict(bookings, dto.venueId, Date(dto.startTime), Date(ScheduleEnd(dto, offer.package).value))
    ensures r == Err(CreateFailure + SaveChangesError) <==>
      ScheduleEnd(dto, offer.package).Ok?
      && !HasConflict(bookings, dto.venueId, Date(dto.startTime), Date(ScheduleEnd(dto, offer.package).value))
      && forall u :: u in users ==> u.id != dto.userId
  {
    match ScheduleEnd(dto, offer.package)
    case Err(e) => Err(e)
    case Ok(endTime) =>
      if HasConflict(bookings, dto.venueId, Date(dto.startTime), Date(endTime)) then Err(VenueAlreadyBooked)
      else if FindUser(users, dto.userId).None? then Err(CreateFailure + SaveChangesError)
      else
        var costs := PackageCosts(dto, offer.package);
        var base, capacity, duration := costs.0, costs.1, costs.2;
        var additionalCost := AdditionalServicesCost(offer.additionalServices);
        var packageCost := PackageServicesCost(offer.packageServices);
        Ok(Quote(offer, endTime, base, capacity, duration, additionalCost, packageCost,
                 base + capacity + duration + additionalCost + packageCost))
  }

  /** Every check of CreateBookingAsync in the source's order, then the cost
      breakdown: a request is refused with the first check it fails. */
  function PlanBooking(users: seq<User>, venues: seq<Venue>, packages: seq<VenuePackage>,
                       services: seq<AdditionalService>, packageServices: seq<PackageService>,
                       bookings: seq<Booking>, dto: CreateBookingDto): (r: Result<Quote>)
  {
    match SelectOffer(venues, packages, services, packageServices, dto)
    case Err(e) => Err(e)
    case Ok(offer) => QuoteOffer(users, bookings, dto, offer)
  }

  /** An offer that passes the remaining checks is quoted with its package
      costs and the prices of the services it selected. */
  lemma QuoteOfferAccepts(users: seq<User>, bookings: seq<Booking>, dto: CreateBookingDto, q: Quote)
    requires ScheduleEnd(dto, q.offer.package) == Ok(q.endTime)
    requires !HasConflict(bookings, dto.venueId, Date(dto.startTime), Date(q.endTime))
    requires FindUser(users, dto.userId).Some?
    requires PackageCosts(dto, q.offer.package) == (q.basePackageCost, q.capacityExtensionCost, q.durationExtensionCost)
    requires QuoteAddsUp(q)
    ensures QuoteOffer(users, bookings, dto, q.offer) == Ok(q)
  {
    var r := QuoteOffer(users, bookings, dto, q.offer);
    assert r.Ok? && r.value.offer == q.offer && r.value.endTime == q.endTime;
    assert r.value.basePackageCost == q.basePackageCost;
    assert r.value.capacityExtensionCost == q.capacityExtensionCost;
    assert r.value.durationExtensionCost == q.durationExtensionCost;
    assert r.value.additionalServicesCost == q.additionalServicesCost;
    assert r.value.packageServicesCost == q.packageServicesCost;
    assert r.value.totalCost == q.totalCost;
  }

  // ---------------------------------------------------------------------
  // CreateBookingAsync: the booking and its price snapshots
  // ---------------------------------------------------------------------

  /** One snapshot per booked additional service, with the id drawn for it. */
  function AdditionalSnapshots(services: seq<AdditionalService>, ids: seq<Guid>): seq<BookingAdditionalService>
    requires |ids| >= |services|
  {
    seq(|services|, i requires 0 <= i < |services| =>
      BookingAdditionalService(ids[i], services[i].id, services[i].price, 1))
  }

  /** One snapshot per booked package service, with the id drawn for it. */
  function PackageSnapshots(services: seq<PackageService>, ids: seq<Guid>): seq<BookingPackageService>
    requires |ids| >= |services|
  {
    seq(|services|, i requires 0 <= i < |services| =>
      BookingPackageService(ids[i], services[i].id, services[i].price, 1, services[i].isIncludedInPackage))
  }

  /** The snapshots of the additional services add up to their prices. */
  lemma {:induction false} AdditionalSnapshotsCost(services: seq<AdditionalService>, ids: seq<Guid>)
    requires |ids| >= |services|
    ensures SumBy(AdditionalSnapshots(services, ids), (s: BookingAdditionalService) => s.priceAtBooking)
            == AdditionalServicesCost(services)
  {
    if services != [] {
      AdditionalSnapshotsCost(services[1..], ids[1..]);
      assert AdditionalSnapshots(services, ids)[1..] == AdditionalSnapshots(services[1..], ids[1..]);
    }
  }

  /** The snapshots of the package services the package does not include add
      up to those services' prices. */
  lemma {:induction false} PackageSnapshotsCost(services: seq<PackageService>, ids: seq<Guid>)
    requires |ids| >= |services|
    ensures SumBy(Filter(PackageSnapshots(services, ids), (s: BookingPackageService) => !s.isIncludedInPackage),
                  (s: BookingPackageService) => s.priceAtBooking)
            == PackageServicesCost(services)
  {
    if services != [] {
      PackageSnapshotsCost(services[1..], ids[1..]);
      assert PackageSnapshots(services, ids)[1..] == PackageSnapshots(services[1..], ids[1..]);
    }
  }

  /** `booking.Package?.Name ?? string.Empty` for the package the booking was made with. */
  function PackageName(package: Option<VenuePackage>): string {
    if package.Some? then package.value.name else ""
  }

  /** The booking CreateBookingAsync writes for a quote: the request's fields,
      the cost breakdown, Status "Confirmed", PaymentStatus Pending, and one
      snapshot per matched service. `bookingId`, `snapshotIds` and `now` are
      the values Guid.NewGuid and DateTime.UtcNow return. */
  function NewBooking(dto: CreateBookingDto, q: Quote, bookingId: Guid, snapshotIds: seq<Guid>, now: Ticks): (b: Booking)
    requires |snapshotIds| >= |q.offer.additionalServices| + |q.offer.packageServices|
    ensures b.id == bookingId && b.venueId == dto.venueId && b.packageId == dto.packageId && b.userId == dto.userId
    ensures b.startTime == dto.startTime && b.endTime == q.endTime
    ensures b.status == ConfirmedStatus && b.paymentStatus == Pending && b.createdAt == now && b.updatedAt.None?
    ensures b.totalCost == q.totalCost
    ensures |b.additionalServices| == |q.offer.additionalServices|
    ensures forall i :: 0 <= i < |b.additionalServices| ==>
      var snapshot, service := b.additionalServices[i], q.offer.additionalServices[i];
      snapshot.additionalServiceId == service.id && snapshot.priceAtBooking == service.price && snapshot.quantity == 1
    ensures |b.packageServices| == |q.offer.packageServices|
    ensures forall i :: 0 <= i < |b.packageServices| ==>
      var snapshot, service := b.packageServices[i], q.offer.packageServices[i];
      snapshot.packageServiceId == service.id && snapshot.priceAtBooking == service.price && snapshot.quantity == 1
      && snapshot.isIncludedInPackage == service.isIncludedInPackage
    ensures QuoteAddsUp(q) && q.endTime > dto.startTime ==> WellFormedBooking(b)
  {
    var n := |q.offer.additionalServices|;
    var b := Booking(bookingId, dto.venueId, dto.packageId, dto.userId, dto.startTime, q.endTime,
      dto.isCustomPackage, dto.customPackageName, dto.modifiedCapacity, dto.modifiedDurationHours,
      q.basePackageCost, q.capacityExtensionCost, q.durationExtensionCost, q.additionalServicesCost, q.totalCost,
      Pending, ConfirmedStatus,
      AdditionalSnapshots(q.offer.additionalServices, snapshotIds),
      PackageSnapshots(q.offer.packageServices, snapshotIds[n..]),
      now, None);
    AdditionalSnapshotsCost(q.offer.additionalServices, snapshotIds);
    PackageSnapshotsCost(q.offer.packageServices, snapshotIds[n..]);
    b
  }

  /** MapToDto: the booking as the BookingDto the caller receives. */
  function MapToDto(b: Booking, venueName: string, packageName: string): BookingDto {
    BookingDto(b.id, b.venueId, venueName, b.packageId, packageName, b.userId, b.startTime, b.endTime,
      b.isCustomPackage, b.customPackageName, b.totalCost, b.status, b.createdAt, b.updatedAt,
      PaymentStatusName(b.paymentStatus))
  }

  /** A booking that conflicts with no booking of its venue keeps the
      venue's bookings day-disjoint when it is added. */
  lemma AddingKeepsDisjoint(bookings: seq<Booking>, b: Booking)
    requires ActiveBookingsDisjoint(bookings)
    requires !HasConflict(bookings, b.venueId, Date(b.startTime), Date(b.endTime))
    ensures ActiveBookingsDisjoint(bookings + [b])
  {
    var all := bookings + [b];
    forall i, j | 0 <= i < j < |all| && all[i].venueId == all[j].venueId && NotCanceled(all[i]) && NotCanceled(all[j])
      ensures !DaysOverlap(all[i], all[j])
    {
      if j == |bookings| {
        assert !Conflicts(bookings[i], b.venueId, Date(b.startTime), Date(b.endTime));
      }
    }
  }

  /** Adding a well-formed booking with a fresh id that conflicts with no
      booking of its venue keeps the booking table's part of the invariant. */
  lemma AddingKeepsValid(bookings: seq<Booking>, b: Booking)
    requires UniqueKeys(bookings, (x: Booking) => x.id) && KeyFree(bookings, (x: Booking) => x.id, b.id)
    requires forall i :: 0 <= i < |bookings| ==> WellFormedBooking(bookings[i])
    requires ActiveBookingsDisjoint(bookings)
    requires WellFormedBooking(b)
    requires !HasConflict(bookings, b.venueId, Date(b.startTime), Date(b.endTime))
    ensures UniqueKeys(bookings + [b], (x: Booking) => x.id)
    ensures forall i :: 0 <= i < |bookings + [b]| ==> WellFormedBooking((bookings + [b])[i])
    ensures ActiveBookingsDisjoint(bookings + [b])
  {
    AddingKeepsDisjoint(bookings, b);
  }

  /** The first foreach of CreateBookingAsync: a snapshot of each booked
      additional service, at its current price, with quantity 1. */
  method SnapshotAdditionalServices(services: seq<AdditionalService>, ids: seq<Guid>)
      returns (snapshots: seq<BookingAdditionalService>)
    requires |ids| >= |services|
    ensures snapshots == AdditionalSnapshots(services, ids)
  {
    snapshots := [];
    var i := 0;
    while i < |services|
      invariant 0 <= i <= |services|
      invariant snapshots == AdditionalSnapshots(services[..i], ids)
    {
      var service := services[i];
      snapshots := snapshots + [BookingAdditionalService(ids[i], service.id, service.price, 1)];
      i := i + 1;
      assert snapshots == AdditionalSnapshots(services[..i], ids);
    }
    assert services[..i] == services;
  }

  /** The second foreach of CreateBookingAsync: a snapshot of each booked
      package service, at its current price, with quantity 1. */
  method SnapshotPackageServices(services: seq<PackageService>, ids: seq<Guid>)
      returns (snapshots: seq<BookingPackageService>)
    requires |ids| >= |services|
    ensures snapshots == PackageSnapshots(services, ids)
  {
    snapshots := [];
    var i := 0;
    while i < |services|
      invariant 0 <= i <= |services|
      invariant snapshots == PackageSnapshots(services[..i], ids)
    {
      var service := services[i];
      snapshots := snapshots + [BookingPackageService(ids[i], service.id, service.price, 1, service.isIncludedInPackage)];
      i := i + 1;
      assert snapshots == PackageSnapshots(services[..i], ids);
    }
    assert services[..i] == services;
  }

  /** The checks CreateBookingAsync runs before it computes the end time:
      the venue, its status, the package, and the selected services. */
  method CheckRequest(db: DataContext, dto: CreateBookingDto) returns (res: Result<Offer>)
    ensures res == SelectOffer(db.venues, db.packages, db.additionalServices, db.packageServices, dto)
  {
    var venue := FindVenue(db.venues, dto.venueId);
    if venue.None? {
      return Err(VenueNotFound);
    }
    if venue.value.status == MaintenanceStatus {
      return Err(VenueUnderMaintenance);
    }

    var selectedPackage: Option<VenuePackage> := None;
    if dto.packageId.Some? {
      selectedPackage := ActivePackage(db.packages, dto.packageId.value);
      if selectedPackage.None? {
        return Err(PackageNotFound);
      }
    }

    var selectedServiceIds := SelectedAdditionalIds(dto);
    var additionalServices := MatchAdditionalServices(db.additionalServices, selectedServiceIds, dto.venueId);
    if AnyUnmatched(selectedServiceIds, additionalServices, (s: AdditionalService) => s.id) {
      return Err(InvalidAdditionalServices);
    }

    var selectedPackageServiceIds := SelectedPackageServiceIds(dto);
    var packageServices: seq<PackageService> := [];
    if selectedPackage.Some? && |selectedPackageServiceIds| > 0 {
      packageServices := MatchPackageServices(db.packageServices, selectedPackageServiceIds, selectedPackage.value.id);
      if AnyUnmatched(selectedPackageServiceIds, packageServices, (s: PackageService) => s.id) {
        return Err(InvalidPackageServices);
      }
    }
    res := Ok(Offer(venue.value, selectedPackage, additionalServices, packageServices));
  }

  /** The rest of CreateBookingAsync once the request's venue, package and
      services are settled: the cost breakdown, the end time, the conflict
      query, the booking with its snapshots, and the save, which fails when
      the UserId foreign key names no user. */
  method BookOffer(db: DataContext, dto: CreateBookingDto, offer: Offer,
                   bookingId: Guid, snapshotIds: seq<Guid>, now: Ticks)
      returns (r: MethodResultOf<BookingDto>)
    requires db.Valid()
    requires KeyFree(db.bookings, (b: Booking) => b.id, bookingId)
    requires |snapshotIds| >= |offer.additionalServices| + |offer.packageServices|
    modifies db`bookings
    ensures db.Valid()
    ensures match QuoteOffer(db.users, old(db.bookings), dto, offer)
      case Err(e) => r == MethodResultOf.Fail(e) && db.bookings == old(db.bookings)
      case Ok(q) =>
        var b := NewBooking(dto, q, bookingId, snapshotIds, now);
        r == MethodResultOf.Ok(MapToDto(b, offer.venue.name, PackageName(offer.package)))
        && db.bookings == old(db.bookings) + [b]
  {
    var selectedPackage := offer.package;
    var basePackageCost, capacityExtensionCost, durationExtensionCost := 0, 0, 0;
    if selectedPackage.Some? {
      var p := selectedPackage.value;
      basePackageCost := p.basePrice;
      if dto.modifiedCapacity.Some? && dto.modifiedCapacity.value > p.baseCapacity {
        var additionalPeople := Wrap32(dto.modifiedCapacity.value - p.baseCapacity);
        capacityExtensionCost := additionalPeople * p.pricePerAdditionalPerson;
      }
      if dto.modifiedDurationHours.Some? && dto.modifiedDurationHours.value > p.baseDurationHours {
        var additionalHours := Wrap32(dto.modifiedDurationHours.value - p.baseDurationHours);
        durationExtensionCost := additionalHours * p.pricePerAdditionalHour;
      }
    }
    assert PackageCosts(dto, selectedPackage) == (basePackageCost, capacityExtensionCost, durationExtensionCost);

    var durationHours := EffectiveDuration(dto, selectedPackage);
    var endTime := EndTimeFor(dto.startTime, durationHours);
    if endTime.None? {
      return MethodResultOf.Fail(CreateFailure + AddDaysError(durationHours));
    }
    if endTime.value <= dto.startTime {
      return MethodResultOf.Fail(EndNotAfterStart);
    }
    assert ScheduleEnd(dto, selectedPackage) == Ok(endTime.value);

    var startDate, endDate := Date(dto.startTime), Date(endTime.value);
    if HasConflict(db.bookings, dto.venueId, startDate, endDate) {
      return MethodResultOf.Fail(VenueAlreadyBooked);
    }

    var additionalServicesCost := AdditionalServicesCost(offer.additionalServices);
    var packageServicesCost := PackageServicesCost(offer.packageServices);
    var totalCost := basePackageCost + capacityExtensionCost + durationExtensionCost
                     + additionalServicesCost + packageServicesCost;

    var n := |offer.additionalServices|;
    var bookingAdditional := SnapshotAdditionalServices(offer.additionalServices, snapshotIds);
    var bookingPackage := SnapshotPackageServices(offer.packageServices, snapshotIds[n..]);

    var booking := Booking(bookingId, dto.venueId, dto.packageId, dto.userId, dto.startTime, endTime.value,
      dto.isCustomPackage, dto.customPackageName, dto.modifiedCapacity, dto.modifiedDurationHours,
      basePackageCost, capacityExtensionCost, durationExtensionCost, additionalServicesCost, totalCost,
      Pending, ConfirmedStatus, bookingAdditional, bookingPackage, now, None);

    // SaveChanges: the UserId foreign key must name an existing user.
    if FindUser(db.users, dto.userId).None? {
      return MethodResultOf.Fail(CreateFailure + SaveChangesError);
    }

    ghost var q := Quote(offer, endTime.value, basePackageCost, capacityExtensionCost, durationExtensionCost,
                         additionalServicesCost, packageServicesCost, totalCost);
    QuoteOfferAccepts(db.users, db.bookings, dto, q);
    assert booking == NewBooking(dto, q, bookingId, snapshotIds, now);
    AddingKeepsValid(db.bookings, booking);
    db.bookings := db.bookings + [booking];
    r := MethodResultOf.Ok(MapToDto(booking, offer.venue.name, PackageName(selectedPackage)));
  }

  /** CreateBookingAsync: the checks, then the cost breakdown, the booking
      and its snapshots; the booking is written only when every check passes
      and the save succeeds. */
  method CreateBooking(db: DataContext, dto: CreateBookingDto, bookingId: Guid, snapshotIds: seq<Guid>, now: Ticks)
      returns (r: MethodResultOf<BookingDto>)
    requires db.Valid()
    requires KeyFree(db.bookings, (b: Booking) => b.id, bookingId)
    requires |snapshotIds| >= |db.additionalServices| + |db.packageServices|
    modifies db`bookings
    ensures db.Valid()
    ensures match PlanBooking(db.users, db.venues, db.packages, db.additionalServices, db.packageServices, old(db.bookings), dto)
      case Err(e) => r == MethodResultOf.Fail(e) && db.bookings == old(db.bookings)
      case Ok(q) =>
        var b := NewBooking(dto, q, bookingId, snapshotIds, now);
        r == MethodResultOf.Ok(MapToDto(b, q.offer.venue.name, PackageName(q.offer.package)))
        && db.bookings == old(db.bookings) + [b]
  {
    var offer := CheckRequest(db, dto);
    if offer.Err? {
      return MethodResultOf.Fail(offer.error);
    }
    r := BookOffer(db, dto, offer.value, bookingId, snapshotIds, now);
  }

  /** Selecting services by id depends only on which ids were given, so a
      repeated id selects its service once; and in a table with unique ids
      no service is selected twice. */
  lemma SelectionCountsEachServiceOnce(services: seq<AdditionalService>, ids: seq<Guid>, ids': seq<Guid>, venueId: Guid)
    requires forall id :: id in ids <==> id in ids'
    requires UniqueKeys(services, (s: AdditionalService) => s.id)
    ensures MatchAdditionalServices(services, ids, venueId) == MatchAdditionalServices(services, ids', venueId)
    ensures UniqueKeys(MatchAdditionalServices(services, ids, venueId), (s: AdditionalService) => s.id)
  {
    FilterSamePredicate(services, (s: AdditionalService) => s.id in ids && s.venueId == venueId,
                                  (s: AdditionalService) => s.id in ids' && s.venueId == venueId);
    FilterKeepsUniqueKeys(services, (s: AdditionalService) => s.id in ids && s.venueId == venueId,
                          (s: AdditionalService) => s.id);
  }

  /** The same for the services of the selected package. */
  lemma PackageSelectionCountsEachServiceOnce(services: seq<PackageService>, ids: seq<Guid>, ids': seq<Guid>, packageId: Guid)
    requires forall id :: id in ids <==> id in ids'
    requires UniqueKeys(services, (s: PackageService) => s.id)
    ensures MatchPackageServices(services, ids, packageId) == MatchPackageServices(services, ids', packageId)
    ensures UniqueKeys(MatchPackageServices(services, ids, packageId), (s: PackageService) => s.id)
  {
    FilterSamePredicate(services, (s: PackageService) => s.id in ids && s.packageId == packageId,
                                  (s: PackageService) => s.id in ids' && s.packageId == packageId);
    FilterKeepsUniqueKeys(services, (s: PackageService) => s.id in ids && s.packageId == packageId,
                          (s: PackageService) => s.id);
  }

  // ---------------------------------------------------------------------
  // CancelBookingAsync
  // ---------------------------------------------------------------------

  /** The position of the booking with the given id: `FindAsync(id)`. */
  function BookingIndex(bookings: seq<Booking>, id: Guid): (r: Option<nat>)
    ensures r.Some? ==> r.value < |bookings| && bookings[r.value].id == id
    ensures r.None? <==> forall i :: 0 <= i < |bookings| ==> bookings[i].id != id
  {
    FirstIndex(bookings, (b: Booking) => b.id == id)
  }

  /** The booking after cancellation: Status "Canceled", UpdatedAt stamped. */
  function Canceled(b: Booking, now: Ticks): (c: Booking)
    ensures !NotCanceled(c) && c.updatedAt == Some(now)
    ensures c.(status := b.status, updatedAt := b.updatedAt) == b
  {
    b.(status := CanceledStatus, updatedAt := Some(now))
  }

  /** Cancelling keeps the booking table's part of the invariant: the
      booking stays well formed, and it no longer holds any day. */
  lemma {:induction false} CancelKeepsValid(bookings: seq<Booking>, i: nat, now: Ticks)
    requires i < |bookings|
    requires UniqueKeys(bookings, (x: Booking) => x.id)
    requires forall k :: 0 <= k < |bookings| ==> WellFormedBooking(bookings[k])
    requires ActiveBookingsDisjoint(bookings)
    ensures var after := bookings[i := Canceled(bookings[i], now)];
      UniqueKeys(after, (x: Booking) => x.id)
      && (forall k :: 0 <= k < |after| ==> WellFormedBooking(after[k]))
      && ActiveBookingsDisjoint(after)
  {
    var after := bookings[i := Canceled(bookings[i], now)];
    forall j, k | 0 <= j < k < |after| && after[j].venueId == after[k].venueId
                  && NotCanceled(after[j]) && NotCanceled(after[k])
      ensures !DaysOverlap(after[j], after[k])
    {
      assert j != i && k != i;
      assert after[j] == bookings[j] && after[k] == bookings[k];
    }
    forall k | 0 <= k < |after| ensures WellFormedBooking(after[k]) {
      assert WellFormedBooking(bookings[k]);
    }
  }

  /** A cancelled booking frees its days: whatever conflicts after the
      cancellation conflicted before it. */
  lemma {:induction false} CancelOnlyFreesDays(bookings: seq<Booking>, i: nat, now: Ticks, venueId: Guid, startDate: int, endDate: int)
    requires i < |bookings|
    requires HasConflict(bookings[i := Canceled(bookings[i], now)], venueId, startDate, endDate)
    ensures HasConflict(bookings, venueId, startDate, endDate)
  {
    var after := bookings[i := Canceled(bookings[i], now)];
    var k :| 0 <= k < |after| && Conflicts(after[k], venueId, startDate, endDate);
    assert k != i;
    assert Conflicts(bookings[k], venueId, startDate, endDate);
  }

  /** CancelBookingAsync: an unknown id fails; otherwise only the booking's
      Status and UpdatedAt change, whatever its status was. */
  method CancelBooking(db: DataContext, id: Guid, now: Ticks) returns (r: MethodResult)
    requires db.Valid()
    modifies db`bookings
    ensures db.Valid()
    ensures match BookingIndex(old(db.bookings), id)
      case None => r == MethodResult.Fail(BookingNotFound) && db.bookings == old(db.bookings)
      case Some(i) => r == MethodResult.Ok() && db.bookings == old(db.bookings)[i := Canceled(old(db.bookings)[i], now)]
  {
    var index := BookingIndex(db.bookings, id);
    if index.None? {
      return MethodResult.Fail(BookingNotFound);
    }
    var booking := db.bookings[index.value];
    booking := booking.(status := CanceledStatus);
    booking := booking.(updatedAt := Some(now));
    CancelKeepsValid(db.bookings, index.value, now);
    db.bookings := db.bookings[index.value := booking];
    r := MethodResult.Ok();
  }

  // ---------------------------------------------------------------------
  // CheckVenueAvailabilityAsync
  // ---------------------------------------------------------------------

  /** The venue's bookings that still hold their days, in table order. */
  function VenueActiveBookings(bookings: seq<Booking>, venueId: Guid): (r: seq<Booking>)
    ensures forall b :: b in r <==> b in bookings && b.venueId == venueId && NotCanceled(b)
  {
    Filter(bookings, (b: Booking) => b.venueId == venueId && NotCanceled(b))
  }

  /** `count` consecutive midnights from `first`. */
  function DaysFrom(first: int, count: nat): seq<int> {
    seq(count, j => first + j * TicksPerDay)
  }

  /** How many days the inner loop visits for a booking: its dates from
      StartTime.Date to EndTime.Date inclusive. */
  function DayCount(b: Booking): nat {
    if Date(b.startTime) <= Date(b.endTime) then (Date(b.endTime) - Date(b.startTime)) / TicksPerDay + 1 else 0
  }

  /** `bookedDateList` after the foreach has visited the bookings `bs`. */
  function BookedDayList(bs: seq<Booking>): seq<int> {
    if bs == [] then []
    else
      var b := bs[|bs| - 1];
      BookedDayList(bs[..|bs| - 1]) + DaysFrom(Date(b.startTime), DayCount(b))
  }

  /** Some booking runs up to the last representable day, where the inner
      loop's `AddDays(1)` throws. */
  predicate ReachesLastDay(bs: seq<Booking>) {
    exists i :: 0 <= i < |bs| && Date(bs[i].startTime) <= Date(bs[i].endTime) && Date(bs[i].endTime) == LastDay
  }

  /** What CheckVenueAvailabilityAsync answers, for a duration of whole days. */
  function Availability(venues: seq<Venue>, bookings: seq<Booking>, venueId: Guid, startTime: Ticks, duration: int)
    : MethodResultOf<VenueAvailabilityDto>
  {
    match FindVenue(venues, venueId)
    case None => MethodResultOf.Fail(VenueNotFound)
    case Some(venue) =>
      if venue.status == MaintenanceStatus then MethodResultOf.Ok(VenueAvailabilityDto(false, []))
      else
        match EndTimeFor(startTime, duration)
        case None => MethodResultOf.Fail(AvailabilityFailure + AddDaysError(duration))
        case Some(endTime) =>
          var booked := VenueActiveBookings(bookings, venueId);
          if ReachesLastDay(booked) then MethodResultOf.Fail(AvailabilityFailure + DateArithmeticError)
          else
            MethodResultOf.Ok(VenueAvailabilityDto(
              !HasConflict(bookings, venueId, Date(startTime), Date(endTime)),
              SortedDistinct(BookedDayList(booked))))
  }

  /** CheckVenueAvailabilityAsync: the conflict query, then every day of
      every booking of the venue that is not canceled, collected in a loop,
      deduplicated and sorted. */
  method CheckVenueAvailability(db: DataContext, venueId: Guid, startTime: Ticks, duration: int)
      returns (r: MethodResultOf<VenueAvailabilityDto>)
    ensures r == Availability(db.venues, db.bookings, venueId, startTime, duration)
  {
    var venue := FindVenue(db.venues, venueId);
    if venue.None? {
      return MethodResultOf.Fail(VenueNotFound);
    }
    if venue.value.status == MaintenanceStatus {
      return MethodResultOf.Ok(VenueAvailabilityDto(false, []));
    }
    var endTime := EndTimeFor(startTime, duration);
    if endTime.None? {
      return MethodResultOf.Fail(AvailabilityFailure + AddDaysError(duration));
    }
    var startDate, endDate := Date(startTime), Date(endTime.value);
    var hasConflict := HasConflict(db.bookings, venueId, startDate, endDate);

    var bookedDates := VenueActiveBookings(db.bookings, venueId);
    var bookedDateList := CollectBookedDays(bookedDates);
    if bookedDateList.None? {
      return MethodResultOf.Fail(AvailabilityFailure + DateArithmeticError);
    }
    r := MethodResultOf.Ok(VenueAvailabilityDto(!hasConflict, SortedDistinct(bookedDateList.value)));
  }

  /** The foreach over the venue's bookings: every day of each, in order;
      None where `AddDays(1)` would step past the last representable day. */
  method CollectBookedDays(bookedDates: seq<Booking>) returns (r: Option<seq<int>>)
    ensures r.None? <==> ReachesLastDay(bookedDates)
    ensures r.Some? ==> r.value == BookedDayList(bookedDates)
  {
    var bookedDateList: seq<int> := [];
    var i := 0;
    while i < |bookedDates|
      invariant 0 <= i <= |bookedDates|
      invariant bookedDateList == BookedDayList(bookedDates[..i])
      invariant !ReachesLastDay(bookedDates[..i])
    {
      var booking := bookedDates[i];
      var days := AppendBookingDays(bookedDateList, booking);
      if days.None? {
        assert bookedDates[i] == booking;
        return None;
      }
      bookedDateList := days.value;
      assert bookedDates[..i + 1][..i] == bookedDates[..i];
      i := i + 1;
    }
    assert bookedDates[..i] == bookedDates;
    r := Some(bookedDateList);
  }

  /** The while loop for one booking: its dates from StartTime.Date to
      EndTime.Date appended to `list`; None when the booking runs up to the
      last representable day. */
  method AppendBookingDays(list: seq<int>, booking: Booking) returns (r: Option<seq<int>>)
    ensures r.None? <==> Date(booking.startTime) <= Date(booking.endTime) && Date(booking.endTime) == LastDay
    ensures r.Some? ==> r.value == list + DaysFrom(Date(booking.startTime), DayCount(booking))
  {
    var first := Date(booking.startTime);
    var bookedDateList := list;
    var currentDate: int := first;
    var count: nat := 0;
    while currentDate <= Date(booking.endTime)
      invariant currentDate == first + count * TicksPerDay
      invariant IsDayStart(currentDate) && currentDate <= LastDay
      invariant count > 0 ==> currentDate - TicksPerDay <= Date(booking.endTime)
      invariant bookedDateList == list + DaysFrom(first, count)
      decreases Date(booking.endTime) + TicksPerDay - currentDate
    {
      bookedDateList := bookedDateList + [currentDate];
      var next := AddDays(currentDate, 1);
      if next.None? {
        assert Date(booking.endTime) == LastDay by {
          DateAtMostLastDay(booking.endTime);
        }
        return None;
      }
      currentDate := next.value;
      count := count + 1;
      DayStartAtMostLastDay(currentDate);
      assert DaysFrom(first, count) == DaysFrom(first, count - 1) + [currentDate - TicksPerDay];
    }
    DateAtMostLastDay(booking.endTime);
    DayCountOfLoop(booking, count);
    r := Some(bookedDateList);
  }

  /** Every Date is at most the last representable midnight. */
  lemma DateAtMostLastDay(t: Ticks)
    ensures Date(t) <= LastDay
  {
    DayStartAtMostLastDay(Date(t));
  }

  /** The inner loop stops after DayCount(b) days. */
  lemma DayCountOfLoop(b: Booking, count: nat)
    requires Date(b.startTime) + count * TicksPerDay > Date(b.endTime)
    requires count > 0 ==> Date(b.startTime) + (count - 1) * TicksPerDay <= Date(b.endTime)
    ensures count == DayCount(b)
  {
    var d, e := Date(b.startTime), Date(b.endTime);
    if d <= e {
      DayStartsDiffer(d, e);
      var m := (e - d) / TicksPerDay;
      assert e == d + m * TicksPerDay;
      assert count > 0;
      assert (count - 1) * TicksPerDay <= m * TicksPerDay < count * TicksPerDay;
      assert count - 1 <= m < count;
    }
  }

  /** The days the inner loop lists for one booking are exactly the
      midnights from its start date to its end date. */
  lemma {:induction false} DaysOfBooking(b: Booking, x: int)
    ensures x in DaysFrom(Date(b.startTime), DayCount(b))
        <==> IsDayStart(x) && Date(b.startTime) <= x <= Date(b.endTime)
  {
    var d, e := Date(b.startTime), Date(b.endTime);
    var days := DaysFrom(d, DayCount(b));
    if d <= e {
      DayStartsDiffer(d, e);
      var m := (e - d) / TicksPerDay;
      assert DayCount(b) == m + 1;
      if x in days {
        var j :| 0 <= j < |days| && days[j] == x;
        assert x == d + j * TicksPerDay;
        assert j * TicksPerDay <= m * TicksPerDay;
        var k := d / TicksPerDay;
        assert x == (k + j) * TicksPerDay;
      }
      if IsDayStart(x) && d <= x <= e {
        DayStartsDiffer(d, x);
        var j := (x - d) / TicksPerDay;
        assert j * TicksPerDay <= m * TicksPerDay;
        assert j <= m;
        assert days[j] == x;
      }
    }
  }

  /** The booking's dates include the midnight `x`. */
  predicate HoldsDay(b: Booking, x: int) {
    Date(b.startTime) <= x <= Date(b.endTime)
  }

  /** The list the foreach builds holds exactly the midnights that lie
      within some booking's dates. */
  lemma {:induction false} BookedDayListMembers(bs: seq<Booking>, x: int)
    ensures x in BookedDayList(bs) <==> IsDayStart(x) && exists i :: 0 <= i < |bs| && HoldsDay(bs[i], x)
    decreases |bs|
  {
    if bs != [] {
      var n := |bs| - 1;
      var front := bs[..n];
      var days := DaysFrom(Date(bs[n].startTime), DayCount(bs[n]));
      assert BookedDayList(bs) == BookedDayList(front) + days;
      BookedDayListMembers(front, x);
      DaysOfBooking(bs[n], x);
      if IsDayStart(x) && exists i :: 0 <= i < |bs| && HoldsDay(bs[i], x) {
        var i :| 0 <= i < |bs| && HoldsDay(bs[i], x);
        if i < n {
          assert front[i] == bs[i];
          assert x in BookedDayList(front);
        } else {
          assert x in days;
        }
      }
      if x in BookedDayList(front) {
        var i :| 0 <= i < |front| && HoldsDay(front[i], x);
        assert bs[i] == front[i];
      }
      if x in days {
        assert HoldsDay(bs[n], x);
      }
    }
  }

  /** A midnight is among the booked dates exactly when a booking of the
      venue that is not canceled holds that day, which is when the conflict
      query for that single day answers yes. */
  lemma BookedOn(bookings: seq<Booking>, venueId: Guid, x: int)
    ensures x in BookedDayList(VenueActiveBookings(bookings, venueId))
        <==> IsDayStart(x) && HasConflict(bookings, venueId, x, x)
  {
    var active := VenueActiveBookings(bookings, venueId);
    BookedDayListMembers(active, x);
    if IsDayStart(x) && HasConflict(bookings, venueId, x, x) {
      var k :| 0 <= k < |bookings| && Conflicts(bookings[k], venueId, x, x);
      assert bookings[k] in active;
      var i :| 0 <= i < |active| && active[i] == bookings[k];
    }
    if x in BookedDayList(active) {
      var i :| 0 <= i < |active| && HoldsDay(active[i], x);
      assert active[i] in bookings;
      var k :| 0 <= k < |bookings| && bookings[k] == active[i];
      assert Conflicts(bookings[k], venueId, x, x);
    }
  }

  /** For an open venue, a successful answer lists every booked day once,
      in ascending order, and nothing else. */
  lemma AvailabilityBookedDates(venues: seq<Venue>, bookings: seq<Booking>, venueId: Guid, startTime: Ticks, duration: int)
    requires FindVenue(venues, venueId).Some? && FindVenue(venues, venueId).value.status != MaintenanceStatus
    requires Availability(venues, bookings, venueId, startTime, duration).isSuccess
    ensures var dates := Availability(venues, bookings, venueId, startTime, duration).data.value.bookedDates;
      StrictlyIncreasing(dates)
      && forall x :: x in dates <==> IsDayStart(x) && HasConflict(bookings, venueId, x, x)
  {
    var dates := Availability(venues, bookings, venueId, startTime, duration).data.value.bookedDates;
    forall x ensures x in dates <==> IsDayStart(x) && HasConflict(bookings, venueId, x, x) {
      BookedOn(bookings, venueId, x);
    }
  }

  /** For an open venue and bookings that end after they start, the venue
      is reported available exactly when none of the booked dates falls
      within the requested days. */
  lemma {:induction false} AvailableIffNoBookedDay(venues: seq<Venue>, bookings: seq<Booking>, venueId: Guid, startTime: Ticks, duration: int)
    requires FindVenue(venues, venueId).Some? && FindVenue(venues, venueId).value.status != MaintenanceStatus
    requires forall k :: 0 <= k < |bookings| ==> bookings[k].startTime < bookings[k].endTime
    requires duration > 0
    requires Availability(venues, bookings, venueId, startTime, duration).isSuccess
    ensures var dto := Availability(venues, bookings, venueId, startTime, duration).data.value;
      var endTime := EndTimeFor(startTime, duration).value;
      dto.isAvailable <==> forall x :: x in dto.bookedDates ==> !(Date(startTime) <= x <= Date(endTime))
  {
    var dto := Availability(venues, bookings, venueId, startTime, duration).data.value;
    var endTime := EndTimeFor(startTime, duration).value;
    var s, e := Date(startTime), Date(endTime);
    EndTimeAfterStart(startTime, duration);
    DateMonotone(startTime, endTime);
    AvailabilityBookedDates(venues, bookings, venueId, startTime, duration);
    if HasConflict(bookings, venueId, s, e) {
      var k :| 0 <= k < |bookings| && Conflicts(bookings[k], venueId, s, e);
      var b := bookings[k];
      DateMonotone(b.startTime, b.endTime);
      var x := if Date(b.startTime) <= s then s else Date(b.startTime);
      assert Conflicts(b, venueId, x, x);
      assert x in dto.bookedDates;
    } else {
      forall x | x in dto.bookedDates ensures !(s <= x <= e) {
        var k :| 0 <= k < |bookings| && Conflicts(bookings[k], venueId, x, x);
        assert !Conflicts(bookings[k], venueId, s, e);
      }
    }
  }

  /** The availability check and CreateBooking ask the same question: for
      the duration CreateBooking settles on, the venue is reported available
      exactly when CreateBooking does not refuse the request as already
      booked. */
  lemma AvailabilityAgreesWithBooking(venues: seq<Venue>, users: seq<User>, bookings: seq<Booking>,
                                      dto: CreateBookingDto, offer: Offer)
    requires FindVenue(venues, dto.venueId).Some? && FindVenue(venues, dto.venueId).value.status != MaintenanceStatus
    requires ScheduleEnd(dto, offer.package).Ok?
    requires Availability(venues, bookings, dto.venueId, dto.startTime, EffectiveDuration(dto, offer.package)).isSuccess
    ensures Availability(venues, bookings, dto.venueId, dto.startTime, EffectiveDuration(dto, offer.package)).data.value.isAvailable
        <==> QuoteOffer(users, bookings, dto, offer) != Err(VenueAlreadyBooked)
  {
  }
}
