/** The read side of BookingService: bookings by venue, by user, by date
    range and by id, each mapped to the DTO the caller receives. */
module BookingQueries {
  import opened Common
  import opened DateTimes
  import opened Text
  import opened Sorting
  import opened Entities
  import opened Dtos
  import opened Data
  import opened MethodResults
  import opened BookingService

  /** `OrderBy(b => b.StartTime)` */
  predicate ByStartTime(a: Booking, b: Booking) {
    a.startTime <= b.startTime
  }

  /** `OrderByDescending(b => b.CreatedAt)` */
  predicate ByCreatedAtDescending(a: Booking, b: Booking) {
    a.createdAt >= b.createdAt
  }

  /** `Where(p).OrderBy(..)`: the rows that satisfy `p`, sorted by `le`. */
  function Query(bookings: seq<Booking>, p: Booking -> bool, le: (Booking, Booking) -> bool): (r: seq<Booking>)
    requires TotalPreorder(le)
    ensures SortedBy(r, le)
    ensures forall b :: b in r <==> b in bookings && p(b)
    ensures forall i :: 0 <= i < |r| ==> p(r[i])
    ensures |r| == |Filter(bookings, p)|
    ensures multiset(r) == multiset(Filter(bookings, p))
  {
    var rows := Filter(bookings, p);
    SortByKeepsElements(rows, le);
    SortBy(rows, le)
  }

  /** GetBookingsByVenueAsync: the venue's bookings that are not canceled,
      earliest first, each named after the venue and its package. */
  function BookingsByVenue(venues: seq<Venue>, packages: seq<VenuePackage>, bookings: seq<Booking>, venueId: Guid)
    : (r: MethodResultOf<seq<BookingDto>>)
    ensures r.isSuccess <==> FindVenue(venues, venueId).Some?
    ensures !r.isSuccess ==> r == MethodResultOf.Fail(VenueNotFound)
    ensures r.isSuccess ==> r.data.Some?
    ensures r.isSuccess ==> var dtos := r.data.value;
      (forall i, j :: 0 <= i < j < |dtos| ==> dtos[i].startTime <= dtos[j].startTime)
      && (forall i :: 0 <= i < |dtos| ==>
            dtos[i].venueId == venueId && dtos[i].status != CanceledStatus
            && dtos[i].venueName == FindVenue(venues, venueId).value.name)
      && (forall b :: b in bookings && b.venueId == venueId && NotCanceled(b) ==>
            exists i :: 0 <= i < |dtos| && dtos[i].id == b.id)
    ensures r.isSuccess ==> var dtos, venueName := r.data.value, FindVenue(venues, venueId).value.name;
      (forall d :: d in dtos ==>
         exists b :: b in bookings && b.venueId == venueId && NotCanceled(b)
                     && d == MapToDto(b, venueName, PackageNameOf(packages, b.packageId)))
      && multiset(dtos) == multiset(VenueBookingDtos(
           Filter(bookings, (b: Booking) => b.venueId == venueId && NotCanceled(b)), venueName, packages))
  {
    match FindVenue(venues, venueId)
    case None => MethodResultOf.Fail(VenueNotFound)
    case Some(venue) =>
      assert TotalPreorder(ByStartTime);
      var p := (b: Booking) => b.venueId == venueId && NotCanceled(b);
      var rows := Query(bookings, p, ByStartTime);
      var dtos := VenueBookingDtos(rows, venue.name, packages);
      VenueDtosList(bookings, venueId, venue.name, packages, rows, dtos);
      VenueBookingDtosPermutation(rows, Filter(bookings, p), venue.name, packages);
      MethodResultOf.Ok(dtos)
  }

  /** `bookings.Select(b => MapToDto(b, venue.Name, b.Package?.Name))`. */
  function VenueBookingDtos(rows: seq<Booking>, venueName: string, packages: seq<VenuePackage>): (r: seq<BookingDto>)
    ensures |r| == |rows|
    ensures forall i :: 0 <= i < |r| ==> r[i] == MapToDto(rows[i], venueName, PackageNameOf(packages, rows[i].packageId))
  {
    Map(rows, (b: Booking) => MapToDto(b, venueName, PackageNameOf(packages, b.packageId)))
  }

  /** Reordering the rows reorders their DTOs. */
  lemma VenueBookingDtosPermutation(a: seq<Booking>, b: seq<Booking>, venueName: string, packages: seq<VenuePackage>)
    requires multiset(a) == multiset(b)
    ensures multiset(VenueBookingDtos(a, venueName, packages)) == multiset(VenueBookingDtos(b, venueName, packages))
  {
    MapPermutation(a, b, (x: Booking) => MapToDto(x, venueName, PackageNameOf(packages, x.packageId)));
  }

  /** The venue's rows, sorted and mapped, keep the order, the venue and
      every booking of the venue that is not canceled. */
  lemma VenueDtosList(bookings: seq<Booking>, venueId: Guid, venueName: string, packages: seq<VenuePackage>,
                      rows: seq<Booking>, dtos: seq<BookingDto>)
    requires SortedBy(rows, ByStartTime)
    requires forall b :: b in rows <==> b in bookings && b.venueId == venueId && NotCanceled(b)
    requires |dtos| == |rows|
    requires forall i :: 0 <= i < |rows| ==> dtos[i] == MapToDto(rows[i], venueName, PackageNameOf(packages, rows[i].packageId))
    ensures forall i, j :: 0 <= i < j < |dtos| ==> dtos[i].startTime <= dtos[j].startTime
    ensures forall i :: 0 <= i < |dtos| ==>
      dtos[i].venueId == venueId && dtos[i].status != CanceledStatus && dtos[i].venueName == venueName
    ensures forall b :: b in bookings && b.venueId == venueId && NotCanceled(b) ==>
      exists i :: 0 <= i < |dtos| && dtos[i].id == b.id
    ensures forall d :: d in dtos ==>
      exists b :: b in bookings && b.venueId == venueId && NotCanceled(b)
                  && d == MapToDto(b, venueName, PackageNameOf(packages, b.packageId))
  {
    forall d | d in dtos
      ensures exists b :: b in bookings && b.venueId == venueId && NotCanceled(b)
                          && d == MapToDto(b, venueName, PackageNameOf(packages, b.packageId))
    {
      var i :| 0 <= i < |dtos| && dtos[i] == d;
      assert rows[i] in rows;
    }
    forall i, j | 0 <= i < j < |dtos| ensures dtos[i].startTime <= dtos[j].startTime {
      assert ByStartTime(rows[i], rows[j]);
    }
    forall i | 0 <= i < |dtos|
      ensures dtos[i].venueId == venueId && dtos[i].status != CanceledStatus && dtos[i].venueName == venueName
    {
      assert rows[i] in rows;
    }
    forall b | b in bookings && b.venueId == venueId && NotCanceled(b)
      ensures exists i :: 0 <= i < |dtos| && dtos[i].id == b.id
    {
      var i :| 0 <= i < |rows| && rows[i] == b;
      assert dtos[i].id == b.id;
    }
  }

  /** The DTO of one additional-service snapshot, or nothing when the
      service row is gone. */
  function AdditionalServiceEntry(services: seq<AdditionalService>, venueName: string,
                                  snapshot: BookingAdditionalService): (r: seq<AdditionalServiceDto>)
    ensures |r| <= 1
    ensures |r| == 1 <==> FindAdditionalService(services, snapshot.additionalServiceId).Some?
    ensures forall d :: d in r ==> d.id == snapshot.additionalServiceId && d.venueName == venueName
  {
    match FindAdditionalService(services, snapshot.additionalServiceId)
    case None => []
    case Some(svc) => [AdditionalServiceDtoOf(svc, venueName)]
  }

  /** The AdditionalServiceDto of each snapshot whose service is still
      there, in snapshot order; each carries the booking's venue name. */
  function AdditionalServiceDtos(services: seq<AdditionalService>, venueName: string,
                                 snapshots: seq<BookingAdditionalService>): seq<AdditionalServiceDto>
  {
    if snapshots == [] then []
    else
      var n := |snapshots| - 1;
      AdditionalServiceDtos(services, venueName, snapshots[..n])
      + AdditionalServiceEntry(services, venueName, snapshots[n])
  }

  /** Some snapshot of the booking refers to the service `id`. */
  predicate ServiceSnapshotted(snapshots: seq<BookingAdditionalService>, id: Guid) {
    exists k :: 0 <= k < |snapshots| && snapshots[k].additionalServiceId == id
  }

  /** Every snapshot's service row is still there. */
  predicate AllServicesFound(services: seq<AdditionalService>, snapshots: seq<BookingAdditionalService>) {
    forall k :: 0 <= k < |snapshots| ==> FindAdditionalService(services, snapshots[k].additionalServiceId).Some?
  }

  /** At most one DTO per snapshot, and exactly one per snapshot when no
      service row is missing. */
  lemma {:induction false} AdditionalServiceDtosCount(services: seq<AdditionalService>, venueName: string,
                                                      snapshots: seq<BookingAdditionalService>)
    ensures |AdditionalServiceDtos(services, venueName, snapshots)| <= |snapshots|
    ensures AllServicesFound(services, snapshots) ==> |AdditionalServiceDtos(services, venueName, snapshots)| == |snapshots|
    decreases |snapshots|
  {
    if snapshots != [] {
      var n := |snapshots| - 1;
      AdditionalServiceDtosCount(services, venueName, snapshots[..n]);
      if AllServicesFound(services, snapshots) {
        forall k | 0 <= k < n ensures FindAdditionalService(services, snapshots[..n][k].additionalServiceId).Some? {
          assert snapshots[..n][k] == snapshots[k];
        }
        assert FindAdditionalService(services, snapshots[n].additionalServiceId).Some?;
      }
    }
  }

  /** Each DTO names a service the booking has a snapshot of, under the
      booking's venue name. */
  lemma {:induction false} AdditionalServiceDtosBooked(services: seq<AdditionalService>, venueName: string,
                                                       snapshots: seq<BookingAdditionalService>)
    ensures forall d :: d in AdditionalServiceDtos(services, venueName, snapshots) ==>
      d.venueName == venueName && ServiceSnapshotted(snapshots, d.id)
    decreases |snapshots|
  {
    if snapshots != [] {
      var n := |snapshots| - 1;
      var front := AdditionalServiceDtos(services, venueName, snapshots[..n]);
      AdditionalServiceDtosBooked(services, venueName, snapshots[..n]);
      forall d | d in front ensures ServiceSnapshotted(snapshots, d.id) {
        var k :| 0 <= k < n && snapshots[..n][k].additionalServiceId == d.id;
        assert snapshots[k] == snapshots[..n][k];
      }
      assert ServiceSnapshotted(snapshots, snapshots[n].additionalServiceId);
    }
  }

  /** The DTO of one package-service snapshot, or nothing when the package
      service row is gone. */
  function PackageServiceEntry(services: seq<PackageService>, snapshot: BookingPackageService): (r: seq<PackageServiceDto>)
    ensures |r| <= 1
    ensures |r| == 1 <==> FindPackageService(services, snapshot.packageServiceId).Some?
    ensures forall d :: d in r ==> d.id == snapshot.packageServiceId
  {
    match FindPackageService(services, snapshot.packageServiceId)
    case None => []
    case Some(svc) => [PackageServiceDtoOf(svc)]
  }

  /** The PackageServiceDto of each snapshot whose package service is still
      there, in snapshot order. */
  function PackageServiceDtos(services: seq<PackageService>, snapshots: seq<BookingPackageService>)
    : seq<PackageServiceDto>
  {
    if snapshots == [] then []
    else
      var n := |snapshots| - 1;
      PackageServiceDtos(services, snapshots[..n]) + PackageServiceEntry(services, snapshots[n])
  }

  /** Some snapshot of the booking refers to the package service `id`. */
  predicate PackageServiceSnapshotted(snapshots: seq<BookingPackageService>, id: Guid) {
    exists k :: 0 <= k < |snapshots| && snapshots[k].packageServiceId == id
  }

  /** Every snapshot's package service row is still there. */
  predicate AllPackageServicesFound(services: seq<PackageService>, snapshots: seq<BookingPackageService>) {
    forall k :: 0 <= k < |snapshots| ==> FindPackageService(services, snapshots[k].packageServiceId).Some?
  }

  /** At most one DTO per snapshot, and exactly one per snapshot when no
      package service row is missing. */
  lemma {:induction false} PackageServiceDtosCount(services: seq<PackageService>, snapshots: seq<BookingPackageService>)
    ensures |PackageServiceDtos(services, snapshots)| <= |snapshots|
    ensures AllPackageServicesFound(services, snapshots) ==> |PackageServiceDtos(services, snapshots)| == |snapshots|
    decreases |snapshots|
  {
    if snapshots != [] {
      var n := |snapshots| - 1;
      PackageServiceDtosCount(services, snapshots[..n]);
      if AllPackageServicesFound(services, snapshots) {
        forall k | 0 <= k < n ensures FindPackageService(services, snapshots[..n][k].packageServiceId).Some? {
          assert snapshots[..n][k] == snapshots[k];
        }
        assert FindPackageService(services, snapshots[n].packageServiceId).Some?;
      }
    }
  }

  /** Each DTO names a package service the booking has a snapshot of. */
  lemma {:induction false} PackageServiceDtosBooked(services: seq<PackageService>, snapshots: seq<BookingPackageService>)
    ensures forall d :: d in PackageServiceDtos(services, snapshots) ==> PackageServiceSnapshotted(snapshots, d.id)
    decreases |snapshots|
  {
    if snapshots != [] {
      var n := |snapshots| - 1;
      var front := PackageServiceDtos(services, snapshots[..n]);
      PackageServiceDtosBooked(services, snapshots[..n]);
      forall d | d in front ensures PackageServiceSnapshotted(snapshots, d.id) {
        var k :| 0 <= k < n && snapshots[..n][k].packageServiceId == d.id;
        assert snapshots[k] == snapshots[..n][k];
      }
      assert PackageServiceSnapshotted(snapshots, snapshots[n].packageServiceId);
    }
  }

  /** `booking.User?.Email ?? string.Empty` */
  function UserEmail(users: seq<User>, userId: Guid): string {
    match FindUser(users, userId)
    case Some(u) => u.email
    case None => ""
  }

  /** `booking.User?.Name ?? "Unknown"`, trimmed. */
  function UserFullName(users: seq<User>, userId: Guid): (r: string)
    ensures r == [] || (!IsWhiteSpace(r[0]) && !IsWhiteSpace(r[|r| - 1]))
    ensures FindUser(users, userId).None? ==> r == "Unknown"
  {
    match FindUser(users, userId)
    case Some(u) => Trim(u.name)
    case None =>
      TrimKeepsUnknown();
      Trim("Unknown")
  }

  /** The placeholder name has no surrounding white space. */
  lemma TrimKeepsUnknown()
    ensures Trim("Unknown") == "Unknown"
  {
    assert !IsWhiteSpace('U') && !IsWhiteSpace('n');
    assert TrimStartWhiteSpace("Unknown") == "Unknown";
    assert TrimEndWhiteSpace("Unknown") == "Unknown";
  }

  /** MapToDtoWithUserInfo: the booking with its venue, package and user
      looked up (an empty name or email when the row is missing) and the
      services it booked. */
  function BookingWithUserInfo(users: seq<User>, venues: seq<Venue>, packages: seq<VenuePackage>,
                               services: seq<AdditionalService>, packageServices: seq<PackageService>, b: Booking)
    : (r: BookingWithUserDto)
    ensures r.id == b.id && r.venueId == b.venueId && r.userId == b.userId && r.packageId == b.packageId
    ensures r.startTime == b.startTime && r.endTime == b.endTime && r.createdAt == b.createdAt && r.status == b.status
    ensures r.totalCost == b.totalCost
  {
    var venueName := VenueNameOf(venues, b.venueId);
    BookingWithUserDto(b.id, b.venueId, venueName, b.packageId, PackageNameOf(packages, b.packageId), b.userId,
      UserEmail(users, b.userId),
      UserFullName(users, b.userId),
      b.startTime, b.endTime, b.isCustomPackage, b.customPackageName, b.modifiedCapacity, b.modifiedDurationHours,
      b.basePackageCost, b.capacityExtensionCost, b.durationExtensionCost, b.additionalServicesCost, b.totalCost,
      b.status, b.createdAt, b.updatedAt,
      AdditionalServiceDtos(services, venueName, b.additionalServices),
      PackageServiceDtos(packageServices, b.packageServices),
      PaymentStatusName(b.paymentStatus))
  }

  /** One more snapshot appends its own entry. */
  lemma AdditionalServiceDtosStep(services: seq<AdditionalService>, venueName: string,
                                  snapshots: seq<BookingAdditionalService>, i: nat)
    requires i < |snapshots|
    ensures AdditionalServiceDtos(services, venueName, snapshots[..i + 1])
      == AdditionalServiceDtos(services, venueName, snapshots[..i]) + AdditionalServiceEntry(services, venueName, snapshots[i])
  {
    assert snapshots[..i + 1][..i] == snapshots[..i];
  }

  lemma PackageServiceDtosStep(services: seq<PackageService>, snapshots: seq<BookingPackageService>, i: nat)
    requires i < |snapshots|
    ensures PackageServiceDtos(services, snapshots[..i + 1])
      == PackageServiceDtos(services, snapshots[..i]) + PackageServiceEntry(services, snapshots[i])
  {
    assert snapshots[..i + 1][..i] == snapshots[..i];
  }

  /** The foreach over the booking's additional-service snapshots. */
  method CollectAdditionalServiceDtos(services: seq<AdditionalService>, venueName: string,
                                      snapshots: seq<BookingAdditionalService>) returns (r: seq<AdditionalServiceDto>)
    ensures r == AdditionalServiceDtos(services, venueName, snapshots)
  {
    r := [];
    var i := 0;
    while i < |snapshots|
      invariant 0 <= i <= |snapshots|
      invariant r == AdditionalServiceDtos(services, venueName, snapshots[..i])
    {
      var svc := FindAdditionalService(services, snapshots[i].additionalServiceId);
      AdditionalServiceDtosStep(services, venueName, snapshots, i);
      if svc.Some? {
        r := r + [AdditionalServiceDtoOf(svc.value, venueName)];
      }
      i := i + 1;
    }
    assert snapshots[..i] == snapshots;
  }

  /** The foreach over the booking's package-service snapshots. */
  method CollectPackageServiceDtos(services: seq<PackageService>, snapshots: seq<BookingPackageService>)
      returns (r: seq<PackageServiceDto>)
    ensures r == PackageServiceDtos(services, snapshots)
  {
    r := [];
    var i := 0;
    while i < |snapshots|
      invariant 0 <= i <= |snapshots|
      invariant r == PackageServiceDtos(services, snapshots[..i])
    {
      var svc := FindPackageService(services, snapshots[i].packageServiceId);
      PackageServiceDtosStep(services, snapshots, i);
      if svc.Some? {
        r := r + [PackageServiceDtoOf(svc.value)];
      }
      i := i + 1;
    }
    assert snapshots[..i] == snapshots;
  }

  /** MapToDtoWithUserInfo, with its two loops. */
  method MapToDtoWithUserInfo(db: DataContext, b: Booking) returns (r: BookingWithUserDto)
    ensures r == BookingWithUserInfo(db.users, db.venues, db.packages, db.additionalServices, db.packageServices, b)
  {
    var venueName := VenueNameOf(db.venues, b.venueId);
    var additional := CollectAdditionalServiceDtos(db.additionalServices, venueName, b.additionalServices);
    var packaged := CollectPackageServiceDtos(db.packageServices, b.packageServices);
    var email := UserEmail(db.users, b.userId);
    r := BookingWithUserDto(b.id, b.venueId, venueName, b.packageId, PackageNameOf(db.packages, b.packageId), b.userId,
      email, UserFullName(db.users, b.userId),
      b.startTime, b.endTime, b.isCustomPackage, b.customPackageName, b.modifiedCapacity, b.modifiedDurationHours,
      b.basePackageCost, b.capacityExtensionCost, b.durationExtensionCost, b.additionalServicesCost, b.totalCost,
      b.status, b.createdAt, b.updatedAt, additional, packaged, PaymentStatusName(b.paymentStatus));
  }

  /** GetBookingByIdAsync: the booking with that id and everything it
      refers to, or "Booking not found.". */
  method GetBookingById(db: DataContext, id: Guid) returns (r: MethodResultOf<BookingWithUserDto>)
    ensures r.isSuccess <==> exists b :: b in db.bookings && b.id == id
    ensures !r.isSuccess ==> r == MethodResultOf.Fail(BookingNotFound)
    ensures r.isSuccess ==> r.data == Some(BookingWithUserInfo(db.users, db.venues, db.packages, db.additionalServices,
                                             db.packageServices, db.bookings[BookingIndex(db.bookings, id).value]))
    ensures r.isSuccess ==> r.data.value.id == id
  {
    var index := BookingIndex(db.bookings, id);
    if index.None? {
      return MethodResultOf.Fail(BookingNotFound);
    }
    var dto := MapToDtoWithUserInfo(db, db.bookings[index.value]);
    r := MethodResultOf.Ok(dto);
  }

  /** `bookings.Select(MapToDtoWithUserInfo)` over the rows a query found. */
  function WithUserInfo(users: seq<User>, venues: seq<Venue>, packages: seq<VenuePackage>,
                        services: seq<AdditionalService>, packageServices: seq<PackageService>, rows: seq<Booking>)
    : (r: seq<BookingWithUserDto>)
    ensures Mirrors(r, rows)
    ensures forall i :: 0 <= i < |r| ==> r[i] == BookingWithUserInfo(users, venues, packages, services, packageServices, rows[i])
  {
    Map(rows, (b: Booking) => BookingWithUserInfo(users, venues, packages, services, packageServices, b))
  }

  /** Reordering the rows reorders their DTOs. */
  lemma WithUserInfoPermutation(users: seq<User>, venues: seq<Venue>, packages: seq<VenuePackage>,
                                services: seq<AdditionalService>, packageServices: seq<PackageService>,
                                a: seq<Booking>, b: seq<Booking>)
    requires multiset(a) == multiset(b)
    ensures multiset(WithUserInfo(users, venues, packages, services, packageServices, a))
         == multiset(WithUserInfo(users, venues, packages, services, packageServices, b))
  {
    MapPermutation(a, b, (x: Booking) => BookingWithUserInfo(users, venues, packages, services, packageServices, x));
  }

  /** The fields of the rows that the order and completeness lemmas read:
      ids, users and times, position by position. WithUserInfo states the
      whole DTO of each position. */
  predicate Mirrors(r: seq<BookingWithUserDto>, rows: seq<Booking>) {
    |r| == |rows|
    && forall i :: 0 <= i < |r| ==>
         r[i].id == rows[i].id && r[i].userId == rows[i].userId && r[i].startTime == rows[i].startTime
         && r[i].endTime == rows[i].endTime && r[i].createdAt == rows[i].createdAt
  }

  /** Every booking a query selects is listed. */
  lemma MirrorsListAll(bookings: seq<Booking>, p: Booking -> bool, rows: seq<Booking>, r: seq<BookingWithUserDto>)
    requires Mirrors(r, rows)
    requires forall b :: b in rows <==> b in bookings && p(b)
    ensures forall b :: b in bookings && p(b) ==> exists i :: 0 <= i < |r| && r[i].id == b.id
  {
    forall b | b in bookings && p(b) ensures exists i :: 0 <= i < |r| && r[i].id == b.id {
      var i :| 0 <= i < |rows| && rows[i] == b;
      assert r[i].id == b.id;
    }
  }

  /** Listed in start-time order when the rows were. */
  lemma MirrorsStartOrder(rows: seq<Booking>, r: seq<BookingWithUserDto>)
    requires Mirrors(r, rows) && SortedBy(rows, ByStartTime)
    ensures forall i, j :: 0 <= i < j < |r| ==> r[i].startTime <= r[j].startTime
  {
    forall i, j | 0 <= i < j < |r| ensures r[i].startTime <= r[j].startTime {
      assert ByStartTime(rows[i], rows[j]);
    }
  }

  /** Listed newest first when the rows were. */
  lemma MirrorsCreatedOrder(rows: seq<Booking>, r: seq<BookingWithUserDto>)
    requires Mirrors(r, rows) && SortedBy(rows, ByCreatedAtDescending)
    ensures forall i, j :: 0 <= i < j < |r| ==> r[i].createdAt >= r[j].createdAt
  {
    forall i, j | 0 <= i < j < |r| ensures r[i].createdAt >= r[j].createdAt {
      assert ByCreatedAtDescending(rows[i], rows[j]);
    }
  }

  /** What GetBookingsByUserIdAsync promises of the rows it found: newest
      first, all the user's, and every booking of the user listed. */
  lemma UserListing(users: seq<User>, venues: seq<Venue>, packages: seq<VenuePackage>,
                    services: seq<AdditionalService>, packageServices: seq<PackageService>,
                    bookings: seq<Booking>, userId: Guid, rows: seq<Booking>, r: seq<BookingWithUserDto>)
    requires r == WithUserInfo(users, venues, packages, services, packageServices, rows)
    requires SortedBy(rows, ByCreatedAtDescending)
    requires forall b :: b in rows <==> b in bookings && b.userId == userId
    ensures forall i, j :: 0 <= i < j < |r| ==> r[i].createdAt >= r[j].createdAt
    ensures forall i :: 0 <= i < |r| ==> r[i].userId == userId
    ensures forall d :: d in r ==> exists b :: b in bookings && b.userId == userId && d == BookingWithUserInfo(users, venues, packages, services, packageServices, b)
    ensures forall b :: b in bookings && b.userId == userId ==> exists i :: 0 <= i < |r| && r[i].id == b.id
  {
    MirrorsCreatedOrder(rows, r);
    forall d | d in r ensures exists b :: b in bookings && b.userId == userId && d == BookingWithUserInfo(users, venues, packages, services, packageServices, b) {
      var i :| 0 <= i < |r| && r[i] == d;
      assert rows[i] in rows;
    }
    forall i | 0 <= i < |r| ensures r[i].userId == userId {
      assert rows[i] in rows;
    }
    forall b | b in bookings && b.userId == userId ensures exists i :: 0 <= i < |r| && r[i].id == b.id {
      var i :| 0 <= i < |rows| && rows[i] == b;
      assert r[i].id == b.id;
    }
  }

  /** What the two range queries promise of the rows they found: earliest
      first, each within the range (and the user's, when one is given), and
      every such booking listed. */
  lemma RangeListing(users: seq<User>, venues: seq<Venue>, packages: seq<VenuePackage>,
                     services: seq<AdditionalService>, packageServices: seq<PackageService>,
                     bookings: seq<Booking>, userId: Option<Guid>, startDate: Ticks, endDate: Ticks,
                     rows: seq<Booking>, r: seq<BookingWithUserDto>)
    requires r == WithUserInfo(users, venues, packages, services, packageServices, rows)
    requires SortedBy(rows, ByStartTime)
    requires forall b :: b in rows <==>
      b in bookings && (userId.Some? ==> b.userId == userId.value) && WithinRange(b, startDate, endDate)
    ensures forall i, j :: 0 <= i < j < |r| ==> r[i].startTime <= r[j].startTime
    ensures forall i :: 0 <= i < |r| ==>
      (userId.Some? ==> r[i].userId == userId.value) && r[i].startTime >= startDate && r[i].endTime <= endDate
    ensures forall d :: d in r ==>
      exists b :: b in bookings && (userId.Some? ==> b.userId == userId.value) && WithinRange(b, startDate, endDate)
                  && d == BookingWithUserInfo(users, venues, packages, services, packageServices, b)
    ensures forall b :: b in bookings && (userId.Some? ==> b.userId == userId.value) && WithinRange(b, startDate, endDate) ==>
      exists i :: 0 <= i < |r| && r[i].id == b.id
  {
    MirrorsStartOrder(rows, r);
    forall i | 0 <= i < |r|
      ensures (userId.Some? ==> r[i].userId == userId.value) && r[i].startTime >= startDate && r[i].endTime <= endDate
    {
      assert rows[i] in rows;
    }
    forall d | d in r
      ensures exists b :: b in bookings && (userId.Some? ==> b.userId == userId.value) && WithinRange(b, startDate, endDate)
                          && d == BookingWithUserInfo(users, venues, packages, services, packageServices, b)
    {
      var i :| 0 <= i < |r| && r[i] == d;
      assert rows[i] in rows;
    }
    forall b | b in bookings && (userId.Some? ==> b.userId == userId.value) && WithinRange(b, startDate, endDate)
      ensures exists i :: 0 <= i < |r| && r[i].id == b.id
    {
      var i :| 0 <= i < |rows| && rows[i] == b;
      assert r[i].id == b.id;
    }
  }

  /** GetBookingsByUserIdAsync: every booking of the user, canceled ones
      included, newest first. */
  function BookingsByUserId(users: seq<User>, venues: seq<Venue>, packages: seq<VenuePackage>,
                            services: seq<AdditionalService>, packageServices: seq<PackageService>,
                            bookings: seq<Booking>, userId: Guid): (r: MethodResultOf<seq<BookingWithUserDto>>)
    ensures r.isSuccess && r.data.Some?
    ensures var d := r.data.value;
      forall i, j :: 0 <= i < j < |d| ==> d[i].createdAt >= d[j].createdAt
    ensures var d := r.data.value;
      forall i :: 0 <= i < |d| ==> d[i].userId == userId
    ensures var d := r.data.value;
      forall x :: x in d ==>
        exists b :: b in bookings && b.userId == userId
                    && x == BookingWithUserInfo(users, venues, packages, services, packageServices, b)
    ensures var d := r.data.value;
      forall b :: b in bookings && b.userId == userId ==> exists i :: 0 <= i < |d| && d[i].id == b.id
    ensures var d := r.data.value;
      multiset(d) == multiset(WithUserInfo(users, venues, packages, services, packageServices,
                                           Filter(bookings, (b: Booking) => b.userId == userId)))
  {
    assert TotalPreorder(ByCreatedAtDescending);
    var p := (b: Booking) => b.userId == userId;
    var rows := Query(bookings, p, ByCreatedAtDescending);
    var dtos := WithUserInfo(users, venues, packages, services, packageServices, rows);
    UserListing(users, venues, packages, services, packageServices, bookings, userId, rows, dtos);
    WithUserInfoPermutation(users, venues, packages, services, packageServices, rows, Filter(bookings, p));
    MethodResultOf.Ok(dtos)
  }

  /** The date-range filter of the two range queries: bookings lying
      wholly within [startDate, endDate]. */
  predicate WithinRange(b: Booking, startDate: Ticks, endDate: Ticks) {
    b.startTime >= startDate && b.endTime <= endDate
  }

  /** GetBookingsByUserIdAndDateRangeAsync: the user's bookings lying within
      the range, canceled ones included, earliest first. */
  function BookingsByUserIdAndDateRange(users: seq<User>, venues: seq<Venue>, packages: seq<VenuePackage>,
                                        services: seq<AdditionalService>, packageServices: seq<PackageService>,
                                        bookings: seq<Booking>, userId: Guid, startDate: Ticks, endDate: Ticks)
    : (r: MethodResultOf<seq<BookingWithUserDto>>)
    ensures r.isSuccess && r.data.Some?
    ensures var d := r.data.value;
      forall i, j :: 0 <= i < j < |d| ==> d[i].startTime <= d[j].startTime
    ensures var d := r.data.value;
      forall i :: 0 <= i < |d| ==>
        d[i].userId == userId && d[i].startTime >= startDate && d[i].endTime <= endDate
    ensures var d := r.data.value;
      forall x :: x in d ==>
        exists b :: b in bookings && b.userId == userId && WithinRange(b, startDate, endDate)
                    && x == BookingWithUserInfo(users, venues, packages, services, packageServices, b)
    ensures var d := r.data.value;
      forall b :: b in bookings && b.userId == userId && WithinRange(b, startDate, endDate) ==>
        exists i :: 0 <= i < |d| && d[i].id == b.id
    ensures var d := r.data.value;
      multiset(d) == multiset(WithUserInfo(users, venues, packages, services, packageServices,
                                           Filter(bookings, (b: Booking) => b.userId == userId && WithinRange(b, startDate, endDate))))
  {
    assert TotalPreorder(ByStartTime);
    var p := (b: Booking) => b.userId == userId && WithinRange(b, startDate, endDate);
    var rows := Query(bookings, p, ByStartTime);
    var dtos := WithUserInfo(users, venues, packages, services, packageServices, rows);
    RangeListing(users, venues, packages, services, packageServices, bookings, Some(userId), startDate, endDate, rows, dtos);
    WithUserInfoPermutation(users, venues, packages, services, packageServices, rows, Filter(bookings, p));
    MethodResultOf.Ok(dtos)
  }

  /** GetAllBookingsWithUserInfoAsync: every booking, newest first. */
  function AllBookingsWithUserInfo(users: seq<User>, venues: seq<Venue>, packages: seq<VenuePackage>,
                                   services: seq<AdditionalService>, packageServices: seq<PackageService>,
                                   bookings: seq<Booking>): (r: MethodResultOf<seq<BookingWithUserDto>>)
    ensures r.isSuccess && r.data.Some?
    ensures |r.data.value| == |bookings|
    ensures var d := r.data.value;
      forall i, j :: 0 <= i < j < |d| ==> d[i].createdAt >= d[j].createdAt
    ensures var d := r.data.value;
      forall b :: b in bookings ==> exists i :: 0 <= i < |d| && d[i].id == b.id
    ensures var d := r.data.value;
      multiset(d) == multiset(WithUserInfo(users, venues, packages, services, packageServices, bookings))
  {
    assert TotalPreorder(ByCreatedAtDescending);
    SortByKeepsElements(bookings, ByCreatedAtDescending);
    var rows := SortBy(bookings, ByCreatedAtDescending);
    var dtos := WithUserInfo(users, venues, packages, services, packageServices, rows);
    MirrorsCreatedOrder(rows, dtos);
    MirrorsListAll(bookings, (b: Booking) => true, rows, dtos);
    WithUserInfoPermutation(users, venues, packages, services, packageServices, rows, bookings);
    MethodResultOf.Ok(dtos)
  }

  /** GetBookingsWithUserInfoByDateRangeAsync: every booking lying within
      the range, canceled ones included, earliest first. */
  function BookingsWithUserInfoByDateRange(users: seq<User>, venues: seq<Venue>, packages: seq<VenuePackage>,
                                           services: seq<AdditionalService>, packageServices: seq<PackageService>,
                                           bookings: seq<Booking>, startDate: Ticks, endDate: Ticks)
    : (r: MethodResultOf<seq<BookingWithUserDto>>)
    ensures r.isSuccess && r.data.Some?
    ensures var d := r.data.value;
      forall i, j :: 0 <= i < j < |d| ==> d[i].startTime <= d[j].startTime
    ensures var d := r.data.value;
      forall i :: 0 <= i < |d| ==> d[i].startTime >= startDate && d[i].endTime <= endDate
    ensures var d := r.data.value;
      forall x :: x in d ==>
        exists b :: b in bookings && WithinRange(b, startDate, endDate)
                    && x == BookingWithUserInfo(users, venues, packages, services, packageServices, b)
    ensures var d := r.data.value;
      forall b :: b in bookings && WithinRange(b, startDate, endDate) ==>
        exists i :: 0 <= i < |d| && d[i].id == b.id
    ensures var d := r.data.value;
      multiset(d) == multiset(WithUserInfo(users, venues, packages, services, packageServices,
                                           Filter(bookings, (b: Booking) => WithinRange(b, startDate, endDate))))
  {
    assert TotalPreorder(ByStartTime);
    var p := (b: Booking) => WithinRange(b, startDate, endDate);
    var rows := Query(bookings, p, ByStartTime);
    var dtos := WithUserInfo(users, venues, packages, services, packageServices, rows);
    RangeListing(users, venues, packages, services, packageServices, bookings, None, startDate, endDate, rows, dtos);
    WithUserInfoPermutation(users, venues, packages, services, packageServices, rows, Filter(bookings, p));
    MethodResultOf.Ok(dtos)
  }

  /** The user's range query is the general range query narrowed to the
      user: with unique booking ids, a booking is listed by the first exactly
      when it is listed by the second and belongs to the user. */
  lemma UserRangeIsRangeForUser(users: seq<User>, venues: seq<Venue>, packages: seq<VenuePackage>,
                                services: seq<AdditionalService>, packageServices: seq<PackageService>,
                                bookings: seq<Booking>, userId: Guid, startDate: Ticks, endDate: Ticks, id: Guid)
    ensures var r := BookingsByUserIdAndDateRange(users, venues, packages, services, packageServices, bookings, userId, startDate, endDate).data.value;
      (exists i :: 0 <= i < |r| && r[i].id == id)
        <==> (exists b :: b in bookings && b.id == id && b.userId == userId && WithinRange(b, startDate, endDate))
  {
    var r := BookingsByUserIdAndDateRange(users, venues, packages, services, packageServices, bookings, userId, startDate, endDate).data.value;
    if exists i :: 0 <= i < |r| && r[i].id == id {
      var i :| 0 <= i < |r| && r[i].id == id;
      assert r[i] in r;
    }
  }
}
