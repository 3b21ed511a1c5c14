/** VenueService: venues with their images, the public image URLs built
    from the stored ones, the venue DTO with its bookings, services and
    active packages, and creating, updating and deleting venues. The
    request's scheme and host arrive as `baseUrl`. */
module VenueService {
  import opened Common
  import opened DateTimes
  import opened Text
  import opened Sorting
  import opened Entities
  import opened Dtos
  import opened Data
  import opened MethodResults

  const VenueNotFound: string := "Venue not found"
  /** The prefix UpdateVenueAsync puts before the message of a caught exception. */
  const UpdateFailure: string := "Failed to update venue: "
  /** The prefix DeleteVenueAsync puts before the message of a caught exception. */
  const DeleteFailure: string := "Failed to delete venue: "
  /** The folder a stored image URL may name before the file name. */
  const ImagesFolder: string := "Images/"
  /** The path under which the server publishes images. */
  const ImagesPath: string := "/Images/"

  // ---------------------------------------------------------------------
  // Image URLs
  // ---------------------------------------------------------------------

  /** The file part of a stored image URL: every leading '/' removed, then
      one leading "Images/". */
  function ImageName(url: string): (r: string)
    ensures |r| <= |url| && r == url[|url| - |r|..]
  {
    var clean := TrimStart(url, '/');
    if StartsWith(clean, ImagesFolder) then clean[|ImagesFolder|..] else clean
  }

  /** The public URL of a stored image: `{baseUrl}/Images/{name}`. */
  function NormalizeImageUrl(baseUrl: string, url: string): (r: string)
    ensures StartsWith(r, baseUrl + ImagesPath)
    ensures r[|baseUrl + ImagesPath|..] == ImageName(url)
  {
    var r := baseUrl + ImagesPath + ImageName(url);
    assert r[..|baseUrl + ImagesPath|] == baseUrl + ImagesPath;
    r
  }

  /** `k` slashes. */
  function Slashes(k: nat): (r: string)
    ensures |r| == k && forall i :: 0 <= i < k ==> r[i] == '/'
  {
    seq(k, i => '/')
  }

  /** Leading slashes, however many, do not change what TrimStart('/')
      leaves of a string that does not start with one. */
  lemma {:induction false} TrimSlashes(k: nat, s: string)
    requires s == [] || s[0] != '/'
    ensures TrimStart(Slashes(k) + s, '/') == s
  {
    if k > 0 {
      assert (Slashes(k) + s)[1..] == Slashes(k - 1) + s;
      TrimSlashes(k - 1, s);
    } else {
      assert Slashes(0) + s == s;
    }
  }

  /** A bare file name under any number of leading slashes is its own name. */
  lemma BareImageName(name: string, k: nat)
    requires name == [] || name[0] != '/'
    requires !StartsWith(name, ImagesFolder)
    ensures ImageName(Slashes(k) + name) == name
  {
    TrimSlashes(k, name);
  }

  /** A file name under "Images/" and any number of leading slashes loses
      both. */
  lemma FolderImageName(name: string, k: nat)
    ensures ImageName(Slashes(k) + ImagesFolder + name) == name
  {
    var folder := ImagesFolder + name;
    assert folder[0] == 'I';
    TrimSlashes(k, folder);
    assert Slashes(k) + ImagesFolder + name == Slashes(k) + folder;
    assert folder[..|ImagesFolder|] == ImagesFolder;
    assert folder[|ImagesFolder|..] == name;
  }

  /** A file name stored bare, under "Images/", or under any number of
      slashes before either, gives the same public URL. */
  lemma StoredFormsAgree(baseUrl: string, name: string, k: nat)
    requires name == [] || name[0] != '/'
    requires !StartsWith(name, ImagesFolder)
    ensures NormalizeImageUrl(baseUrl, Slashes(k) + name) == baseUrl + ImagesPath + name
    ensures NormalizeImageUrl(baseUrl, Slashes(k) + ImagesFolder + name) == baseUrl + ImagesPath + name
  {
    BareImageName(name, k);
    FolderImageName(name, k);
  }

  /** Only one "Images/" is removed: a doubled folder keeps the second. */
  lemma StripsOneFolder(baseUrl: string, name: string)
    ensures NormalizeImageUrl(baseUrl, ImagesFolder + ImagesFolder + name) == baseUrl + ImagesPath + ImagesFolder + name
  {
    var url := ImagesFolder + ImagesFolder + name;
    TrimSlashes(0, url);
    assert Slashes(0) + url == url;
    assert url[..|ImagesFolder|] == ImagesFolder;
    assert url[|ImagesFolder|..] == ImagesFolder + name;
  }

  // ---------------------------------------------------------------------
  // MapToDto
  // ---------------------------------------------------------------------

  /** A booking as the venue DTO lists it: the booking's own columns and
      the venue's name; package and payment fields keep their defaults. */
  function VenueBookingDto(b: Booking, venueName: string): (d: BookingDto)
    ensures d.id == b.id && d.venueId == b.venueId && d.startTime == b.startTime && d.status == b.status
    ensures d.venueName == venueName && d.packageId.None? && d.packageName == "" && d.paymentStatus == ""
  {
    BookingDto(b.id, b.venueId, venueName, None, "", b.userId, b.startTime, b.endTime, false, None,
               b.totalCost, b.status, b.createdAt, b.updatedAt, "")
  }

  /** `OrderBy(b => b.StartTime)` on the booking DTOs. */
  predicate ByStart(a: BookingDto, b: BookingDto) {
    a.startTime <= b.startTime
  }

  /** The venue's bookings among those loaded, as DTOs, by start time. */
  function VenueBookings(venue: Venue, bookings: seq<Booking>): (r: seq<BookingDto>)
    ensures SortedBy(r, ByStart)
    ensures multiset(r) == multiset(Map(Filter(bookings, (b: Booking) => b.venueId == venue.id),
                                        (b: Booking) => VenueBookingDto(b, venue.name)))
  {
    var dtos := Map(Filter(bookings, (b: Booking) => b.venueId == venue.id), (b: Booking) => VenueBookingDto(b, venue.name));
    assert TotalPreorder(ByStart);
    SortBy(dtos, ByStart)
  }

  /** The additional service's DTO comes from a service of the venue. */
  predicate ServiceListed(services: seq<AdditionalService>, venue: Venue, d: AdditionalServiceDto) {
    exists s :: s in services && s.venueId == venue.id && d == AdditionalServiceDtoOf(s, venue.name)
  }

  /** The venue's additional services as DTOs under the venue's name, in
      table order. */
  function VenueServiceDtos(venue: Venue, services: seq<AdditionalService>): (r: seq<AdditionalServiceDto>)
    ensures forall d :: d in r ==> d.venueId == venue.id && d.venueName == venue.name
    ensures forall d :: d in r ==> ServiceListed(services, venue, d)
    ensures forall s :: s in services && s.venueId == venue.id ==> AdditionalServiceDtoOf(s, venue.name) in r
    ensures r == [] <==> forall s :: s in services ==> s.venueId != venue.id
  {
    var own := Filter(services, (s: AdditionalService) => s.venueId == venue.id);
    var r := Map(own, (s: AdditionalService) => AdditionalServiceDtoOf(s, venue.name));
    ServiceDtosListed(venue, services, own, r);
    r
  }

  lemma ServiceDtosListed(venue: Venue, services: seq<AdditionalService>, own: seq<AdditionalService>,
                          r: seq<AdditionalServiceDto>)
    requires forall s :: s in own <==> s in services && s.venueId == venue.id
    requires |r| == |own| && forall i :: 0 <= i < |r| ==> r[i] == AdditionalServiceDtoOf(own[i], venue.name)
    ensures forall d :: d in r ==> ServiceListed(services, venue, d)
    ensures forall s :: s in services && s.venueId == venue.id ==> AdditionalServiceDtoOf(s, venue.name) in r
    ensures r == [] <==> forall s :: s in services ==> s.venueId != venue.id
  {
    forall d | d in r ensures ServiceListed(services, venue, d) {
      var i :| 0 <= i < |r| && r[i] == d;
      assert own[i] in own;
    }
    forall s | s in services && s.venueId == venue.id ensures AdditionalServiceDtoOf(s, venue.name) in r {
      var i :| 0 <= i < |own| && own[i] == s;
      assert r[i] == AdditionalServiceDtoOf(s, venue.name);
    }
    if r != [] {
      assert ServiceListed(services, venue, r[0]);
    }
  }

  /** A package as the venue DTO lists it: VenueId and VenueName are not
      set, so they keep their defaults, the empty Guid and "". */
  function VenuePackageDtoOf(p: VenuePackage, packageServices: seq<PackageService>): (d: VenuePackageDto)
    ensures d.id == p.id && d.venueId == 0 && d.venueName == "" && d.tier == p.tier && d.basePrice == p.basePrice
    ensures d.packageServices == Map(Filter(packageServices, (s: PackageService) => s.packageId == p.id), PackageServiceDtoOf)
  {
    VenuePackageDto(p.id, p.name, p.description.GetOr(""), p.tier, p.baseCapacity, p.baseDurationHours, p.basePrice,
      p.pricePerAdditionalPerson, p.pricePerAdditionalHour, p.includesDecoration, p.includesCake,
      p.includesSoundSystem, p.includedServicesDescription.GetOr(""), 0, "",
      Map(Filter(packageServices, (s: PackageService) => s.packageId == p.id), PackageServiceDtoOf))
  }

  /** The venue's active packages, in table order. */
  function ActivePackagesOf(venue: Venue, packages: seq<VenuePackage>): (r: seq<VenuePackage>)
    ensures forall p :: p in r <==> p in packages && p.venueId == venue.id && p.isActive
    ensures r == [] <==> forall p :: p in packages ==> !(p.venueId == venue.id && p.isActive)
  {
    var r := Filter(packages, (p: VenuePackage) => p.venueId == venue.id && p.isActive);
    assert r != [] ==> r[0] in r;
    r
  }

  /** MapToDto: the venue's columns, one public URL per stored image in
      order, the loaded bookings by start time, the venue's services and
      its active packages. A collection the caller did not load is passed
      empty. */
  function VenueToDto(venue: Venue, baseUrl: string, bookings: seq<Booking>, services: seq<AdditionalService>,
                      packages: seq<VenuePackage>, packageServices: seq<PackageService>): (r: VenueDto)
    ensures r.id == venue.id && r.name == venue.name && r.rating == venue.rating && r.createdAt == venue.createdAt
    ensures |r.imageUrls| == |venue.images|
    ensures forall i :: 0 <= i < |r.imageUrls| ==> r.imageUrls[i] == NormalizeImageUrl(baseUrl, venue.images[i])
    ensures SortedBy(r.bookings, ByStart)
    ensures forall d :: d in r.bookings ==> BookingListed(bookings, venue, d)
    ensures forall b :: b in bookings && b.venueId == venue.id ==> VenueBookingDto(b, venue.name) in r.bookings
    ensures |r.packages| == |ActivePackagesOf(venue, packages)|
    ensures forall i :: 0 <= i < |r.packages| ==>
      r.packages[i] == VenuePackageDtoOf(ActivePackagesOf(venue, packages)[i], packageServices)
    ensures r.additionalServices == VenueServiceDtos(venue, services)
  {
    var venueBookings := VenueBookings(venue, bookings);
    BookingsListed(venue, bookings, venueBookings);
    VenueDto(venue.id, venue.name, venue.address, venue.venueType, venue.status, venue.rating, venue.createdAt,
      Map(venue.images, (url: string) => NormalizeImageUrl(baseUrl, url)),
      venueBookings,
      VenueServiceDtos(venue, services),
      Map(ActivePackagesOf(venue, packages), (p: VenuePackage) => VenuePackageDtoOf(p, packageServices)))
  }

  /** The booking DTO comes from a booking of the venue. */
  predicate BookingListed(bookings: seq<Booking>, venue: Venue, d: BookingDto) {
    exists b :: b in bookings && b.venueId == venue.id && d == VenueBookingDto(b, venue.name)
  }

  /** The sorted booking list holds exactly the venue's bookings. */
  lemma BookingsListed(venue: Venue, bookings: seq<Booking>, r: seq<BookingDto>)
    requires multiset(r) == multiset(Map(Filter(bookings, (b: Booking) => b.venueId == venue.id),
                                         (b: Booking) => VenueBookingDto(b, venue.name)))
    ensures forall d :: d in r ==> BookingListed(bookings, venue, d)
    ensures forall b :: b in bookings && b.venueId == venue.id ==> VenueBookingDto(b, venue.name) in r
  {
    var own := Filter(bookings, (b: Booking) => b.venueId == venue.id);
    var dtos := Map(own, (b: Booking) => VenueBookingDto(b, venue.name));
    forall d | d in r ensures BookingListed(bookings, venue, d) {
      assert d in multiset(dtos);
      var i :| 0 <= i < |dtos| && dtos[i] == d;
      assert own[i] in own;
    }
    forall b | b in bookings && b.venueId == venue.id ensures VenueBookingDto(b, venue.name) in r {
      assert b in own;
      var i :| 0 <= i < |own| && own[i] == b;
      assert dtos[i] in multiset(dtos);
    }
  }

  // ---------------------------------------------------------------------
  // GetVenueByIdAsync, GetVenueDetailsAsync, GetAllVenuesAsync
  // ---------------------------------------------------------------------

  /** GetVenueByIdAsync: the venue with every booking it has. */
  function VenueById(venues: seq<Venue>, bookings: seq<Booking>, services: seq<AdditionalService>,
                     packages: seq<VenuePackage>, packageServices: seq<PackageService>, baseUrl: string, id: Guid)
    : (r: MethodResultOf<VenueDto>)
    ensures r.isSuccess <==> exists v :: v in venues && v.id == id
    ensures !r.isSuccess ==> r == MethodResultOf.Fail(VenueNotFound)
    ensures r.isSuccess ==> r.data.Some? && r.data.value.id == id
    ensures r.isSuccess ==>
      r.data.value == VenueToDto(FindVenue(venues, id).value, baseUrl, bookings, services, packages, packageServices)
  {
    match FindVenue(venues, id)
    case None => MethodResultOf.Fail(VenueNotFound)
    case Some(v) => MethodResultOf.Ok(VenueToDto(v, baseUrl, bookings, services, packages, packageServices))
  }

  /** GetVenueDetailsAsync: as GetVenueByIdAsync, with only the bookings
      that are not canceled. */
  function VenueDetails(venues: seq<Venue>, bookings: seq<Booking>, services: seq<AdditionalService>,
                        packages: seq<VenuePackage>, packageServices: seq<PackageService>, baseUrl: string, id: Guid)
    : (r: MethodResultOf<VenueDto>)
    ensures r.isSuccess <==> exists v :: v in venues && v.id == id
    ensures !r.isSuccess ==> r == MethodResultOf.Fail(VenueNotFound)
    ensures r.isSuccess ==> r.data.Some? && r.data.value.id == id
    ensures r.isSuccess ==>
      r.data.value
      == VenueToDto(FindVenue(venues, id).value, baseUrl, Filter(bookings, NotCanceled), services, packages, packageServices)
  {
    match FindVenue(venues, id)
    case None => MethodResultOf.Fail(VenueNotFound)
    case Some(v) =>
      MethodResultOf.Ok(VenueToDto(v, baseUrl, Filter(bookings, NotCanceled), services, packages, packageServices))
  }

  /** With unique ids, both lookups of a stored venue's id return that
      venue's DTO: over all its bookings, and over those not canceled. */
  lemma VenueLookupsFindRow(venues: seq<Venue>, bookings: seq<Booking>, services: seq<AdditionalService>,
                            packages: seq<VenuePackage>, packageServices: seq<PackageService>, baseUrl: string, i: nat)
    requires UniqueKeys(venues, (v: Venue) => v.id)
    requires i < |venues|
    ensures VenueById(venues, bookings, services, packages, packageServices, baseUrl, venues[i].id)
      == MethodResultOf.Ok(VenueToDto(venues[i], baseUrl, bookings, services, packages, packageServices))
    ensures VenueDetails(venues, bookings, services, packages, packageServices, baseUrl, venues[i].id)
      == MethodResultOf.Ok(VenueToDto(venues[i], baseUrl, Filter(bookings, NotCanceled), services, packages, packageServices))
  {
    var id := venues[i].id;
    assert venues[i] in venues;
    forall v | v in venues && v.id == id ensures v == venues[i] {
      var k :| 0 <= k < |venues| && venues[k] == v;
    }
  }

  /** The details list every booking of the venue that is not canceled and
      no canceled one, and otherwise agree with the plain lookup. */
  lemma DetailsDropOnlyCanceled(venues: seq<Venue>, bookings: seq<Booking>, services: seq<AdditionalService>,
                                packages: seq<VenuePackage>, packageServices: seq<PackageService>, baseUrl: string, id: Guid)
    requires VenueById(venues, bookings, services, packages, packageServices, baseUrl, id).isSuccess
    ensures var all := VenueById(venues, bookings, services, packages, packageServices, baseUrl, id).data.value;
      var details := VenueDetails(venues, bookings, services, packages, packageServices, baseUrl, id).data.value;
      details.(bookings := all.bookings) == all
      && (forall d :: d in details.bookings ==> d in all.bookings && d.status != CanceledStatus)
      && (forall d :: d in all.bookings && d.status != CanceledStatus ==> d in details.bookings)
  {
    var v := FindVenue(venues, id).value;
    var active := Filter(bookings, NotCanceled);
    var all := VenueToDto(v, baseUrl, bookings, services, packages, packageServices);
    var details := VenueToDto(v, baseUrl, active, services, packages, packageServices);
    forall d | d in details.bookings ensures d in all.bookings && d.status != CanceledStatus {
      assert BookingListed(active, v, d);
      var b :| b in active && b.venueId == v.id && d == VenueBookingDto(b, v.name);
      assert b in bookings;
    }
    forall d | d in all.bookings && d.status != CanceledStatus ensures d in details.bookings {
      assert BookingListed(bookings, v, d);
      var b :| b in bookings && b.venueId == v.id && d == VenueBookingDto(b, v.name);
      assert b in active;
    }
  }

  /** `OrderByDescending(v => v.CreatedAt)` */
  predicate ByCreatedAtDescending(a: Venue, b: Venue) {
    a.createdAt >= b.createdAt
  }

  /** GetAllVenuesAsync: every venue, newest first, each with all its
      bookings. */
  function AllVenues(venues: seq<Venue>, bookings: seq<Booking>, services: seq<AdditionalService>,
                     packages: seq<VenuePackage>, packageServices: seq<PackageService>, baseUrl: string)
    : (r: MethodResultOf<seq<VenueDto>>)
    ensures r.isSuccess && r.data.Some? && |r.data.value| == |venues|
    ensures var d := r.data.value;
      forall i, j :: 0 <= i < j < |d| ==> d[i].createdAt >= d[j].createdAt
    ensures var d := r.data.value;
      forall v :: v in venues ==> VenueToDto(v, baseUrl, bookings, services, packages, packageServices) in d
    ensures var d := r.data.value;
      forall x :: x in d ==> exists v :: v in venues && x == VenueToDto(v, baseUrl, bookings, services, packages, packageServices)
  {
    assert TotalPreorder(ByCreatedAtDescending);
    var sorted := SortBy(venues, ByCreatedAtDescending);
    SortByKeepsElements(venues, ByCreatedAtDescending);
    var d := Map(sorted, (v: Venue) => VenueToDto(v, baseUrl, bookings, services, packages, packageServices));
    VenuesListed(venues, bookings, services, packages, packageServices, baseUrl, sorted, d);
    MethodResultOf.Ok(d)
  }

  lemma VenuesListed(venues: seq<Venue>, bookings: seq<Booking>, services: seq<AdditionalService>,
                     packages: seq<VenuePackage>, packageServices: seq<PackageService>, baseUrl: string,
                     sorted: seq<Venue>, d: seq<VenueDto>)
    requires SortedBy(sorted, ByCreatedAtDescending)
    requires forall v :: v in sorted <==> v in venues
    requires |d| == |sorted|
    requires forall i :: 0 <= i < |d| ==> d[i] == VenueToDto(sorted[i], baseUrl, bookings, services, packages, packageServices)
    ensures forall i, j :: 0 <= i < j < |d| ==> d[i].createdAt >= d[j].createdAt
    ensures forall v :: v in venues ==> VenueToDto(v, baseUrl, bookings, services, packages, packageServices) in d
    ensures forall x :: x in d ==> exists v :: v in venues && x == VenueToDto(v, baseUrl, bookings, services, packages, packageServices)
  {
    forall i, j | 0 <= i < j < |d| ensures d[i].createdAt >= d[j].createdAt {
      assert ByCreatedAtDescending(sorted[i], sorted[j]);
    }
    forall v | v in venues ensures VenueToDto(v, baseUrl, bookings, services, packages, packageServices) in d {
      var i :| 0 <= i < |sorted| && sorted[i] == v;
      assert d[i] == VenueToDto(v, baseUrl, bookings, services, packages, packageServices);
    }
    forall x | x in d ensures exists v :: v in venues && x == VenueToDto(v, baseUrl, bookings, services, packages, packageServices) {
      var i :| 0 <= i < |d| && d[i] == x;
      assert sorted[i] in sorted;
    }
  }

  // ---------------------------------------------------------------------
  // CreateVenueAsync, UpdateVenueAsync, DeleteVenueAsync
  // ---------------------------------------------------------------------

  /** The foreach that adds one VenueImage per URL, in order. */
  method AddImages(urls: seq<string>) returns (images: seq<string>)
    ensures images == urls
  {
    images := [];
    var i := 0;
    while i < |urls|
      invariant 0 <= i <= |urls|
      invariant images == urls[..i]
    {
      images := images + [urls[i]];
      i := i + 1;
      assert urls[..i] == urls[..i - 1] + [urls[i - 1]];
    }
    assert urls[..i] == urls;
  }

  /** The venue CreateVenueAsync writes: the request's fields, no rating
      yet, the creation time, and the images when a list is given. */
  function NewVenue(dto: CreateVenueDto, id: Guid, now: Ticks): (v: Venue)
    ensures v.id == id && v.rating == 0.0 && v.createdAt == now
    ensures v.images == if dto.imageUrls.Some? then dto.imageUrls.value else []
  {
    Venue(id, dto.name, dto.address, dto.imageUrls.GetOr([]), dto.venueType, dto.status, 0.0, now, 0)
  }

  /** CreateVenueAsync: appends the venue with its images and returns it as
      reloaded, with the services and packages that refer to it. */
  method CreateVenue(db: DataContext, dto: CreateVenueDto, id: Guid, now: Ticks, baseUrl: string)
      returns (r: MethodResultOf<VenueDto>)
    requires db.Valid()
    requires KeyFree(db.venues, (v: Venue) => v.id, id)
    modifies db`venues
    ensures db.Valid()
    ensures db.venues == old(db.venues) + [NewVenue(dto, id, now)]
    ensures r == MethodResultOf.Ok(VenueToDto(NewVenue(dto, id, now), baseUrl, [], db.additionalServices,
                                              db.packages, db.packageServices))
  {
    var images: seq<string> := [];
    if dto.imageUrls.Some? {
      images := AddImages(dto.imageUrls.value);
    }
    var venue := Venue(id, dto.name, dto.address, images, dto.venueType, dto.status, 0.0, now, 0);
    AppendKeepsUniqueKeys(db.venues, [venue], (v: Venue) => v.id);
    db.venues := db.venues + [venue];
    r := MethodResultOf.Ok(VenueToDto(venue, baseUrl, [], db.additionalServices, db.packages, db.packageServices));
  }

  /** A new venue is reported with its images and with no booking, service
      or package, since nothing yet refers to its fresh id. */
  lemma CreatedVenueIsBare(dto: CreateVenueDto, id: Guid, now: Ticks, baseUrl: string,
                           services: seq<AdditionalService>, packages: seq<VenuePackage>, packageServices: seq<PackageService>)
    requires KeyFree(services, (s: AdditionalService) => s.venueId, id)
    requires KeyFree(packages, (p: VenuePackage) => p.venueId, id)
    ensures var d := VenueToDto(NewVenue(dto, id, now), baseUrl, [], services, packages, packageServices);
      d.bookings == [] && d.additionalServices == [] && d.packages == []
      && |d.imageUrls| == |NewVenue(dto, id, now).images|
  {
    var v := NewVenue(dto, id, now);
    forall s | s in services ensures s.venueId != id {
      var i :| 0 <= i < |services| && services[i] == s;
    }
    forall p | p in packages ensures p.venueId != id {
      var i :| 0 <= i < |packages| && packages[i] == p;
    }
    var d := VenueToDto(v, baseUrl, [], services, packages, packageServices);
    assert multiset(d.bookings) == multiset{};
  }

  /** The venue after UpdateVenueAsync: the request's name, address, type
      and status, and exactly the new images. */
  function UpdatedVenue(v: Venue, dto: CreateVenueDto, images: seq<string>): (u: Venue)
    ensures u.id == v.id && u.rating == v.rating && u.createdAt == v.createdAt && u.updatedAt == v.updatedAt
    ensures u.images == images && u.name == dto.name && u.address == dto.address
    ensures u.venueType == dto.venueType && u.status == dto.status
  {
    v.(name := dto.name, address := dto.address, venueType := dto.venueType, status := dto.status, images := images)
  }

  /** The position of the venue with the id. */
  function VenueIndex(venues: seq<Venue>, id: Guid): (r: Option<nat>)
    ensures r.Some? ==> r.value < |venues| && venues[r.value].id == id
    ensures r.None? <==> forall i :: 0 <= i < |venues| ==> venues[i].id != id
  {
    FirstIndex(venues, (v: Venue) => v.id == id)
  }

  /** UpdateVenueAsync: an unknown id fails; a missing image list throws
      before anything is saved; otherwise the fields are overwritten and
      the images replaced by exactly the new list. The venue returned was
      loaded without its bookings and without its packages' services. */
  method UpdateVenue(db: DataContext, id: Guid, dto: CreateVenueDto, baseUrl: string) returns (r: MethodResultOf<VenueDto>)
    requires db.Valid()
    modifies db`venues
    ensures db.Valid()
    ensures match VenueIndex(old(db.venues), id)
      case None => r == MethodResultOf.Fail(VenueNotFound) && db.venues == old(db.venues)
      case Some(i) =>
        if dto.imageUrls.None? then
          r == MethodResultOf.Fail(UpdateFailure + NullReferenceError) && db.venues == old(db.venues)
        else
          var v := UpdatedVenue(old(db.venues)[i], dto, dto.imageUrls.value);
          db.venues == old(db.venues)[i := v]
          && r == MethodResultOf.Ok(VenueToDto(v, baseUrl, [], db.additionalServices, db.packages, []))
  {
    var index := VenueIndex(db.venues, id);
    if index.None? {
      return MethodResultOf.Fail(VenueNotFound);
    }
    if dto.imageUrls.None? {
      return MethodResultOf.Fail(UpdateFailure + NullReferenceError);
    }
    var images := AddImages(dto.imageUrls.value);
    var venue := UpdatedVenue(db.venues[index.value], dto, images);
    db.venues := db.venues[index.value := venue];
    r := MethodResultOf.Ok(VenueToDto(venue, baseUrl, [], db.additionalServices, db.packages, []));
  }

  /** The package is one of the venue's. */
  predicate PackageOfVenue(packages: seq<VenuePackage>, packageId: Guid, venueId: Guid) {
    exists p :: p in packages && p.id == packageId && p.venueId == venueId
  }

  /** The additional service is one of the venue's. */
  predicate ServiceOfVenue(services: seq<AdditionalService>, serviceId: Guid, venueId: Guid) {
    exists s :: s in services && s.id == serviceId && s.venueId == venueId
  }

  /** The package service belongs to a package of the venue. */
  predicate PackageServiceOfVenue(packages: seq<VenuePackage>, packageServices: seq<PackageService>,
                                  serviceId: Guid, venueId: Guid) {
    exists s :: s in packageServices && s.id == serviceId && PackageOfVenue(packages, s.packageId, venueId)
  }

  /** The booking refers to the venue, to one of its packages, or through a
      snapshot to one of its services or its packages' services. */
  predicate BookingUsesVenue(b: Booking, services: seq<AdditionalService>, packages: seq<VenuePackage>,
                             packageServices: seq<PackageService>, venueId: Guid) {
    b.venueId == venueId
    || (b.packageId.Some? && PackageOfVenue(packages, b.packageId.value, venueId))
    || (exists k :: 0 <= k < |b.additionalServices|
          && ServiceOfVenue(services, b.additionalServices[k].additionalServiceId, venueId))
    || (exists k :: 0 <= k < |b.packageServices|
          && PackageServiceOfVenue(packages, packageServices, b.packageServices[k].packageServiceId, venueId))
  }

  /** Deleting the venue would cascade to a row a booking still refers to,
      which the restricting foreign keys refuse. */
  predicate VenueInUse(bookings: seq<Booking>, services: seq<AdditionalService>, packages: seq<VenuePackage>,
                       packageServices: seq<PackageService>, venueId: Guid) {
    exists i :: 0 <= i < |bookings| && BookingUsesVenue(bookings[i], services, packages, packageServices, venueId)
  }

  /** DeleteVenueAsync: an unknown id fails; a venue some booking still
      depends on cannot be deleted and nothing changes; otherwise the venue
      goes, and with it its images, services, packages and their services. */
  method DeleteVenue(db: DataContext, id: Guid) returns (r: MethodResult)
    requires db.Valid()
    modifies db`venues, db`additionalServices, db`packages, db`packageServices
    ensures db.Valid()
    ensures VenueIndex(old(db.venues), id).None? ==>
      r == MethodResult.Fail(VenueNotFound)
      && db.venues == old(db.venues) && db.additionalServices == old(db.additionalServices)
      && db.packages == old(db.packages) && db.packageServices == old(db.packageServices)
    ensures VenueIndex(old(db.venues), id).Some?
            && VenueInUse(db.bookings, old(db.additionalServices), old(db.packages), old(db.packageServices), id) ==>
      r == MethodResult.Fail(DeleteFailure + SaveChangesError)
      && db.venues == old(db.venues) && db.additionalServices == old(db.additionalServices)
      && db.packages == old(db.packages) && db.packageServices == old(db.packageServices)
    ensures VenueIndex(old(db.venues), id).Some?
            && !VenueInUse(db.bookings, old(db.additionalServices), old(db.packages), old(db.packageServices), id) ==>
      r == MethodResult.Ok()
      && db.venues == Filter(old(db.venues), (v: Venue) => v.id != id)
      && db.additionalServices == Filter(old(db.additionalServices), (s: AdditionalService) => s.venueId != id)
      && db.packages == Filter(old(db.packages), (p: VenuePackage) => p.venueId != id)
      && db.packageServices
         == Filter(old(db.packageServices), (s: PackageService) => !PackageOfVenue(old(db.packages), s.packageId, id))
  {
    var index := VenueIndex(db.venues, id);
    if index.None? {
      return MethodResult.Fail(VenueNotFound);
    }
    if VenueInUse(db.bookings, db.additionalServices, db.packages, db.packageServices, id) {
      return MethodResult.Fail(DeleteFailure + SaveChangesError);
    }
    var packages := db.packages;
    FilterKeepsUniqueKeys(db.venues, (v: Venue) => v.id != id, (v: Venue) => v.id);
    FilterKeepsUniqueKeys(db.additionalServices, (s: AdditionalService) => s.venueId != id, (s: AdditionalService) => s.id);
    FilterKeepsUniqueKeys(db.packages, (p: VenuePackage) => p.venueId != id, (p: VenuePackage) => p.id);
    FilterKeepsUniqueKeys(db.packageServices, (s: PackageService) => !PackageOfVenue(packages, s.packageId, id),
                          (s: PackageService) => s.id);
    db.venues := Filter(db.venues, (v: Venue) => v.id != id);
    db.additionalServices := Filter(db.additionalServices, (s: AdditionalService) => s.venueId != id);
    db.packageServices := Filter(db.packageServices, (s: PackageService) => !PackageOfVenue(packages, s.packageId, id));
    db.packages := Filter(db.packages, (p: VenuePackage) => p.venueId != id);
    r := MethodResult.Ok();
  }

  /** After a delete nothing is left of the venue: looking it up fails, and
      no service, package or package service refers to it. */
  lemma DeletedVenueIsGone(venues: seq<Venue>, bookings: seq<Booking>, services: seq<AdditionalService>,
                           packages: seq<VenuePackage>, packageServices: seq<PackageService>, baseUrl: string, id: Guid)
    ensures var venues' := Filter(venues, (v: Venue) => v.id != id);
      var services' := Filter(services, (s: AdditionalService) => s.venueId != id);
      var packages' := Filter(packages, (p: VenuePackage) => p.venueId != id);
      var packageServices' := Filter(packageServices, (s: PackageService) => !PackageOfVenue(packages, s.packageId, id));
      VenueById(venues', bookings, services', packages', packageServices', baseUrl, id) == MethodResultOf.Fail(VenueNotFound)
      && (forall s :: s in services' ==> s.venueId != id)
      && (forall p :: p in packages' ==> p.venueId != id)
      && (forall s :: s in packageServices' ==> !PackageOfVenue(packages, s.packageId, id))
  {
  }
}
