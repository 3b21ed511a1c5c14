/** The database behind the services: one table per DbSet, each a sequence
    of rows in enumeration order, and the invariant every service keeps. */
module Data {
  import opened Common
  import opened DateTimes
  import opened Entities

  /** Message of the DbUpdateException that SaveChanges throws when the
      database refuses the change (a foreign key that is missing, or a
      restricted delete). */
  const SaveChangesError: string := "An error occurred while saving the entity changes. See the inner exception for details."

  /** Message of the NullReferenceException raised by enumerating a null list. */
  const NullReferenceError: string := "Object reference not set to an instance of an object."

  /** Message of the InvalidOperationException that Min and Max throw on an
      empty sequence. */
  const NoElementsError: string := "Sequence contains no elements."

  /** The DbContext: Users, Venues (with their VenueImages), AdditionalServices,
      VenuePackages, PackageServices and Bookings (with their snapshot rows). */
  class DataContext {
    var users: seq<User>
    var venues: seq<Venue>
    var additionalServices: seq<AdditionalService>
    var packages: seq<VenuePackage>
    var packageServices: seq<PackageService>
    var bookings: seq<Booking>

    /** Keys are unique per table, emails are unique among users, and the
        bookings are well formed and day-disjoint per venue. */
    ghost predicate Valid()
      reads this
    {
      UniqueKeys(users, (u: User) => u.id)
      && UniqueKeys(venues, (v: Venue) => v.id)
      && UniqueKeys(additionalServices, (s: AdditionalService) => s.id)
      && UniqueKeys(packages, (p: VenuePackage) => p.id)
      && UniqueKeys(packageServices, (s: PackageService) => s.id)
      && UniqueKeys(bookings, (b: Booking) => b.id)
      && UniqueEmails(users)
      && (forall i :: 0 <= i < |bookings| ==> WellFormedBooking(bookings[i]))
      && ActiveBookingsDisjoint(bookings)
    }

    /** An empty database. */
    constructor ()
      ensures Valid()
      ensures users == [] && venues == [] && additionalServices == []
      ensures packages == [] && packageServices == [] && bookings == []
    {
      users, venues, additionalServices := [], [], [];
      packages, packageServices, bookings := [], [], [];
    }
  }

  /** No two users share an email. */
  ghost predicate UniqueEmails(users: seq<User>) {
    forall i, j :: 0 <= i < j < |users| ==> users[i].email != users[j].email
  }

  /** `id` is the key of no row of `s`: a fresh Guid. */
  predicate KeyFree<T>(s: seq<T>, key: T -> Guid, id: Guid) {
    forall i :: 0 <= i < |s| ==> key(s[i]) != id
  }

  /** `ids` are new Guids: pairwise distinct and the key of no row of `s`. */
  predicate FreshKeys<T>(s: seq<T>, key: T -> Guid, ids: seq<Guid>) {
    (forall i, k :: 0 <= i < |ids| && 0 <= k < |s| ==> key(s[k]) != ids[i])
    && (forall i, j :: 0 <= i < j < |ids| ==> ids[i] != ids[j])
  }

  /** Rows with fresh keys appended to a table keep its keys unique. */
  lemma AppendKeepsUniqueKeys<T>(s: seq<T>, t: seq<T>, key: T -> Guid)
    requires UniqueKeys(s, key) && UniqueKeys(t, key)
    requires forall i, k :: 0 <= i < |t| && 0 <= k < |s| ==> key(s[k]) != key(t[i])
    ensures UniqueKeys(s + t, key)
  {
    var u := s + t;
    forall i, j | 0 <= i < j < |u| ensures key(u[i]) != key(u[j]) {
      if j >= |s| && i >= |s| {
        assert u[i] == t[i - |s|] && u[j] == t[j - |s|];
      } else if j >= |s| {
        assert u[i] == s[i] && u[j] == t[j - |s|];
      }
    }
  }

  // ---- row lookups: FindAsync / FirstOrDefaultAsync by key ----

  function FindVenue(venues: seq<Venue>, id: Guid): (r: Option<Venue>)
    ensures r.Some? ==> r.value in venues && r.value.id == id
    ensures r.None? <==> forall v :: v in venues ==> v.id != id
  {
    FindFirst(venues, (v: Venue) => v.id == id)
  }

  function FindUser(users: seq<User>, id: Guid): (r: Option<User>)
    ensures r.Some? ==> r.value in users && r.value.id == id
    ensures r.None? <==> forall u :: u in users ==> u.id != id
  {
    FindFirst(users, (u: User) => u.id == id)
  }

  function FindPackage(packages: seq<VenuePackage>, id: Guid): (r: Option<VenuePackage>)
    ensures r.Some? ==> r.value in packages && r.value.id == id
    ensures r.None? <==> forall p :: p in packages ==> p.id != id
  {
    FindFirst(packages, (p: VenuePackage) => p.id == id)
  }

  function FindAdditionalService(services: seq<AdditionalService>, id: Guid): (r: Option<AdditionalService>)
    ensures r.Some? ==> r.value in services && r.value.id == id
    ensures r.None? <==> forall s :: s in services ==> s.id != id
  {
    FindFirst(services, (s: AdditionalService) => s.id == id)
  }

  function FindPackageService(services: seq<PackageService>, id: Guid): (r: Option<PackageService>)
    ensures r.Some? ==> r.value in services && r.value.id == id
    ensures r.None? <==> forall s :: s in services ==> s.id != id
  {
    FindFirst(services, (s: PackageService) => s.id == id)
  }

  /** `booking.Package?.Name ?? string.Empty` */
  function PackageNameOf(packages: seq<VenuePackage>, packageId: Option<Guid>): string {
    if packageId.None? then ""
    else match FindPackage(packages, packageId.value)
      case Some(p) => p.name
      case None => ""
  }

  /** `booking.Venue?.Name ?? string.Empty` */
  function VenueNameOf(venues: seq<Venue>, venueId: Guid): string {
    match FindVenue(venues, venueId)
    case Some(v) => v.name
    case None => ""
  }
}
