/** UserService: the user list, one user's details with their bookings,
    and the profile update that keeps emails unique. */
module UserService {
  import opened Common
  import opened DateTimes
  import opened Text
  import opened Sorting
  import opened Entities
  import opened Dtos
  import opened Data
  import opened MethodResults
  import opened BookingQueries

  const UserNotFound: string := "User not found."
  const EmailInUse: string := "Email already in use."

  // ---------------------------------------------------------------------
  // GetAllUsersAsync
  // ---------------------------------------------------------------------

  /** The summary of a user; a missing contact number becomes empty. */
  function UserSummary(u: User): UserSummaryDto {
    UserSummaryDto(u.id, u.name, u.email, u.contactNumber.GetOr(""), u.role, u.createdAt)
  }

  /** `OrderByDescending(u => u.CreatedAt)` */
  predicate NewestFirst(a: User, b: User) {
    a.createdAt >= b.createdAt
  }

  /** GetAllUsersAsync: the summary of every user, newest first. */
  function AllUsers(users: seq<User>): (r: MethodResultOf<seq<UserSummaryDto>>)
    ensures r.isSuccess && r.data.Some?
    ensures var d := r.data.value;
      forall i, j :: 0 <= i < j < |d| ==> d[i].createdAt >= d[j].createdAt
    ensures multiset(r.data.value) == multiset(Map(users, UserSummary))
  {
    assert TotalPreorder(NewestFirst);
    var sorted := SortBy(users, NewestFirst);
    MapPermutation(sorted, users, UserSummary);
    var d := Map(sorted, UserSummary);
    assert forall i, j :: 0 <= i < j < |d| ==> NewestFirst(sorted[i], sorted[j]);
    MethodResultOf.Ok(d)
  }

  /** With unique ids, the list holds each user's summary exactly once. */
  lemma {:induction false} AllUsersListsEachOnce(users: seq<User>, u: User)
    requires UniqueKeys(users, (x: User) => x.id)
    requires u in users
    ensures multiset(AllUsers(users).data.value)[UserSummary(u)] == 1
  {
    var i :| 0 <= i < |users| && users[i] == u;
    SummaryOccursOnce(users, i);
  }

  /** In a table with unique ids, a row's summary occurs once among the
      summaries of the table. */
  lemma {:induction false} SummaryOccursOnce(users: seq<User>, i: nat)
    requires UniqueKeys(users, (x: User) => x.id)
    requires i < |users|
    ensures multiset(Map(users, UserSummary))[UserSummary(users[i])] == 1
  {
    var m := Map(users, UserSummary);
    var n := |users| - 1;
    assert m == Map(users[..n], UserSummary) + [UserSummary(users[n])];
    assert UniqueKeys(users[..n], (x: User) => x.id);
    if i == n {
      assert UserSummary(users[n]) !in Map(users[..n], UserSummary) by {
        forall k | 0 <= k < n ensures Map(users[..n], UserSummary)[k] != UserSummary(users[n]) {
          assert users[..n][k].id != users[n].id;
        }
      }
    } else {
      SummaryOccursOnce(users[..n], i);
      assert UserSummary(users[n]) != UserSummary(users[i]);
    }
  }

  // ---------------------------------------------------------------------
  // GetUserDetailsAsync
  // ---------------------------------------------------------------------

  /** A booked service as this mapper lists it: Category is not set, so it
      keeps the enumeration's first value. */
  function Uncategorized(d: AdditionalServiceDto): AdditionalServiceDto {
    d.(category := Food)
  }

  /** The services of a booking as GetUserDetailsAsync lists them: each
      snapshot whose service still exists, under the venue's name. */
  function UserBookingServices(services: seq<AdditionalService>, venueName: string,
                               snapshots: seq<BookingAdditionalService>): (r: seq<AdditionalServiceDto>)
    ensures |r| <= |snapshots|
    ensures forall i :: 0 <= i < |r| ==> r[i].category == Food && r[i].venueName == venueName
    ensures forall i :: 0 <= i < |r| ==> ServiceSnapshotted(snapshots, r[i].id)
    ensures AllServicesFound(services, snapshots) ==> |r| == |snapshots|
  {
    var dtos := AdditionalServiceDtos(services, venueName, snapshots);
    AdditionalServiceDtosCount(services, venueName, snapshots);
    AdditionalServiceDtosBooked(services, venueName, snapshots);
    var r := Map(dtos, Uncategorized);
    assert forall i :: 0 <= i < |r| ==> r[i].id == dtos[i].id && r[i].venueName == dtos[i].venueName && dtos[i] in dtos;
    r
  }

  /** MapToDtoWithUserInfo of UserService: the booking's own columns, the
      user it was loaded under, the venue's name and the booked services;
      the package, the cost breakdown and the package services are not
      set. */
  function UserBookingDto(venues: seq<Venue>, services: seq<AdditionalService>, user: User, b: Booking)
    : (r: BookingWithUserDto)
    ensures r.id == b.id && r.venueId == b.venueId && r.startTime == b.startTime && r.endTime == b.endTime
    ensures r.totalCost == b.totalCost && r.status == b.status && r.createdAt == b.createdAt
    ensures r.userId == user.id && r.userEmail == user.email && r.userFullName == user.name
    ensures r.packageId.None? && r.packageName == "" && r.packageServices == [] && r.basePackageCost == 0
    ensures r.venueName == VenueNameOf(venues, b.venueId)
    ensures r.additionalServices == UserBookingServices(services, VenueNameOf(venues, b.venueId), b.additionalServices)
  {
    var venueName := VenueNameOf(venues, b.venueId);
    BookingWithUserDto(b.id, b.venueId, venueName, None, "", user.id, user.email, user.name,
      b.startTime, b.endTime, false, None, None, None, 0, 0, 0, 0, b.totalCost, b.status, b.createdAt, b.updatedAt,
      UserBookingServices(services, venueName, b.additionalServices), [], PaymentStatusName(b.paymentStatus))
  }

  /** The foreach over the booking's additional-service rows whose service
      is loaded. */
  method CollectServices(services: seq<AdditionalService>, venueName: string, snapshots: seq<BookingAdditionalService>)
      returns (r: seq<AdditionalServiceDto>)
    ensures r == UserBookingServices(services, venueName, snapshots)
  {
    r := [];
    var i := 0;
    while i < |snapshots|
      invariant 0 <= i <= |snapshots|
      invariant r == Map(AdditionalServiceDtos(services, venueName, snapshots[..i]), Uncategorized)
    {
      var front := AdditionalServiceDtos(services, venueName, snapshots[..i]);
      AdditionalServiceDtosStep(services, venueName, snapshots, i);
      var svc := FindAdditionalService(services, snapshots[i].additionalServiceId);
      if svc.Some? {
        var d := AdditionalServiceDtoOf(svc.value, venueName);
        assert Map(front + [d], Uncategorized) == Map(front, Uncategorized) + [Uncategorized(d)];
        r := r + [Uncategorized(d)];
      }
      i := i + 1;
    }
    assert snapshots[..i] == snapshots;
  }

  /** MapToDtoWithUserInfo of UserService, with its loop. */
  method MapToDtoWithUserInfo(db: DataContext, b: Booking, user: User) returns (r: BookingWithUserDto)
    ensures r == UserBookingDto(db.venues, db.additionalServices, user, b)
  {
    var venueName := VenueNameOf(db.venues, b.venueId);
    var additional := CollectServices(db.additionalServices, venueName, b.additionalServices);
    r := BookingWithUserDto(b.id, b.venueId, venueName, None, "", user.id, user.email, user.name,
      b.startTime, b.endTime, false, None, None, None, 0, 0, 0, 0, b.totalCost, b.status, b.createdAt, b.updatedAt,
      additional, [], PaymentStatusName(b.paymentStatus));
  }

  /** `OrderByDescending(b => b.CreatedAt)` on the mapped bookings. */
  predicate NewestBookingFirst(a: BookingWithUserDto, b: BookingWithUserDto) {
    a.createdAt >= b.createdAt
  }

  /** The bookings of the user, in table order. */
  function BookingsOf(bookings: seq<Booking>, userId: Guid): (r: seq<Booking>)
    ensures forall b :: b in r <==> b in bookings && b.userId == userId
  {
    Filter(bookings, (b: Booking) => b.userId == userId)
  }

  /** GetUserDetailsAsync: an unknown id fails with "User not found.";
      otherwise the user's columns and all their bookings, newest first. */
  function UserDetails(users: seq<User>, venues: seq<Venue>, services: seq<AdditionalService>,
                       bookings: seq<Booking>, id: Guid): (r: MethodResultOf<UserDetailsDto>)
    ensures r.isSuccess <==> exists u :: u in users && u.id == id
    ensures !r.isSuccess ==> r == MethodResultOf.Fail(UserNotFound)
    ensures r.isSuccess ==> r.data.Some? && r.data.value.id == id
    ensures r.isSuccess ==>
      var u := FindUser(users, id).value;
      r.data.value.(bookings := []) == UserDetailsDto(u.id, u.name, u.email, u.contactNumber.GetOr(""), u.role, u.createdAt, [])
    ensures r.isSuccess ==> var d := r.data.value.bookings;
      forall i, j :: 0 <= i < j < |d| ==> d[i].createdAt >= d[j].createdAt
    ensures r.isSuccess ==>
      var u := FindUser(users, id).value;
      multiset(r.data.value.bookings)
      == multiset(Map(BookingsOf(bookings, id), (b: Booking) => UserBookingDto(venues, services, u, b)))
  {
    match FindUser(users, id)
    case None => MethodResultOf.Fail(UserNotFound)
    case Some(u) =>
      var mapped := Map(BookingsOf(bookings, id), (b: Booking) => UserBookingDto(venues, services, u, b));
      assert TotalPreorder(NewestBookingFirst);
      var sorted := SortBy(mapped, NewestBookingFirst);
      MethodResultOf.Ok(UserDetailsDto(u.id, u.name, u.email, u.contactNumber.GetOr(""), u.role, u.createdAt, sorted))
  }

  /** With unique ids, the details of a stored user carry that user's own
      columns, a missing contact number as "". */
  lemma UserDetailsFindsRow(users: seq<User>, venues: seq<Venue>, services: seq<AdditionalService>,
                            bookings: seq<Booking>, i: nat)
    requires UniqueKeys(users, (u: User) => u.id)
    requires i < |users|
    ensures var r := UserDetails(users, venues, services, bookings, users[i].id);
      var u := users[i];
      r.isSuccess
      && r.data.value.(bookings := []) == UserDetailsDto(u.id, u.name, u.email, u.contactNumber.GetOr(""), u.role, u.createdAt, [])
  {
    var id := users[i].id;
    assert users[i] in users;
    forall u | u in users && u.id == id ensures u == users[i] {
      var k :| 0 <= k < |users| && users[k] == u;
    }
  }

  /** The user made a booking with this id. */
  predicate BookedBy(bookings: seq<Booking>, userId: Guid, bookingId: Guid) {
    exists b :: b in bookings && b.userId == userId && b.id == bookingId
  }

  /** The details list every booking the user made, and only those, each
      under the user's own email and name. */
  lemma DetailsListUsersBookings(users: seq<User>, venues: seq<Venue>, services: seq<AdditionalService>,
                                 bookings: seq<Booking>, id: Guid)
    requires UserDetails(users, venues, services, bookings, id).isSuccess
    ensures var u := FindUser(users, id).value;
      var d := UserDetails(users, venues, services, bookings, id).data.value.bookings;
      (forall x :: x in d ==> x.userId == id && x.userEmail == u.email && x.userFullName == u.name
                              && BookedBy(bookings, id, x.id))
      && (forall b :: b in bookings && b.userId == id ==> UserBookingDto(venues, services, u, b) in d)
  {
    var u := FindUser(users, id).value;
    var d := UserDetails(users, venues, services, bookings, id).data.value.bookings;
    MappedBookingsListed(venues, services, bookings, u, d);
  }

  lemma MappedBookingsListed(venues: seq<Venue>, services: seq<AdditionalService>, bookings: seq<Booking>,
                             u: User, d: seq<BookingWithUserDto>)
    requires multiset(d) == multiset(Map(BookingsOf(bookings, u.id), (b: Booking) => UserBookingDto(venues, services, u, b)))
    ensures forall x :: x in d ==> x.userId == u.id && x.userEmail == u.email && x.userFullName == u.name
                                   && BookedBy(bookings, u.id, x.id)
    ensures forall b :: b in bookings && b.userId == u.id ==> UserBookingDto(venues, services, u, b) in d
  {
    var own := BookingsOf(bookings, u.id);
    var mapped := Map(own, (b: Booking) => UserBookingDto(venues, services, u, b));
    forall x | x in d
      ensures x.userId == u.id && x.userEmail == u.email && x.userFullName == u.name && BookedBy(bookings, u.id, x.id)
    {
      assert x in multiset(mapped);
      var i :| 0 <= i < |mapped| && mapped[i] == x;
      assert own[i] in own;
    }
    forall b | b in bookings && b.userId == u.id ensures UserBookingDto(venues, services, u, b) in d {
      assert b in own;
      var i :| 0 <= i < |own| && own[i] == b;
      assert mapped[i] in multiset(d);
    }
  }

  // ---------------------------------------------------------------------
  // UpdateUserAsync
  // ---------------------------------------------------------------------

  /** The field the request sets, or the current one when the request's is
      null or white space. */
  function Overwrite(current: string, requested: Option<string>): (r: string)
    ensures !IsNullOrWhiteSpace(requested) ==> r == requested.value
    ensures IsNullOrWhiteSpace(requested) ==> r == current
  {
    if !IsNullOrWhiteSpace(requested) then requested.value else current
  }

  /** The user after the update: each field the request gives a non-blank
      value for takes it, every other column stays. */
  function UpdatedUser(u: User, dto: UpdateUserDto): (r: User)
    ensures r.id == u.id && r.passwordHash == u.passwordHash && r.createdAt == u.createdAt
    ensures r.name == Overwrite(u.name, dto.name) && r.email == Overwrite(u.email, dto.email)
    ensures r.role == Overwrite(u.role, dto.role)
    ensures r.contactNumber == if IsNullOrWhiteSpace(dto.contactNumber) then u.contactNumber else dto.contactNumber
  {
    u.(name := Overwrite(u.name, dto.name),
       email := Overwrite(u.email, dto.email),
       contactNumber := if IsNullOrWhiteSpace(dto.contactNumber) then u.contactNumber else dto.contactNumber,
       role := Overwrite(u.role, dto.role))
  }

  /** A second update with the same request changes nothing more. */
  lemma UpdateIsIdempotent(u: User, dto: UpdateUserDto)
    ensures UpdatedUser(UpdatedUser(u, dto), dto) == UpdatedUser(u, dto)
  {
  }

  /** The request asks for an email another user already has. */
  predicate EmailClash(users: seq<User>, id: Guid, email: Option<string>) {
    !IsNullOrWhiteSpace(email) && exists k :: 0 <= k < |users| && users[k].email == email.value && users[k].id != id
  }

  /** The position of the user with the id. */
  function UserIndex(users: seq<User>, id: Guid): (r: Option<nat>)
    ensures r.Some? ==> r.value < |users| && users[r.value].id == id
    ensures r.None? <==> forall i :: 0 <= i < |users| ==> users[i].id != id
  {
    FirstIndex(users, (u: User) => u.id == id)
  }

  /** Replacing a user by its update keeps ids and emails unique when the
      new email belongs to no other user. */
  lemma UpdateKeepsUsersValid(users: seq<User>, i: nat, dto: UpdateUserDto)
    requires i < |users|
    requires UniqueKeys(users, (u: User) => u.id) && UniqueEmails(users)
    requires !EmailClash(users, users[i].id, dto.email)
    ensures UniqueKeys(users[i := UpdatedUser(users[i], dto)], (u: User) => u.id)
    ensures UniqueEmails(users[i := UpdatedUser(users[i], dto)])
  {
    var users' := users[i := UpdatedUser(users[i], dto)];
    forall j, k | 0 <= j < k < |users'| ensures users'[j].email != users'[k].email {
      if j == i || k == i {
        var other := if j == i then k else j;
        assert users[other].id != users[i].id;
      }
    }
  }

  /** UpdateUserAsync: an unknown id fails; an email another user has
      fails with nothing saved; otherwise the non-blank fields are written. */
  method UpdateUser(db: DataContext, id: Guid, dto: UpdateUserDto) returns (r: MethodResult)
    requires db.Valid()
    modifies db`users
    ensures db.Valid()
    ensures match UserIndex(old(db.users), id)
      case None => r == MethodResult.Fail(UserNotFound) && db.users == old(db.users)
      case Some(i) =>
        if EmailClash(old(db.users), id, dto.email) then
          r == MethodResult.Fail(EmailInUse) && db.users == old(db.users)
        else
          r == MethodResult.Ok() && db.users == old(db.users)[i := UpdatedUser(old(db.users)[i], dto)]
  {
    var index := UserIndex(db.users, id);
    if index.None? {
      return MethodResult.Fail(UserNotFound);
    }
    var user := db.users[index.value];
    var name := user.name;
    if !IsNullOrWhiteSpace(dto.name) {
      name := dto.name.value;
    }
    var email := user.email;
    if !IsNullOrWhiteSpace(dto.email) {
      if EmailClash(db.users, id, dto.email) {
        return MethodResult.Fail(EmailInUse);
      }
      email := dto.email.value;
    }
    var contactNumber := user.contactNumber;
    if !IsNullOrWhiteSpace(dto.contactNumber) {
      contactNumber := dto.contactNumber;
    }
    var role := user.role;
    if !IsNullOrWhiteSpace(dto.role) {
      role := dto.role.value;
    }
    UpdateKeepsUsersValid(db.users, index.value, dto);
    db.users := db.users[index.value := user.(name := name, email := email, contactNumber := contactNumber, role := role)];
    r := MethodResult.Ok();
  }
}
