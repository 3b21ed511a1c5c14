/** AdditionalServiceService: the extras a venue offers (catering,
    decoration and so on), with their lookups and their create, update and
    delete. */
module AdditionalServiceService {
  import opened Common
  import opened DateTimes
  import opened Text
  import opened Sorting
  import opened Entities
  import opened Dtos
  import opened Data
  import opened MethodResults

  const VenueNotFound: string := "Venue not found"
  const ServiceNotFound: string := "Additional service not found"
  /** The prefix UpdateAsync puts before the message of a caught exception. */
  const UpdateFailure: string := "Failed to update additional service: "
  /** The prefix DeleteAsync puts before the message of a caught exception. */
  const DeleteFailure: string := "Failed to delete additional service: "

  /** MapToDto: the service's columns, its description as stored (possibly
      null), and the name of its venue when the venue is loaded. */
  function ServiceDto(s: AdditionalService, venueName: string): (d: AdditionalServiceDto)
    ensures d.id == s.id && d.name == s.name && d.description == s.description && d.price == s.price
    ensures d.venueId == s.venueId && d.venueName == venueName && d.category == s.category
  {
    AdditionalServiceDto(s.id, s.name, s.description, s.price, s.venueId, venueName, s.category)
  }

  // ---------------------------------------------------------------------
  // GetByIdAsync, GetByVenueIdAsync, GetAllAsync
  // ---------------------------------------------------------------------

  /** GetByIdAsync: the service with its venue's name. */
  function ServiceById(services: seq<AdditionalService>, venues: seq<Venue>, id: Guid)
    : (r: MethodResultOf<AdditionalServiceDto>)
    ensures r.isSuccess <==> exists s :: s in services && s.id == id
    ensures !r.isSuccess ==> r == MethodResultOf.Fail(ServiceNotFound)
    ensures r.isSuccess ==>
      r.data.Some? && r.data.value.id == id && r.data.value.venueName == VenueNameOf(venues, r.data.value.venueId)
    ensures r.isSuccess ==>
      var s := FindAdditionalService(services, id).value;
      r.data.value == ServiceDto(s, VenueNameOf(venues, s.venueId))
  {
    match FindAdditionalService(services, id)
    case None => MethodResultOf.Fail(ServiceNotFound)
    case Some(s) => MethodResultOf.Ok(ServiceDto(s, VenueNameOf(venues, s.venueId)))
  }

  /** With unique ids, looking up a stored service's id returns that
      service's DTO under its venue's name. */
  lemma ServiceByIdFindsRow(services: seq<AdditionalService>, venues: seq<Venue>, i: nat)
    requires UniqueKeys(services, (s: AdditionalService) => s.id)
    requires i < |services|
    ensures ServiceById(services, venues, services[i].id)
      == MethodResultOf.Ok(ServiceDto(services[i], VenueNameOf(venues, services[i].venueId)))
  {
    var id := services[i].id;
    assert services[i] in services;
    forall s | s in services && s.id == id ensures s == services[i] {
      var k :| 0 <= k < |services| && services[k] == s;
    }
  }

  /** `OrderBy(s => s.Name)`, ordinal. */
  predicate ByName(a: AdditionalService, b: AdditionalService) {
    OrdinalLe(a.name, b.name)
  }

  lemma ByNameIsTotalPreorder()
    ensures TotalPreorder(ByName)
  {
    forall a: AdditionalService, b: AdditionalService ensures ByName(a, b) || ByName(b, a) {
      OrdinalLeTotal(a.name, b.name);
    }
    forall a: AdditionalService, b: AdditionalService, c: AdditionalService | ByName(a, b) && ByName(b, c)
      ensures ByName(a, c)
    {
      OrdinalLeTransitive(a.name, b.name, c.name);
    }
  }

  /** The services of the venue, by name. */
  function VenueServiceRows(services: seq<AdditionalService>, venueId: Guid): (r: seq<AdditionalService>)
    ensures SortedBy(r, ByName)
    ensures multiset(r) == multiset(Filter(services, (s: AdditionalService) => s.venueId == venueId))
    ensures forall s :: s in r <==> s in services && s.venueId == venueId
  {
    ByNameIsTotalPreorder();
    var rows := Filter(services, (s: AdditionalService) => s.venueId == venueId);
    SortByKeepsElements(rows, ByName);
    SortBy(rows, ByName)
  }

  /** GetByVenueIdAsync: the venue's services by name, each under the
      venue's name; an unknown venue has none. */
  function ServicesByVenue(services: seq<AdditionalService>, venues: seq<Venue>, venueId: Guid)
    : (r: MethodResultOf<seq<AdditionalServiceDto>>)
    ensures r.isSuccess && r.data.Some?
    ensures var d := r.data.value;
      forall i, j :: 0 <= i < j < |d| ==> OrdinalLe(d[i].name, d[j].name)
    ensures var d := r.data.value;
      forall i :: 0 <= i < |d| ==> d[i].venueId == venueId && d[i].venueName == VenueNameOf(venues, venueId)
    ensures var d := r.data.value;
      forall s :: s in services && s.venueId == venueId ==> ServiceDto(s, VenueNameOf(venues, venueId)) in d
    ensures var d := r.data.value;
      forall x :: x in d ==> exists s :: s in services && s.venueId == venueId && x == ServiceDto(s, VenueNameOf(venues, venueId))
    ensures multiset(r.data.value)
            == multiset(Map(Filter(services, (s: AdditionalService) => s.venueId == venueId),
                            (s: AdditionalService) => ServiceDto(s, VenueNameOf(venues, s.venueId))))
  {
    var rows := VenueServiceRows(services, venueId);
    var f := (s: AdditionalService) => ServiceDto(s, VenueNameOf(venues, s.venueId));
    MapPermutation(rows, Filter(services, (s: AdditionalService) => s.venueId == venueId), f);
    var d := Map(rows, f);
    VenueServicesListed(services, venues, venueId, rows, d);
    MethodResultOf.Ok(d)
  }

  lemma VenueServicesListed(services: seq<AdditionalService>, venues: seq<Venue>, venueId: Guid,
                            rows: seq<AdditionalService>, d: seq<AdditionalServiceDto>)
    requires SortedBy(rows, ByName)
    requires forall s :: s in rows <==> s in services && s.venueId == venueId
    requires |d| == |rows| && forall i :: 0 <= i < |d| ==> d[i] == ServiceDto(rows[i], VenueNameOf(venues, rows[i].venueId))
    ensures forall i, j :: 0 <= i < j < |d| ==> OrdinalLe(d[i].name, d[j].name)
    ensures forall i :: 0 <= i < |d| ==> d[i].venueId == venueId && d[i].venueName == VenueNameOf(venues, venueId)
    ensures forall s :: s in services && s.venueId == venueId ==> ServiceDto(s, VenueNameOf(venues, venueId)) in d
    ensures forall x :: x in d ==> exists s :: s in services && s.venueId == venueId && x == ServiceDto(s, VenueNameOf(venues, venueId))
  {
    forall x | x in d ensures exists s :: s in services && s.venueId == venueId && x == ServiceDto(s, VenueNameOf(venues, venueId)) {
      var i :| 0 <= i < |d| && d[i] == x;
      assert rows[i] in rows;
    }
    forall i, j | 0 <= i < j < |d| ensures OrdinalLe(d[i].name, d[j].name) {
      assert ByName(rows[i], rows[j]);
    }
    forall i | 0 <= i < |d| ensures d[i].venueId == venueId && d[i].venueName == VenueNameOf(venues, venueId) {
      assert rows[i] in rows;
    }
    forall s | s in services && s.venueId == venueId ensures ServiceDto(s, VenueNameOf(venues, venueId)) in d {
      var i :| 0 <= i < |rows| && rows[i] == s;
      assert d[i] == ServiceDto(s, VenueNameOf(venues, venueId));
    }
  }

  /** `OrderBy(s => s.Venue.Name).ThenBy(s => s.Name)`, ordinal. */
  predicate VenueThenName(venues: seq<Venue>, a: AdditionalService, b: AdditionalService) {
    var na, nb := VenueNameOf(venues, a.venueId), VenueNameOf(venues, b.venueId);
    if na == nb then OrdinalLe(a.name, b.name) else OrdinalLe(na, nb)
  }

  lemma VenueThenNameIsTotalPreorder(venues: seq<Venue>)
    ensures TotalPreorder((a: AdditionalService, b: AdditionalService) => VenueThenName(venues, a, b))
  {
    forall a: AdditionalService, b: AdditionalService ensures VenueThenName(venues, a, b) || VenueThenName(venues, b, a) {
      OrdinalLeTotal(VenueNameOf(venues, a.venueId), VenueNameOf(venues, b.venueId));
      OrdinalLeTotal(a.name, b.name);
    }
    forall a: AdditionalService, b: AdditionalService, c: AdditionalService
      | VenueThenName(venues, a, b) && VenueThenName(venues, b, c)
      ensures VenueThenName(venues, a, c)
    {
      var na, nb, nc := VenueNameOf(venues, a.venueId), VenueNameOf(venues, b.venueId), VenueNameOf(venues, c.venueId);
      if na == nb && nb == nc {
        OrdinalLeTransitive(a.name, b.name, c.name);
      } else if na != nb && nb != nc {
        OrdinalLeTransitive(na, nb, nc);
        if na == nc {
          OrdinalLeAntisymmetric(na, nb);
        }
      }
    }
  }

  /** Every service, ordered by its venue's name and then its own. */
  function AllServiceRows(services: seq<AdditionalService>, venues: seq<Venue>): (r: seq<AdditionalService>)
    ensures SortedBy(r, (a: AdditionalService, b: AdditionalService) => VenueThenName(venues, a, b))
    ensures multiset(r) == multiset(services)
  {
    VenueThenNameIsTotalPreorder(venues);
    SortBy(services, (a: AdditionalService, b: AdditionalService) => VenueThenName(venues, a, b))
  }

  /** GetAllAsync: every service once, each under its venue's name, grouped
      by venue name and by name within a venue. */
  function AllServices(services: seq<AdditionalService>, venues: seq<Venue>)
    : (r: MethodResultOf<seq<AdditionalServiceDto>>)
    ensures r.isSuccess && r.data.Some?
    ensures multiset(r.data.value)
            == multiset(Map(services, (s: AdditionalService) => ServiceDto(s, VenueNameOf(venues, s.venueId))))
    ensures var d := r.data.value;
      forall i, j :: 0 <= i < j < |d| ==>
        OrdinalLe(d[i].venueName, d[j].venueName)
        && (d[i].venueName == d[j].venueName ==> OrdinalLe(d[i].name, d[j].name))
  {
    var rows := AllServiceRows(services, venues);
    var f := (s: AdditionalService) => ServiceDto(s, VenueNameOf(venues, s.venueId));
    MapPermutation(rows, services, f);
    var d := Map(rows, f);
    GroupedByVenue(venues, rows, d);
    MethodResultOf.Ok(d)
  }

  lemma GroupedByVenue(venues: seq<Venue>, rows: seq<AdditionalService>, d: seq<AdditionalServiceDto>)
    requires SortedBy(rows, (a: AdditionalService, b: AdditionalService) => VenueThenName(venues, a, b))
    requires |d| == |rows| && forall i :: 0 <= i < |d| ==> d[i] == ServiceDto(rows[i], VenueNameOf(venues, rows[i].venueId))
    ensures forall i, j :: 0 <= i < j < |d| ==>
      OrdinalLe(d[i].venueName, d[j].venueName)
      && (d[i].venueName == d[j].venueName ==> OrdinalLe(d[i].name, d[j].name))
  {
    forall i, j | 0 <= i < j < |d|
      ensures OrdinalLe(d[i].venueName, d[j].venueName)
      ensures d[i].venueName == d[j].venueName ==> OrdinalLe(d[i].name, d[j].name)
    {
      assert VenueThenName(venues, rows[i], rows[j]);
      if d[i].venueName == d[j].venueName {
        OrdinalLeTotal(d[i].venueName, d[j].venueName);
      }
    }
  }

  // ---------------------------------------------------------------------
  // CreateAsync, UpdateAsync, DeleteAsync
  // ---------------------------------------------------------------------

  /** The service CreateAsync writes: the request's fields, active, created
      now. */
  function NewService(dto: CreateAdditionalServiceDto, id: Guid, now: Ticks): (s: AdditionalService)
    ensures s.id == id && s.venueId == dto.venueId && s.isActive && s.createdAt == now
    ensures s.name == dto.name && s.description == dto.description && s.price == dto.price
    ensures s.category == dto.category
  {
    AdditionalService(id, dto.name, dto.description, dto.price, dto.venueId, dto.category, true, now)
  }

  /** CreateAsync: an unknown venue fails with nothing written; otherwise the
      service is appended and returned under the venue's name. */
  method Create(db: DataContext, dto: CreateAdditionalServiceDto, id: Guid, now: Ticks)
      returns (r: MethodResultOf<AdditionalServiceDto>)
    requires db.Valid()
    requires KeyFree(db.additionalServices, (s: AdditionalService) => s.id, id)
    modifies db`additionalServices
    ensures db.Valid()
    ensures FindVenue(db.venues, dto.venueId).None? ==>
      r == MethodResultOf.Fail(VenueNotFound) && db.additionalServices == old(db.additionalServices)
    ensures FindVenue(db.venues, dto.venueId).Some? ==>
      db.additionalServices == old(db.additionalServices) + [NewService(dto, id, now)]
      && r == MethodResultOf.Ok(ServiceDto(NewService(dto, id, now), FindVenue(db.venues, dto.venueId).value.name))
  {
    var venue := FindVenue(db.venues, dto.venueId);
    if venue.None? {
      return MethodResultOf.Fail(VenueNotFound);
    }
    var service := AdditionalService(id, dto.name, dto.description, dto.price, dto.venueId, dto.category, true, now);
    AppendKeepsUniqueKeys(db.additionalServices, [service], (s: AdditionalService) => s.id);
    db.additionalServices := db.additionalServices + [service];
    r := MethodResultOf.Ok(ServiceDto(service, venue.value.name));
  }

  /** A service just created is found by its id with what was asked for. */
  lemma CreatedServiceIsFound(services: seq<AdditionalService>, venues: seq<Venue>, dto: CreateAdditionalServiceDto,
                              id: Guid, now: Ticks)
    requires KeyFree(services, (s: AdditionalService) => s.id, id)
    requires FindVenue(venues, dto.venueId).Some?
    ensures ServiceById(services + [NewService(dto, id, now)], venues, id)
            == MethodResultOf.Ok(ServiceDto(NewService(dto, id, now), FindVenue(venues, dto.venueId).value.name))
  {
    var s := NewService(dto, id, now);
    FindFirstOfAppended(services, s, id);
  }

  /** The first row with a key that no earlier row has is the appended one. */
  lemma FindFirstOfAppended(services: seq<AdditionalService>, s: AdditionalService, id: Guid)
    requires KeyFree(services, (x: AdditionalService) => x.id, id)
    requires s.id == id
    ensures FindAdditionalService(services + [s], id) == Some(s)
  {
    var all := services + [s];
    var i := FirstIndex(all, (x: AdditionalService) => x.id == id);
    assert all[|services|] == s;
    assert i.Some?;
    assert i.value == |services|;
  }

  /** The service after UpdateAsync: the request's columns; its id, state
      and creation time stay. */
  function UpdatedService(s: AdditionalService, dto: CreateAdditionalServiceDto): (u: AdditionalService)
    ensures u.id == s.id && u.isActive == s.isActive && u.createdAt == s.createdAt
    ensures u.name == dto.name && u.description == dto.description && u.price == dto.price
    ensures u.venueId == dto.venueId && u.category == dto.category
  {
    s.(name := dto.name, description := dto.description, price := dto.price, venueId := dto.venueId,
       category := dto.category)
  }

  /** The position of the service with the id. */
  function ServiceIndex(services: seq<AdditionalService>, id: Guid): (r: Option<nat>)
    ensures r.Some? ==> r.value < |services| && services[r.value].id == id
    ensures r.None? <==> forall i :: 0 <= i < |services| ==> services[i].id != id
  {
    FirstIndex(services, (s: AdditionalService) => s.id == id)
  }

  lemma SameIdsKeepUniqueKeys(services: seq<AdditionalService>, i: nat, u: AdditionalService)
    requires i < |services| && u.id == services[i].id
    requires UniqueKeys(services, (s: AdditionalService) => s.id)
    ensures UniqueKeys(services[i := u], (s: AdditionalService) => s.id)
  {
    var services' := services[i := u];
    forall j, k | 0 <= j < k < |services'| ensures services'[j].id != services'[k].id {
      assert services'[j].id == services[j].id && services'[k].id == services[k].id;
    }
  }

  /** UpdateAsync: an unknown id fails; a venue id no venue has is refused
      by the database with nothing written; otherwise the columns are
      overwritten. The venue is not loaded, so the result's venue name is
      empty. */
  method Update(db: DataContext, id: Guid, dto: CreateAdditionalServiceDto) returns (r: MethodResultOf<AdditionalServiceDto>)
    requires db.Valid()
    modifies db`additionalServices
    ensures db.Valid()
    ensures match ServiceIndex(old(db.additionalServices), id)
      case None => r == MethodResultOf.Fail(ServiceNotFound) && db.additionalServices == old(db.additionalServices)
      case Some(i) =>
        if FindVenue(db.venues, dto.venueId).None? then
          r == MethodResultOf.Fail(UpdateFailure + SaveChangesError)
          && db.additionalServices == old(db.additionalServices)
        else
          var u := UpdatedService(old(db.additionalServices)[i], dto);
          db.additionalServices == old(db.additionalServices)[i := u] && r == MethodResultOf.Ok(ServiceDto(u, ""))
  {
    var index := ServiceIndex(db.additionalServices, id);
    if index.None? {
      return MethodResultOf.Fail(ServiceNotFound);
    }
    var service := UpdatedService(db.additionalServices[index.value], dto);
    if FindVenue(db.venues, dto.venueId).None? {
      return MethodResultOf.Fail(UpdateFailure + SaveChangesError);
    }
    SameIdsKeepUniqueKeys(db.additionalServices, index.value, service);
    db.additionalServices := db.additionalServices[index.value := service];
    r := MethodResultOf.Ok(ServiceDto(service, ""));
  }

  /** A booking keeps a price snapshot of the service, which the restricting
      foreign key protects from deletion. */
  predicate ServiceBooked(bookings: seq<Booking>, id: Guid) {
    exists i, k :: 0 <= i < |bookings| && 0 <= k < |bookings[i].additionalServices|
      && bookings[i].additionalServices[k].additionalServiceId == id
  }

  /** DeleteAsync: an unknown id fails; a service some booking recorded
      cannot be deleted and nothing changes; otherwise the row is removed. */
  method Delete(db: DataContext, id: Guid) returns (r: MethodResult)
    requires db.Valid()
    modifies db`additionalServices
    ensures db.Valid()
    ensures ServiceIndex(old(db.additionalServices), id).None? ==>
      r == MethodResult.Fail(ServiceNotFound) && db.additionalServices == old(db.additionalServices)
    ensures ServiceIndex(old(db.additionalServices), id).Some? && ServiceBooked(db.bookings, id) ==>
      r == MethodResult.Fail(DeleteFailure + SaveChangesError) && db.additionalServices == old(db.additionalServices)
    ensures ServiceIndex(old(db.additionalServices), id).Some? && !ServiceBooked(db.bookings, id) ==>
      r == MethodResult.Ok()
      && db.additionalServices == Filter(old(db.additionalServices), (s: AdditionalService) => s.id != id)
  {
    var index := ServiceIndex(db.additionalServices, id);
    if index.None? {
      return MethodResult.Fail(ServiceNotFound);
    }
    if ServiceBooked(db.bookings, id) {
      return MethodResult.Fail(DeleteFailure + SaveChangesError);
    }
    FilterKeepsUniqueKeys(db.additionalServices, (s: AdditionalService) => s.id != id, (s: AdditionalService) => s.id);
    db.additionalServices := Filter(db.additionalServices, (s: AdditionalService) => s.id != id);
    r := MethodResult.Ok();
  }

  /** Deleting removes exactly the one row: the service is no longer found
      and every other service is kept, in order. */
  lemma DeleteRemovesOnlyThatService(services: seq<AdditionalService>, venues: seq<Venue>, id: Guid)
    requires UniqueKeys(services, (s: AdditionalService) => s.id)
    requires ServiceIndex(services, id).Some?
    ensures var rest := Filter(services, (s: AdditionalService) => s.id != id);
      ServiceById(rest, venues, id) == MethodResultOf.Fail(ServiceNotFound)
      && |rest| == |services| - 1
      && (forall s :: s in services && s.id != id ==> s in rest)
  {
    var i := ServiceIndex(services, id).value;
    var rest := Filter(services, (s: AdditionalService) => s.id != id);
    assert services == services[..i] + [services[i]] + services[i + 1..];
    FilterAppend(services[..i] + [services[i]], services[i + 1..], (s: AdditionalService) => s.id != id);
    FilterAppend(services[..i], [services[i]], (s: AdditionalService) => s.id != id);
    KeyFreeFilterKeepsAll(services[..i], id);
    KeyFreeFilterKeepsAll(services[i + 1..], id);
  }

  /** Where no row has the key, dropping that key drops nothing. */
  lemma {:induction false} KeyFreeFilterKeepsAll(services: seq<AdditionalService>, id: Guid)
    requires forall s :: s in services ==> s.id != id
    ensures Filter(services, (s: AdditionalService) => s.id != id) == services
  {
    if services != [] {
      assert forall s :: s in services[1..] ==> s in services;
      KeyFreeFilterKeepsAll(services[1..], id);
      assert services == [services[0]] + services[1..];
    }
  }
}
