/** VenuePackageService: the package search (optional criteria, a search
    term, cheapest first), the filter facets, and creating, replacing and
    soft-deleting packages with their package services. */
module VenuePackageService {
  import opened Common
  import opened DateTimes
  import opened Text
  import opened Sorting
  import opened Entities
  import opened Dtos
  import opened Data
  import opened MethodResults

  const PackageNotFound: string := "Package not found"
  const VenueNotFound: string := "Venue not found"
  /** The prefix GetFilterOptionsAsync puts before the message of a caught exception. */
  const FilterOptionsFailure: string := "Failed to get filter options: "
  /** The prefix UpdatePackageAsync puts before the message of a caught exception. */
  const UpdateFailure: string := "Failed to update package: "

  // ---------------------------------------------------------------------
  // MapToDto
  // ---------------------------------------------------------------------

  /** The package services that belong to the package, in table order. */
  function ServicesOf(packageServices: seq<PackageService>, packageId: Guid): (r: seq<PackageService>)
    ensures forall s :: s in r <==> s in packageServices && s.packageId == packageId
  {
    Filter(packageServices, (s: PackageService) => s.packageId == packageId)
  }

  /** MapToDto: the package with its venue's name and its services; missing
      descriptions become empty. */
  function PackageDto(venues: seq<Venue>, packageServices: seq<PackageService>, p: VenuePackage): (r: VenuePackageDto)
    ensures r.id == p.id && r.venueId == p.venueId && r.basePrice == p.basePrice && r.tier == p.tier
    ensures r.venueName == VenueNameOf(venues, p.venueId)
    ensures |r.packageServices| == |ServicesOf(packageServices, p.id)|
  {
    VenuePackageDto(p.id, p.name, p.description.GetOr(""), p.tier, p.baseCapacity, p.baseDurationHours, p.basePrice,
      p.pricePerAdditionalPerson, p.pricePerAdditionalHour, p.includesDecoration, p.includesCake,
      p.includesSoundSystem, p.includedServicesDescription.GetOr(""), p.venueId, VenueNameOf(venues, p.venueId),
      Map(ServicesOf(packageServices, p.id), PackageServiceDtoOf))
  }

  /** `packages.Select(MapToDto)` */
  function PackageDtos(venues: seq<Venue>, packageServices: seq<PackageService>, rows: seq<VenuePackage>)
    : (r: seq<VenuePackageDto>)
    ensures |r| == |rows|
    ensures forall i :: 0 <= i < |r| ==> r[i] == PackageDto(venues, packageServices, rows[i])
  {
    Map(rows, (p: VenuePackage) => PackageDto(venues, packageServices, p))
  }

  // ---------------------------------------------------------------------
  // ApplyFilters and ApplySearch
  // ---------------------------------------------------------------------

  /** The venue type the type filter sees: present when the venue is
      loaded and its Type is not empty. */
  function VenueTypeOf(venues: seq<Venue>, p: VenuePackage): (r: Option<string>)
    ensures r.Some? ==> r.value != ""
  {
    match FindVenue(venues, p.venueId)
    case Some(v) => if v.venueType != "" then Some(v.venueType) else None
    case None => None
  }

  predicate MinPriceOk(f: PackageFilterDto, p: VenuePackage) {
    f.minPrice.None? || p.basePrice >= f.minPrice.value
  }

  predicate MaxPriceOk(f: PackageFilterDto, p: VenuePackage) {
    f.maxPrice.None? || p.basePrice <= f.maxPrice.value
  }

  predicate MinCapacityOk(f: PackageFilterDto, p: VenuePackage) {
    f.minCapacity.None? || p.baseCapacity >= f.minCapacity.value
  }

  predicate MaxCapacityOk(f: PackageFilterDto, p: VenuePackage) {
    f.maxCapacity.None? || p.baseCapacity <= f.maxCapacity.value
  }

  /** The tier list applies only when it is given and not empty. */
  predicate TierOk(f: PackageFilterDto, p: VenuePackage) {
    f.tiers.None? || f.tiers.value == [] || p.tier in f.tiers.value
  }

  /** The venue-type list applies only when it is given and not empty. */
  predicate VenueTypeOk(venues: seq<Venue>, f: PackageFilterDto, p: VenuePackage) {
    f.venueTypes.None? || f.venueTypes.value == []
    || (VenueTypeOf(venues, p).Some? && VenueTypeOf(venues, p).value in f.venueTypes.value)
  }

  /** A package passes ApplyFilters: every criterion that is given holds. */
  predicate MatchesFilters(venues: seq<Venue>, f: PackageFilterDto, p: VenuePackage) {
    MinPriceOk(f, p) && MaxPriceOk(f, p) && MinCapacityOk(f, p) && MaxCapacityOk(f, p)
    && TierOk(f, p) && VenueTypeOk(venues, f, p)
  }

  /** `if (cond) query = query.Where(q);` */
  function WhereIf(s: seq<VenuePackage>, cond: bool, q: VenuePackage -> bool): (r: seq<VenuePackage>)
    ensures cond ==> r == Filter(s, q)
    ensures !cond ==> r == s
  {
    if cond then Filter(s, q) else s
  }

  /** ApplyFilters as written: one Where per criterion that is given, in
      the source's order. */
  function ApplyFilters(query: seq<VenuePackage>, venues: seq<Venue>, f: PackageFilterDto): seq<VenuePackage> {
    var q4 := PriceAndCapacityWheres(query, f);
    var q5 := WhereIf(q4, f.tiers.Some? && f.tiers.value != [], (p: VenuePackage) => TierOk(f, p));
    WhereIf(q5, f.venueTypes.Some? && f.venueTypes.value != [], (p: VenuePackage) => VenueTypeOk(venues, f, p))
  }

  /** The first four Wheres of ApplyFilters: price, then capacity bounds. */
  function PriceAndCapacityWheres(query: seq<VenuePackage>, f: PackageFilterDto): seq<VenuePackage> {
    var q1 := WhereIf(query, f.minPrice.Some?, (p: VenuePackage) => MinPriceOk(f, p));
    var q2 := WhereIf(q1, f.maxPrice.Some?, (p: VenuePackage) => MaxPriceOk(f, p));
    var q3 := WhereIf(q2, f.minCapacity.Some?, (p: VenuePackage) => MinCapacityOk(f, p));
    WhereIf(q3, f.maxCapacity.Some?, (p: VenuePackage) => MaxCapacityOk(f, p))
  }

  /** A conditional Where after a Where is one Where of the conjunction,
      when the condition only ever switches off a criterion that then holds. */
  lemma WhereIfStep(s: seq<VenuePackage>, base: seq<VenuePackage>, p: VenuePackage -> bool, cond: bool,
                    q: VenuePackage -> bool, p': VenuePackage -> bool)
    requires base == Filter(s, p)
    requires !cond ==> forall x :: q(x)
    requires forall x :: p'(x) == (p(x) && q(x))
    ensures WhereIf(base, cond, q) == Filter(s, p')
  {
    if cond {
      FilterFilter(s, p, q, p');
    } else {
      FilterSamePredicate(s, p, p');
    }
  }

  predicate Upto2(f: PackageFilterDto, p: VenuePackage) {
    MinPriceOk(f, p) && MaxPriceOk(f, p)
  }

  predicate Upto3(f: PackageFilterDto, p: VenuePackage) {
    Upto2(f, p) && MinCapacityOk(f, p)
  }

  predicate Upto4(f: PackageFilterDto, p: VenuePackage) {
    Upto3(f, p) && MaxCapacityOk(f, p)
  }

  predicate Upto5(f: PackageFilterDto, p: VenuePackage) {
    Upto4(f, p) && TierOk(f, p)
  }

  /** The chain of Wheres keeps, in order, exactly the packages that meet
      every criterion that is given. */
  lemma ApplyFiltersIsConjunction(query: seq<VenuePackage>, venues: seq<Venue>, f: PackageFilterDto)
    ensures ApplyFilters(query, venues, f) == Filter(query, (p: VenuePackage) => MatchesFilters(venues, f, p))
  {
    var p4 := (p: VenuePackage) => Upto4(f, p);
    var p5 := (p: VenuePackage) => Upto5(f, p);
    var p6 := (p: VenuePackage) => MatchesFilters(venues, f, p);
    PriceAndCapacityIsConjunction(query, f);
    var q4 := PriceAndCapacityWheres(query, f);
    var q5 := WhereIf(q4, f.tiers.Some? && f.tiers.value != [], (p: VenuePackage) => TierOk(f, p));
    WhereIfStep(query, q4, p4, f.tiers.Some? && f.tiers.value != [], (p: VenuePackage) => TierOk(f, p), p5);
    WhereIfStep(query, q5, p5, f.venueTypes.Some? && f.venueTypes.value != [],
      (p: VenuePackage) => VenueTypeOk(venues, f, p), p6);
  }

  /** The price and capacity Wheres keep exactly the packages within every
      bound that is given. */
  lemma PriceAndCapacityIsConjunction(query: seq<VenuePackage>, f: PackageFilterDto)
    ensures PriceAndCapacityWheres(query, f) == Filter(query, (p: VenuePackage) => Upto4(f, p))
  {
    var p0 := (p: VenuePackage) => true;
    var p1 := (p: VenuePackage) => MinPriceOk(f, p);
    var p2 := (p: VenuePackage) => Upto2(f, p);
    var p3 := (p: VenuePackage) => Upto3(f, p);
    var p4 := (p: VenuePackage) => Upto4(f, p);
    FilterAll(query, p0);
    var q1 := WhereIf(query, f.minPrice.Some?, (p: VenuePackage) => MinPriceOk(f, p));
    WhereIfStep(query, query, p0, f.minPrice.Some?, (p: VenuePackage) => MinPriceOk(f, p), p1);
    var q2 := WhereIf(q1, f.maxPrice.Some?, (p: VenuePackage) => MaxPriceOk(f, p));
    WhereIfStep(query, q1, p1, f.maxPrice.Some?, (p: VenuePackage) => MaxPriceOk(f, p), p2);
    var q3 := WhereIf(q2, f.minCapacity.Some?, (p: VenuePackage) => MinCapacityOk(f, p));
    WhereIfStep(query, q2, p2, f.minCapacity.Some?, (p: VenuePackage) => MinCapacityOk(f, p), p3);
    WhereIfStep(query, q3, p3, f.maxCapacity.Some?, (p: VenuePackage) => MaxCapacityOk(f, p), p4);
  }

  /** A Where whose predicate always holds keeps everything. */
  lemma {:induction false} FilterAll(s: seq<VenuePackage>, p: VenuePackage -> bool)
    requires forall x :: p(x)
    ensures Filter(s, p) == s
  {
    if s != [] {
      FilterAll(s[1..], p);
      assert s == [s[0]] + s[1..];
    }
  }

  /** `s.ToLower().Contains(term)` for a term already lower-cased. */
  predicate LowerContains(s: string, term: string) {
    Contains(ToLower(s), term)
  }

  /** A package service whose name or description holds the term. */
  predicate ServiceMentions(s: PackageService, term: string) {
    LowerContains(s.name, term) || (s.description.Some? && LowerContains(s.description.value, term))
  }

  /** ApplySearch: the lower-cased term occurs in the package's name or
      description, its venue's name or (non-empty) type, or the name or
      description of one of its package services. */
  predicate MatchesSearch(venues: seq<Venue>, packageServices: seq<PackageService>, p: VenuePackage, searchTerm: string) {
    var term := ToLower(searchTerm);
    var venue := FindVenue(venues, p.venueId);
    LowerContains(p.name, term)
    || (p.description.Some? && LowerContains(p.description.value, term))
    || (venue.Some? && LowerContains(venue.value.name, term))
    || (venue.Some? && venue.value.venueType != "" && LowerContains(venue.value.venueType, term))
    || exists i :: 0 <= i < |packageServices| && packageServices[i].packageId == p.id
                   && ServiceMentions(packageServices[i], term)
  }

  /** The search applies only for a term that is not blank. */
  predicate SearchOk(venues: seq<Venue>, packageServices: seq<PackageService>, f: PackageFilterDto, p: VenuePackage) {
    IsNullOrWhiteSpace(f.searchTerm) || MatchesSearch(venues, packageServices, p, f.searchTerm.value)
  }

  /** A package GetFilteredPackagesAsync returns. */
  predicate Selected(venues: seq<Venue>, packageServices: seq<PackageService>, f: PackageFilterDto, p: VenuePackage) {
    p.isActive && MatchesFilters(venues, f, p) && SearchOk(venues, packageServices, f, p)
  }

  /** `OrderBy(p => p.BasePrice)` */
  predicate ByBasePrice(a: VenuePackage, b: VenuePackage) {
    a.basePrice <= b.basePrice
  }

  // ---------------------------------------------------------------------
  // GetFilteredPackagesAsync
  // ---------------------------------------------------------------------

  /** The rows the search keeps, in table order: active packages through
      ApplyFilters, then ApplySearch for a term that is not blank. Each
      Where narrows the one before, so together they select exactly the
      packages meeting every criterion. */
  function SearchedRows(packages: seq<VenuePackage>, venues: seq<Venue>, packageServices: seq<PackageService>,
                        f: PackageFilterDto): (r: seq<VenuePackage>)
    ensures r == Filter(packages, (p: VenuePackage) => Selected(venues, packageServices, f, p))
  {
    var isActive := (p: VenuePackage) => p.isActive;
    var filters := (p: VenuePackage) => MatchesFilters(venues, f, p);
    var activeFiltered := (p: VenuePackage) => p.isActive && MatchesFilters(venues, f, p);
    var search := (p: VenuePackage) => f.searchTerm.Some? && MatchesSearch(venues, packageServices, p, f.searchTerm.value);
    var selected := (p: VenuePackage) => Selected(venues, packageServices, f, p);
    var active := Filter(packages, isActive);
    var filtered := ApplyFilters(active, venues, f);
    ApplyFiltersIsConjunction(active, venues, f);
    FilterFilter(packages, isActive, filters, activeFiltered);
    if !IsNullOrWhiteSpace(f.searchTerm) then
      FilterFilter(packages, activeFiltered, search, selected);
      Filter(filtered, search)
    else
      FilterSamePredicate(packages, activeFiltered, selected);
      filtered
  }

  /** The rows the search returns, before mapping: the selected packages,
      cheapest first. */
  function FilteredRows(packages: seq<VenuePackage>, venues: seq<Venue>, packageServices: seq<PackageService>,
                        f: PackageFilterDto): (r: seq<VenuePackage>)
    ensures SortedBy(r, ByBasePrice)
    ensures forall p :: p in r <==> p in packages && Selected(venues, packageServices, f, p)
    ensures multiset(r) == multiset(Filter(packages, (p: VenuePackage) => Selected(venues, packageServices, f, p)))
  {
    var searched := SearchedRows(packages, venues, packageServices, f);
    assert TotalPreorder(ByBasePrice);
    SortByKeepsElements(searched, ByBasePrice);
    SortBy(searched, ByBasePrice)
  }

  /** GetFilteredPackagesAsync: the DTOs of exactly the packages that meet
      the criteria, each once, cheapest first. */
  function FilteredPackages(packages: seq<VenuePackage>, venues: seq<Venue>, packageServices: seq<PackageService>,
                            f: PackageFilterDto): (r: MethodResultOf<seq<VenuePackageDto>>)
    ensures r.isSuccess && r.data.Some?
    ensures var d := r.data.value;
      forall i, j :: 0 <= i < j < |d| ==> d[i].basePrice <= d[j].basePrice
    ensures var d := r.data.value;
      forall x :: x in d ==>
        exists p :: p in packages && Selected(venues, packageServices, f, p) && x == PackageDto(venues, packageServices, p)
    ensures var d := r.data.value;
      forall p :: p in packages && Selected(venues, packageServices, f, p) ==> exists i :: 0 <= i < |d| && d[i].id == p.id
    ensures multiset(r.data.value)
            == multiset(PackageDtos(venues, packageServices,
                                    Filter(packages, (p: VenuePackage) => Selected(venues, packageServices, f, p))))
  {
    var rows := FilteredRows(packages, venues, packageServices, f);
    var d := PackageDtos(venues, packageServices, rows);
    PackageDtosFollowRows(venues, packageServices, rows, d);
    SelectedRowsListed(packages, venues, packageServices, f, rows, d);
    PackageDtosPermutation(venues, packageServices, rows,
                           Filter(packages, (p: VenuePackage) => Selected(venues, packageServices, f, p)));
    MethodResultOf.Ok(d)
  }

  /** Mapping two orderings of the same packages gives two orderings of the
      same DTOs. */
  lemma PackageDtosPermutation(venues: seq<Venue>, packageServices: seq<PackageService>, a: seq<VenuePackage>,
                               b: seq<VenuePackage>)
    requires multiset(a) == multiset(b)
    ensures multiset(PackageDtos(venues, packageServices, a)) == multiset(PackageDtos(venues, packageServices, b))
  {
    MapPermutation(a, b, (p: VenuePackage) => PackageDto(venues, packageServices, p));
  }

  /** The DTOs of rows sorted by price are sorted by price. */
  lemma PackageDtosFollowRows(venues: seq<Venue>, packageServices: seq<PackageService>, rows: seq<VenuePackage>,
                              r: seq<VenuePackageDto>)
    requires SortedBy(rows, ByBasePrice)
    requires r == PackageDtos(venues, packageServices, rows)
    ensures forall i, j :: 0 <= i < j < |r| ==> r[i].basePrice <= r[j].basePrice
  {
    forall i, j | 0 <= i < j < |r| ensures r[i].basePrice <= r[j].basePrice {
      assert ByBasePrice(rows[i], rows[j]);
      assert r[i] == PackageDto(venues, packageServices, rows[i]) && r[j] == PackageDto(venues, packageServices, rows[j]);
    }
  }

  /** The DTOs of the selected rows come from selected packages, and every
      selected package is listed. */
  lemma SelectedRowsListed(packages: seq<VenuePackage>, venues: seq<Venue>, packageServices: seq<PackageService>,
                           f: PackageFilterDto, rows: seq<VenuePackage>, d: seq<VenuePackageDto>)
    requires forall p :: p in rows <==> p in packages && Selected(venues, packageServices, f, p)
    requires d == PackageDtos(venues, packageServices, rows)
    ensures forall x :: x in d ==>
      exists p :: p in packages && Selected(venues, packageServices, f, p) && x == PackageDto(venues, packageServices, p)
    ensures forall p :: p in packages && Selected(venues, packageServices, f, p) ==>
      exists i :: 0 <= i < |d| && d[i].id == p.id
  {
    forall x | x in d
      ensures exists p :: p in packages && Selected(venues, packageServices, f, p) && x == PackageDto(venues, packageServices, p)
    {
      var i :| 0 <= i < |d| && d[i] == x;
      assert rows[i] in rows;
    }
    forall p | p in packages && Selected(venues, packageServices, f, p)
      ensures exists i :: 0 <= i < |d| && d[i].id == p.id
    {
      assert p in rows;
      var i :| 0 <= i < |rows| && rows[i] == p;
      assert d[i] == PackageDto(venues, packageServices, p);
    }
  }

  /** With no bound, an empty or missing tier and venue-type list, and a
      missing or blank term, the search lists exactly the active packages:
      the DTO of each, once. */
  lemma NoCriteriaListsActive(packages: seq<VenuePackage>, venues: seq<Venue>, packageServices: seq<PackageService>,
                              f: PackageFilterDto)
    requires f.minPrice.None? && f.maxPrice.None? && f.minCapacity.None? && f.maxCapacity.None?
    requires f.tiers.None? || f.tiers.value == []
    requires f.venueTypes.None? || f.venueTypes.value == []
    requires IsNullOrWhiteSpace(f.searchTerm)
    ensures var d := FilteredPackages(packages, venues, packageServices, f).data.value;
      (forall x :: x in d ==> exists p :: p in packages && p.isActive && x.id == p.id)
      && (forall p :: p in packages && p.isActive ==> exists i :: 0 <= i < |d| && d[i].id == p.id)
      && multiset(d) == multiset(PackageDtos(venues, packageServices, ActivePackages(packages)))
  {
    var selected := (p: VenuePackage) => Selected(venues, packageServices, f, p);
    forall p ensures selected(p) == p.isActive {
      assert MatchesFilters(venues, f, p);
    }
    FilterSamePredicate(packages, selected, (p: VenuePackage) => p.isActive);
    assert Filter(packages, selected) == ActivePackages(packages);
    var d := FilteredPackages(packages, venues, packageServices, f).data.value;
    forall x | x in d ensures exists p :: p in packages && p.isActive && x.id == p.id {
      var p :| p in packages && Selected(venues, packageServices, f, p) && x == PackageDto(venues, packageServices, p);
    }
  }

  // ---------------------------------------------------------------------
  // GetFilterOptionsAsync
  // ---------------------------------------------------------------------

  function ActivePackages(packages: seq<VenuePackage>): (r: seq<VenuePackage>)
    ensures forall p :: p in r <==> p in packages && p.isActive
  {
    Filter(packages, (p: VenuePackage) => p.isActive)
  }

  /** The tier of each active package, one per package. */
  function TiersOf(active: seq<VenuePackage>): seq<PackageTier> {
    Map(active, (p: VenuePackage) => p.tier)
  }

  /** Some package has this tier. */
  predicate HasTier(active: seq<VenuePackage>, t: PackageTier) {
    exists p :: p in active && p.tier == t
  }

  /** A tier bucket: the tier, its name and how many packages have it. */
  function TierOption(tiers: seq<PackageTier>, t: PackageTier): PackageTierOptionDto {
    PackageTierOptionDto(t, TierName(t), CountOf(tiers, t))
  }

  /** `GroupBy(p => p.Tier)` with each group's count, groups in order of
      first appearance. */
  function TierOptions(active: seq<VenuePackage>): (r: seq<PackageTierOptionDto>)
    ensures |r| == |Distinct(TiersOf(active))|
    ensures forall i :: 0 <= i < |r| ==> r[i].tier == Distinct(TiersOf(active))[i]
    ensures forall i :: 0 <= i < |r| ==> HasTier(active, r[i].tier)
    ensures forall p :: p in active ==> exists i :: 0 <= i < |r| && r[i].tier == p.tier
    ensures forall i, j :: 0 <= i < j < |r| ==> r[i].tier != r[j].tier
    ensures forall i :: 0 <= i < |r| ==> r[i].name == TierName(r[i].tier) && r[i].count == CountOf(TiersOf(active), r[i].tier)
  {
    var tiers := TiersOf(active);
    var groups := Distinct(tiers);
    var r := Map(groups, (t: PackageTier) => TierOption(tiers, t));
    assert forall i :: 0 <= i < |r| ==> r[i] == TierOption(tiers, groups[i]);
    TierOptionsCover(active, tiers, groups, r);
    r
  }

  /** Buckets made from the distinct tiers cover exactly the tiers of the
      packages. */
  lemma TierOptionsCover(active: seq<VenuePackage>, tiers: seq<PackageTier>, groups: seq<PackageTier>,
                         r: seq<PackageTierOptionDto>)
    requires tiers == TiersOf(active)
    requires forall x :: x in groups <==> x in tiers
    requires |r| == |groups| && forall i :: 0 <= i < |r| ==> r[i].tier == groups[i]
    ensures forall i :: 0 <= i < |r| ==> HasTier(active, r[i].tier)
    ensures forall p :: p in active ==> exists i :: 0 <= i < |r| && r[i].tier == p.tier
  {
    forall p | p in active ensures exists i :: 0 <= i < |r| && r[i].tier == p.tier {
      var k :| 0 <= k < |active| && active[k] == p;
      assert tiers[k] == p.tier;
      assert p.tier in groups;
      var i :| 0 <= i < |groups| && groups[i] == p.tier;
      assert r[i].tier == p.tier;
    }
    forall i | 0 <= i < |r| ensures HasTier(active, r[i].tier) {
      assert groups[i] in tiers;
      var k :| 0 <= k < |tiers| && tiers[k] == groups[i];
      var p := active[k];
      assert p in active && p.tier == r[i].tier;
    }
  }

  /** The non-empty venue types of the active packages, one per package. */
  function VenueTypesOf(venues: seq<Venue>, active: seq<VenuePackage>): (r: seq<string>)
    ensures forall x :: x in r ==> x != ""
  {
    var typed := Filter(active, (p: VenuePackage) => VenueTypeOf(venues, p).Some?);
    Map(typed, (p: VenuePackage) => VenueTypeOf(venues, p).GetOr(""))
  }

  /** Ordinal order on strings is a total preorder. */
  lemma OrdinalLeIsTotalPreorder()
    ensures TotalPreorder(OrdinalLe)
  {
    forall a, b ensures OrdinalLe(a, b) || OrdinalLe(b, a) {
      OrdinalLeTotal(a, b);
    }
    forall a, b, c | OrdinalLe(a, b) && OrdinalLe(b, c) ensures OrdinalLe(a, c) {
      OrdinalLeTransitive(a, b, c);
    }
  }

  /** `GroupBy(p => p.Venue.Type)` with each group's count, ordered by name. */
  function VenueTypeOptions(venues: seq<Venue>, active: seq<VenuePackage>): (r: seq<VenueTypeOptionDto>)
    ensures forall i, j :: 0 <= i < j < |r| ==> OrdinalLe(r[i].name, r[j].name) && r[i].name != r[j].name
    ensures forall x :: (exists i :: 0 <= i < |r| && r[i].name == x) <==> x in VenueTypesOf(venues, active)
    ensures forall i :: 0 <= i < |r| ==> r[i].name != "" && r[i].count == CountOf(VenueTypesOf(venues, active), r[i].name)
  {
    var types := VenueTypesOf(venues, active);
    var groups := Distinct(types);
    OrdinalLeIsTotalPreorder();
    var sorted := SortBy(groups, OrdinalLe);
    SortByKeepsElements(groups, OrdinalLe);
    DistinctAfterSort(groups, sorted);
    var r := Map(sorted, (x: string) => VenueTypeOptionDto(x, CountOf(types, x)));
    OptionsNameEachType(types, sorted, r);
    r
  }

  /** Options named after the sorted groups name every type once and only
      the types. */
  lemma OptionsNameEachType(types: seq<string>, sorted: seq<string>, r: seq<VenueTypeOptionDto>)
    requires forall x :: x in types ==> x != ""
    requires forall x :: x in sorted <==> x in types
    requires |r| == |sorted| && forall i :: 0 <= i < |r| ==> r[i].name == sorted[i]
    ensures forall x :: (exists i :: 0 <= i < |r| && r[i].name == x) <==> x in types
    ensures forall i :: 0 <= i < |r| ==> r[i].name != ""
  {
    forall x ensures (exists i :: 0 <= i < |r| && r[i].name == x) <==> x in types {
      if x in types {
        var i :| 0 <= i < |sorted| && sorted[i] == x;
        assert r[i].name == x;
      }
      if exists i :: 0 <= i < |r| && r[i].name == x {
        var i :| 0 <= i < |r| && r[i].name == x;
        assert sorted[i] in sorted;
      }
    }
    forall i | 0 <= i < |r| ensures r[i].name != "" {
      assert sorted[i] in sorted;
    }
  }

  /** Sorting a list without repeats leaves it without repeats. */
  lemma DistinctAfterSort(groups: seq<string>, sorted: seq<string>)
    requires forall i, j :: 0 <= i < j < |groups| ==> groups[i] != groups[j]
    requires multiset(sorted) == multiset(groups)
    ensures forall i, j :: 0 <= i < j < |sorted| ==> sorted[i] != sorted[j]
  {
    forall x ensures multiset(groups)[x] <= 1 {
      DistinctCountsAtMostOne(groups, x);
    }
    forall i, j | 0 <= i < j < |sorted| ensures sorted[i] != sorted[j] {
      if sorted[i] == sorted[j] {
        TwoOccurrences(sorted, i, j);
        assert false;
      }
    }
  }

  /** A value at two positions occurs at least twice. */
  lemma TwoOccurrences(s: seq<string>, i: nat, j: nat)
    requires i < j < |s| && s[i] == s[j]
    ensures multiset(s)[s[i]] >= 2
  {
    assert s == s[..i] + [s[i]] + s[i + 1..];
    assert s[j] in s[i + 1..];
  }

  /** A list without repeats holds each value at most once. */
  lemma {:induction false} DistinctCountsAtMostOne(s: seq<string>, x: string)
    requires forall i, j :: 0 <= i < j < |s| ==> s[i] != s[j]
    ensures multiset(s)[x] <= 1
  {
    if s != [] {
      DistinctCountsAtMostOne(s[1..], x);
      assert s == [s[0]] + s[1..];
      if s[0] == x {
        assert x !in s[1..];
      }
    }
  }

  /** `Min`/`Max` of BasePrice over the active packages: the range is
      ordered, covers every package and both ends are attained. */
  function PriceRange(active: seq<VenuePackage>): (r: PriceRangeDto)
    requires active != []
    ensures r.min <= r.max
    ensures forall p :: p in active ==> r.min <= p.basePrice <= r.max
    ensures exists p :: p in active && p.basePrice == r.min
    ensures exists p :: p in active && p.basePrice == r.max
  {
    var prices := Map(active, (p: VenuePackage) => p.basePrice);
    forall p | p in active ensures p.basePrice in prices {
      var k :| 0 <= k < |active| && active[k] == p;
      assert prices[k] == p.basePrice;
    }
    var lo, hi := MinOf(prices), MaxOf(prices);
    var kLo :| 0 <= kLo < |prices| && prices[kLo] == lo;
    assert active[kLo] in active;
    var kHi :| 0 <= kHi < |prices| && prices[kHi] == hi;
    assert active[kHi] in active;
    PriceRangeDto(lo, hi)
  }

  /** `Min`/`Max` of BaseCapacity over the active packages. */
  function CapacityRange(active: seq<VenuePackage>): (r: CapacityRangeDto)
    requires active != []
    ensures r.min <= r.max
    ensures forall p :: p in active ==> r.min <= p.baseCapacity <= r.max
    ensures exists p :: p in active && p.baseCapacity == r.min
    ensures exists p :: p in active && p.baseCapacity == r.max
  {
    var capacities := Map(active, (p: VenuePackage) => p.baseCapacity as int);
    forall p | p in active ensures p.baseCapacity as int in capacities {
      var k :| 0 <= k < |active| && active[k] == p;
      assert capacities[k] == p.baseCapacity;
    }
    var lo, hi := MinOf(capacities), MaxOf(capacities);
    assert lo in capacities && hi in capacities;
    var kLo :| 0 <= kLo < |capacities| && capacities[kLo] == lo;
    assert active[kLo] in active;
    var kHi :| 0 <= kHi < |capacities| && capacities[kHi] == hi;
    assert active[kHi] in active;
    CapacityRangeDto(active[kLo].baseCapacity, active[kHi].baseCapacity)
  }

  /** GetFilterOptionsAsync: price and capacity ranges, tier buckets and
      venue-type buckets over the active packages; Min throws on an empty
      set, so without active packages the call fails. */
  function FilterOptions(packages: seq<VenuePackage>, venues: seq<Venue>): (r: MethodResultOf<PackageFilterOptionsDto>)
    ensures !r.isSuccess <==> ActivePackages(packages) == []
    ensures !r.isSuccess ==> r == MethodResultOf.Fail(FilterOptionsFailure + NoElementsError)
    ensures r.isSuccess ==> r.data.Some?
  {
    var active := ActivePackages(packages);
    if active == [] then MethodResultOf.Fail(FilterOptionsFailure + NoElementsError)
    else
      MethodResultOf.Ok(PackageFilterOptionsDto(PriceRange(active), CapacityRange(active),
        TierOptions(active), VenueTypeOptions(venues, active)))
  }

  /** A tier bucket's count. */
  function BucketCount(t: PackageTierOptionDto): int {
    t.count
  }

  /** The tier buckets' counts add up to the number of active packages:
      every active package falls in exactly one bucket. */
  lemma TierCountsSum(packages: seq<VenuePackage>, venues: seq<Venue>)
    requires FilterOptions(packages, venues).isSuccess
    ensures SumBy(FilterOptions(packages, venues).data.value.tiers, BucketCount) == |ActivePackages(packages)|
  {
    var active := ActivePackages(packages);
    assert FilterOptions(packages, venues).data.value.tiers == TierOptions(active);
    BucketsCountEveryPackage(active);
  }

  lemma BucketsCountEveryPackage(active: seq<VenuePackage>)
    ensures SumBy(TierOptions(active), BucketCount) == |active|
  {
    var tiers := TiersOf(active);
    var groups := Distinct(tiers);
    var r := TierOptions(active);
    SumByElementwise(r, BucketCount, groups, (k: PackageTier) => CountOf(tiers, k));
    GroupCountsSum(tiers);
    SumByPointwise(groups, (k: PackageTier) => CountOf(tiers, k), (k: PackageTier) => CountOf(tiers, k));
  }

  /** Sums over two lists that agree position by position agree. */
  lemma {:induction false} SumByElementwise<T, U>(a: seq<T>, f: T -> int, b: seq<U>, g: U -> int)
    requires |a| == |b|
    requires forall i :: 0 <= i < |a| ==> f(a[i]) == g(b[i])
    ensures SumBy(a, f) == SumBy(b, g)
  {
    if a != [] {
      SumByElementwise(a[1..], f, b[1..], g);
    }
  }

  /** Sums of functions that agree everywhere agree. */
  lemma {:induction false} SumByPointwise<T>(s: seq<T>, f: T -> int, g: T -> int)
    requires forall x :: f(x) == g(x)
    ensures SumBy(s, f) == SumBy(s, g)
  {
    if s != [] {
      SumByPointwise(s[1..], f, g);
    }
  }

  // ---------------------------------------------------------------------
  // GetPackageByIdAsync, GetPackagesByVenueIdAsync, GetAllPackagesAsync
  // ---------------------------------------------------------------------

  /** GetPackageByIdAsync: the first active package with the id; an
      inactive or unknown id is "Package not found". */
  function PackageById(packages: seq<VenuePackage>, venues: seq<Venue>, packageServices: seq<PackageService>, id: Guid)
    : (r: MethodResultOf<VenuePackageDto>)
    ensures r.isSuccess <==> exists p :: p in packages && p.id == id && p.isActive
    ensures !r.isSuccess ==> r == MethodResultOf.Fail(PackageNotFound)
    ensures r.isSuccess ==> r.data.Some? && r.data.value.id == id
  {
    match FindFirst(packages, (p: VenuePackage) => p.id == id && p.isActive)
    case None => MethodResultOf.Fail(PackageNotFound)
    case Some(p) => MethodResultOf.Ok(PackageDto(venues, packageServices, p))
  }

  /** With unique ids, looking a package up by its id finds that package's
      DTO exactly when it is active. */
  lemma PackageByIdFindsRow(packages: seq<VenuePackage>, venues: seq<Venue>, packageServices: seq<PackageService>, i: nat)
    requires UniqueKeys(packages, (p: VenuePackage) => p.id)
    requires i < |packages|
    ensures PackageById(packages, venues, packageServices, packages[i].id)
      == if packages[i].isActive then MethodResultOf.Ok(PackageDto(venues, packageServices, packages[i]))
         else MethodResultOf.Fail(PackageNotFound)
  {
    var id := packages[i].id;
    forall p | p in packages && p.id == id ensures p == packages[i] {
      var k :| 0 <= k < |packages| && packages[k] == p;
    }
    if packages[i].isActive {
      assert packages[i] in packages;
    }
  }

  /** `OrderBy(p => p.Tier)` */
  predicate ByTier(a: VenuePackage, b: VenuePackage) {
    TierValue(a.tier) <= TierValue(b.tier)
  }

  /** The active packages of the venue, by tier. */
  function VenuePackageRows(packages: seq<VenuePackage>, venueId: Guid): (r: seq<VenuePackage>)
    ensures SortedBy(r, ByTier)
    ensures forall p :: p in r <==> p in packages && p.venueId == venueId && p.isActive
    ensures multiset(r) == multiset(Filter(packages, (p: VenuePackage) => p.venueId == venueId && p.isActive))
  {
    var rows := Filter(packages, (p: VenuePackage) => p.venueId == venueId && p.isActive);
    assert TotalPreorder(ByTier);
    SortByKeepsElements(rows, ByTier);
    SortBy(rows, ByTier)
  }

  /** GetPackagesByVenueIdAsync: the DTOs of exactly the active packages of
      the venue, each once, by tier. */
  function PackagesByVenue(packages: seq<VenuePackage>, venues: seq<Venue>, packageServices: seq<PackageService>,
                           venueId: Guid): (r: MethodResultOf<seq<VenuePackageDto>>)
    ensures r.isSuccess && r.data.Some?
    ensures var d := r.data.value;
      forall i, j :: 0 <= i < j < |d| ==> TierValue(d[i].tier) <= TierValue(d[j].tier)
    ensures var d := r.data.value;
      forall x :: x in d ==>
        exists p :: p in packages && p.venueId == venueId && p.isActive && x == PackageDto(venues, packageServices, p)
    ensures var d := r.data.value;
      forall p :: p in packages && p.venueId == venueId && p.isActive ==> exists i :: 0 <= i < |d| && d[i].id == p.id
    ensures multiset(r.data.value)
            == multiset(PackageDtos(venues, packageServices,
                                    Filter(packages, (p: VenuePackage) => p.venueId == venueId && p.isActive)))
  {
    var rows := VenuePackageRows(packages, venueId);
    var d := PackageDtos(venues, packageServices, rows);
    VenueRowsListed(packages, venues, packageServices, venueId, rows, d);
    PackageDtosPermutation(venues, packageServices, rows,
                           Filter(packages, (p: VenuePackage) => p.venueId == venueId && p.isActive));
    MethodResultOf.Ok(d)
  }

  lemma VenueRowsListed(packages: seq<VenuePackage>, venues: seq<Venue>, packageServices: seq<PackageService>,
                        venueId: Guid, rows: seq<VenuePackage>, d: seq<VenuePackageDto>)
    requires SortedBy(rows, ByTier)
    requires forall p :: p in rows <==> p in packages && p.venueId == venueId && p.isActive
    requires d == PackageDtos(venues, packageServices, rows)
    ensures forall i, j :: 0 <= i < j < |d| ==> TierValue(d[i].tier) <= TierValue(d[j].tier)
    ensures forall x :: x in d ==>
      exists p :: p in packages && p.venueId == venueId && p.isActive && x == PackageDto(venues, packageServices, p)
    ensures forall p :: p in packages && p.venueId == venueId && p.isActive ==> exists i :: 0 <= i < |d| && d[i].id == p.id
  {
    forall x | x in d
      ensures exists p :: p in packages && p.venueId == venueId && p.isActive && x == PackageDto(venues, packageServices, p)
    {
      var i :| 0 <= i < |d| && d[i] == x;
      assert rows[i] in rows;
    }
    forall i, j | 0 <= i < j < |d| ensures TierValue(d[i].tier) <= TierValue(d[j].tier) {
      assert ByTier(rows[i], rows[j]);
      assert d[i] == PackageDto(venues, packageServices, rows[i]) && d[j] == PackageDto(venues, packageServices, rows[j]);
    }
    forall p | p in packages && p.venueId == venueId && p.isActive ensures exists i :: 0 <= i < |d| && d[i].id == p.id {
      assert p in rows;
      var i :| 0 <= i < |rows| && rows[i] == p;
      assert d[i] == PackageDto(venues, packageServices, p);
    }
  }

  /** `OrderBy(p => p.Venue.Name).ThenBy(p => p.Tier)` */
  predicate VenueThenTier(venues: seq<Venue>, a: VenuePackage, b: VenuePackage) {
    var na, nb := VenueNameOf(venues, a.venueId), VenueNameOf(venues, b.venueId);
    if na == nb then TierValue(a.tier) <= TierValue(b.tier) else OrdinalLe(na, nb)
  }

  lemma VenueThenTierIsTotalPreorder(venues: seq<Venue>)
    ensures TotalPreorder((a: VenuePackage, b: VenuePackage) => VenueThenTier(venues, a, b))
  {
    forall a: VenuePackage, b: VenuePackage ensures VenueThenTier(venues, a, b) || VenueThenTier(venues, b, a) {
      OrdinalLeTotal(VenueNameOf(venues, a.venueId), VenueNameOf(venues, b.venueId));
    }
    forall a: VenuePackage, b: VenuePackage, c: VenuePackage | VenueThenTier(venues, a, b) && VenueThenTier(venues, b, c)
      ensures VenueThenTier(venues, a, c)
    {
      var na, nb, nc := VenueNameOf(venues, a.venueId), VenueNameOf(venues, b.venueId), VenueNameOf(venues, c.venueId);
      if na != nb && nb != nc {
        OrdinalLeTransitive(na, nb, nc);
        if na == nc {
          OrdinalLeAntisymmetric(na, nb);
        }
      }
    }
  }

  /** The active packages, by venue name and then by tier. */
  function AllPackageRows(packages: seq<VenuePackage>, venues: seq<Venue>): (r: seq<VenuePackage>)
    ensures SortedBy(r, (a: VenuePackage, b: VenuePackage) => VenueThenTier(venues, a, b))
    ensures forall p :: p in r <==> p in packages && p.isActive
    ensures multiset(r) == multiset(ActivePackages(packages))
  {
    var rows := ActivePackages(packages);
    VenueThenTierIsTotalPreorder(venues);
    SortByKeepsElements(rows, (a: VenuePackage, b: VenuePackage) => VenueThenTier(venues, a, b));
    SortBy(rows, (a: VenuePackage, b: VenuePackage) => VenueThenTier(venues, a, b))
  }

  /** GetAllPackagesAsync: the DTOs of exactly the active packages, each
      once, grouped by venue name in ordinal order and by tier within a
      venue. */
  function AllPackages(packages: seq<VenuePackage>, venues: seq<Venue>, packageServices: seq<PackageService>)
    : (r: MethodResultOf<seq<VenuePackageDto>>)
    ensures r.isSuccess && r.data.Some?
    ensures var d := r.data.value;
      forall i, j :: 0 <= i < j < |d| ==>
        OrdinalLe(d[i].venueName, d[j].venueName)
        && (d[i].venueName == d[j].venueName ==> TierValue(d[i].tier) <= TierValue(d[j].tier))
    ensures var d := r.data.value;
      forall x :: x in d ==> exists p :: p in packages && p.isActive && x == PackageDto(venues, packageServices, p)
    ensures var d := r.data.value;
      forall p :: p in packages && p.isActive ==> exists i :: 0 <= i < |d| && d[i].id == p.id
    ensures multiset(r.data.value) == multiset(PackageDtos(venues, packageServices, ActivePackages(packages)))
  {
    var rows := AllPackageRows(packages, venues);
    var d := PackageDtos(venues, packageServices, rows);
    AllRowsListed(packages, venues, packageServices, rows, d);
    PackageDtosPermutation(venues, packageServices, rows, ActivePackages(packages));
    MethodResultOf.Ok(d)
  }

  lemma AllRowsListed(packages: seq<VenuePackage>, venues: seq<Venue>, packageServices: seq<PackageService>,
                      rows: seq<VenuePackage>, d: seq<VenuePackageDto>)
    requires SortedBy(rows, (a: VenuePackage, b: VenuePackage) => VenueThenTier(venues, a, b))
    requires forall p :: p in rows <==> p in packages && p.isActive
    requires d == PackageDtos(venues, packageServices, rows)
    ensures forall i, j :: 0 <= i < j < |d| ==>
      OrdinalLe(d[i].venueName, d[j].venueName)
      && (d[i].venueName == d[j].venueName ==> TierValue(d[i].tier) <= TierValue(d[j].tier))
    ensures forall x :: x in d ==> exists p :: p in packages && p.isActive && x == PackageDto(venues, packageServices, p)
    ensures forall p :: p in packages && p.isActive ==> exists i :: 0 <= i < |d| && d[i].id == p.id
  {
    forall x | x in d ensures exists p :: p in packages && p.isActive && x == PackageDto(venues, packageServices, p) {
      var i :| 0 <= i < |d| && d[i] == x;
      assert rows[i] in rows;
    }
    forall i, j | 0 <= i < j < |d|
      ensures OrdinalLe(d[i].venueName, d[j].venueName)
      ensures d[i].venueName == d[j].venueName ==> TierValue(d[i].tier) <= TierValue(d[j].tier)
    {
      assert VenueThenTier(venues, rows[i], rows[j]);
      assert d[i] == PackageDto(venues, packageServices, rows[i]) && d[j] == PackageDto(venues, packageServices, rows[j]);
      if d[i].venueName == d[j].venueName {
        OrdinalLeTotal(d[i].venueName, d[j].venueName);
      }
    }
    forall p | p in packages && p.isActive ensures exists i :: 0 <= i < |d| && d[i].id == p.id {
      assert p in rows;
      var i :| 0 <= i < |rows| && rows[i] == p;
      assert d[i] == PackageDto(venues, packageServices, p);
    }
  }

  // ---------------------------------------------------------------------
  // CreatePackageAsync, UpdatePackageAsync, DeletePackageAsync
  // ---------------------------------------------------------------------

  /** The package CreatePackageAsync builds: the request's fields, active,
      stamped with the creation time and never updated. */
  function NewPackage(dto: CreateVenuePackageDto, id: Guid, now: Ticks): (p: VenuePackage)
    ensures p.id == id && p.venueId == dto.venueId && p.isActive && p.createdAt == now && p.updatedAt == 0
  {
    VenuePackage(id, dto.name, dto.description, dto.tier, dto.baseCapacity, dto.baseDurationHours, dto.basePrice,
      dto.pricePerAdditionalPerson, dto.pricePerAdditionalHour, dto.includesDecoration, dto.includesCake,
      dto.includesSoundSystem, dto.includedServicesDescription, dto.venueId, 0, now, true)
  }

  /** One requested package service, under its new id, for the package. */
  function NewPackageService(s: CreatePackageServiceDto, id: Guid, packageId: Guid): (r: PackageService)
    ensures r.id == id && r.packageId == packageId
  {
    PackageService(id, s.name, s.description, s.price, packageId, s.isIncludedInPackage, s.isAvailableForCustomization)
  }

  /** The requested package services, the i-th under the i-th new id. */
  function NewPackageServices(dtos: seq<CreatePackageServiceDto>, ids: seq<Guid>, packageId: Guid): (r: seq<PackageService>)
    requires |ids| == |dtos|
    ensures |r| == |dtos|
    ensures forall i :: 0 <= i < |r| ==> r[i] == NewPackageService(dtos[i], ids[i], packageId)
  {
    seq(|dtos|, i requires 0 <= i < |dtos| => NewPackageService(dtos[i], ids[i], packageId))
  }

  /** The foreach over `packageDto.PackageServices` that both
      CreatePackageAsync and UpdatePackageAsync run. */
  method BuildPackageServices(dtos: seq<CreatePackageServiceDto>, ids: seq<Guid>, packageId: Guid)
      returns (services: seq<PackageService>)
    requires |ids| == |dtos|
    ensures services == NewPackageServices(dtos, ids, packageId)
  {
    services := [];
    var i := 0;
    while i < |dtos|
      invariant 0 <= i <= |dtos|
      invariant |services| == i
      invariant forall k :: 0 <= k < i ==> services[k] == NewPackageService(dtos[k], ids[k], packageId)
    {
      services := services + [NewPackageService(dtos[i], ids[i], packageId)];
      i := i + 1;
    }
  }

  /** New package services under fresh, distinct ids keep the table's ids
      unique. */
  lemma NewServicesKeepUniqueKeys(table: seq<PackageService>, dtos: seq<CreatePackageServiceDto>, ids: seq<Guid>, packageId: Guid)
    requires |ids| == |dtos|
    requires UniqueKeys(table, (s: PackageService) => s.id)
    requires FreshKeys(table, (s: PackageService) => s.id, ids)
    ensures UniqueKeys(table + NewPackageServices(dtos, ids, packageId), (s: PackageService) => s.id)
  {
    var added := NewPackageServices(dtos, ids, packageId);
    assert forall i :: 0 <= i < |added| ==> added[i].id == ids[i];
    AppendKeepsUniqueKeys(table, added, (s: PackageService) => s.id);
  }

  /** The services of a package whose rows were all appended at the end
      are exactly those rows. */
  lemma {:induction false} ServicesOfAppended(table: seq<PackageService>, added: seq<PackageService>, packageId: Guid)
    requires forall s :: s in table ==> s.packageId != packageId
    requires forall s :: s in added ==> s.packageId == packageId
    ensures ServicesOf(table + added, packageId) == added
  {
    var p := (s: PackageService) => s.packageId == packageId;
    FilterAppend(table, added, p);
    FilterNone(table, p);
    FilterEvery(added, p);
  }

  lemma {:induction false} FilterNone(s: seq<PackageService>, p: PackageService -> bool)
    requires forall x :: x in s ==> !p(x)
    ensures Filter(s, p) == []
  {
    if s != [] {
      assert forall x :: x in s[1..] ==> x in s;
      FilterNone(s[1..], p);
    }
  }

  lemma {:induction false} FilterEvery(s: seq<PackageService>, p: PackageService -> bool)
    requires forall x :: x in s ==> p(x)
    ensures Filter(s, p) == s
  {
    if s != [] {
      assert forall x :: x in s[1..] ==> x in s;
      FilterEvery(s[1..], p);
      assert s == [s[0]] + s[1..];
    }
  }

  /** CreatePackageAsync: an unknown venue fails with nothing written;
      otherwise the package and its services are appended and returned. */
  method CreatePackage(db: DataContext, dto: CreateVenuePackageDto, packageId: Guid, serviceIds: seq<Guid>, now: Ticks)
      returns (r: MethodResultOf<VenuePackageDto>)
    requires db.Valid()
    requires KeyFree(db.packages, (p: VenuePackage) => p.id, packageId)
    requires KeyFree(db.packageServices, (s: PackageService) => s.packageId, packageId)
    requires |serviceIds| == |dto.packageServices|
    requires FreshKeys(db.packageServices, (s: PackageService) => s.id, serviceIds)
    modifies db`packages, db`packageServices
    ensures db.Valid()
    ensures FindVenue(db.venues, dto.venueId).None? ==>
      r == MethodResultOf.Fail(VenueNotFound)
      && db.packages == old(db.packages) && db.packageServices == old(db.packageServices)
    ensures FindVenue(db.venues, dto.venueId).Some? ==>
      var package := NewPackage(dto, packageId, now);
      db.packages == old(db.packages) + [package]
      && db.packageServices == old(db.packageServices) + NewPackageServices(dto.packageServices, serviceIds, packageId)
      && r == MethodResultOf.Ok(PackageDto(db.venues, db.packageServices, package))
  {
    var venue := FindVenue(db.venues, dto.venueId);
    if venue.None? {
      return MethodResultOf.Fail(VenueNotFound);
    }
    var package := NewPackage(dto, packageId, now);
    var services := BuildPackageServices(dto.packageServices, serviceIds, packageId);
    NewServicesKeepUniqueKeys(db.packageServices, dto.packageServices, serviceIds, packageId);
    AppendKeepsUniqueKeys(db.packages, [package], (p: VenuePackage) => p.id);
    db.packages := db.packages + [package];
    db.packageServices := db.packageServices + services;
    r := MethodResultOf.Ok(PackageDto(db.venues, db.packageServices, package));
  }

  /** What CreatePackageAsync returns is the new package as a lookup by id
      sees it: its venue's name and exactly the services requested, in
      request order. */
  lemma CreatedPackageIsFound(packages: seq<VenuePackage>, venues: seq<Venue>, packageServices: seq<PackageService>,
                              dto: CreateVenuePackageDto, packageId: Guid, serviceIds: seq<Guid>, now: Ticks)
    requires UniqueKeys(packages, (p: VenuePackage) => p.id)
    requires KeyFree(packages, (p: VenuePackage) => p.id, packageId)
    requires KeyFree(packageServices, (s: PackageService) => s.packageId, packageId)
    requires |serviceIds| == |dto.packageServices|
    ensures var package := NewPackage(dto, packageId, now);
      var services := NewPackageServices(dto.packageServices, serviceIds, packageId);
      var after := packageServices + services;
      PackageById(packages + [package], venues, after, packageId) == MethodResultOf.Ok(PackageDto(venues, after, package))
      && ServicesOf(after, packageId) == services
      && PackageDto(venues, after, package).venueName == VenueNameOf(venues, dto.venueId)
  {
    var package := NewPackage(dto, packageId, now);
    var services := NewPackageServices(dto.packageServices, serviceIds, packageId);
    AppendKeepsUniqueKeys(packages, [package], (p: VenuePackage) => p.id);
    PackageByIdFindsRow(packages + [package], venues, packageServices + services, |packages|);
    ServicesOfAppended(packageServices, services, packageId);
  }

  /** The position of the package with the id: `FindAsync(id)` or
      `FirstOrDefaultAsync(p => p.Id == id)`. */
  function PackageIndex(packages: seq<VenuePackage>, id: Guid): (r: Option<nat>)
    ensures r.Some? ==> r.value < |packages| && packages[r.value].id == id
    ensures r.None? <==> forall i :: 0 <= i < |packages| ==> packages[i].id != id
  {
    FirstIndex(packages, (p: VenuePackage) => p.id == id)
  }

  /** The package after UpdatePackageAsync: the request's fields and the
      update time; its id, venue, active flag and creation time stay. */
  function UpdatedPackage(p: VenuePackage, dto: CreateVenuePackageDto, now: Ticks): (q: VenuePackage)
    ensures q.id == p.id && q.venueId == p.venueId && q.isActive == p.isActive && q.createdAt == p.createdAt
    ensures q.updatedAt == now
    ensures q == NewPackage(dto, p.id, now).(venueId := p.venueId, updatedAt := now, createdAt := p.createdAt, isActive := p.isActive)
  {
    p.(name := dto.name, description := dto.description, tier := dto.tier, baseCapacity := dto.baseCapacity,
       baseDurationHours := dto.baseDurationHours, basePrice := dto.basePrice,
       pricePerAdditionalPerson := dto.pricePerAdditionalPerson, pricePerAdditionalHour := dto.pricePerAdditionalHour,
       includesDecoration := dto.includesDecoration, includesCake := dto.includesCake,
       includesSoundSystem := dto.includesSoundSystem, includedServicesDescription := dto.includedServicesDescription,
       updatedAt := now)
  }

  /** Some booking holds a price snapshot of the package service. */
  predicate ServiceBooked(bookings: seq<Booking>, serviceId: Guid) {
    exists k, m :: 0 <= k < |bookings| && 0 <= m < |bookings[k].packageServices|
                   && bookings[k].packageServices[m].packageServiceId == serviceId
  }

  /** Removing the package's services would delete a row a booking snapshot
      refers to, which the restricting foreign key refuses. */
  predicate AnyServiceBooked(bookings: seq<Booking>, services: seq<PackageService>) {
    exists i :: 0 <= i < |services| && ServiceBooked(bookings, services[i].id)
  }

  /** The package-service table once the package's rows are removed and the
      new ones added. */
  function ReplaceServices(table: seq<PackageService>, packageId: Guid, added: seq<PackageService>): seq<PackageService> {
    Filter(table, (s: PackageService) => s.packageId != packageId) + added
  }

  /** After the replacement the package has exactly the new services, and
      every other package keeps the services it had. */
  lemma ReplaceServicesFacts(table: seq<PackageService>, packageId: Guid, added: seq<PackageService>, other: Guid)
    requires forall s :: s in added ==> s.packageId == packageId
    requires other != packageId
    ensures ServicesOf(ReplaceServices(table, packageId, added), packageId) == added
    ensures ServicesOf(ReplaceServices(table, packageId, added), other) == ServicesOf(table, other)
  {
    var kept := Filter(table, (s: PackageService) => s.packageId != packageId);
    ServicesOfAppended(kept, added, packageId);
    var p := (s: PackageService) => s.packageId == other;
    FilterAppend(kept, added, p);
    FilterNone(added, p);
    FilterFilter(table, (s: PackageService) => s.packageId != packageId, p, p);
  }

  /** Replacing the rows keeps the ids unique when the new ids are fresh. */
  lemma ReplaceKeepsUniqueKeys(table: seq<PackageService>, packageId: Guid, dtos: seq<CreatePackageServiceDto>, ids: seq<Guid>)
    requires |ids| == |dtos|
    requires UniqueKeys(table, (s: PackageService) => s.id)
    requires FreshKeys(table, (s: PackageService) => s.id, ids)
    ensures UniqueKeys(ReplaceServices(table, packageId, NewPackageServices(dtos, ids, packageId)), (s: PackageService) => s.id)
  {
    var key := (s: PackageService) => s.id;
    var kept := Filter(table, (s: PackageService) => s.packageId != packageId);
    var added := NewPackageServices(dtos, ids, packageId);
    FilterKeepsUniqueKeys(table, (s: PackageService) => s.packageId != packageId, key);
    forall i, k | 0 <= i < |added| && 0 <= k < |kept| ensures key(kept[k]) != key(added[i]) {
      assert kept[k] in table;
      var t :| 0 <= t < |table| && table[t] == kept[k];
      assert key(table[t]) != ids[i];
    }
    forall i, j | 0 <= i < j < |added| ensures key(added[i]) != key(added[j]) {
      assert added[i].id == ids[i] && added[j].id == ids[j];
    }
    AppendKeepsUniqueKeys(kept, added, key);
  }

  /** Replacing one package by a row with the same id keeps ids unique. */
  lemma SameIdKeepsUniqueKeys(packages: seq<VenuePackage>, i: nat, q: VenuePackage)
    requires i < |packages| && q.id == packages[i].id
    requires UniqueKeys(packages, (p: VenuePackage) => p.id)
    ensures UniqueKeys(packages[i := q], (p: VenuePackage) => p.id)
  {
  }

  /** UpdatePackageAsync: an unknown id fails; a package one of whose
      services a booking refers to cannot lose its services, so the save
      fails and nothing is written; otherwise the fields are replaced and
      the package's services are exactly the requested ones. */
  method UpdatePackage(db: DataContext, id: Guid, dto: CreateVenuePackageDto, serviceIds: seq<Guid>, now: Ticks)
      returns (r: MethodResultOf<VenuePackageDto>)
    requires db.Valid()
    requires |serviceIds| == |dto.packageServices|
    requires FreshKeys(db.packageServices, (s: PackageService) => s.id, serviceIds)
    modifies db`packages, db`packageServices
    ensures db.Valid()
    ensures match PackageIndex(old(db.packages), id)
      case None =>
        r == MethodResultOf.Fail(PackageNotFound)
        && db.packages == old(db.packages) && db.packageServices == old(db.packageServices)
      case Some(i) =>
        if AnyServiceBooked(db.bookings, ServicesOf(old(db.packageServices), id)) then
          r == MethodResultOf.Fail(UpdateFailure + SaveChangesError)
          && db.packages == old(db.packages) && db.packageServices == old(db.packageServices)
        else
          db.packages == old(db.packages)[i := UpdatedPackage(old(db.packages)[i], dto, now)]
          && db.packageServices
             == ReplaceServices(old(db.packageServices), id, NewPackageServices(dto.packageServices, serviceIds, id))
          && r == MethodResultOf.Ok(PackageDto(db.venues, db.packageServices, db.packages[i]))
  {
    var index := PackageIndex(db.packages, id);
    if index.None? {
      return MethodResultOf.Fail(PackageNotFound);
    }
    var i := index.value;
    var package := UpdatedPackage(db.packages[i], dto, now);
    var existing := ServicesOf(db.packageServices, id);
    var services := BuildPackageServices(dto.packageServices, serviceIds, package.id);
    if AnyServiceBooked(db.bookings, existing) {
      return MethodResultOf.Fail(UpdateFailure + SaveChangesError);
    }
    SameIdKeepsUniqueKeys(db.packages, i, package);
    ReplaceKeepsUniqueKeys(db.packageServices, id, dto.packageServices, serviceIds);
    db.packages := db.packages[i := package];
    db.packageServices := ReplaceServices(db.packageServices, id, services);
    r := MethodResultOf.Ok(PackageDto(db.venues, db.packageServices, package));
  }

  /** DeletePackageAsync: an unknown id fails; otherwise the package is
      switched off and stays in the table. */
  method DeletePackage(db: DataContext, id: Guid) returns (r: MethodResult)
    requires db.Valid()
    modifies db`packages
    ensures db.Valid()
    ensures match PackageIndex(old(db.packages), id)
      case None => r == MethodResult.Fail(PackageNotFound) && db.packages == old(db.packages)
      case Some(i) =>
        r == MethodResult.Ok() && db.packages == old(db.packages)[i := old(db.packages)[i].(isActive := false)]
  {
    var index := PackageIndex(db.packages, id);
    if index.None? {
      return MethodResult.Fail(PackageNotFound);
    }
    var package := db.packages[index.value];
    package := package.(isActive := false);
    SameIdKeepsUniqueKeys(db.packages, index.value, package);
    db.packages := db.packages[index.value := package];
    r := MethodResult.Ok();
  }

  /** A deleted package can no longer be looked up, and no search, venue
      listing or full listing returns it. */
  lemma DeletedPackageIsHidden(packages: seq<VenuePackage>, venues: seq<Venue>, packageServices: seq<PackageService>,
                               i: nat, f: PackageFilterDto)
    requires UniqueKeys(packages, (p: VenuePackage) => p.id)
    requires i < |packages|
    ensures var after := packages[i := packages[i].(isActive := false)];
      var id := packages[i].id;
      PackageById(after, venues, packageServices, id) == MethodResultOf.Fail(PackageNotFound)
      && (forall d :: d in FilteredPackages(after, venues, packageServices, f).data.value ==> d.id != id)
      && (forall d :: d in AllPackages(after, venues, packageServices).data.value ==> d.id != id)
  {
    var after := packages[i := packages[i].(isActive := false)];
    SameIdKeepsUniqueKeys(packages, i, after[i]);
    PackageByIdFindsRow(after, venues, packageServices, i);
    var id := packages[i].id;
    forall p | p in after && p.id == id ensures !p.isActive {
      var k :| 0 <= k < |after| && after[k] == p;
    }
    var fp := FilteredPackages(after, venues, packageServices, f).data.value;
    forall d | d in fp ensures d.id != id {
      var p :| p in after && Selected(venues, packageServices, f, p) && d == PackageDto(venues, packageServices, p);
    }
    var all := AllPackages(after, venues, packageServices).data.value;
    forall d | d in all ensures d.id != id {
      var p :| p in after && p.isActive && d == PackageDto(venues, packageServices, p);
    }
  }
}
