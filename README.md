# VenueVista service layer in Dafny

VenueVista is a venue-booking web application. Customers browse venues and their packages
(Basic to Luxury tiers with a base price, capacity and duration), pick extra services and book
a venue for one or more whole days. Administrators manage venues, packages, additional services,
bookings and users. This project models the server's service layer (the `MyApp.Web/Services`
classes) and the `MethodResult` records every service returns. It proves what those services
promise about the database and about the results they hand back.

The model is organised as follows:

- **Database.** The Entity Framework `DataContext` is a `class DataContext` (module `Data`). Each
  table is a `seq` field that the state-changing methods reassign. Its `Valid()` invariant says:
  - every table has unique primary keys;
  - user e-mails are unique;
  - every booking ends after it starts, and its total is the sum of its cost parts;
  - no two non-canceled bookings of one venue share a calendar day.

  Every state-changing method keeps `Valid()`.
- **Save failures.** A foreign key that SQL Server would refuse (a restricted delete, an unknown
  venue id) is modelled as the failed `SaveChangesAsync`. The operation then returns
  `Fail(prefix + message)` and writes nothing.
- **Queries.** These are pure functions over the tables, and the matching service methods
  (`GetBookingById`, `MapToDtoWithUserInfo`) are Dafny methods with loops that are proved equal
  to those functions.
- **Values.** `DateTime` is a tick count, with `AddDays`/`AddHours` failing past
  `DateTime.MaxValue`. Their failure text is the `Message` of the `ArgumentOutOfRangeException`
  .NET Core throws, including its " (Parameter 'value')" suffix. `decimal` money is whole cents. `int` is a 32-bit integer with an explicit
  wrap-around where the source subtracts. `Guid` is a natural number.
- **Inputs from outside.** `Guid.NewGuid()`, `DateTime.UtcNow`, the request's base URL and the
  password hasher are parameters. Fresh ids are preconditions.

Modules:

- `Common`, `DateTimes`, `Text`, `Sorting`, `Entities`, `Dtos`, `Data`: the vocabulary.
- `MethodResults`: `MethodResult.cs`.
- `BookingService`: creating, canceling and availability.
- `BookingQueries`: the booking read operations.
- `VenuePackageService`, `VenueService`, `UserService`, `AuthService` and
  `AdditionalServiceService`: one module per service class.

## Model

| member | source | states |
|---|---|---|
| MethodResults.MethodResult.Ok | MyApp.Shared/Dtos/User/MethodResult.cs:14 | the success result carries no error |
| MethodResults.MethodResult.Fail | MyApp.Shared/Dtos/User/MethodResult.cs:17 | a failure is unsuccessful and carries exactly the given message |
| MethodResults.MethodResultOf.Ok | MyApp.Shared/Dtos/User/MethodResult.cs:25 | a success carries the data and no error |
| MethodResults.MethodResultOf.Fail | MyApp.Shared/Dtos/User/MethodResult.cs:29 | a failure carries no data (`default`) and exactly the given message |
| MethodResults.FactoriesDistinct | MyApp.Shared/Dtos/User/MethodResult.cs:11-18 | Ok differs from every Fail; two Fails are equal iff their messages are; the message is recovered |
| MethodResults.FactoriesOfDistinct | MyApp.Shared/Dtos/User/MethodResult.cs:22-30 | the same for the generic result, and the data of Ok(d) is d |
| BookingService.ActivePackage | MyApp.Web/Services/BookingService.cs:43-50 | the package found is an active row with the requested id; none is found iff no such row exists |
| BookingService.MatchAdditionalServices | MyApp.Web/Services/BookingService.cs:70-73 | exactly the services of the venue whose id was selected |
| BookingService.MatchPackageServices | MyApp.Web/Services/BookingService.cs:78-84 | exactly the services of the package whose id was selected |
| BookingService.SelectOffer | MyApp.Web/Services/BookingService.cs:29-87 | each error (venue missing, under maintenance, package missing, an invalid additional or package service) happens iff its condition holds, in the source's order; a success holds the venue, the active package and every selected service |
| BookingService.ScheduleEnd | MyApp.Web/Services/BookingService.cs:89-95 | the end is start + duration days - 1 tick and is after the start; the "end must be after start" error happens iff the duration is not positive; past DateTime.MaxValue is an error |
| BookingService.QuoteOffer | MyApp.Web/Services/BookingService.cs:97-133 | a quote exists only when no active booking of the venue shares a day and the user exists; its parts are the package price and the wrapped extension costs; the total adds up; "already booked" happens iff a day conflicts; an unknown user is a save failure |
| BookingService.QuoteOfferAccepts | MyApp.Web/Services/BookingService.cs:89-133 | any quote whose end, costs and conflict check agree with the request is the one QuoteOffer returns |
| BookingService.AdditionalSnapshotsCost | MyApp.Web/Services/BookingService.cs:107-110 | the snapshot prices add up to the additional-services cost charged |
| BookingService.PackageSnapshotsCost | MyApp.Web/Services/BookingService.cs:107-110 | the snapshots not included in the package add up to the package-services cost charged |
| BookingService.NewBooking | MyApp.Web/Services/BookingService.cs:112-160 | the booking copies the request and the quote; it is Confirmed and payment Pending; each selected service gets one snapshot with its price at booking time; the booking is well formed |
| BookingService.AddingKeepsDisjoint | MyApp.Web/Services/BookingService.cs:97-105 | a booking that passes the day-conflict check keeps active bookings of each venue day-disjoint |
| BookingService.AddingKeepsValid | MyApp.Web/Services/BookingService.cs:112-165 | appending such a booking keeps every booking invariant |
| BookingService.SnapshotAdditionalServices | MyApp.Web/Services/BookingService.cs:135-147 | the loop builds exactly the snapshot list of the selected services |
| BookingService.SnapshotPackageServices | MyApp.Web/Services/BookingService.cs:149-160 | the loop builds exactly the snapshot list of the selected package services |
| BookingService.CheckRequest | MyApp.Web/Services/BookingService.cs:29-87 | the request checks return what SelectOffer specifies |
| BookingService.BookOffer | MyApp.Web/Services/BookingService.cs:89-165 | on a quote error nothing is written; otherwise exactly the new booking is appended and its DTO returned; the database stays valid |
| BookingService.CreateBooking | MyApp.Web/Services/BookingService.cs:23-171 | the whole creation: the first failing check is returned with nothing written, else the booking is appended; the database stays valid |
| BookingService.SelectionCountsEachServiceOnce | MyApp.Web/Services/BookingService.cs:70-73 | repeating a selected id changes nothing, and each service is charged once |
| BookingService.PackageSelectionCountsEachServiceOnce | MyApp.Web/Services/BookingService.cs:78-84 | the same for package services |
| BookingService.BookingIndex | MyApp.Web/Services/BookingService.cs:230-232 | the index points at a booking with the id; none iff no booking has it |
| BookingService.Canceled | MyApp.Web/Services/BookingService.cs:233-234 | a canceled booking is Canceled and updated now, and nothing else changes |
| BookingService.CancelKeepsValid | MyApp.Web/Services/BookingService.cs:225-243 | canceling keeps every booking invariant |
| BookingService.CancelOnlyFreesDays | MyApp.Web/Services/BookingService.cs:225-243 | a day that conflicts after a cancellation conflicted before it |
| BookingService.CancelBooking | MyApp.Web/Services/BookingService.cs:225-243 | an unknown id fails with "Booking not found." and changes nothing; otherwise only that booking becomes Canceled |
| BookingService.VenueActiveBookings | MyApp.Web/Services/BookingService.cs:265-268 | exactly the venue's non-canceled bookings |
| BookingService.CheckVenueAvailability | MyApp.Web/Services/BookingService.cs:245-291 | the method returns the availability its specification function computes |
| BookingService.CollectBookedDays | MyApp.Web/Services/BookingService.cs:270-279 | the nested loops list every day of every booking, in order; they fail only when a booking reaches the last representable day |
| BookingService.AppendBookingDays | MyApp.Web/Services/BookingService.cs:273-278 | one booking's day loop appends its days from start date to end date |
| BookingService.DaysOfBooking | MyApp.Web/Services/BookingService.cs:273-278 | a day is listed for a booking iff it is a midnight between its start date and end date |
| BookingService.BookedDayListMembers | MyApp.Web/Services/BookingService.cs:270-279 | a day is listed iff it is a midnight held by some booking |
| BookingService.BookedOn | MyApp.Web/Services/BookingService.cs:260-279 | a day is booked iff the day-conflict check of booking creation would reject it |
| BookingService.AvailabilityBookedDates | MyApp.Web/Services/BookingService.cs:265-285 | the booked dates are strictly increasing (distinct and ordered), and a day is listed iff the venue is taken that day |
| BookingService.AvailableIffNoBookedDay | MyApp.Web/Services/BookingService.cs:256-285 | the venue is available iff no booked date falls in the requested days |
| BookingService.AvailabilityAgreesWithBooking | MyApp.Web/Services/BookingService.cs:97-105 | the availability check says available iff creating that booking would not fail with "already booked" |
| BookingQueries.Query | MyApp.Web/Services/BookingService.cs:293-394 | a filtered and ordered query holds exactly the matching rows, sorted |
| BookingQueries.BookingsByVenue | MyApp.Web/Services/BookingService.cs:200-223 | fails iff the venue is unknown; otherwise every DTO is the mapping of one of the venue's non-canceled bookings under the venue's name and its package's name, the list holds each such booking's DTO exactly once (same multiset as mapping the filtered table), by start time |
| BookingQueries.VenueDtosList | MyApp.Web/Services/BookingService.cs:209-216 | the mapped rows keep the start-time order, each DTO maps a non-canceled booking of the venue, and every such booking is listed |
| BookingQueries.VenueBookingDtos | MyApp.Web/Services/BookingService.cs:209-216 | one DTO per row, in order, each the row mapped under the venue name and its package name |
| BookingQueries.VenueBookingDtosPermutation | MyApp.Web/Services/BookingService.cs:209-216 | mapping two orderings of the same bookings gives the same DTOs, with the same multiplicities |
| BookingQueries.AdditionalServiceEntry | MyApp.Web/Services/BookingService.cs:406-419 | a snapshot yields one DTO exactly when its service still exists, carrying the snapshot's service id and the venue's name, and none otherwise |
| BookingQueries.AdditionalServiceDtosCount | MyApp.Web/Services/BookingService.cs:401-420 | at most one DTO per snapshot, and one for every snapshot when no service row is missing |
| BookingQueries.AdditionalServiceDtosBooked | MyApp.Web/Services/BookingService.cs:401-420 | every DTO names a service the booking has a snapshot of, under the venue's name |
| BookingQueries.PackageServiceEntry | MyApp.Web/Services/BookingService.cs:427-438 | a snapshot yields one DTO exactly when its package service still exists, carrying the snapshot's id, and none otherwise |
| BookingQueries.PackageServiceDtosCount | MyApp.Web/Services/BookingService.cs:422-440 | at most one DTO per snapshot, and one for every snapshot when no package service row is missing |
| BookingQueries.PackageServiceDtosBooked | MyApp.Web/Services/BookingService.cs:422-440 | every DTO names a package service the booking has a snapshot of |
| BookingQueries.UserFullName | MyApp.Web/Services/BookingService.cs:451 | the name is trimmed, and "Unknown" when the user is missing |
| BookingQueries.BookingWithUserInfo | MyApp.Web/Services/BookingService.cs:396-470 | the DTO carries the booking's id, venue, user, times, status and total |
| BookingQueries.CollectAdditionalServiceDtos | MyApp.Web/Services/BookingService.cs:401-420 | the loop builds exactly AdditionalServiceDtos |
| BookingQueries.CollectPackageServiceDtos | MyApp.Web/Services/BookingService.cs:422-440 | the loop builds exactly PackageServiceDtos |
| BookingQueries.MapToDtoWithUserInfo | MyApp.Web/Services/BookingService.cs:396-470 | the method returns BookingWithUserInfo of the booking |
| BookingQueries.GetBookingById | MyApp.Web/Services/BookingService.cs:173-198 | succeeds iff a booking has the id, with that booking's DTO; otherwise "Booking not found." |
| BookingQueries.WithUserInfo | MyApp.Web/Services/BookingService.cs:396-470 | one DTO per row, in order: the i-th DTO is BookingWithUserInfo of the i-th row |
| BookingQueries.WithUserInfoPermutation | MyApp.Web/Services/BookingService.cs:396-470 | mapping two orderings of the same bookings gives the same DTOs, with the same multiplicities |
| BookingQueries.MirrorsListAll | MyApp.Web/Services/BookingService.cs:293-394 | every matching booking appears in the mirrored list |
| BookingQueries.MirrorsStartOrder | MyApp.Web/Services/BookingService.cs:319-394 | mirroring keeps start-time order |
| BookingQueries.MirrorsCreatedOrder | MyApp.Web/Services/BookingService.cs:293-368 | mirroring keeps newest-first order |
| BookingQueries.UserListing | MyApp.Web/Services/BookingService.cs:293-317 | the mapped rows of the user query belong to the user, newest first, each DTO is BookingWithUserInfo of one of the user's bookings, and every booking of the user is listed |
| BookingQueries.RangeListing | MyApp.Web/Services/BookingService.cs:319-394 | the mapped rows of a range query lie in the range (and belong to the user when one is given), earliest first, each DTO is BookingWithUserInfo of such a booking, and every such booking is listed |
| BookingQueries.BookingsByUserId | MyApp.Web/Services/BookingService.cs:293-317 | always Ok; each DTO is BookingWithUserInfo of one of the user's bookings, every one of them is listed, and the list is a reordering of the user's bookings mapped (same multiset), newest first |
| BookingQueries.BookingsByUserIdAndDateRange | MyApp.Web/Services/BookingService.cs:319-343 | always Ok; each DTO is BookingWithUserInfo of one of the user's bookings inside the range, every such booking is listed, and the list is a reordering of those bookings mapped (same multiset), by start time |
| BookingQueries.AllBookingsWithUserInfo | MyApp.Web/Services/BookingService.cs:345-368 | always Ok; a reordering of every booking mapped (same multiset), newest first |
| BookingQueries.BookingsWithUserInfoByDateRange | MyApp.Web/Services/BookingService.cs:370-394 | always Ok; each DTO is BookingWithUserInfo of a booking inside the range, every such booking is listed, and the list is a reordering of those bookings mapped (same multiset), by start time |
| BookingQueries.UserRangeIsRangeForUser | MyApp.Web/Services/BookingService.cs:319-343 | an id is listed iff it belongs to a booking of the user inside the range |
| VenuePackageService.ServicesOf | MyApp.Web/Services/VenuePackageService.cs:375-404 | exactly the package's services |
| VenuePackageService.PackageDto | MyApp.Web/Services/VenuePackageService.cs:375-404 | the DTO keeps the package's id, venue, prices and tier, with the venue's name and one entry per service |
| VenuePackageService.PackageDtos | MyApp.Web/Services/VenuePackageService.cs:375-404 | one DTO per row, in order |
| VenuePackageService.VenueTypeOf | MyApp.Web/Services/VenuePackageService.cs:273 | a venue type used as a facet is never empty |
| VenuePackageService.WhereIf | MyApp.Web/Services/VenuePackageService.cs:299-337 | a filter applies only when its criterion is present |
| VenuePackageService.WhereIfStep | MyApp.Web/Services/VenuePackageService.cs:299-337 | chaining a conditional filter conjoins its predicate |
| VenuePackageService.PriceAndCapacityIsConjunction | MyApp.Web/Services/VenuePackageService.cs:299-318 | the price and capacity filters select exactly the packages within every bound that is given |
| VenuePackageService.ApplyFiltersIsConjunction | MyApp.Web/Services/VenuePackageService.cs:299-337 | the chained filters select exactly the packages meeting every present criterion |
| VenuePackageService.SearchedRows | MyApp.Web/Services/VenuePackageService.cs:210-241 | ApplyFilters over the active packages, then ApplySearch for a term that is not blank, keeps exactly the table filtered by the conjunction of every criterion, in table order |
| VenuePackageService.FilteredRows | MyApp.Web/Services/VenuePackageService.cs:210-241 | a reordering of exactly the selected packages (same multiset as the table filtered by Selected), cheapest first |
| VenuePackageService.FilteredPackages | MyApp.Web/Services/VenuePackageService.cs:210-241 | always Ok; the DTOs are in price order; each is the DTO of a selected package; every selected package is listed; the list is a reordering of the selected packages' DTOs (same multiset) |
| VenuePackageService.PackageDtosFollowRows | MyApp.Web/Services/VenuePackageService.cs:230-234 | mapping keeps price order |
| VenuePackageService.SelectedRowsListed | MyApp.Web/Services/VenuePackageService.cs:216-234 | each mapped DTO is the DTO of a selected package, and every selected package is listed |
| VenuePackageService.PackageDtosPermutation | MyApp.Web/Services/VenuePackageService.cs:375-404 | mapping two orderings of the same packages gives the same DTOs, with the same multiplicities |
| VenuePackageService.NoCriteriaListsActive | MyApp.Web/Services/VenuePackageService.cs:210-241 | with no bound, no tier or venue-type list (missing or empty) and a missing or blank term, the search lists exactly the active packages by id in both directions, and its DTOs are those of the active packages (same multiset) |
| VenuePackageService.ActivePackages | MyApp.Web/Services/VenuePackageService.cs:248-250 | exactly the active packages |
| VenuePackageService.TierOptions | MyApp.Web/Services/VenuePackageService.cs:261-269 | one option per distinct tier present, with its name and the number of active packages of that tier |
| VenuePackageService.TierOptionsCover | MyApp.Web/Services/VenuePackageService.cs:261-269 | every active package's tier has an option, and every option's tier is present |
| VenuePackageService.OrdinalLeIsTotalPreorder | MyApp.Web/Services/VenuePackageService.cs:280 | the name order used for sorting is total and transitive |
| VenuePackageService.VenueTypeOptions | MyApp.Web/Services/VenuePackageService.cs:272-281 | one option per distinct non-empty venue type, sorted by name, with its count |
| VenuePackageService.DistinctAfterSort | MyApp.Web/Services/VenuePackageService.cs:274-280 | sorting the groups keeps their names distinct |
| VenuePackageService.DistinctCountsAtMostOne | MyApp.Web/Services/VenuePackageService.cs:274-280 | a distinct list holds each name at most once |
| VenuePackageService.PriceRange | MyApp.Web/Services/VenuePackageService.cs:253-254 | min and max are attained by active packages and bound all their prices |
| VenuePackageService.CapacityRange | MyApp.Web/Services/VenuePackageService.cs:257-258 | the same for capacities |
| VenuePackageService.FilterOptions | MyApp.Web/Services/VenuePackageService.cs:243-297 | fails (Min of an empty sequence) iff no package is active; otherwise returns the options |
| VenuePackageService.TierCountsSum | MyApp.Web/Services/VenuePackageService.cs:261-269 | the tier counts add up to the number of active packages |
| VenuePackageService.BucketsCountEveryPackage | MyApp.Web/Services/VenuePackageService.cs:261-269 | grouping by tier counts every active package once |
| VenuePackageService.PackageById | MyApp.Web/Services/VenuePackageService.cs:168-187 | succeeds iff an active package has the id; otherwise "Package not found" |
| VenuePackageService.PackageByIdFindsRow | MyApp.Web/Services/VenuePackageService.cs:168-187 | with unique ids, the lookup returns that row's DTO exactly when it is active |
| VenuePackageService.VenuePackageRows | MyApp.Web/Services/VenuePackageService.cs:189-208 | a reordering of exactly the venue's active packages (same multiset as the filtered table), by tier |
| VenuePackageService.PackagesByVenue | MyApp.Web/Services/VenuePackageService.cs:189-208 | always Ok; the DTOs are in tier order, each is the DTO of an active package of the venue, every such package is listed, and the list is a reordering of their DTOs (same multiset) |
| VenuePackageService.VenueRowsListed | MyApp.Web/Services/VenuePackageService.cs:189-208 | mapping keeps tier order, each DTO is the DTO of an active package of the venue, and every such package is listed |
| VenuePackageService.VenueThenTierIsTotalPreorder | MyApp.Web/Services/VenuePackageService.cs:353-373 | ordering by venue name then tier is total and transitive |
| VenuePackageService.AllPackageRows | MyApp.Web/Services/VenuePackageService.cs:353-373 | a reordering of exactly the active packages (same multiset), ordered by venue name then tier |
| VenuePackageService.AllPackages | MyApp.Web/Services/VenuePackageService.cs:353-373 | always Ok; the DTOs are ordered by venue name then tier; each is the DTO of an active package; every active package is listed; the list is a reordering of the active packages' DTOs (same multiset) |
| VenuePackageService.AllRowsListed | MyApp.Web/Services/VenuePackageService.cs:353-373 | mapping keeps that order, each DTO is the DTO of an active package, and every active package is listed |
| VenuePackageService.NewPackage | MyApp.Web/Services/VenuePackageService.cs:30-48 | a new package is active, created now, under the requested venue |
| VenuePackageService.NewPackageService | MyApp.Web/Services/VenuePackageService.cs:53-62 | each new package service belongs to the new package |
| VenuePackageService.NewPackageServices | MyApp.Web/Services/VenuePackageService.cs:51-63 | one new service per requested service, in order |
| VenuePackageService.BuildPackageServices | MyApp.Web/Services/VenuePackageService.cs:51-63 | the loop builds exactly those services |
| VenuePackageService.NewServicesKeepUniqueKeys | MyApp.Web/Services/VenuePackageService.cs:51-66 | fresh service ids keep keys unique |
| VenuePackageService.ServicesOfAppended | MyApp.Web/Services/VenuePackageService.cs:51-68 | the new package's services are exactly the appended ones |
| VenuePackageService.CreatePackage | MyApp.Web/Services/VenuePackageService.cs:21-74 | an unknown venue fails with nothing written; otherwise the package and its services are appended and returned; the database stays valid |
| VenuePackageService.CreatedPackageIsFound | MyApp.Web/Services/VenuePackageService.cs:21-74 | after creation, the lookup by id returns the new package with exactly its services |
| VenuePackageService.PackageIndex | MyApp.Web/Services/VenuePackageService.cs:83-90 | the index points at the package with the id; none iff no package has it |
| VenuePackageService.UpdatedPackage | MyApp.Web/Services/VenuePackageService.cs:92-105 | the update takes the request's fields but keeps id, venue, active flag and creation time, and stamps updatedAt |
| VenuePackageService.ReplaceServicesFacts | MyApp.Web/Services/VenuePackageService.cs:110-129 | after replacement the package's services are exactly the new ones, and other packages' services are unchanged |
| VenuePackageService.ReplaceKeepsUniqueKeys | MyApp.Web/Services/VenuePackageService.cs:110-131 | replacement keeps service ids unique |
| VenuePackageService.SameIdKeepsUniqueKeys | MyApp.Web/Services/VenuePackageService.cs:92-108 | overwriting a row with one of the same id keeps keys unique |
| VenuePackageService.UpdatePackage | MyApp.Web/Services/VenuePackageService.cs:76-145 | unknown id: "Package not found", nothing written; a booked old service: save failure, nothing written; otherwise the row is updated and its services replaced |
| VenuePackageService.DeletePackage | MyApp.Web/Services/VenuePackageService.cs:146-166 | unknown id fails; otherwise only the package is deactivated (soft delete) |
| VenuePackageService.DeletedPackageIsHidden | MyApp.Web/Services/VenuePackageService.cs:146-166 | a deactivated package is no longer found by id, by the filtered search or in the full list |
| VenueService.ImageName | MyApp.Web/Services/VenueService.cs:261-267 | the stored name is a suffix of the stored URL |
| VenueService.NormalizeImageUrl | MyApp.Web/Services/VenueService.cs:261-267 | the public URL is the base URL, "/Images/", then the image name |
| VenueService.TrimSlashes | MyApp.Web/Services/VenueService.cs:263 | trimming strips every leading slash and nothing else |
| VenueService.BareImageName | MyApp.Web/Services/VenueService.cs:261-267 | a bare name, with any leading slashes, keeps its name |
| VenueService.FolderImageName | MyApp.Web/Services/VenueService.cs:261-267 | a name stored under "Images/" loses that folder |
| VenueService.StoredFormsAgree | MyApp.Web/Services/VenueService.cs:261-267 | a bare name and a name under "Images/" yield the same public URL |
| VenueService.StripsOneFolder | MyApp.Web/Services/VenueService.cs:261-267 | only one "Images/" folder is removed |
| VenueService.VenueBookingDto | MyApp.Web/Services/VenueService.cs:268-280 | a venue's booking DTO keeps id, start and status under the venue's name, without package or payment data |
| VenueService.VenueBookings | MyApp.Web/Services/VenueService.cs:268-280 | the venue's bookings, each once, by start time |
| VenueService.VenueServiceDtos | MyApp.Web/Services/VenueService.cs:281-290 | exactly the venue's additional services under its name |
| VenueService.ServiceDtosListed | MyApp.Web/Services/VenueService.cs:281-290 | the mapped services list exactly the venue's services |
| VenueService.VenuePackageDtoOf | MyApp.Web/Services/VenueService.cs:291-315 | a nested package DTO keeps id, tier and price and lists the package's services, while venue id and name keep their defaults |
| VenueService.ActivePackagesOf | MyApp.Web/Services/VenueService.cs:291 | exactly the venue's active packages |
| VenueService.VenueToDto | MyApp.Web/Services/VenueService.cs:248-317 | the venue DTO: its fields, normalised image URLs, its bookings by start time, its services and its active packages |
| VenueService.BookingsListed | MyApp.Web/Services/VenueService.cs:268-280 | the listed bookings are exactly the venue's |
| VenueService.VenueById | MyApp.Web/Services/VenueService.cs:134-154 | succeeds iff a venue has the id, otherwise "Venue not found"; on success the DTO is VenueToDto of the first venue with the id, over all its bookings |
| VenueService.VenueDetails | MyApp.Web/Services/VenueService.cs:178-198 | succeeds iff a venue has the id, otherwise "Venue not found"; on success the DTO is VenueToDto of the first venue with the id, over its bookings that are not canceled |
| VenueService.VenueLookupsFindRow | MyApp.Web/Services/VenueService.cs:134-198 | with unique venue ids, both lookups of a stored venue's id return Ok with that venue's DTO (all bookings, and non-canceled bookings) |
| VenueService.DetailsDropOnlyCanceled | MyApp.Web/Services/VenueService.cs:178-198 | the details view equals the plain view except that canceled bookings are left out |
| VenueService.AllVenues | MyApp.Web/Services/VenueService.cs:156-176 | every venue once, newest first |
| VenueService.VenuesListed | MyApp.Web/Services/VenueService.cs:156-176 | mapping keeps newest-first order and lists every venue |
| VenueService.AddImages | MyApp.Web/Services/VenueService.cs:50-61 | the loop stores the image URLs in order |
| VenueService.NewVenue | MyApp.Web/Services/VenueService.cs:35-61 | a new venue has rating 0, is created now and has the requested images |
| VenueService.CreateVenue | MyApp.Web/Services/VenueService.cs:28-80 | the venue is appended and its DTO returned; the database stays valid |
| VenueService.CreatedVenueIsBare | MyApp.Web/Services/VenueService.cs:28-80 | a new venue has no bookings, services or packages |
| VenueService.UpdatedVenue | MyApp.Web/Services/VenueService.cs:95-104 | the update takes the requested name, address, type, status and images, and keeps id, rating and timestamps |
| VenueService.VenueIndex | MyApp.Web/Services/VenueService.cs:87-93 | the index points at the venue with the id; none iff no venue has it |
| VenueService.UpdateVenue | MyApp.Web/Services/VenueService.cs:82-114 | unknown id: "Venue not found"; a null image list: the caught null reference, nothing written; otherwise only that venue is updated |
| VenueService.DeleteVenue | MyApp.Web/Services/VenueService.cs:116-132 | unknown id fails; a venue with bookings (directly or through its packages or services) is a save failure with nothing written; otherwise the venue and its services, packages and package services are removed |
| VenueService.DeletedVenueIsGone | MyApp.Web/Services/VenueService.cs:116-132 | after the cascade the venue is not found and nothing of it remains |
| UserService.AllUsers | MyApp.Web/Services/UserService.cs:23-46 | every user's summary, newest first, as a permutation of the users |
| UserService.AllUsersListsEachOnce | MyApp.Web/Services/UserService.cs:23-46 | with unique ids, each user is listed exactly once |
| UserService.SummaryOccursOnce | MyApp.Web/Services/UserService.cs:31-39 | distinct users have distinct summaries |
| UserService.UserBookingServices | MyApp.Web/Services/UserService.cs:124-139 | one DTO per snapshot whose service still exists, under the venue's name, category Food |
| UserService.UserBookingDto | MyApp.Web/Services/UserService.cs:122-158 | the booking DTO carries the user's id, e-mail and name and the booking's fields, with no package data |
| UserService.CollectServices | MyApp.Web/Services/UserService.cs:124-139 | the loop builds exactly UserBookingServices |
| UserService.MapToDtoWithUserInfo | MyApp.Web/Services/UserService.cs:122-158 | the method returns UserBookingDto |
| UserService.BookingsOf | MyApp.Web/Services/UserService.cs:53-59 | exactly the user's bookings |
| UserService.UserDetails | MyApp.Web/Services/UserService.cs:48-82 | succeeds iff the user exists, otherwise "User not found."; on success the DTO carries the found user's id, name, e-mail, contact number ("" when null), role and creation time, and the user's bookings newest first, as a permutation |
| UserService.UserDetailsFindsRow | MyApp.Web/Services/UserService.cs:48-82 | with unique user ids, the details of a stored user succeed and carry that user's own columns |
| UserService.DetailsListUsersBookings | MyApp.Web/Services/UserService.cs:48-82 | each listed booking is the user's, and every booking of the user is listed |
| UserService.MappedBookingsListed | MyApp.Web/Services/UserService.cs:48-82 | the same, for any permutation of the mapped bookings |
| UserService.Overwrite | MyApp.Web/Services/UserService.cs:94-109 | a blank or missing value keeps the old one; any other replaces it |
| UserService.UpdatedUser | MyApp.Web/Services/UserService.cs:94-109 | the update changes only name, e-mail, contact and role, each as Overwrite says |
| UserService.UpdateIsIdempotent | MyApp.Web/Services/UserService.cs:94-109 | applying an update twice equals applying it once |
| UserService.UserIndex | MyApp.Web/Services/UserService.cs:89-91 | the index points at the user with the id; none iff no user has it |
| UserService.UpdateKeepsUsersValid | MyApp.Web/Services/UserService.cs:97-102 | an update that passes the e-mail check keeps ids and e-mails unique |
| UserService.UpdateUser | MyApp.Web/Services/UserService.cs:84-120 | unknown id: "User not found."; an e-mail used by another user: "Email already in use." and nothing written; otherwise only that user is updated |
| AuthService.FindByEmail | MyApp.Web/Services/AuthService.cs:34 | finds a user with exactly the given e-mail; a missing e-mail finds nobody |
| AuthService.Login | MyApp.Web/Services/AuthService.cs:29-51 | "Account does not exist." iff no user has the e-mail; success only with a verified password, returning the user's id, name and role; otherwise "Invalid credentials." |
| AuthService.LoginByEmail | MyApp.Web/Services/AuthService.cs:29-51 | with unique e-mails, a user signs in iff the hasher verifies the password |
| AuthService.SameEmailSameUser | MyApp.Web/Services/AuthService.cs:34 | with unique e-mails, an e-mail identifies one user |
| AuthService.NewUser | MyApp.Web/Services/AuthService.cs:96-107 | a registered user gets role "User", the hash, now, and the request's fields with missing ones empty |
| AuthService.AsWrittenAdmitsDuplicateEmail | MyApp.Web/Services/AuthService.cs:90-100 | the check as written lets a second user with e-mail "" register |
| AuthService.EmailTestsAgreeOnGivenEmail | MyApp.Web/Services/AuthService.cs:90-91 | the corrected check agrees with the written one whenever an e-mail is given |
| AuthService.NewEmailKeepsEmailsUnique | MyApp.Web/Services/AuthService.cs:90-113 | adding an unused e-mail keeps e-mails unique |
| AuthService.Register | MyApp.Web/Services/AuthService.cs:85-116 | a taken e-mail fails with "Email is already registered." and writes nothing; otherwise the new user is appended; e-mails stay unique |
| AuthService.RegisteredUserCanSignIn | MyApp.Web/Services/AuthService.cs:29-116 | right after registering, logging in with that e-mail and password returns the new user |
| AdditionalServiceService.ServiceDto | MyApp.Web/Services/AdditionalServiceService.cs:155-167 | the DTO copies the service and carries its venue's name |
| AdditionalServiceService.ServiceById | MyApp.Web/Services/AdditionalServiceService.cs:95-113 | succeeds iff a service has the id, otherwise "Additional service not found"; on success the DTO is ServiceDto of the first service with the id, under its venue's name |
| AdditionalServiceService.ServiceByIdFindsRow | MyApp.Web/Services/AdditionalServiceService.cs:95-113 | with unique service ids, looking up a stored service's id returns Ok with that service's DTO under its venue's name |
| AdditionalServiceService.ByNameIsTotalPreorder | MyApp.Web/Services/AdditionalServiceService.cs:123 | the name order is total and transitive |
| AdditionalServiceService.VenueServiceRows | MyApp.Web/Services/AdditionalServiceService.cs:115-133 | the venue's services, each once, by name |
| AdditionalServiceService.ServicesByVenue | MyApp.Web/Services/AdditionalServiceService.cs:115-133 | always Ok; by name; each DTO is the DTO of one of the venue's services under the venue's name; every one is listed; the list is a reordering of the venue's services mapped (same multiset) |
| AdditionalServiceService.VenueServicesListed | MyApp.Web/Services/AdditionalServiceService.cs:115-133 | mapping keeps name order, each DTO is the DTO of one of the venue's services, and every one is listed |
| AdditionalServiceService.VenueThenNameIsTotalPreorder | MyApp.Web/Services/AdditionalServiceService.cs:142-143 | ordering by venue name then service name is total and transitive |
| AdditionalServiceService.AllServiceRows | MyApp.Web/Services/AdditionalServiceService.cs:135-153 | every service once, ordered by venue name then name |
| AdditionalServiceService.AllServices | MyApp.Web/Services/AdditionalServiceService.cs:135-153 | every service's DTO once, grouped by venue name and ordered by name within a venue |
| AdditionalServiceService.GroupedByVenue | MyApp.Web/Services/AdditionalServiceService.cs:135-153 | mapping keeps that order |
| AdditionalServiceService.NewService | MyApp.Web/Services/AdditionalServiceService.cs:28-36 | a new service is active, created now, and carries the request's fields |
| AdditionalServiceService.Create | MyApp.Web/Services/AdditionalServiceService.cs:19-47 | unknown venue: "Venue not found", nothing written; otherwise the service is appended and returned under the venue's name |
| AdditionalServiceService.CreatedServiceIsFound | MyApp.Web/Services/AdditionalServiceService.cs:19-47 | after creation the lookup by id returns the new service |
| AdditionalServiceService.FindFirstOfAppended | MyApp.Web/Services/AdditionalServiceService.cs:19-47 | a fresh id finds the appended service |
| AdditionalServiceService.UpdatedService | MyApp.Web/Services/AdditionalServiceService.cs:58-62 | the update takes the request's fields and keeps id, active flag and creation time |
| AdditionalServiceService.ServiceIndex | MyApp.Web/Services/AdditionalServiceService.cs:54-56 | the index points at the service with the id; none iff no service has it |
| AdditionalServiceService.SameIdsKeepUniqueKeys | MyApp.Web/Services/AdditionalServiceService.cs:58-65 | overwriting a row with one of the same id keeps keys unique |
| AdditionalServiceService.Update | MyApp.Web/Services/AdditionalServiceService.cs:49-73 | unknown id: "Additional service not found"; an unknown venue: save failure, nothing written; otherwise only that service is updated, returned without a venue name |
| AdditionalServiceService.Delete | MyApp.Web/Services/AdditionalServiceService.cs:75-93 | unknown id fails; a booked service is a save failure with nothing written; otherwise exactly that service is removed |
| AdditionalServiceService.DeleteRemovesOnlyThatService | MyApp.Web/Services/AdditionalServiceService.cs:75-93 | after deletion the service is not found and every other service remains |

## Left out

- Asynchrony, `IDbContextFactory` contexts and concurrent requests: the model runs one operation at a time on one database state. Two bookings racing past the day-conflict check are therefore not modelled.
- Entity Framework change tracking, and the order in which `Include` loads child collections: child lists are taken in table order.
- `UploadVenueImagesAsync`: it writes files to disk and is I/O only.
- JWT issuing, `PlatformLoginAsync` and `PlatformLogoutAsync`: they act on the HTTP context's cookies.
- SQL Server collation: string equality, `OrderBy` and `GroupBy` on names are case-insensitive in the database. The model compares ordinally.
- `ToLower` in the package search uses the current culture. The model lowers ASCII letters only.
- `decimal` overflow and rounding: money is unbounded whole cents.
- Column length limits and DataAnnotations on the DTOs: the minimal API endpoints do not run DataAnnotations validation, and length limits surface only as database errors.
- A fractional `Duration`: the model keeps only the whole-day part. `AddDays` with a fraction is not modelled.
- A null password in Login: `VerifyHashedPassword` would throw, and the exception is not caught. The model takes the password as a string.
- Password hashing and verification: the hash is a parameter, and verification is a function parameter.
- BookingService.CreateBooking: like the source, it does not check that the chosen package belongs to the chosen venue.
- VenuePackageService.UpdatePackage: the tracked navigation collection that could still hold deleted services is not modelled. Only the resulting table contents are.
- VenueService.UpdateVenue: like the source, it does not change `UpdatedAt`. The returned DTO has no bookings and no package services, because the source's update query loads neither.
- VenueService.VenueToDto: nested package DTOs keep the default venue id and name, as the source builds them.
- BookingQueries: an `Include` of a missing row behaves as an inner join in the source. The model looks the row up and uses an empty name when it is missing.
- PlanBooking and Availability are the specification functions of CreateBooking and CheckVenueAvailability. Their properties are stated by the methods and by the lemmas above.

## Findings

| source | as written | input that shows it | evidently intended | confidence | as-written member | corrected member |
|---|---|---|---|---|---|---|
| MyApp.Web/Services/AuthService.cs:90-100 | the uniqueness test compares each stored e-mail with the request's e-mail, which may be null; a null e-mail matches no user, and the user is then stored with e-mail "" | one stored user with e-mail "", then a registration whose e-mail is null: the test passes and a second user with e-mail "" is stored | a registration whose stored e-mail is already in use is refused, so e-mails stay unique | not executed | AuthService.AsWrittenAdmitsDuplicateEmail | AuthService.Register |
