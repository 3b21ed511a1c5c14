/** The request and response shapes the services exchange with their
    callers. A request field the services test for null is an Option. */
module Dtos {
  import opened Common
  import opened DateTimes
  import opened Entities

  // ---- requests ----

  datatype CreateBookingDto = CreateBookingDto(
    venueId: Guid,
    packageId: Option<Guid>,
    userId: Guid,
    startTime: Ticks,
    /** `(int)Duration`: the whole-number part of the requested duration. */
    duration: Int32,
    isCustomPackage: bool,
    customPackageName: Option<string>,
    modifiedCapacity: Option<Int32>,
    modifiedDurationHours: Option<Int32>,
    selectedAdditionalServiceIds: Option<seq<Guid>>,
    selectedPackageServiceIds: Option<seq<Guid>>)

  datatype CreatePackageServiceDto = CreatePackageServiceDto(
    name: string,
    description: Option<string>,
    price: Cents,
    isIncludedInPackage: bool,
    isAvailableForCustomization: bool)

  datatype CreateVenuePackageDto = CreateVenuePackageDto(
    name: string,
    description: Option<string>,
    tier: PackageTier,
    baseCapacity: Int32,
    baseDurationHours: Int32,
    basePrice: Cents,
    pricePerAdditionalPerson: Cents,
    pricePerAdditionalHour: Cents,
    includesDecoration: bool,
    includesCake: bool,
    includesSoundSystem: bool,
    includedServicesDescription: Option<string>,
    venueId: Guid,
    packageServices: seq<CreatePackageServiceDto>)

  /** The criteria of a package search; an absent criterion is not applied. */
  datatype PackageFilterDto = PackageFilterDto(
    minPrice: Option<Cents>,
    maxPrice: Option<Cents>,
    minCapacity: Option<Int32>,
    maxCapacity: Option<Int32>,
    tiers: Option<seq<PackageTier>>,
    venueTypes: Option<seq<string>>,
    searchTerm: Option<string>)

  datatype CreateVenueDto = CreateVenueDto(
    name: string,
    address: string,
    venueType: string,
    status: string,
    imageUrls: Option<seq<string>>)

  datatype CreateAdditionalServiceDto = CreateAdditionalServiceDto(
    name: string,
    description: Option<string>,
    price: Cents,
    venueId: Guid,
    category: ServiceCategory)

  datatype UpdateUserDto = UpdateUserDto(
    name: Option<string>,
    email: Option<string>,
    contactNumber: Option<string>,
    role: Option<string>)

  datatype RegisterModel = RegisterModel(
    name: Option<string>,
    email: Option<string>,
    contactNumber: Option<string>,
    password: Option<string>)

  /** A null Email in the request body is None; it matches no user. */
  datatype LoginModel = LoginModel(email: Option<string>, password: string)

  // ---- responses ----

  datatype BookingDto = BookingDto(
    id: Guid,
    venueId: Guid,
    venueName: string,
    packageId: Option<Guid>,
    packageName: string,
    userId: Guid,
    startTime: Ticks,
    endTime: Ticks,
    isCustomPackage: bool,
    customPackageName: Option<string>,
    totalCost: Cents,
    status: string,
    createdAt: Ticks,
    updatedAt: Option<Ticks>,
    paymentStatus: string)

  datatype AdditionalServiceDto = AdditionalServiceDto(
    id: Guid,
    name: string,
    description: Option<string>,
    price: Cents,
    venueId: Guid,
    venueName: string,
    category: ServiceCategory)

  datatype PackageServiceDto = PackageServiceDto(
    id: Guid,
    name: string,
    description: string,
    price: Cents,
    isIncludedInPackage: bool,
    isAvailableForCustomization: bool)

  datatype BookingWithUserDto = BookingWithUserDto(
    id: Guid,
    venueId: Guid,
    venueName: string,
    packageId: Option<Guid>,
    packageName: string,
    userId: Guid,
    userEmail: string,
    userFullName: string,
    startTime: Ticks,
    endTime: Ticks,
    isCustomPackage: bool,
    customPackageName: Option<string>,
    modifiedCapacity: Option<Int32>,
    modifiedDurationHours: Option<Int32>,
    basePackageCost: Cents,
    capacityExtensionCost: Cents,
    durationExtensionCost: Cents,
    additionalServicesCost: Cents,
    totalCost: Cents,
    status: string,
    createdAt: Ticks,
    updatedAt: Option<Ticks>,
    additionalServices: seq<AdditionalServiceDto>,
    packageServices: seq<PackageServiceDto>,
    paymentStatus: string)

  /** Whether the requested days are free, and every booked day of the venue
      (each a midnight, ascending, without repeats). */
  datatype VenueAvailabilityDto = VenueAvailabilityDto(isAvailable: bool, bookedDates: seq<int>)

  datatype VenuePackageDto = VenuePackageDto(
    id: Guid,
    name: string,
    description: string,
    tier: PackageTier,
    baseCapacity: Int32,
    baseDurationHours: Int32,
    basePrice: Cents,
    pricePerAdditionalPerson: Cents,
    pricePerAdditionalHour: Cents,
    includesDecoration: bool,
    includesCake: bool,
    includesSoundSystem: bool,
    includedServicesDescription: string,
    venueId: Guid,
    venueName: string,
    packageServices: seq<PackageServiceDto>)

  datatype PriceRangeDto = PriceRangeDto(min: Cents, max: Cents)
  datatype CapacityRangeDto = CapacityRangeDto(min: Int32, max: Int32)
  datatype PackageTierOptionDto = PackageTierOptionDto(tier: PackageTier, name: string, count: nat)
  datatype VenueTypeOptionDto = VenueTypeOptionDto(name: string, count: nat)

  datatype PackageFilterOptionsDto = PackageFilterOptionsDto(
    priceRange: PriceRangeDto,
    capacityRange: CapacityRangeDto,
    tiers: seq<PackageTierOptionDto>,
    venueTypes: seq<VenueTypeOptionDto>)

  datatype VenueDto = VenueDto(
    id: Guid,
    name: string,
    address: string,
    venueType: string,
    status: string,
    rating: real,
    createdAt: Ticks,
    imageUrls: seq<string>,
    bookings: seq<BookingDto>,
    additionalServices: seq<AdditionalServiceDto>,
    packages: seq<VenuePackageDto>)

  datatype UserSummaryDto = UserSummaryDto(
    id: Guid,
    name: string,
    email: string,
    contactNumber: string,
    role: string,
    createdAt: Ticks)

  datatype UserDetailsDto = UserDetailsDto(
    id: Guid,
    name: string,
    email: string,
    contactNumber: string,
    role: string,
    createdAt: Ticks,
    bookings: seq<BookingWithUserDto>)

  /** The signed-in user: `record LoggedinUser(Guid Id, string Name, string Role)`. */
  datatype LoggedinUser = LoggedinUser(id: Guid, name: string, role: string)

  /** The PackageServiceDto of a package service; a missing description
      becomes empty. */
  function PackageServiceDtoOf(svc: PackageService): PackageServiceDto {
    PackageServiceDto(svc.id, svc.name, svc.description.GetOr(""), svc.price, svc.isIncludedInPackage,
                      svc.isAvailableForCustomization)
  }

  /** The AdditionalServiceDto of a service under its venue's name; a
      missing description becomes empty. */
  function AdditionalServiceDtoOf(svc: AdditionalService, venueName: string): AdditionalServiceDto {
    AdditionalServiceDto(svc.id, svc.name, Some(svc.description.GetOr("")), svc.price, svc.venueId, venueName, svc.category)
  }
}
