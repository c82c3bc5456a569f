/**
 * The data shapes of the rental app: listings, lease agreements and the
 * search-filter record. Every optional field of the TypeScript interfaces is
 * an Option; numbers that the app compares (rent, bedrooms, bathrooms) are
 * integers.
 */
module Rental {

  datatype Option<+T> = None | Some(value: T) {
    /** `x ?? d`, also `x || d` for values whose truthiness is not in question. */
    function GetOr(default: T): T {
      match this
      case Some(v) => v
      case None => default
    }
  }

  /** The five listing categories. */
  datatype PropertyType = Apartment | House | Condo | Studio | Room

  /** The string that the TypeScript union uses for each category. */
  function TypeName(t: PropertyType): (name: string)
    ensures name != []
  {
    match t
    case Apartment => "apartment"
    case House => "house"
    case Condo => "condo"
    case Studio => "studio"
    case Room => "room"
  }

  /** No two categories share a name, so comparing names compares categories. */
  lemma TypeNameInjective(s: PropertyType, t: PropertyType)
    ensures TypeName(s) == TypeName(t) <==> s == t
  {
  }

  datatype Coordinates = Coordinates(lat: real, lng: real)

  datatype Location = Location(
    address: string,
    city: string,
    state: string,
    zipCode: string,
    coordinates: Option<Coordinates>)

  datatype Availability = Availability(available: bool, availableFrom: string)

  /** A rental listing. `kind` is the field the source calls `type`. */
  datatype Property = Property(
    id: string,
    title: string,
    description: string,
    kind: PropertyType,
    location: Location,
    rent: int,
    deposit: int,
    bedrooms: int,
    bathrooms: int,
    area: int,
    amenities: seq<string>,
    images: seq<string>,
    landlordId: string,
    landlordName: string,
    landlordEmail: string,
    landlordPhone: string,
    availability: Availability,
    createdAt: string,
    updatedAt: string,
    featured: Option<bool>)

  /** The six lease states. */
  datatype LeaseStatus = Draft | PendingApproval | Approved | Signed | Active | Terminated

  /** One party's signature; only `signed` is mandatory. */
  datatype Signature = Signature(signed: bool, signedAt: Option<string>, signature: Option<string>)

  /** Each party's signature is independently present or absent. */
  datatype Signatures = Signatures(landlord: Option<Signature>, tenant: Option<Signature>)

  datatype LeaseAgreement = LeaseAgreement(
    id: string,
    propertyId: string,
    landlordId: string,
    tenantId: string,
    startDate: string,
    endDate: string,
    monthlyRent: int,
    securityDeposit: int,
    terms: string,
    status: LeaseStatus,
    signatures: Signatures,
    createdAt: string,
    updatedAt: string)

  /** `lease.signatures.tenant?.signed`, with an absent signature reading as false. */
  predicate TenantSigned(l: LeaseAgreement) {
    l.signatures.tenant.Some? && l.signatures.tenant.value.signed
  }

  /** The search descriptor; every field may be absent. */
  datatype SearchFilters = SearchFilters(
    location: Option<string>,
    minRent: Option<int>,
    maxRent: Option<int>,
    propertyType: Option<seq<string>>,
    bedrooms: Option<int>,
    bathrooms: Option<int>,
    amenities: Option<seq<string>>)

  /** The record `{}`. */
  const NoFilters := SearchFilters(None, None, None, None, None, None, None)
}
