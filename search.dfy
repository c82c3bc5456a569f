/**
 * The search page: the chained property filter (`applyFilters`) and the
 * page state it reads (query, filters, favorites).
 */
module Search {
  import opened Rental
  import opened Lists
  import opened Text

  /**
   * The text-search callback for an already lower-cased query: the query
   * occurs in the lower-cased title, description, city, state or address,
   * or in some lower-cased amenity.
   */
  predicate TextMatches(p: Property, query: string) {
    || Includes(Lower(p.title), query)
    || Includes(Lower(p.description), query)
    || Includes(Lower(p.location.city), query)
    || Includes(Lower(p.location.state), query)
    || Includes(Lower(p.location.address), query)
    || (exists a :: a in p.amenities && Includes(Lower(a), query))
  }

  /**
   * The location callback for an already lower-cased location: it occurs in
   * the lower-cased city or state, or in the zip code as it is.
   */
  predicate LocationMatches(p: Property, location: string) {
    || Includes(Lower(p.location.city), location)
    || Includes(Lower(p.location.state), location)
    || Includes(p.location.zipCode, location)
  }

  /** Every required amenity is listed by the property, compared exactly. */
  predicate HasAmenities(p: Property, required: seq<string>) {
    forall a :: a in required ==> a in p.amenities
  }

  // The guards of the eight stages. A string or number guard is JavaScript
  // truthiness: the empty string and the number 0 switch the stage off.

  predicate QueryActive(searchQuery: string) { searchQuery != [] }
  predicate LocationActive(f: SearchFilters) { f.location.Some? && f.location.value != [] }
  predicate MinRentActive(f: SearchFilters) { f.minRent.Some? && f.minRent.value != 0 }
  predicate MaxRentActive(f: SearchFilters) { f.maxRent.Some? && f.maxRent.value != 0 }
  predicate TypeActive(f: SearchFilters) { f.propertyType.Some? && |f.propertyType.value| > 0 }
  predicate BedroomsActive(f: SearchFilters) { f.bedrooms.Some? }
  predicate BathroomsActive(f: SearchFilters) { f.bathrooms.Some? }
  predicate AmenitiesActive(f: SearchFilters) { f.amenities.Some? && |f.amenities.value| > 0 }

  // What each stage demands of a property; a stage whose guard is off demands nothing.

  predicate QueryOk(p: Property, searchQuery: string) {
    QueryActive(searchQuery) ==> TextMatches(p, Lower(searchQuery))
  }
  predicate LocationOk(p: Property, f: SearchFilters) {
    LocationActive(f) ==> LocationMatches(p, Lower(f.location.value))
  }
  predicate MinRentOk(p: Property, f: SearchFilters) {
    MinRentActive(f) ==> p.rent >= f.minRent.value
  }
  predicate MaxRentOk(p: Property, f: SearchFilters) {
    MaxRentActive(f) ==> p.rent <= f.maxRent.value
  }
  predicate TypeOk(p: Property, f: SearchFilters) {
    TypeActive(f) ==> TypeName(p.kind) in f.propertyType.value
  }
  predicate BedroomsOk(p: Property, f: SearchFilters) {
    BedroomsActive(f) ==> p.bedrooms >= f.bedrooms.value
  }
  predicate BathroomsOk(p: Property, f: SearchFilters) {
    BathroomsActive(f) ==> p.bathrooms >= f.bathrooms.value
  }
  predicate AmenitiesOk(p: Property, f: SearchFilters) {
    AmenitiesActive(f) ==> HasAmenities(p, f.amenities.value)
  }

  /**
   * The reference definition of a match: the property passes every stage
   * whose guard is on.
   */
  predicate Satisfies(p: Property, searchQuery: string, f: SearchFilters) {
    && QueryOk(p, searchQuery)
    && LocationOk(p, f)
    && MinRentOk(p, f)
    && MaxRentOk(p, f)
    && TypeOk(p, f)
    && BedroomsOk(p, f)
    && BathroomsOk(p, f)
    && AmenitiesOk(p, f)
  }

  /** The reference definition as a callback. */
  function Matches(searchQuery: string, f: SearchFilters): Property -> bool {
    (p: Property) => Satisfies(p, searchQuery, f)
  }

  /** The search result specified in one pass: the matching properties in list order. */
  function Matching(all: seq<Property>, searchQuery: string, f: SearchFilters): seq<Property> {
    Filter(all, Matches(searchQuery, f))
  }

  // The callbacks that the stages pass to `filter`.

  function TextStage(query: string): Property -> bool { (p: Property) => TextMatches(p, query) }
  function LocationStage(location: string): Property -> bool { (p: Property) => LocationMatches(p, location) }
  function MinRentStage(minRent: int): Property -> bool { (p: Property) => p.rent >= minRent }
  function MaxRentStage(maxRent: int): Property -> bool { (p: Property) => p.rent <= maxRent }
  function TypeStage(types: seq<string>): Property -> bool { (p: Property) => TypeName(p.kind) in types }
  function BedroomsStage(bedrooms: int): Property -> bool { (p: Property) => p.bedrooms >= bedrooms }
  function BathroomsStage(bathrooms: int): Property -> bool { (p: Property) => p.bathrooms >= bathrooms }
  function AmenitiesStage(required: seq<string>): Property -> bool { (p: Property) => HasAmenities(p, required) }

  /**
   * The chain as the page runs it: eight guarded filters in source order,
   * each narrowing the list the previous one left.
   */
  function Chain(all: seq<Property>, searchQuery: string, f: SearchFilters): (r: seq<Property>)
    ensures |r| <= |all|
    ensures forall p :: p in r ==> p in all
  {
    var s1 := FilterWhen(all, QueryActive(searchQuery), TextStage(Lower(searchQuery)));
    var s2 := FilterWhen(s1, LocationActive(f), LocationStage(Lower(f.location.GetOr([]))));
    var s3 := FilterWhen(s2, MinRentActive(f), MinRentStage(f.minRent.GetOr(0)));
    var s4 := FilterWhen(s3, MaxRentActive(f), MaxRentStage(f.maxRent.GetOr(0)));
    var s5 := FilterWhen(s4, TypeActive(f), TypeStage(f.propertyType.GetOr([])));
    var s6 := FilterWhen(s5, BedroomsActive(f), BedroomsStage(f.bedrooms.GetOr(0)));
    var s7 := FilterWhen(s6, BathroomsActive(f), BathroomsStage(f.bathrooms.GetOr(0)));
    FilterWhen(s7, AmenitiesActive(f), AmenitiesStage(f.amenities.GetOr([])))
  }

  /** The eight guarded callbacks of the chain, combined in order. */
  function Staged(searchQuery: string, f: SearchFilters): Property -> bool {
    var g1 := When(QueryActive(searchQuery), TextStage(Lower(searchQuery)));
    var g2 := When(LocationActive(f), LocationStage(Lower(f.location.GetOr([]))));
    var g3 := When(MinRentActive(f), MinRentStage(f.minRent.GetOr(0)));
    var g4 := When(MaxRentActive(f), MaxRentStage(f.maxRent.GetOr(0)));
    var g5 := When(TypeActive(f), TypeStage(f.propertyType.GetOr([])));
    var g6 := When(BedroomsActive(f), BedroomsStage(f.bedrooms.GetOr(0)));
    var g7 := When(BathroomsActive(f), BathroomsStage(f.bathrooms.GetOr(0)));
    var g8 := When(AmenitiesActive(f), AmenitiesStage(f.amenities.GetOr([])));
    Both(Both(Both(Both(Both(Both(Both(g1, g2), g3), g4), g5), g6), g7), g8)
  }

  /** Running the guarded filters one after another is one filter by their combination. */
  lemma ChainIsStaged(all: seq<Property>, searchQuery: string, f: SearchFilters)
    ensures Chain(all, searchQuery, f) == Filter(all, Staged(searchQuery, f))
  {
    var g1 := When(QueryActive(searchQuery), TextStage(Lower(searchQuery)));
    var g2 := When(LocationActive(f), LocationStage(Lower(f.location.GetOr([]))));
    var g3 := When(MinRentActive(f), MinRentStage(f.minRent.GetOr(0)));
    var g4 := When(MaxRentActive(f), MaxRentStage(f.maxRent.GetOr(0)));
    var g5 := When(TypeActive(f), TypeStage(f.propertyType.GetOr([])));
    var g6 := When(BedroomsActive(f), BedroomsStage(f.bedrooms.GetOr(0)));
    var g7 := When(BathroomsActive(f), BathroomsStage(f.bathrooms.GetOr(0)));
    var g8 := When(AmenitiesActive(f), AmenitiesStage(f.amenities.GetOr([])));
    var c2 := Both(g1, g2);
    var c3 := Both(c2, g3);
    var c4 := Both(c3, g4);
    var c5 := Both(c4, g5);
    var c6 := Both(c5, g6);
    var c7 := Both(c6, g7);

    var s1 := FilterWhen(all, QueryActive(searchQuery), TextStage(Lower(searchQuery)));
    FilterWhenIsFilter(all, QueryActive(searchQuery), TextStage(Lower(searchQuery)));
    var s2 := FilterWhen(s1, LocationActive(f), LocationStage(Lower(f.location.GetOr([]))));
    FilterWhenIsFilter(s1, LocationActive(f), LocationStage(Lower(f.location.GetOr([]))));
    FilterFilter(all, g1, g2);
    var s3 := FilterWhen(s2, MinRentActive(f), MinRentStage(f.minRent.GetOr(0)));
    FilterWhenIsFilter(s2, MinRentActive(f), MinRentStage(f.minRent.GetOr(0)));
    FilterFilter(all, c2, g3);
    var s4 := FilterWhen(s3, MaxRentActive(f), MaxRentStage(f.maxRent.GetOr(0)));
    FilterWhenIsFilter(s3, MaxRentActive(f), MaxRentStage(f.maxRent.GetOr(0)));
    FilterFilter(all, c3, g4);
    var s5 := FilterWhen(s4, TypeActive(f), TypeStage(f.propertyType.GetOr([])));
    FilterWhenIsFilter(s4, TypeActive(f), TypeStage(f.propertyType.GetOr([])));
    FilterFilter(all, c4, g5);
    var s6 := FilterWhen(s5, BedroomsActive(f), BedroomsStage(f.bedrooms.GetOr(0)));
    FilterWhenIsFilter(s5, BedroomsActive(f), BedroomsStage(f.bedrooms.GetOr(0)));
    FilterFilter(all, c5, g6);
    var s7 := FilterWhen(s6, BathroomsActive(f), BathroomsStage(f.bathrooms.GetOr(0)));
    FilterWhenIsFilter(s6, BathroomsActive(f), BathroomsStage(f.bathrooms.GetOr(0)));
    FilterFilter(all, c6, g7);
    FilterWhenIsFilter(s7, AmenitiesActive(f), AmenitiesStage(f.amenities.GetOr([])));
    FilterFilter(all, c7, g8);
  }

  /** The combined callback accepts exactly the properties of the reference definition. */
  lemma StagedSatisfies(searchQuery: string, f: SearchFilters, p: Property)
    ensures Staged(searchQuery, f)(p) == Satisfies(p, searchQuery, f)
  {
  }

  /** The staged chain selects exactly the one-pass specification. */
  lemma ChainIsMatching(all: seq<Property>, searchQuery: string, f: SearchFilters)
    ensures Chain(all, searchQuery, f) == Matching(all, searchQuery, f)
  {
    ChainIsStaged(all, searchQuery, f);
    forall p | p in all ensures Staged(searchQuery, f)(p) == Satisfies(p, searchQuery, f) {
      StagedSatisfies(searchQuery, f, p);
    }
    FilterCongruent(all, Staged(searchQuery, f), Matches(searchQuery, f));
  }

  /** One stage of `applyFilters`: `if (guard) filtered = filtered.filter(keep)`. */
  method FilterStage(filtered: seq<Property>, guard: bool, keep: Property -> bool) returns (r: seq<Property>)
    ensures r == FilterWhen(filtered, guard, keep)
  {
    r := filtered;
    if guard {
      r := Filter(r, keep);
    }
  }

  /**
   * `applyFilters`: start from the whole list and narrow it stage by stage,
   * each stage a `filter` under its own guard. The outcome is exactly the
   * one-pass specification.
   */
  method ApplyFilters(all: seq<Property>, searchQuery: string, filters: SearchFilters)
    returns (filtered: seq<Property>)
    ensures filtered == Matching(all, searchQuery, filters)
  {
    filtered := all;
    filtered := FilterStage(filtered, QueryActive(searchQuery), TextStage(Lower(searchQuery)));
    filtered := FilterStage(filtered, LocationActive(filters), LocationStage(Lower(filters.location.GetOr([]))));
    filtered := FilterStage(filtered, MinRentActive(filters), MinRentStage(filters.minRent.GetOr(0)));
    filtered := FilterStage(filtered, MaxRentActive(filters), MaxRentStage(filters.maxRent.GetOr(0)));
    filtered := FilterStage(filtered, TypeActive(filters), TypeStage(filters.propertyType.GetOr([])));
    filtered := FilterStage(filtered, BedroomsActive(filters), BedroomsStage(filters.bedrooms.GetOr(0)));
    filtered := FilterStage(filtered, BathroomsActive(filters), BathroomsStage(filters.bathrooms.GetOr(0)));
    filtered := FilterStage(filtered, AmenitiesActive(filters), AmenitiesStage(filters.amenities.GetOr([])));
    ChainIsMatching(all, searchQuery, filters);
  }

  // What the search result is, stated once for all inputs.

  /** The result keeps the catalog's order: it is a subsequence of it, and no longer. */
  lemma MatchingIsSubsequence(all: seq<Property>, searchQuery: string, f: SearchFilters)
    ensures IsSubsequence(Matching(all, searchQuery, f), all)
    ensures |Matching(all, searchQuery, f)| <= |all|
  {
    FilterIsSubsequence(all, Matches(searchQuery, f));
  }

  /** A property is in the result exactly when it is in the catalog and passes every active stage. */
  lemma MatchingMembership(all: seq<Property>, searchQuery: string, f: SearchFilters, p: Property)
    ensures p in Matching(all, searchQuery, f) <==> p in all && Satisfies(p, searchQuery, f)
  {
    FilterMembership(all, Matches(searchQuery, f), p);
  }

  /**
   * The result stage by stage: a catalog entry is kept exactly when the
   * lowered query (if non-empty) occurs in one of its texts, the lowered
   * location (if non-empty) in its city or state or raw zip code, the rent
   * lies within every non-zero bound (inclusive), its type is listed (if any
   * are), its counts reach the given thresholds, and every required amenity
   * is listed verbatim.
   */
  lemma KeptIffPassesEveryStage(all: seq<Property>, searchQuery: string, f: SearchFilters, p: Property)
    ensures p in Matching(all, searchQuery, f) <==>
      && p in all
      && (searchQuery != [] ==> TextMatches(p, Lower(searchQuery)))
      && (f.location.Some? && f.location.value != [] ==> LocationMatches(p, Lower(f.location.value)))
      && (f.minRent.Some? && f.minRent.value != 0 ==> p.rent >= f.minRent.value)
      && (f.maxRent.Some? && f.maxRent.value != 0 ==> p.rent <= f.maxRent.value)
      && (f.propertyType.Some? && f.propertyType.value != [] ==> TypeName(p.kind) in f.propertyType.value)
      && (f.bedrooms.Some? ==> p.bedrooms >= f.bedrooms.value)
      && (f.bathrooms.Some? ==> p.bathrooms >= f.bathrooms.value)
      && (f.amenities.Some? ==> forall a :: a in f.amenities.value ==> a in p.amenities)
  {
    MatchingMembership(all, searchQuery, f, p);
  }

  /** Two searches that accept the same catalog entries give the same result. */
  lemma SameVerdictSameResult(all: seq<Property>, q: string, f: SearchFilters, q': string, f': SearchFilters)
    requires forall p :: p in all ==> Satisfies(p, q, f) == Satisfies(p, q', f')
    ensures Matching(all, q, f) == Matching(all, q', f')
  {
    FilterCongruent(all, Matches(q, f), Matches(q', f'));
  }

  /** With the empty query and the empty filter record, every property is listed, in order. */
  lemma NoFiltersKeepsAll(all: seq<Property>)
    ensures Matching(all, [], NoFilters) == all
  {
    FilterKeepsAll(all, Matches([], NoFilters));
  }

  /** Filtering an already filtered result again with the same query and filters changes nothing. */
  lemma MatchingIdempotent(all: seq<Property>, searchQuery: string, f: SearchFilters)
    ensures Matching(Matching(all, searchQuery, f), searchQuery, f) == Matching(all, searchQuery, f)
  {
    FilterIdempotent(all, Matches(searchQuery, f));
  }

  /** The query is compared case-insensitively: lower-casing it first changes nothing. */
  lemma QueryCaseInsensitive(all: seq<Property>, searchQuery: string, f: SearchFilters)
    ensures Matching(all, Lower(searchQuery), f) == Matching(all, searchQuery, f)
  {
    LowerIdempotent(searchQuery);
    SameVerdictSameResult(all, Lower(searchQuery), f, searchQuery, f);
  }

  /** An empty location string is falsy, so it constrains nothing. */
  lemma EmptyLocationIgnored(all: seq<Property>, searchQuery: string, f: SearchFilters)
    ensures Matching(all, searchQuery, f.(location := Some([]))) == Matching(all, searchQuery, f.(location := None))
  {
    SameVerdictSameResult(all, searchQuery, f.(location := Some([])), searchQuery, f.(location := None));
  }

  /** A rent bound of 0 is falsy, so it is skipped just like an absent bound. */
  lemma ZeroRentBoundIgnored(all: seq<Property>, searchQuery: string, f: SearchFilters)
    ensures Matching(all, searchQuery, f.(minRent := Some(0))) == Matching(all, searchQuery, f.(minRent := None))
    ensures Matching(all, searchQuery, f.(maxRent := Some(0))) == Matching(all, searchQuery, f.(maxRent := None))
  {
    SameVerdictSameResult(all, searchQuery, f.(minRent := Some(0)), searchQuery, f.(minRent := None));
    SameVerdictSameResult(all, searchQuery, f.(maxRent := Some(0)), searchQuery, f.(maxRent := None));
  }

  /**
   * A threshold of 0 bedrooms or bathrooms keeps every property with a
   * non-negative count, studios (0 bedrooms) included, so it selects what
   * no threshold selects.
   */
  lemma ZeroThresholdKeepsAll(all: seq<Property>, searchQuery: string, f: SearchFilters)
    requires forall p :: p in all ==> p.bedrooms >= 0 && p.bathrooms >= 0
    ensures Matching(all, searchQuery, f.(bedrooms := Some(0))) == Matching(all, searchQuery, f.(bedrooms := None))
    ensures Matching(all, searchQuery, f.(bathrooms := Some(0))) == Matching(all, searchQuery, f.(bathrooms := None))
  {
    SameVerdictSameResult(all, searchQuery, f.(bedrooms := Some(0)), searchQuery, f.(bedrooms := None));
    SameVerdictSameResult(all, searchQuery, f.(bathrooms := Some(0)), searchQuery, f.(bathrooms := None));
  }

  /** Raising the bedroom threshold can only drop properties, never add one. */
  lemma RaisingBedroomsNarrows(all: seq<Property>, searchQuery: string, f: SearchFilters, low: int, high: int, p: Property)
    requires low <= high
    requires p in Matching(all, searchQuery, f.(bedrooms := Some(high)))
    ensures p in Matching(all, searchQuery, f.(bedrooms := Some(low)))
  {
    MatchingMembership(all, searchQuery, f.(bedrooms := Some(high)), p);
    MatchingMembership(all, searchQuery, f.(bedrooms := Some(low)), p);
  }

  /** Requiring one more amenity can only drop properties: the amenities are combined with AND. */
  lemma MoreAmenitiesNarrows(all: seq<Property>, searchQuery: string, f: SearchFilters, required: seq<string>, extra: string, p: Property)
    requires p in Matching(all, searchQuery, f.(amenities := Some(required + [extra])))
    ensures p in Matching(all, searchQuery, f.(amenities := Some(required)))
    ensures extra in p.amenities
  {
    MatchingMembership(all, searchQuery, f.(amenities := Some(required + [extra])), p);
    MatchingMembership(all, searchQuery, f.(amenities := Some(required)), p);
    assert extra in required + [extra];
    if required != [] {
      forall a | a in required ensures a in p.amenities {
        assert a in required + [extra];
      }
    }
  }

  /**
   * The search page's state. `catalog` is the fixed property list the page
   * filters; `filteredProperties` is what the page shows, kept equal to the
   * search result for the current query and filters (the page's effect
   * re-runs `applyFilters` whenever either changes).
   */
  class SearchPage {
    const catalog: seq<Property>
    var searchQuery: string
    var filters: SearchFilters
    var favorites: seq<string>
    var filteredProperties: seq<Property>

    ghost predicate Valid()
      reads this
    {
      filteredProperties == Matching(catalog, searchQuery, filters)
    }

    /** The page opens with the `q` URL parameter (or the empty query), no filters and no favorites. */
    constructor(catalog: seq<Property>, queryParam: Option<string>)
      ensures this.catalog == catalog
      ensures searchQuery == queryParam.GetOr([]) && filters == NoFilters && favorites == []
      ensures Valid()
    {
      var shown := ApplyFilters(catalog, queryParam.GetOr([]), NoFilters);
      this.catalog := catalog;
      searchQuery := queryParam.GetOr([]);
      filters := NoFilters;
      favorites := [];
      filteredProperties := shown;
    }

    /** Typing in the search box. */
    method SetSearchQuery(q: string)
      requires Valid()
      modifies this
      ensures searchQuery == q && filters == old(filters) && favorites == old(favorites)
      ensures Valid()
    {
      searchQuery := q;
      filteredProperties := ApplyFilters(catalog, searchQuery, filters);
    }

    /** The filter panel hands back a new filter record. */
    method SetFilters(f: SearchFilters)
      requires Valid()
      modifies this
      ensures filters == f && searchQuery == old(searchQuery) && favorites == old(favorites)
      ensures Valid()
    {
      filters := f;
      filteredProperties := ApplyFilters(catalog, searchQuery, filters);
    }

    /**
     * `handleSearch`: the `q` URL parameter to write, present exactly when
     * the query is non-empty (white space counts here). Reopening the page
     * with it restores the query.
     */
    method HandleSearch() returns (q: Option<string>)
      ensures q.Some? <==> searchQuery != []
      ensures q.GetOr([]) == searchQuery
    {
      if searchQuery != [] {
        q := Some(searchQuery);
      } else {
        q := None;
      }
    }

    /** `favorites.includes(property.id)`, the mark on a card. */
    predicate IsFavorited(propertyId: string)
      reads this
    {
      propertyId in favorites
    }

    /**
     * `resetFilters`: clear both the filters and the query, so the whole
     * catalog is shown again, and clear the `q` URL parameter (returned as
     * `q`, like `HandleSearch`).
     */
    method ResetFilters() returns (q: Option<string>)
      requires Valid()
      modifies this
      ensures q.None? && q.GetOr([]) == searchQuery
      ensures filters == NoFilters && searchQuery == [] && favorites == old(favorites)
      ensures filteredProperties == catalog
      ensures Valid()
    {
      filters := NoFilters;
      searchQuery := [];
      filteredProperties := ApplyFilters(catalog, searchQuery, filters);
      NoFiltersKeepsAll(catalog);
      q := None;
    }

    /** `toggleFavorite`: the id's favorite mark flips and the search is untouched. */
    method ToggleFavorite(propertyId: string)
      requires Valid()
      modifies this
      ensures favorites == Toggle(old(favorites), propertyId)
      ensures propertyId in favorites <==> propertyId !in old(favorites)
      ensures searchQuery == old(searchQuery) && filters == old(filters)
      ensures filteredProperties == old(filteredProperties)
      ensures Valid()
    {
      favorites := Toggle(favorites, propertyId);
    }
  }
}
