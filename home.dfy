/**
 * The home page: up to three featured listings, a search box that only
 * navigates when the query has something other than white space, and a
 * favorites list.
 */
module Home {
  import opened Rental
  import opened Lists
  import opened Text

  /** `p.featured` is truthy only when it is present and true. */
  predicate IsFeatured(p: Property) {
    p.featured == Some(true)
  }

  function Min(a: int, b: int): int {
    if a <= b then a else b
  }

  /** `filter(p => p.featured)`: the featured listings in catalog order. */
  function AllFeatured(catalog: seq<Property>): seq<Property> {
    Filter(catalog, IsFeatured)
  }

  /**
   * `filter(p => p.featured).slice(0, 3)`: the first featured listings, at
   * most three, in catalog order.
   */
  function Featured(catalog: seq<Property>): (r: seq<Property>)
    ensures |r| <= 3
    ensures forall p :: p in r ==> p in catalog && IsFeatured(p)
  {
    var featured := AllFeatured(catalog);
    featured[..Min(3, |featured|)]
  }

  /**
   * The selection is exactly the first up-to-three featured listings: a
   * prefix of the featured ones, as long as it can be without passing three,
   * in catalog order; with three or fewer featured listings, all of them.
   */
  lemma FeaturedIsFirstThree(catalog: seq<Property>)
    ensures Featured(catalog) <= AllFeatured(catalog)
    ensures |Featured(catalog)| == Min(3, |AllFeatured(catalog)|)
    ensures IsSubsequence(Featured(catalog), catalog)
    ensures |AllFeatured(catalog)| <= 3 ==>
      forall p :: p in catalog && IsFeatured(p) ==> p in Featured(catalog)
  {
    var featured := AllFeatured(catalog);
    var r := Featured(catalog);
    var idx := FilterEmbedding(catalog, IsFeatured);
    assert Embedding(idx[..|r|], r, catalog);
    if |featured| <= 3 {
      assert r == featured;
      forall p | p in catalog && IsFeatured(p) ensures p in r {
        FilterMembership(catalog, IsFeatured, p);
      }
    }
  }

  /**
   * `searchQuery.trim()` is truthy: search navigates exactly when some
   * character of the query is not white space.
   */
  predicate ShouldSearch(searchQuery: string): (go: bool)
    ensures go <==> exists i :: 0 <= i < |searchQuery| && !IsWhitespace(searchQuery[i])
  {
    TrimEmpty(searchQuery);
    Trim(searchQuery) != []
  }

  /** The home page's state. */
  class HomePage {
    var featuredProperties: seq<Property>
    var searchQuery: string
    var favorites: seq<string>

    /** The page opens with the featured selection, an empty query and no favorites. */
    constructor(catalog: seq<Property>)
      ensures featuredProperties == Featured(catalog)
      ensures searchQuery == [] && favorites == []
    {
      featuredProperties := Featured(catalog);
      searchQuery := [];
      favorites := [];
    }

    /** Typing in the search box. */
    method SetSearchQuery(q: string)
      modifies this
      ensures searchQuery == q
      ensures featuredProperties == old(featuredProperties) && favorites == old(favorites)
    {
      searchQuery := q;
    }

    /**
     * `handleSearch`: the query to put in the search page's URL, or none
     * when the trimmed query is empty. The query travels untrimmed.
     */
    method HandleSearch() returns (target: Option<string>)
      ensures target.Some? <==> exists i :: 0 <= i < |searchQuery| && !IsWhitespace(searchQuery[i])
      ensures target.Some? ==> target.value == searchQuery
    {
      if ShouldSearch(searchQuery) {
        target := Some(searchQuery);
      } else {
        target := None;
      }
    }

    /** `favorites.includes(property.id)`, the mark on a card. */
    predicate IsFavorited(propertyId: string)
      reads this
    {
      propertyId in favorites
    }

    /** `toggleFavorite`: a listed id loses every occurrence, an unlisted id is appended. */
    method ToggleFavorite(propertyId: string)
      modifies this
      ensures favorites == Toggle(old(favorites), propertyId)
      ensures IsFavorited(propertyId) <==> !old(IsFavorited(propertyId))
      ensures forall id :: id != propertyId ==> (IsFavorited(id) <==> old(IsFavorited(id)))
      ensures NoDuplicates(old(favorites)) ==> NoDuplicates(favorites)
      ensures featuredProperties == old(featuredProperties) && searchQuery == old(searchQuery)
    {
      if NoDuplicates(favorites) {
        ToggleNoDuplicates(favorites, propertyId);
      }
      favorites := Toggle(favorites, propertyId);
    }
  }
}
