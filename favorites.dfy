/**
 * The favorites page: a list of favorite property ids, and the cards shown
 * for it, recomputed from the property list whenever the ids change.
 */
module Favorites {
  import opened Rental
  import opened Lists

  /** The ids the page starts with. */
  const InitialFavorites: seq<string> := ["1", "3"]

  /** The projection callback: the property's id is a favorite. */
  function InFavorites(favorites: seq<string>): Property -> bool {
    (p: Property) => p.id in favorites
  }

  /**
   * The cards shown: the catalog entries whose id is a favorite, in catalog
   * order. Each shown card is marked favorited.
   */
  function Displayed(catalog: seq<Property>, favorites: seq<string>): (r: seq<Property>)
    ensures forall p :: p in r ==> p in catalog && p.id in favorites
  {
    Filter(catalog, InFavorites(favorites))
  }

  /** A catalog entry is shown exactly when its id is a favorite. */
  lemma DisplayedMembership(catalog: seq<Property>, favorites: seq<string>, p: Property)
    ensures p in Displayed(catalog, favorites) <==> p in catalog && p.id in favorites
  {
    FilterMembership(catalog, InFavorites(favorites), p);
  }

  /** The cards keep the catalog's order. */
  lemma DisplayedInCatalogOrder(catalog: seq<Property>, favorites: seq<string>)
    ensures IsSubsequence(Displayed(catalog, favorites), catalog)
  {
    FilterIsSubsequence(catalog, InFavorites(favorites));
  }

  /**
   * Only which ids are favorites matters, not their order or repetition:
   * the cards follow the catalog, not the favorites list.
   */
  lemma DisplayedIgnoresFavoritesOrder(catalog: seq<Property>, favorites: seq<string>, favorites': seq<string>)
    requires forall id :: id in favorites <==> id in favorites'
    ensures Displayed(catalog, favorites) == Displayed(catalog, favorites')
  {
    FilterCongruent(catalog, InFavorites(favorites), InFavorites(favorites'));
  }

  /** After an id is toggled off, no card with that id is shown. */
  lemma ToggledOffNotDisplayed(catalog: seq<Property>, favorites: seq<string>, id: string)
    requires id in favorites
    ensures forall p :: p in Displayed(catalog, Toggle(favorites, id)) ==> p.id != id
  {
  }

  /** After an id is toggled on, every catalog entry with that id is shown, and every card shown before still is. */
  lemma ToggledOnDisplayed(catalog: seq<Property>, favorites: seq<string>, id: string)
    requires id !in favorites
    ensures forall p :: p in catalog && p.id == id ==> p in Displayed(catalog, Toggle(favorites, id))
    ensures forall p :: p in Displayed(catalog, favorites) ==> p in Displayed(catalog, Toggle(favorites, id))
  {
    forall p | p in catalog && (p.id == id || p.id in favorites)
      ensures p in Displayed(catalog, Toggle(favorites, id))
    {
      DisplayedMembership(catalog, Toggle(favorites, id), p);
    }
  }

  /**
   * The favorites page's state. `favoriteProperties` is kept equal to the
   * projection of the catalog on the current favorites (the page's effect
   * recomputes it whenever the ids change).
   */
  class FavoritesPage {
    const catalog: seq<Property>
    var favorites: seq<string>
    var favoriteProperties: seq<Property>

    ghost predicate Valid()
      reads this
    {
      favoriteProperties == Displayed(catalog, favorites)
    }

    /** The page opens with the ids '1' and '3'. */
    constructor(catalog: seq<Property>)
      ensures this.catalog == catalog && favorites == InitialFavorites
      ensures Valid()
    {
      this.catalog := catalog;
      favorites := InitialFavorites;
      favoriteProperties := Displayed(catalog, InitialFavorites);
    }

    /**
     * `favorites.includes(property.id)`, the mark on a card. Every card the
     * page shows carries the mark.
     */
    predicate IsFavorited(propertyId: string): (marked: bool)
      reads this
      ensures Valid() && (exists p :: p in favoriteProperties && p.id == propertyId) ==> marked
    {
      propertyId in favorites
    }

    /**
     * `toggleFavorite`: a listed id loses every occurrence, an unlisted id
     * is appended, and the cards follow.
     */
    method ToggleFavorite(propertyId: string)
      requires Valid()
      modifies this
      ensures favorites == Toggle(old(favorites), propertyId)
      ensures IsFavorited(propertyId) <==> !old(IsFavorited(propertyId))
      ensures old(IsFavorited(propertyId)) ==> forall p :: p in favoriteProperties ==> p.id != propertyId
      ensures Valid()
    {
      favorites := Toggle(favorites, propertyId);
      favoriteProperties := Displayed(catalog, favorites);
    }
  }
}
