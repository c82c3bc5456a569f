/**
 * The sample listings and lease the pages load, and what the model says the
 * pages show for them.
 */
module MockData {
  import opened Rental
  import opened Lists
  import opened Search
  import opened Leases
  import opened Favorites
  import opened Home

  const DowntownApartment := Property(
    "1", "Modern Downtown Apartment",
    "Beautiful 2-bedroom apartment in the heart of downtown with stunning city views and modern amenities.",
    Apartment,
    Location("123 Main Street", "New York", "NY", "10001", None),
    2500, 2500, 2, 2, 1200,
    ["Air Conditioning", "Gym", "Pool", "Parking", "Laundry"],
    ["/placeholder.svg"],
    "1", "John Smith", "john.smith@email.com", "+1 (555) 123-4567",
    Availability(true, "2024-02-01"),
    "2024-01-15T10:00:00Z", "2024-01-15T10:00:00Z",
    Some(true))

  const CozyStudio := Property(
    "2", "Cozy Studio Apartment",
    "Perfect studio apartment for young professionals. Includes all utilities and high-speed internet.",
    Studio,
    Location("456 Oak Avenue", "San Francisco", "CA", "94102", None),
    1800, 1800, 0, 1, 500,
    ["WiFi", "Utilities Included", "Pet Friendly"],
    ["/placeholder.svg"],
    "3", "Mike Davis", "mike.davis@email.com", "+1 (555) 345-6789",
    Availability(true, "2024-01-25"),
    "2024-01-10T14:30:00Z", "2024-01-10T14:30:00Z",
    None)

  const FamilyHouse := Property(
    "3", "Luxury Family House",
    "Spacious 4-bedroom house with garden, perfect for families. Located in a quiet neighborhood.",
    House,
    Location("789 Pine Street", "Austin", "TX", "73301", None),
    3200, 3200, 4, 3, 2800,
    ["Garden", "Garage", "Air Conditioning", "Fireplace"],
    ["/placeholder.svg"],
    "1", "John Smith", "john.smith@email.com", "+1 (555) 123-4567",
    Availability(true, "2024-03-01"),
    "2024-01-12T09:15:00Z", "2024-01-12T09:15:00Z",
    None)

  const MockProperties: seq<Property> := [DowntownApartment, CozyStudio, FamilyHouse]

  const PendingLease := LeaseAgreement(
    "1", "1", "1", "2", "2024-02-01", "2025-02-01", 2500, 2500,
    "Standard lease agreement terms and conditions...",
    PendingApproval,
    Signatures(Some(Signature(false, None, None)), Some(Signature(false, None, None))),
    "2024-01-20T15:00:00Z", "2024-01-20T15:00:00Z")

  const MockLeases: seq<LeaseAgreement> := [PendingLease]

  /** Filtering the three sample listings, one verdict at a time. */
  lemma FilterSamples(keep: Property -> bool)
    ensures Filter(MockProperties, keep)
         == (if keep(DowntownApartment) then [DowntownApartment] else [])
          + (if keep(CozyStudio) then [CozyStudio] else [])
          + (if keep(FamilyHouse) then [FamilyHouse] else [])
  {
    assert MockProperties == [DowntownApartment] + [CozyStudio] + [FamilyHouse];
    FilterAppend([DowntownApartment] + [CozyStudio], [FamilyHouse], keep);
    FilterAppend([DowntownApartment], [CozyStudio], keep);
  }

  /** The home page features the downtown apartment only: it is the one listing marked featured. */
  lemma HomeFeaturesDowntown()
    ensures Featured(MockProperties) == [DowntownApartment]
  {
    FilterSamples(IsFeatured);
  }

  /** The favorites page opens with listings '1' and '3', in catalog order. */
  lemma FavoritesPageOpensWithTwo()
    ensures Displayed(MockProperties, InitialFavorites) == [DowntownApartment, FamilyHouse]
  {
    FilterSamples(InFavorites(InitialFavorites));
  }

  /** Rent between 2000 and 3000 keeps only the downtown apartment. */
  lemma RentRangeKeepsDowntown()
    ensures Matching(MockProperties, [], NoFilters.(minRent := Some(2000), maxRent := Some(3000))) == [DowntownApartment]
  {
    FilterSamples(Matches([], NoFilters.(minRent := Some(2000), maxRent := Some(3000))));
  }

  /** A threshold of 0 bedrooms keeps the studio; a threshold of 1 drops it. */
  lemma StudioThresholds()
    ensures Matching(MockProperties, [], NoFilters.(bedrooms := Some(0))) == MockProperties
    ensures Matching(MockProperties, [], NoFilters.(bedrooms := Some(1))) == [DowntownApartment, FamilyHouse]
  {
    ZeroThresholdKeepsAll(MockProperties, [], NoFilters);
    NoFiltersKeepsAll(MockProperties);
    FilterSamples(Matches([], NoFilters.(bedrooms := Some(1))));
  }

  /** Amenities match verbatim: "Garden" finds the family house... */
  lemma GardenFindsHouse()
    ensures Matching(MockProperties, [], NoFilters.(amenities := Some(["Garden"]))) == [FamilyHouse]
  {
    var f := NoFilters.(amenities := Some(["Garden"]));
    assert !Satisfies(DowntownApartment, [], f) by {
      assert "Garden" !in DowntownApartment.amenities;
    }
    assert !Satisfies(CozyStudio, [], f) by {
      assert "Garden" !in CozyStudio.amenities;
    }
    assert Satisfies(FamilyHouse, [], f) by {
      assert FamilyHouse.amenities[0] == "Garden";
    }
    FilterSamples(Matches([], f));
  }

  /** ...while "garden" finds nothing. */
  lemma LowerCaseGardenFindsNothing()
    ensures Matching(MockProperties, [], NoFilters.(amenities := Some(["garden"]))) == []
  {
    var f := NoFilters.(amenities := Some(["garden"]));
    assert !Satisfies(DowntownApartment, [], f) by {
      assert "garden" !in DowntownApartment.amenities;
    }
    assert !Satisfies(CozyStudio, [], f) by {
      assert "garden" !in CozyStudio.amenities;
    }
    assert !Satisfies(FamilyHouse, [], f) by {
      assert "garden" !in FamilyHouse.amenities;
    }
    FilterSamples(Matches([], f));
  }

  /**
   * The sample lease is pending approval: only View and Approve are offered;
   * approving then signing at `now` leaves it signed by the tenant, with the
   * landlord's unsigned signature untouched.
   */
  lemma SampleLeaseWalkthrough(now: string)
    ensures Offered(PendingLease, View) && Offered(PendingLease, Approve)
    ensures !Offered(PendingLease, Edit) && !Offered(PendingLease, Sign) && !Offered(PendingLease, Download)
    ensures var approved := Perform(MockLeases, PendingLease, Approve, now);
      && Offered(approved[0], Sign)
      && var signed := Perform(approved, approved[0], Sign, now);
         && signed[0].status == Signed
         && signed[0].signatures.tenant == Some(Signature(true, Some(now), None))
         && signed[0].signatures.landlord == Some(Signature(false, None, None))
         && !Offered(signed[0], Sign) && Offered(signed[0], Download)
  {
  }
}
