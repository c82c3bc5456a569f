/**
 * The filter panel: it never mutates the filter record it is given, it
 * builds a new one (one key replaced) and hands it to the page. Also the
 * conversions between the record's values and what its inputs show and
 * return.
 */
module FilterPanel {
  import opened Rental
  import opened Lists
  import opened Numerals
  import opened Search

  /** The keys of the filter record. */
  datatype FilterKey =
    | LocationKey
    | MinRentKey
    | MaxRentKey
    | PropertyTypeKey
    | BedroomsKey
    | BathroomsKey
    | AmenitiesKey

  /** A value stored under one key; `None` is `undefined`. */
  datatype FieldValue =
    | TextValue(text: Option<string>)
    | NumberValue(number: Option<int>)
    | ListValue(list: Option<seq<string>>)

  /** The value has the shape the key's field is declared with. */
  predicate WellTyped(k: FilterKey, v: FieldValue) {
    match k
    case LocationKey => v.TextValue?
    case MinRentKey | MaxRentKey | BedroomsKey | BathroomsKey => v.NumberValue?
    case PropertyTypeKey | AmenitiesKey => v.ListValue?
  }

  /** `filters[key]`. */
  function Field(f: SearchFilters, k: FilterKey): (v: FieldValue)
    ensures WellTyped(k, v)
  {
    match k
    case LocationKey => TextValue(f.location)
    case MinRentKey => NumberValue(f.minRent)
    case MaxRentKey => NumberValue(f.maxRent)
    case PropertyTypeKey => ListValue(f.propertyType)
    case BedroomsKey => NumberValue(f.bedrooms)
    case BathroomsKey => NumberValue(f.bathrooms)
    case AmenitiesKey => ListValue(f.amenities)
  }

  /** `updateFilters(key, value)`: `{ ...filters, [key]: value }`. */
  function UpdateFilters(f: SearchFilters, k: FilterKey, v: FieldValue): (r: SearchFilters)
    requires WellTyped(k, v)
    ensures Field(r, k) == v
    ensures forall k' :: k' != k ==> Field(r, k') == Field(f, k')
  {
    match k
    case LocationKey => f.(location := v.text)
    case MinRentKey => f.(minRent := v.number)
    case MaxRentKey => f.(maxRent := v.number)
    case PropertyTypeKey => f.(propertyType := v.list)
    case BedroomsKey => f.(bedrooms := v.number)
    case BathroomsKey => f.(bathrooms := v.number)
    case AmenitiesKey => f.(amenities := v.list)
  }

  /** A record is determined by its fields. */
  lemma FieldsDetermineRecord(f: SearchFilters, g: SearchFilters)
    requires forall k :: Field(f, k) == Field(g, k)
    ensures f == g
  {
    assert Field(f, LocationKey) == Field(g, LocationKey);
    assert Field(f, MinRentKey) == Field(g, MinRentKey);
    assert Field(f, MaxRentKey) == Field(g, MaxRentKey);
    assert Field(f, PropertyTypeKey) == Field(g, PropertyTypeKey);
    assert Field(f, BedroomsKey) == Field(g, BedroomsKey);
    assert Field(f, BathroomsKey) == Field(g, BathroomsKey);
    assert Field(f, AmenitiesKey) == Field(g, AmenitiesKey);
  }

  /** Storing a field's own value gives the record back. */
  lemma UpdateSameValue(f: SearchFilters, k: FilterKey)
    ensures UpdateFilters(f, k, Field(f, k)) == f
  {
    FieldsDetermineRecord(UpdateFilters(f, k, Field(f, k)), f);
  }

  /** Of two updates of the same key, the later one wins. */
  lemma UpdateTwiceLastWins(f: SearchFilters, k: FilterKey, v: FieldValue, w: FieldValue)
    requires WellTyped(k, v) && WellTyped(k, w)
    ensures UpdateFilters(UpdateFilters(f, k, v), k, w) == UpdateFilters(f, k, w)
  {
    FieldsDetermineRecord(UpdateFilters(UpdateFilters(f, k, v), k, w), UpdateFilters(f, k, w));
  }

  /** Updates of two different keys commute. */
  lemma UpdatesCommute(f: SearchFilters, k: FilterKey, v: FieldValue, k': FilterKey, v': FieldValue)
    requires k != k' && WellTyped(k, v) && WellTyped(k', v')
    ensures UpdateFilters(UpdateFilters(f, k, v), k', v') == UpdateFilters(UpdateFilters(f, k', v'), k, v)
  {
    FieldsDetermineRecord(UpdateFilters(UpdateFilters(f, k, v), k', v'),
                          UpdateFilters(UpdateFilters(f, k', v'), k, v));
  }

  /**
   * `togglePropertyType(type)`: the current list (an absent list counts as
   * empty) loses every occurrence of a listed type or gains an unlisted one
   * at the end; only the property-type field changes.
   */
  function TogglePropertyType(f: SearchFilters, t: string): (r: SearchFilters)
    ensures r.propertyType.Some?
    ensures t in r.propertyType.value <==> t !in f.propertyType.GetOr([])
    ensures forall u :: u in r.propertyType.value && u != t ==> u in f.propertyType.GetOr([])
    ensures forall u :: u in f.propertyType.GetOr([]) && u != t ==> u in r.propertyType.value
    ensures forall k :: k != PropertyTypeKey ==> Field(r, k) == Field(f, k)
  {
    var current := f.propertyType.GetOr([]);
    UpdateFilters(f, PropertyTypeKey, ListValue(Some(Toggle(current, t))))
  }

  /** `toggleAmenity(amenity)`: the same toggle on the amenities field, and only there. */
  function ToggleAmenity(f: SearchFilters, amenity: string): (r: SearchFilters)
    ensures r.amenities.Some?
    ensures amenity in r.amenities.value <==> amenity !in f.amenities.GetOr([])
    ensures forall u :: u in r.amenities.value && u != amenity ==> u in f.amenities.GetOr([])
    ensures forall u :: u in f.amenities.GetOr([]) && u != amenity ==> u in r.amenities.value
    ensures forall k :: k != AmenitiesKey ==> Field(r, k) == Field(f, k)
  {
    var current := f.amenities.GetOr([]);
    UpdateFilters(f, AmenitiesKey, ListValue(Some(Toggle(current, amenity))))
  }

  /** With no list yet, the first toggle gives the one-element list. */
  lemma FirstTypeToggle(f: SearchFilters, t: string)
    requires f.propertyType.None?
    ensures TogglePropertyType(f, t).propertyType == Some([t])
  {
    assert [] + [t] == [t];
  }

  /** Toggling a type that is not listed, twice, restores the record exactly. */
  lemma TypeToggleTwiceRestores(f: SearchFilters, t: string)
    requires f.propertyType.Some? && t !in f.propertyType.value
    ensures TogglePropertyType(TogglePropertyType(f, t), t) == f
  {
    ToggleTwiceRestores(f.propertyType.value, t);
  }

  /**
   * From an absent list, toggling twice leaves an empty list rather than no
   * list; the search treats the two alike, so the results agree.
   */
  lemma TypeToggleTwiceFromAbsent(f: SearchFilters, t: string, all: seq<Property>, q: string)
    requires f.propertyType.None?
    ensures TogglePropertyType(TogglePropertyType(f, t), t) == f.(propertyType := Some([]))
    ensures Matching(all, q, TogglePropertyType(TogglePropertyType(f, t), t)) == Matching(all, q, f)
  {
    ToggleTwiceRestores([], t);
    SameVerdictSameResult(all, q, f.(propertyType := Some([])), q, f);
  }

  /** Toggling an amenity that is not listed, twice, restores the record exactly. */
  lemma AmenityToggleTwiceRestores(f: SearchFilters, amenity: string)
    requires f.amenities.Some? && amenity !in f.amenities.value
    ensures ToggleAmenity(ToggleAmenity(f, amenity), amenity) == f
  {
    ToggleTwiceRestores(f.amenities.value, amenity);
  }

  /** A duplicate-free list of types or amenities stays duplicate-free under toggling. */
  lemma PanelTogglesNoDuplicates(f: SearchFilters, t: string, amenity: string)
    requires NoDuplicates(f.propertyType.GetOr([])) && NoDuplicates(f.amenities.GetOr([]))
    ensures NoDuplicates(TogglePropertyType(f, t).propertyType.value)
    ensures NoDuplicates(ToggleAmenity(f, amenity).amenities.value)
  {
    ToggleNoDuplicates(f.propertyType.GetOr([]), t);
    ToggleNoDuplicates(f.amenities.GetOr([]), amenity);
  }

  /** The check-box labels of the property-type section. */
  const PropertyTypes: seq<string> := ["apartment", "house", "condo", "studio", "room"]

  /** The check boxes are exactly the five category names, each once. */
  lemma PropertyTypesAreTheCategories()
    ensures forall t :: TypeName(t) in PropertyTypes
    ensures forall i :: 0 <= i < |PropertyTypes| ==> exists t :: TypeName(t) == PropertyTypes[i]
    ensures NoDuplicates(PropertyTypes)
  {
    assert TypeName(Apartment) == PropertyTypes[0];
    assert TypeName(House) == PropertyTypes[1];
    assert TypeName(Condo) == PropertyTypes[2];
    assert TypeName(Studio) == PropertyTypes[3];
    assert TypeName(Room) == PropertyTypes[4];
  }

  /** The check-box labels of the amenities section. */
  const AmenitiesList: seq<string> := [
    "Air Conditioning", "Gym", "Pool", "Parking", "Laundry",
    "WiFi", "Pet Friendly", "Garden", "Garage", "Fireplace"]

  /** `filters.propertyType?.includes(type) || false`: whether a type's box is ticked. */
  predicate TypeChecked(f: SearchFilters, t: string) {
    t in f.propertyType.GetOr([])
  }

  /** `filters.amenities?.includes(amenity) || false`: whether an amenity's box is ticked. */
  predicate AmenityChecked(f: SearchFilters, amenity: string) {
    amenity in f.amenities.GetOr([])
  }

  /**
   * Each box of the panel is keyed by its label and no label repeats, so
   * clicking one box flips that box only: every other type box and every
   * amenity box keeps its tick, and the other way round.
   */
  lemma ClickFlipsOnlyThatBox(f: SearchFilters, t: string, amenity: string)
    ensures NoDuplicates(PropertyTypes) && NoDuplicates(AmenitiesList)
    ensures TypeChecked(TogglePropertyType(f, t), t) <==> !TypeChecked(f, t)
    ensures forall u :: u != t ==> (TypeChecked(TogglePropertyType(f, t), u) <==> TypeChecked(f, u))
    ensures forall u :: AmenityChecked(TogglePropertyType(f, t), u) <==> AmenityChecked(f, u)
    ensures AmenityChecked(ToggleAmenity(f, amenity), amenity) <==> !AmenityChecked(f, amenity)
    ensures forall u :: u != amenity ==> (AmenityChecked(ToggleAmenity(f, amenity), u) <==> AmenityChecked(f, u))
    ensures forall u :: TypeChecked(ToggleAmenity(f, amenity), u) <==> TypeChecked(f, u)
  {
    PropertyTypesAreTheCategories();
    assert Field(TogglePropertyType(f, t), AmenitiesKey) == Field(f, AmenitiesKey);
    assert Field(ToggleAmenity(f, amenity), PropertyTypeKey) == Field(f, PropertyTypeKey);
  }

  /** What a number input may return: nothing, or an integer numeral. */
  predicate IsInputText(text: string) {
    text == [] || IsNumeral(text)
  }

  /** `value ? Number(value) : undefined`, shared by the rent inputs and the count selects. */
  function FromInput(text: string): (v: Option<int>)
    requires IsInputText(text)
    ensures v.None? <==> text == []
  {
    if text != [] then Some(NumberOf(text)) else None
  }

  /** What a rent input shows: `filters.minRent || ''`, so 0 shows as empty. */
  function RentInputText(v: Option<int>): (text: string)
    ensures IsInputText(text)
    ensures text == [] <==> v.None? || v.value == 0
  {
    if v.Some? && v.value != 0 then ShowInt(v.value) else []
  }

  /** What a count select shows: `filters.bedrooms?.toString() || ''`, so 0 shows as "0". */
  function CountChoiceText(v: Option<int>): (text: string)
    ensures IsInputText(text)
    ensures text == [] <==> v.None?
  {
    if v.Some? then ShowInt(v.value) else []
  }

  /** A non-empty numeric input gives back the number it shows. */
  lemma FromInputShowInt(n: int)
    ensures FromInput(ShowInt(n)) == Some(n)
  {
    NumberOfShowInt(n);
  }

  /**
   * A rent bound survives a trip through its input, except that 0 (shown
   * empty) comes back as undefined; the search treats both alike.
   */
  lemma RentInputRoundTrip(v: Option<int>)
    ensures FromInput(RentInputText(v)) == (if v == Some(0) then None else v)
  {
    if v.Some? && v.value != 0 {
      FromInputShowInt(v.value);
    }
  }

  /** Typing back what the min-rent input shows gives a record with the same search result. */
  lemma RentInputKeepsResult(f: SearchFilters, all: seq<Property>, q: string)
    ensures Matching(all, q, UpdateFilters(f, MinRentKey, NumberValue(FromInput(RentInputText(f.minRent)))))
         == Matching(all, q, f)
  {
    RentInputRoundTrip(f.minRent);
    SameVerdictSameResult(all, q, UpdateFilters(f, MinRentKey, NumberValue(FromInput(RentInputText(f.minRent)))), q, f);
  }

  /** A count survives a trip through its select unchanged, 0 included. */
  lemma CountChoiceRoundTrip(v: Option<int>)
    ensures FromInput(CountChoiceText(v)) == v
  {
    if v.Some? {
      FromInputShowInt(v.value);
    }
  }

  /** A select option: the value it submits and the caption it shows. */
  datatype Choice = Choice(value: string, caption: string)

  const BedroomChoices: seq<Choice> := [
    Choice("", "Any"), Choice("0", "Studio"), Choice("1", "1+"),
    Choice("2", "2+"), Choice("3", "3+"), Choice("4", "4+")]

  const BathroomChoices: seq<Choice> := [
    Choice("", "Any"), Choice("1", "1+"), Choice("2", "2+"), Choice("3", "3+")]

  /** "Any" sets no threshold, "Studio" sets 0, and "N+" sets N. */
  lemma BedroomChoicesMeaning()
    ensures forall c :: c in BedroomChoices ==> IsInputText(c.value)
    ensures FromInput(BedroomChoices[0].value) == None
    ensures forall i :: 1 <= i < |BedroomChoices| ==> FromInput(BedroomChoices[i].value) == Some(i - 1)
  {
    forall i | 1 <= i < |BedroomChoices| ensures FromInput(BedroomChoices[i].value) == Some(i - 1) {
      FromInputShowInt(i - 1);
      assert BedroomChoices[i].value == ShowInt(i - 1);
    }
  }

  /** "Any" sets no threshold and "N+" sets N. */
  lemma BathroomChoicesMeaning()
    ensures forall c :: c in BathroomChoices ==> IsInputText(c.value)
    ensures FromInput(BathroomChoices[0].value) == None
    ensures forall i :: 1 <= i < |BathroomChoices| ==> FromInput(BathroomChoices[i].value) == Some(i)
  {
    forall i | 1 <= i < |BathroomChoices| ensures FromInput(BathroomChoices[i].value) == Some(i) {
      FromInputShowInt(i);
      assert BathroomChoices[i].value == ShowInt(i);
    }
  }
}
