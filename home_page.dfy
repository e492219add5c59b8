/**
 * The city picker of the home page (the Location component of
 * src/pages/homePage.tsx): a text input holding the typed value, the list of
 * cities matching it case-insensitively, and whether the dropdown is open.
 */
module HomePage {
  import opened Common

  /** The filter test for one city: its lower-case form includes the lower-cased input. */
  function MatchesInput(value: string): string -> bool
  {
    city => Includes(Lower(city), Lower(value))
  }

  /** The cities handleChange keeps from `cities` for the typed value, in their original order. */
  function CitiesMatching(cities: seq<string>, value: string): (r: seq<string>)
    ensures forall c :: c in r ==> c in cities
  {
    var r := Filter(cities, MatchesInput(value));
    assert forall c :: c in r ==> multiset(r)[c] > 0;
    r
  }

  /**
   * A city is offered exactly when it is one of `cities` and the lower-cased
   * input occurs in its lower-cased name; the offered cities keep their
   * order.
   */
  lemma MatchingCities(cities: seq<string>, value: string)
    ensures forall c :: c in CitiesMatching(cities, value) <==> c in cities && IsSubstring(Lower(value), Lower(c))
    ensures IsSubsequence(CitiesMatching(cities, value), cities)
  {
    var r := CitiesMatching(cities, value);
    forall c | c in cities
      ensures MatchesInput(value)(c) <==> IsSubstring(Lower(value), Lower(c))
    {
      IncludesIffSubstring(Lower(c), Lower(value));
    }
    forall c
      ensures c in r <==> c in cities && MatchesInput(value)(c)
    {
      assert c in r <==> multiset(r)[c] > 0;
      assert c in cities <==> multiset(cities)[c] > 0;
    }
    FilterIsSubsequence(cities, MatchesInput(value));
  }

  /** Some city is offered exactly when the input occurs in some city's name, case aside. */
  lemma SomeCityOffered(cities: seq<string>, value: string)
    ensures |CitiesMatching(cities, value)| > 0 <==>
      exists c :: c in cities && IsSubstring(Lower(value), Lower(c))
  {
    var r := CitiesMatching(cities, value);
    MatchingCities(cities, value);
    if |r| > 0 {
      assert r[0] in r;
    }
  }

  /** An empty input offers every city. */
  lemma EmptyInputAllCities(cities: seq<string>)
    ensures CitiesMatching(cities, "") == cities
  {
    forall c | c in cities
      ensures MatchesInput("")(c)
    {
      IncludesEmpty(Lower(c));
    }
    FilterKeepsAll(cities, MatchesInput(""));
  }

  /** The typed value matches regardless of case: "KARACHI" still offers Karachi. */
  lemma UpperCaseInputMatchesCity(cities: seq<string>)
    requires "Karachi" in cities
    ensures "Karachi" in CitiesMatching(cities, "KARACHI")
  {
    SameLower("KARACHI", "Karachi");
    IncludesSelf(Lower("Karachi"));
    assert MatchesInput("KARACHI")("Karachi");
    assert multiset(cities)["Karachi"] > 0;
  }

  // ------------------------------------------------------------- state

  /** The component's three state variables. */
  datatype Picker = Picker(inputValue: string, filteredCities: seq<string>, showDropdown: bool)

  /** The list is rendered only when the dropdown is open and has an entry. */
  predicate DropdownShown(p: Picker): (r: bool)
    ensures r <==> p.showDropdown && |p.filteredCities| > 0
    ensures r ==> p.filteredCities[0] in p.filteredCities
  {
    p.showDropdown && |p.filteredCities| > 0
  }

  /** What the dropdown may list: some of `cities`, in their order. */
  ghost predicate OffersFrom(p: Picker, cities: seq<string>)
  {
    IsSubsequence(p.filteredCities, cities)
  }

  /** The state on first render: "Islamabad" typed, every city listed, dropdown closed. */
  function InitialPicker(cities: seq<string>): (r: Picker)
    ensures OffersFrom(r, cities)
    ensures !r.showDropdown && !DropdownShown(r)
  {
    SubsequenceOfItself(cities);
    Picker("Islamabad", cities, false)
  }

  /**
   * handleChange: the typed value, the dropdown opened, and some of the
   * cities, in their order, listed (ChangeShowsMatches says which).
   */
  function Change(p: Picker, cities: seq<string>, value: string): (r: Picker)
    ensures r.inputValue == value && r.showDropdown
    ensures OffersFrom(r, cities)
  {
    FilterIsSubsequence(cities, MatchesInput(value));
    Picker(value, CitiesMatching(cities, value), true)
  }

  /** handleSelect: the chosen city typed and the dropdown closed; the list stays. */
  function Select(p: Picker, city: string): (r: Picker)
    ensures r.inputValue == city && !r.showDropdown && !DropdownShown(r)
    ensures r.filteredCities == p.filteredCities
  {
    p.(inputValue := city, showDropdown := false)
  }

  /** onFocus opens the dropdown; onBlur (once its timer fires) closes it. */
  function SetOpen(p: Picker, open: bool): (r: Picker)
    ensures r.filteredCities == p.filteredCities && r.inputValue == p.inputValue
    ensures DropdownShown(r) <==> open && |p.filteredCities| > 0
  {
    p.(showDropdown := open)
  }

  /**
   * After a change the dropdown shows exactly when the typed value occurs,
   * case aside, in some city's name, and it lists only cities, in order.
   */
  lemma ChangeShowsMatches(p: Picker, cities: seq<string>, value: string)
    ensures OffersFrom(Change(p, cities, value), cities)
    ensures DropdownShown(Change(p, cities, value)) <==>
      exists c :: c in cities && IsSubstring(Lower(value), Lower(c))
    ensures forall c :: c in Change(p, cities, value).filteredCities <==>
      c in cities && IsSubstring(Lower(value), Lower(c))
  {
    SomeCityOffered(cities, value);
    MatchingCities(cities, value);
  }

  /** Clearing the input lists every city again and opens the dropdown. */
  lemma ClearingListsAll(p: Picker, cities: seq<string>)
    ensures Change(p, cities, "").filteredCities == cities
    ensures DropdownShown(Change(p, cities, "")) <==> |cities| > 0
  {
    EmptyInputAllCities(cities);
  }

  /** Picking a city after typing keeps the list the typing produced, and closes it. */
  lemma SelectAfterChange(p: Picker, cities: seq<string>, value: string, city: string)
    ensures Select(Change(p, cities, value), city).filteredCities == CitiesMatching(cities, value)
    ensures Select(Change(p, cities, value), city).inputValue == city
    ensures OffersFrom(Select(Change(p, cities, value), city), cities)
  {
    ChangeShowsMatches(p, cities, value);
  }

  /** The Location component. */
  class LocationPicker {
    /** The fixed cities the picker offers, in display order. */
    const cities: seq<string>
    var inputValue: string
    var filteredCities: seq<string>
    var showDropdown: bool

    function State(): Picker
      reads this
    {
      Picker(inputValue, filteredCities, showDropdown)
    }

    ghost predicate Valid()
      reads this
    {
      OffersFrom(State(), cities)
    }

    constructor ()
      ensures cities == ["Islamabad", "Karachi", "Lahore", "Austin, TX", "San Francisco, CA"]
      ensures State() == InitialPicker(cities)
      ensures Valid()
    {
      var all := ["Islamabad", "Karachi", "Lahore", "Austin, TX", "San Francisco, CA"];
      cities := all;
      inputValue := "Islamabad";
      filteredCities := all;
      showDropdown := false;
      SubsequenceOfItself(all);
    }

    method HandleChange(value: string)
      modifies this
      ensures State() == Change(old(State()), cities, value)
      ensures Valid()
    {
      var next := Change(State(), cities, value);
      inputValue := next.inputValue;
      showDropdown := next.showDropdown;
      filteredCities := next.filteredCities;
    }

    method HandleSelect(city: string)
      requires Valid()
      modifies this
      ensures State() == Select(old(State()), city)
      ensures Valid()
    {
      inputValue := city;
      showDropdown := false;
    }

    method HandleFocus()
      requires Valid()
      modifies this
      ensures State() == SetOpen(old(State()), true)
      ensures Valid()
    {
      showDropdown := true;
    }

    /** onBlur, once its 100 ms timer has fired. */
    method HandleBlur()
      requires Valid()
      modifies this
      ensures State() == SetOpen(old(State()), false)
      ensures Valid()
    {
      showDropdown := false;
    }
  }
}
