/** The city input with its suggestion dropdown. The typed value is owned by
    the parent form and arrives as a parameter; the component keeps whether
    the dropdown is open and which cities it lists, and updates both when the
    value changes, when the input gains focus and when a city is chosen. The
    city list is fixed for the component's lifetime. */
module CityAutocomplete {
  import opened JsValues

  datatype City = City(name: string, code: string)

  /** The filter predicate: the lower-cased value occurs in the lower-cased
      name or in the lower-cased code. */
  predicate Matches(city: City, value: string)
    ensures Lower(value) <= Lower(city.name) ==> Matches(city, value)
    ensures Lower(value) <= Lower(city.code) ==> Matches(city, value)
    ensures Matches(city, value) ==> |value| <= |city.name| || |value| <= |city.code|
  {
    Includes(Lower(city.name), Lower(value)) || Includes(Lower(city.code), Lower(value))
  }

  /** `sub` lists some of the elements of `s`, in the order `s` has them. */
  ghost predicate IsSubsequence<T>(sub: seq<T>, s: seq<T>)
  {
    sub == [] || (s != [] && ((sub[0] == s[0] && IsSubsequence(sub[1..], s[1..])) || IsSubsequence(sub, s[1..])))
  }

  /** `cities.filter(...)`: the cities matching `value`, in list order. */
  function FilterCities(cities: seq<City>, value: string): (r: seq<City>)
    ensures forall c :: c in r <==> c in cities && Matches(c, value)
    ensures IsSubsequence(r, cities)
    ensures |r| <= |cities|
    ensures forall c :: multiset(r)[c] == if Matches(c, value) then multiset(cities)[c] else 0
  {
    assert cities != [] ==> cities == [cities[0]] + cities[1..];
    if cities == [] then []
    else if Matches(cities[0], value) then [cities[0]] + FilterCities(cities[1..], value)
    else FilterCities(cities[1..], value)
  }

  /** A city is kept exactly when the lower-cased value sits at some
      position of its lower-cased name or code. */
  lemma KeptIffSubstring(cities: seq<City>, value: string, c: City)
    ensures c in FilterCities(cities, value) <==>
      c in cities && ((exists k :: OccursAt(Lower(c.name), Lower(value), k))
                   || (exists k :: OccursAt(Lower(c.code), Lower(value), k)))
  {
    assert Matches(c, value) <==> Includes(Lower(c.name), Lower(value)) || Includes(Lower(c.code), Lower(value));
    IncludesIffWindow(Lower(c.name), Lower(value));
    IncludesIffWindow(Lower(c.code), Lower(value));
  }

  /** The filter ignores the case of the typed value. */
  lemma FilterIgnoresCase(cities: seq<City>, value: string)
    ensures FilterCities(cities, Lower(value)) == FilterCities(cities, value)
  {
    LowerIdempotent(value);
  }

  /** The empty value would keep every city, so listing all cities for an
      empty value agrees with the filter. */
  lemma {:induction false} FilterEmptyKeepsAll(cities: seq<City>)
    ensures FilterCities(cities, "") == cities
  {
    if cities != [] {
      IncludesEmpty(Lower(cities[0].name));
      FilterEmptyKeepsAll(cities[1..]);
    }
  }

  /** What the component holds: whether the dropdown is open and the cities it lists. */
  datatype View = View(isOpen: bool, filtered: seq<City>)

  /** The state after the effect that runs when the value changes. */
  function OnValue(cities: seq<City>, value: string): (view: View)
    ensures IsSubsequence(view.filtered, cities)
    ensures view.isOpen ==> value != "" && view.filtered != [] && value != view.filtered[0].name
  {
    SubsequenceOfSelf(cities);
    if value != "" then
      var filtered := FilterCities(cities, value);
      View(filtered != [] && value != filtered[0].name, filtered)
    else View(false, cities)
  }

  /** The state after the input gains focus. */
  function OnFocus(cities: seq<City>, value: string): (view: View)
    ensures IsSubsequence(view.filtered, cities)
    ensures value != "" ==> (view.isOpen <==> view.filtered != [])
    ensures value == "" ==> view.isOpen && view.filtered == cities
  {
    SubsequenceOfSelf(cities);
    if value != "" then
      var filtered := FilterCities(cities, value);
      View(filtered != [], filtered)
    else View(true, cities)
  }

  /** The cities the dropdown shows: none unless it is open and has something to list. */
  function Dropdown(view: View): (shown: seq<City>)
    ensures shown != [] <==> view.isOpen && view.filtered != []
    ensures shown == [] || shown == view.filtered
  {
    if view.isOpen && view.filtered != [] then view.filtered else []
  }

  /** Clearing the value lists every city again but closes the dropdown. */
  lemma ClearedValueCloses(cities: seq<City>)
    ensures OnValue(cities, "") == View(false, cities)
    ensures Dropdown(OnValue(cities, "")) == []
  {
  }

  /** After the value changes, the dropdown is open exactly when some city
      matches and the value is not already the first match's name; it then
      shows exactly the matching cities. */
  lemma ValueChangeOpensOnMatches(cities: seq<City>, value: string)
    requires value != ""
    ensures var shown := Dropdown(OnValue(cities, value));
      && (shown != [] <==> (exists c :: c in cities && Matches(c, value)) && value != FilterCities(cities, value)[0].name)
      && forall c :: c in shown ==> c in cities && Matches(c, value)
  {
    var filtered := FilterCities(cities, value);
    if exists c :: c in cities && Matches(c, value) {
      var c :| c in cities && Matches(c, value);
      assert c in filtered;
    }
    if filtered != [] {
      assert filtered[0] in filtered;
    }
  }

  /** Focusing an empty input opens the dropdown on the whole list. */
  lemma FocusEmptyShowsAll(cities: seq<City>)
    ensures OnFocus(cities, "") == View(true, cities)
    ensures Dropdown(OnFocus(cities, "")) == cities
  {
  }

  /** Focus lists the same cities as the value effect and opens the
      dropdown whenever the effect would, and also when the value already
      names the first match. */
  lemma FocusOpensWheneverValueWould(cities: seq<City>, value: string)
    ensures value != "" ==> OnFocus(cities, value).filtered == OnValue(cities, value).filtered
    ensures OnValue(cities, value).isOpen ==> OnFocus(cities, value).isOpen
    ensures value != "" ==> (OnFocus(cities, value).isOpen <==> exists c :: c in cities && Matches(c, value))
  {
    if value != "" && exists c :: c in cities && Matches(c, value) {
      var c :| c in cities && Matches(c, value);
      assert c in FilterCities(cities, value);
    }
    if value != "" && FilterCities(cities, value) != [] {
      assert FilterCities(cities, value)[0] in FilterCities(cities, value);
    }
  }

  /** Whatever the value, the dropdown only lists cities from the list, each
      matching the value when there is one. */
  lemma DropdownListsMatchingCities(cities: seq<City>, value: string, c: City)
    requires c in Dropdown(OnValue(cities, value)) || c in Dropdown(OnFocus(cities, value))
    ensures c in cities
    ensures value != "" ==> Matches(c, value)
  {
  }

  /** Choosing a city whose name another city listed before it also
      matches: the parent sets the value to the chosen name, and the value
      effect opens the dropdown again on both cities, because the first
      match is the earlier city, not the chosen one. */
  lemma ChoosingLaterCityReopens(earlier: City, chosen: City)
    requires chosen.name != "" && Matches(earlier, chosen.name) && earlier.name != chosen.name
    ensures var view := OnValue([earlier, chosen], chosen.name);
      view.isOpen && Dropdown(view) == [earlier, chosen]
  {
    var cities := [earlier, chosen];
    assert Matches(chosen, chosen.name) by {
      assert Lower(chosen.name) <= Lower(chosen.name);
    }
    FilterKeepsAllMatching(cities, chosen.name);
    OpenOnEarlierMatch(cities, chosen.name);
  }

  /** When the value is not the name of the first matching city, the
      dropdown stays open on the matches. */
  lemma OpenOnEarlierMatch(cities: seq<City>, value: string)
    ensures var filtered := FilterCities(cities, value);
      value != "" && filtered != [] && filtered[0].name != value ==>
        OnValue(cities, value).isOpen && Dropdown(OnValue(cities, value)) == filtered
  {
  }

  /** When every city matches, the filter keeps the whole list. */
  lemma {:induction false} FilterKeepsAllMatching(cities: seq<City>, value: string)
    requires forall i :: 0 <= i < |cities| ==> Matches(cities[i], value)
    ensures FilterCities(cities, value) == cities
  {
    if cities != [] {
      FilterKeepsAllMatching(cities[1..], value);
    }
  }

  /** "New York" matches "York", so a list with "New York" before "York"
      reopens the dropdown when "York" is chosen. */
  lemma NewYorkMatchesYork()
    ensures Matches(City("New York", "NYC"), "York") && "New York" != "York"
  {
    LowerYork();
    LowerNewYork();
    assert "new york"[4..] == "york";
    IncludesSuffix("new york", 4, "york");
  }

  lemma LowerYork()
    ensures Lower("York") == "york"
  {
    var r := Lower("York");
    assert r[0] == 'y' && r[1] == 'o' && r[2] == 'r' && r[3] == 'k';
  }

  lemma LowerNewYork()
    ensures Lower("New York") == "new york"
  {
    var r := Lower("New York");
    assert r[0] == 'n' && r[1] == 'e' && r[2] == 'w' && r[3] == ' ';
    assert r[4] == 'y' && r[5] == 'o' && r[6] == 'r' && r[7] == 'k';
  }

  /** A needle that starts `hay` after its first `k` characters is included in it. */
  lemma {:induction false} IncludesSuffix(hay: string, k: nat, needle: string)
    requires k <= |hay| && needle <= hay[k..]
    ensures Includes(hay, needle)
  {
    if k > 0 {
      assert hay[1..][k - 1..] == hay[k..];
      IncludesSuffix(hay[1..], k - 1, needle);
    }
  }

  /** The component's state. */
  class Autocomplete {
    const cities: seq<City>
    var isOpen: bool
    var filtered: seq<City>

    /** The dropdown lists only cities from the list, in list order. */
    ghost predicate Valid()
      reads this
    {
      IsSubsequence(filtered, cities)
    }

    /** The initial state: closed, listing nothing. */
    constructor (cities: seq<City>)
      ensures this.cities == cities && !isOpen && filtered == []
      ensures Valid()
    {
      this.cities := cities;
      isOpen := false;
      filtered := [];
    }

    /** The effect that runs on mount and whenever `value` changes. */
    method ValueChanged(value: string)
      modifies this
      ensures View(isOpen, filtered) == OnValue(cities, value)
      ensures Valid()
    {
      if value != "" {
        var matching := FilterCities(cities, value);
        filtered := matching;
        isOpen := |matching| > 0 && value != matching[0].name;
      } else {
        filtered := cities;
        isOpen := false;
      }
      assert value == "" ==> IsSubsequence(cities, cities) by {
        SubsequenceOfSelf(cities);
      }
    }

    /** `handleFocus`. */
    method Focus(value: string)
      modifies this
      ensures View(isOpen, filtered) == OnFocus(cities, value)
      ensures Valid()
    {
      if value != "" {
        var matching := FilterCities(cities, value);
        filtered := matching;
        isOpen := |matching| > 0;
      } else {
        filtered := cities;
        isOpen := true;
        SubsequenceOfSelf(cities);
      }
    }

    /** `handleSelect(city)`: hands the city's name and code to the parent
        and closes the dropdown, leaving the listed cities as they were. */
    method Select(city: City) returns (name: string, code: string)
      requires Valid()
      modifies this
      ensures name == city.name && code == city.code
      ensures !isOpen && filtered == old(filtered)
      ensures Dropdown(View(isOpen, filtered)) == []
      ensures Valid()
    {
      isOpen := false;
      name, code := city.name, city.code;
    }

    /** The cities the dropdown shows in the current state: the listed
        cities while it is open on a non-empty list, nothing otherwise, and
        in a valid state only cities from the list, in list order. */
    function Shown(): (shown: seq<City>)
      reads this
      ensures shown != [] <==> isOpen && filtered != []
      ensures shown == [] || shown == filtered
      ensures Valid() ==> IsSubsequence(shown, cities)
    {
      Dropdown(View(isOpen, filtered))
    }
  }

  lemma {:induction false} SubsequenceOfSelf<T>(s: seq<T>)
    ensures IsSubsequence(s, s)
  {
    if s != [] {
      SubsequenceOfSelf(s[1..]);
    }
  }
}
