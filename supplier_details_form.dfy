/** The identity section: a country select whose city select is filled from a
    static table, and an effect that clears a city the country does not have. */
module SupplierDetails {
  import opened JsValues
  import opened SupplierSlice

  /** countriesWithCities of this section; an unknown country has no city. */
  function CitiesOf(country: string): seq<string>
  {
    if country == "India" then ["Mumbai", "Delhi", "Bangalore", "Chennai"]
    else if country == "USA" then ["New York", "Los Angeles", "Chicago", "Houston"]
    else if country == "France" then ["Paris", "Lyon", "Marseille"]
    else []
  }

  /** The table indexed by a record property: only a text value can name one
      of its keys. */
  function CitiesFor(country: Option<Value>): seq<string>
  {
    match country
    case Some(Str(c)) => CitiesOf(c)
    case _ => []
  }

  /** The three countries, and nothing else, have cities. */
  lemma CitiesTable(country: string)
    ensures CitiesOf(country) != [] <==> country in {"India", "USA", "France"}
    ensures country == "India" ==> CitiesOf(country) == ["Mumbai", "Delhi", "Bangalore", "Chennai"]
    ensures |CitiesOf(country)| <= 4
  {
  }

  /** `cities.includes(City)` for the cities of the record's country. */
  predicate CityListed(r: Record)
  {
    match Get(r, City)
    case Some(Str(c)) => c in CitiesFor(Get(r, Country))
    case _ => false
  }

  /** Once a country is chosen, the city is empty or one of its cities. */
  predicate CityConsistent(r: Record)
  {
    TruthyProp(Get(r, Country)) ==> Get(r, City) == Some(Str("")) || CityListed(r)
  }

  /** What the country effect does to the record: with a country chosen, a
      city not listed for it becomes "". The result is consistent, differs
      from the input at most in `City`, and a listed city or an empty
      country is left alone. */
  function ClearInvalidCity(r: Record): (r': Record)
    ensures CityConsistent(r')
    ensures forall g :: g != City ==> Get(r', g) == Get(r, g)
    ensures CityListed(r) || !TruthyProp(Get(r, Country)) ==> r' == r
    ensures TruthyProp(Get(r, Country)) && !CityListed(r) ==> r' == SetField(r, City, Str(""))
  {
    if TruthyProp(Get(r, Country)) && !CityListed(r) then SetField(r, City, Str("")) else r
  }

  /** What the country effect does to the offered cities: an empty country
      keeps the previous options. */
  function EffectCities(r: Record, available: seq<string>): seq<string>
  {
    if TruthyProp(Get(r, Country)) then CitiesFor(Get(r, Country)) else available
  }

  /** Running the effect again changes nothing: a consistent record is a
      fixed point. */
  lemma ClearInvalidCityIdempotent(r: Record)
    ensures ClearInvalidCity(ClearInvalidCity(r)) == ClearInvalidCity(r)
    ensures CityConsistent(r) ==> ClearInvalidCity(r) == r
  {
    if CityConsistent(r) && TruthyProp(Get(r, Country)) && !CityListed(r) {
      SetFieldLastWriteWins(r, City, Str(""), Str(""));
    }
    var r' := ClearInvalidCity(r);
    if TruthyProp(Get(r', Country)) && !CityListed(r') {
      SetFieldLastWriteWins(r', City, Str(""), Str(""));
    }
  }

  /** Choosing a country and letting the effect run offers exactly that
      country's cities and leaves a city that belongs to it, or none. */
  lemma SelectCountryThenEffect(r: Record, available: seq<string>, country: string)
    requires country != ""
    ensures EffectCities(SetField(r, Country, Str(country)), CitiesOf(country)) == CitiesOf(country)
    ensures var r' := ClearInvalidCity(SetField(r, Country, Str(country)));
      Get(r', Country) == Some(Str(country)) &&
      (Get(r', City) == Some(Str("")) || exists c :: Get(r', City) == Some(Str(c)) && c in CitiesOf(country))
  {
    var r' := ClearInvalidCity(SetField(r, Country, Str(country)));
    if Get(r', City) != Some(Str("")) {
      assert CityListed(r');
      var c := Get(r', City).value.s;
      assert Get(r', City) == Some(Str(c)) && c in CitiesOf(country);
    }
  }

  /** `value.toString()` of the string or number an input delivers. */
  function ToText(v: Value): (s: string)
    requires v.Str? || v.Num?
    ensures v.Str? ==> s == v.s
    ensures v.Num? ==> NumberOf(s) == Int(v.n)
  {
    if v.Str? then v.s
    else
      NumberOfIntToString(v.n);
      IntToString(v.n)
  }

  /** The identity section, with its local list of offered cities. */
  class SupplierDetailsForm {
    const store: SupplierStore
    var availableCities: seq<string>

    constructor (store: SupplierStore)
      ensures this.store == store && availableCities == []
    {
      this.store := store;
      availableCities := [];
    }

    /** The effect that runs when `Country` changes. */
    method CountryEffect()
      modifies this, store
      ensures availableCities == EffectCities(old(store.state), old(availableCities))
      ensures store.state == ClearInvalidCity(old(store.state))
    {
      var country := Get(store.state, Country);
      if TruthyProp(country) {
        var cities := CitiesFor(country);
        availableCities := cities;
        if !CityListed(store.state) {
          store.SetSupplierField(City, Str(""));
        }
      }
    }

    /** handleCountryChange: offer the new country's cities and store the
      country; the city is left to the effect. */
    method HandleCountryChange(selectedCountry: string)
      modifies this, store
      ensures availableCities == CitiesOf(selectedCountry)
      ensures store.state == SetField(old(store.state), Country, Str(selectedCountry))
    {
      availableCities := CitiesOf(selectedCountry);
      store.SetSupplierField(Country, Str(selectedCountry));
    }

    /** handleInputChange: store the string form of the value. */
    method HandleInputChange(field: Field, value: Value)
      requires value.Str? || value.Num?
      modifies store
      ensures store.state == SetField(old(store.state), field, Str(ToText(value)))
    {
      store.SetSupplierField(field, Str(ToText(value)));
    }
  }
}
