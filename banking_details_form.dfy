/** The banking section: bank and country selects whose branch and city
    selects are filled from static tables. Unlike the identity section, a
    change of bank or country never clears the branch or city already chosen. */
module BankingDetails {
  import opened JsValues
  import opened SupplierSlice
  import SupplierDetails

  /** banksWithBranches; an unknown bank has no branch. */
  function BranchesOf(bank: string): seq<string>
  {
    if bank == "ICICI" then ["ICICI Mumbai Branch", "ICICI Pune Branch", "ICICI Delhi Branch"]
    else if bank == "SBI" then ["SBI Hyderabad Branch", "SBI Chennai Branch", "SBI Kolkata Branch"]
    else if bank == "HDFC" then ["HDFC Bangalore Branch", "HDFC Ahmedabad Branch", "HDFC Jaipur Branch"]
    else []
  }

  /** This section's own countriesWithCities, shorter than the identity one. */
  function BankCitiesOf(country: string): seq<string>
  {
    if country == "India" then ["Mumbai", "Delhi", "Bangalore"]
    else if country == "USA" then ["New York", "Los Angeles", "Chicago"]
    else if country == "France" then ["Paris", "Lyon", "Marseille"]
    else []
  }

  /** A table indexed by a record property: only a text value can name a key. */
  function LookupProp(table: string -> seq<string>, key: Option<Value>): seq<string>
  {
    match key
    case Some(Str(k)) => table(k)
    case _ => []
  }

  /** The tables differ from the identity section's: the banking one drops
      Chennai and Houston, and each bank has exactly three branches. */
  lemma BankingTables(bank: string)
    ensures BankCitiesOf("India") != SupplierDetails.CitiesOf("India")
    ensures BankCitiesOf("USA") == SupplierDetails.CitiesOf("USA")[..3]
    ensures BranchesOf(bank) != [] <==> bank in {"ICICI", "SBI", "HDFC"}
    ensures BranchesOf(bank) != [] ==> |BranchesOf(bank)| == 3
  {
  }

  /** A chosen branch survives a change to any bank, even one that does not
      have it: the select then holds a branch it does not offer. */
  lemma BankChangeKeepsStaleBranch(r: Record, b: string, bank: string)
    requires Get(r, branchname) == Some(Str(b)) && b !in BranchesOf(bank)
    ensures var r' := SetField(r, bankname, Str(bank));
      Get(r', branchname) == Some(Str(b)) && Get(r', bankname) == Some(Str(bank))
  {
  }

  /** The banking section, with its local lists of offered cities and branches. */
  class BankingDetailsForm {
    const store: SupplierStore
    var availableCities: seq<string>
    var availableBranches: seq<string>

    constructor (store: SupplierStore)
      ensures this.store == store && availableCities == [] && availableBranches == []
    {
      this.store := store;
      availableCities := [];
      availableBranches := [];
    }

    /** The effect that runs when `bankcountry` changes: a non-empty country
        recomputes the cities, an empty one leaves the previous options. */
    method CountryEffect()
      modifies this
      ensures TruthyProp(Get(store.state, bankcountry)) ==>
        availableCities == LookupProp(BankCitiesOf, Get(store.state, bankcountry))
      ensures !TruthyProp(Get(store.state, bankcountry)) ==> availableCities == old(availableCities)
      ensures TruthyProp(Get(store.state, bankcountry)) ==>
        (CitySelectDisabled() <==>
          Get(store.state, bankcountry) !in {Some(Str("India")), Some(Str("USA")), Some(Str("France"))})
      ensures availableBranches == old(availableBranches)
    {
      var country := Get(store.state, bankcountry);
      if TruthyProp(country) {
        availableCities := LookupProp(BankCitiesOf, country);
      }
    }

    /** The effect that runs when `bankname` changes: a non-empty bank
        recomputes the branches, an empty one leaves the previous options. */
    method BankEffect()
      modifies this
      ensures TruthyProp(Get(store.state, bankname)) ==>
        availableBranches == LookupProp(BranchesOf, Get(store.state, bankname))
      ensures !TruthyProp(Get(store.state, bankname)) ==> availableBranches == old(availableBranches)
      ensures TruthyProp(Get(store.state, bankname)) ==>
        (BranchSelectDisabled() <==>
          Get(store.state, bankname) !in {Some(Str("ICICI")), Some(Str("SBI")), Some(Str("HDFC"))})
      ensures availableCities == old(availableCities)
    {
      var bank := Get(store.state, bankname);
      if TruthyProp(bank) {
        availableBranches := LookupProp(BranchesOf, bank);
      }
    }

    /** handleInputChange: store the value as given. */
    method HandleInputChange(field: Field, value: Value)
      modifies store
      ensures store.state == SetField(old(store.state), field, value)
    {
      store.SetSupplierField(field, value);
    }

    /** handleCountryChange: offer the country's cities and store it;
        `bankcity` keeps whatever it held. */
    method HandleCountryChange(selectedCountry: string)
      modifies this, store
      ensures availableCities == BankCitiesOf(selectedCountry)
      ensures CitySelectDisabled() <==> selectedCountry !in {"India", "USA", "France"}
      ensures availableBranches == old(availableBranches)
      ensures store.state == SetField(old(store.state), bankcountry, Str(selectedCountry))
      ensures Get(store.state, bankcity) == Get(old(store.state), bankcity)
    {
      availableCities := BankCitiesOf(selectedCountry);
      store.SetSupplierField(bankcountry, Str(selectedCountry));
    }

    /** handleBankChange: offer the bank's branches and store it;
        `branchname` keeps whatever it held. */
    method HandleBankChange(selectedBank: string)
      modifies this, store
      ensures availableBranches == BranchesOf(selectedBank)
      ensures BranchSelectDisabled() <==> selectedBank !in {"ICICI", "SBI", "HDFC"}
      ensures availableCities == old(availableCities)
      ensures store.state == SetField(old(store.state), bankname, Str(selectedBank))
      ensures Get(store.state, branchname) == Get(old(store.state), branchname)
    {
      availableBranches := BranchesOf(selectedBank);
      store.SetSupplierField(bankname, Str(selectedBank));
    }

    /** The branch select is disabled exactly when no branch is offered. */
    function BranchSelectDisabled(): (disabled: bool)
      reads this
      ensures disabled <==> availableBranches == []
    {
      |availableBranches| == 0
    }

    /** The city select is disabled exactly when no city is offered. */
    function CitySelectDisabled(): (disabled: bool)
      reads this
      ensures disabled <==> availableCities == []
    {
      |availableCities| == 0
    }
  }
}
