/** The payment and invoice section: a VAT checkbox that reveals four VAT
    properties and clears them when unchecked, an invoice-match checkbox that
    switches between free text and a two-option select, and an effect that
    turns both checkboxes on when the record already holds such data. */
module PaymentDetails {
  import opened JsValues
  import opened SupplierSlice

  /** The four properties the VAT checkbox governs. */
  predicate IsVatField(f: Field)
  {
    f == vatregno || f == vatstatus || f == vateffectivefrom || f == vattradelicencenumber
  }

  /** Some VAT property holds a truthy value. */
  predicate VatPresent(r: Record)
  {
    TruthyProp(Get(r, vatregno)) || TruthyProp(Get(r, vatstatus)) ||
    TruthyProp(Get(r, vateffectivefrom)) || TruthyProp(Get(r, vattradelicencenumber))
  }

  /** The invoice match option is one of the two select options. */
  predicate PredefinedMatch(r: Record)
  {
    Get(r, invoicematchoption) == Some(Str("Purchase Order")) ||
    Get(r, invoicematchoption) == Some(Str("Receipt"))
  }

  /** The four writes made when the VAT checkbox is unchecked. The VAT
      properties become 0, "", null and 0, nothing else changes, and no VAT
      data is left for the effect to find. */
  function ClearVat(r: Record): (r': Record)
    ensures Get(r', vatregno) == Some(Num(0)) && Get(r', vatstatus) == Some(Str(""))
    ensures Get(r', vateffectivefrom) == Some(Null) && Get(r', vattradelicencenumber) == Some(Num(0))
    ensures forall g :: !IsVatField(g) ==> Get(r', g) == Get(r, g)
    ensures !VatPresent(r')
  {
    var r1 := SetField(r, vatregno, Num(0));
    var r2 := SetField(r1, vatstatus, Str(""));
    var r3 := SetField(r2, vateffectivefrom, Null);
    SetField(r3, vattradelicencenumber, Num(0))
  }

  /** Unchecking twice is unchecking once, and the payload then sends no VAT
      data: 0, "", null and 0. */
  lemma ClearVatIdempotent(r: Record)
    ensures ClearVat(ClearVat(r)) == ClearVat(r)
    ensures var p := Payload(ClearVat(r));
      p[vatregno] == Val(Num(0)) && p[vatstatus] == Val(Str("")) &&
      p[vateffectivefrom] == Val(Null) && p[vattradelicencenumber] == Val(Num(0))
  {
    var c := ClearVat(r);
    var c' := ClearVat(c);
    forall g ensures Get(c', g) == Get(c, g) {
      if IsVatField(g) {
        assert Get(c', g) == Get(c, g);
      }
    }
    assert forall g :: g in c' <==> g in c by {
      forall g ensures g in c' <==> g in c {
        assert Get(c', g) == Get(c, g);
      }
    }
  }

  /** What the effect does to `showVatDetails`: it can only turn it on. */
  function AutoShowVat(r: Record, showVatDetails: bool): (show: bool)
    ensures showVatDetails ==> show
    ensures show <==> showVatDetails || VatPresent(r)
  {
    if VatPresent(r) then true else showVatDetails
  }

  /** What the effect does to `isPredefinedOption`: it can only turn it on. */
  function AutoPredefined(r: Record, isPredefinedOption: bool): (predefined: bool)
    ensures isPredefinedOption ==> predefined
    ensures predefined <==> isPredefinedOption || PredefinedMatch(r)
  {
    if PredefinedMatch(r) then true else isPredefinedOption
  }

  /** Once VAT is unchecked, the effect does not check it again. */
  lemma VatToggleOffIsStable(r: Record)
    ensures !AutoShowVat(ClearVat(r), false)
  {
  }

  /** Checking the predefined box empties the match option, and the effect
      then keeps the box checked with the select empty. */
  lemma CheckPredefinedThenEffect(r: Record)
    ensures var r' := SetField(r, invoicematchoption, Str(""));
      !PredefinedMatch(r') && AutoPredefined(r', true) &&
      Get(r', invoicematchoption) == Some(Str(""))
  {
  }

  /** The payment section, with its two local checkbox flags. */
  class PaymentDetailsForm {
    const store: SupplierStore
    var isPredefinedOption: bool
    var showVatDetails: bool

    constructor (store: SupplierStore)
      ensures this.store == store && !isPredefinedOption && !showVatDetails
    {
      this.store := store;
      isPredefinedOption := false;
      showVatDetails := false;
    }

    /** The effect that runs when a VAT property or the match option changes. */
    method AutoEnableEffect()
      modifies this
      ensures showVatDetails == AutoShowVat(store.state, old(showVatDetails))
      ensures isPredefinedOption == AutoPredefined(store.state, old(isPredefinedOption))
    {
      if VatPresent(store.state) {
        showVatDetails := true;
      }
      if PredefinedMatch(store.state) {
        isPredefinedOption := true;
      }
    }

    /** handleCheckboxChange: the flag follows the box; checking it also
        empties the match option. */
    method HandleCheckboxChange(checked: bool)
      modifies this, store
      ensures isPredefinedOption == checked && showVatDetails == old(showVatDetails)
      ensures checked ==> store.state == SetField(old(store.state), invoicematchoption, Str(""))
      ensures !checked ==> store.state == old(store.state)
    {
      isPredefinedOption := checked;
      if checked {
        store.SetSupplierField(invoicematchoption, Str(""));
      }
    }

    /** handleInputChange: store the value as given. */
    method HandleInputChange(field: Field, value: Value)
      modifies store
      ensures store.state == SetField(old(store.state), field, value)
    {
      store.SetSupplierField(field, value);
    }

    /** handleVatToggle: the flag follows the box; unchecking it also
        clears the four VAT properties. */
    method HandleVatToggle(checked: bool)
      modifies this, store
      ensures showVatDetails == checked && isPredefinedOption == old(isPredefinedOption)
      ensures !checked ==> store.state == ClearVat(old(store.state))
      ensures checked ==> store.state == old(store.state)
    {
      showVatDetails := checked;
      if !checked {
        store.SetSupplierField(vatregno, Num(0));
        store.SetSupplierField(vatstatus, Str(""));
        store.SetSupplierField(vateffectivefrom, Null);
        store.SetSupplierField(vattradelicencenumber, Num(0));
      }
    }
  }
}
