/** The supplier record store: one flat record with a property per list
    column, a reducer that sets one property, one that restores the defaults,
    the merge of a fetched list item, and the normalised payload that the
    create and update calls send. */
module SupplierSlice {
  import opened JsValues

  /** The properties of a supplier record, named as the list columns are. */
  datatype Field =
    | ID
    | SupplierName | VendorType | Address | City | Country | Mobile | Email
    | FirstName | LastName | contactPersonMobile | contactPersonEmail
    | paymentmethod | invoicecurrency | invoicematchoption | invoicepaymentterm
    | vatregno | vatstatus | vateffectivefrom | vattradelicencenumber
    | bankname | branchname | accountnumber | ifsccode | micrcode | swiftcode
    | bankcity | bankcountry | accounttype | beneficiaryname
    | Attachments | remark

  /** How a property is declared: the optional key, text, number, the
      `string | null` date, or the `File | null` slot. */
  datatype Kind = Key | Text | Numeric | Date | FileSlot

  function KindOf(f: Field): Kind
  {
    match f
    case ID => Key
    case vatregno | vattradelicencenumber | accountnumber => Numeric
    case vateffectivefrom => Date
    case Attachments => FileSlot
    case _ => Text
  }

  /** A record as a JavaScript object: a missing key is `undefined`. */
  type Record = map<Field, Value>

  function Get(r: Record, f: Field): Option<Value>
  {
    if f in r then Some(r[f]) else None
  }

  /** Every property except the optional `ID` is defined. */
  predicate Populated(r: Record)
  {
    forall f :: f != ID ==> f in r
  }

  /** The default of a property: "" for text and for the effective date,
      0 for numbers, null for the attachment slot. */
  function Default(f: Field): Value
  {
    match KindOf(f)
    case Numeric => Num(0)
    case FileSlot => Null
    case _ => Str("")
  }

  /** The record every session starts from and every reset returns to: each
      property but `ID` at its default. */
  function InitialState(): Record
  {
    map f: Field | f != ID :: Default(f)
  }

  /** The initial record: no `ID`, every text property "", every number 0,
      no attachment, and the effective date "" rather than null. */
  lemma InitialStateDefaults()
    ensures ID !in InitialState()
    ensures Populated(InitialState())
    ensures forall f :: KindOf(f) == Text ==> Get(InitialState(), f) == Some(Str(""))
    ensures forall f :: KindOf(f) == Numeric ==> Get(InitialState(), f) == Some(Num(0))
    ensures Get(InitialState(), vateffectivefrom) == Some(Str(""))
    ensures Get(InitialState(), Attachments) == Some(Null)
  {
  }

  /** `setSupplierField`: the named property takes the value, no other
      property changes, none appears or disappears. */
  function SetField(r: Record, f: Field, v: Value): (r': Record)
    ensures Get(r', f) == Some(v)
    ensures forall g :: g != f ==> Get(r', g) == Get(r, g)
  {
    r[f := v]
  }

  /** `{ ...state, ...payload }` after a fetch: a property the fetched item
      has comes from it, every other one keeps its previous value. */
  function MergeFetched(r: Record, payload: Record): (r': Record)
    ensures forall f :: Get(r', f) == if f in payload then Some(payload[f]) else Get(r, f)
  {
    r + payload
  }

  lemma SetFieldKeepsPopulated(r: Record, f: Field, v: Value)
    requires Populated(r)
    ensures Populated(SetField(r, f, v))
  {
    forall g | g != ID ensures g in SetField(r, f, v) {
      assert Get(SetField(r, f, v), g).Some?;
    }
  }

  lemma MergeFetchedKeepsPopulated(r: Record, payload: Record)
    requires Populated(r)
    ensures Populated(MergeFetched(r, payload))
  {
    forall g | g != ID ensures g in MergeFetched(r, payload) {
      assert Get(MergeFetched(r, payload), g).Some?;
    }
  }

  /** Setting a property to the value it already has changes nothing, and
      the last of two writes to one property wins. */
  lemma SetFieldLastWriteWins(r: Record, f: Field, v: Value, w: Value)
    ensures SetField(SetField(r, f, v), f, w) == SetField(r, f, w)
    ensures f in r && r[f] == v ==> SetField(r, f, v) == r
  {
  }

  // ---------------------------------------------------------------------------
  // The payload built by createSupplier and updateSupplier
  // ---------------------------------------------------------------------------

  /** A payload value: a plain value, or `new Date(v).toISOString()` of a
      value (the conversion itself is not modelled). */
  datatype Out = Val(v: Value) | Iso(date: Value)

  /** The properties both payloads carry: all but `ID` and `Attachments`. */
  predicate Sent(f: Field)
  {
    f != ID && f != Attachments
  }

  /** One line of the payload listing: `data.f || ""` for text, `data.f || 0`
      for numbers, and an ISO date or null for the effective date. */
  function Normalise(f: Field, o: Option<Value>): Out
    requires Sent(f)
  {
    match KindOf(f)
    case Numeric => Val(if TruthyProp(o) then o.value else Num(0))
    case Date => if TruthyProp(o) then Iso(o.value) else Val(Null)
    case _ => Val(if TruthyProp(o) then o.value else Str(""))
  }

  /** The object sent by createSupplier and, identically, by updateSupplier. */
  function Payload(d: Record): (p: map<Field, Out>)
    ensures forall f :: f in p <==> Sent(f)
    ensures forall f | f in p && KindOf(f) != Date ::
      p[f].Val? && (TruthyProp(Get(d, f)) ==> p[f].v == d[f])
    ensures forall f | f in p && KindOf(f) == Text ::
      !TruthyProp(Get(d, f)) ==> p[f] == Val(Str(""))
    ensures forall f | f in p && KindOf(f) == Numeric ::
      !TruthyProp(Get(d, f)) ==> p[f] == Val(Num(0))
    ensures vateffectivefrom in p && p[vateffectivefrom] ==
      if TruthyProp(Get(d, vateffectivefrom)) then Iso(d[vateffectivefrom]) else Val(Null)
  {
    map f: Field | Sent(f) :: Normalise(f, Get(d, f))
  }

  /** Nothing in a payload is null or undefined except an empty effective
      date, whatever the record holds. */
  lemma PayloadHasNoNull(d: Record)
    ensures forall f | f in Payload(d) && f != vateffectivefrom ::
      Payload(d)[f].Val? && Payload(d)[f].v != Null
  {
  }

  /** The payload of a fresh form: every text property "", every number 0,
      and the effective date null although the record holds "". */
  lemma PayloadOfInitialState()
    ensures forall f | f in Payload(InitialState()) && KindOf(f) == Text ::
      Payload(InitialState())[f] == Val(Str(""))
    ensures forall f | f in Payload(InitialState()) && KindOf(f) == Numeric ::
      Payload(InitialState())[f] == Val(Num(0))
    ensures Payload(InitialState())[vateffectivefrom] == Val(Null)
  {
    InitialStateDefaults();
  }

  /** A write to one property changes at most that property of the payload;
      a write to `ID` or `Attachments` changes nothing in it. */
  lemma PayloadAfterSetField(d: Record, f: Field, v: Value)
    ensures Sent(f) ==> Payload(SetField(d, f, v)) == Payload(d)[f := Normalise(f, Some(v))]
    ensures !Sent(f) ==> Payload(SetField(d, f, v)) == Payload(d)
  {
    var d' := SetField(d, f, v);
    var p, p' := Payload(d), Payload(d');
    var q := if Sent(f) then p[f := Normalise(f, Some(v))] else p;
    assert p'.Keys == q.Keys;
    forall g | g in q ensures p'[g] == q[g] {
      if g != f {
        assert Get(d', g) == Get(d, g);
      }
    }
  }

  /** The record store. */
  class SupplierStore {
    var state: Record

    constructor ()
      ensures state == InitialState()
    {
      state := InitialState();
    }

    /** setSupplierField: assigns one property in place. */
    method SetSupplierField(f: Field, v: Value)
      modifies this
      ensures state == SetField(old(state), f, v)
    {
      state := state[f := v];
    }

    /** resetSupplierState: the initial record, whatever came before. */
    method ResetSupplierState()
      modifies this
      ensures state == InitialState()
    {
      state := InitialState();
    }

    /** fetchSupplierById.fulfilled: overlay the fetched item. */
    method FetchSupplierByIdFulfilled(payload: Record)
      modifies this
      ensures state == MergeFetched(old(state), payload)
    {
      state := state + payload;
    }
  }
}
