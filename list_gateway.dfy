/** The remote supplier list, seen only through the requests the form sends
    and the outcomes that come back. The requests themselves are not
    modelled; an outcome is an input to the step that receives it. */
module ListGateway {
  import opened JsValues
  import opened SupplierSlice
  import opened AttachmentSlice

  /** One request to the list, as issued by the thunks. Item identifiers are
      `Number(...)` of whatever the form holds. */
  datatype Call =
    | AddItem(payload: map<Field, Out>)                   // createSupplier
    | UpdateItem(itemId: JsNumber, payload: map<Field, Out>) // updateSupplier
    | ListFiles(itemId: JsNumber)                        // fetchAttachments
    | AddFile(itemId: JsNumber, fileName: string)        // addAttachment
    | DeleteFile(itemId: JsNumber, fileName: string)     // deleteAttachment

  /** How a request without a useful result settled. */
  datatype Settled = Fulfilled | Rejected

  /** How createSupplier settled: fulfilled with the new item's `ID`, or rejected. */
  datatype Created = CreatedItem(id: nat) | CreateRejected

  /** How fetchAttachments settled. */
  datatype Listed = ListedFiles(files: seq<Attachment>) | ListRejected

  predicate IsCreate(c: Call) { c.AddItem? }
  predicate IsUpdate(c: Call) { c.UpdateItem? }

  /** How many of the calls satisfy `p`. */
  function Count(calls: seq<Call>, p: Call -> bool): (n: nat)
    ensures n <= |calls|
  {
    if calls == [] then 0 else (if p(calls[0]) then 1 else 0) + Count(calls[1..], p)
  }

  lemma {:induction false} CountAppend(a: seq<Call>, b: seq<Call>, p: Call -> bool)
    ensures Count(a + b, p) == Count(a, p) + Count(b, p)
  {
    if a == [] {
      assert a + b == b;
    } else {
      assert (a + b)[1..] == a[1..] + b;
      CountAppend(a[1..], b, p);
    }
  }

  lemma CountSingle(c: Call, p: Call -> bool)
    ensures Count([c], p) == if p(c) then 1 else 0
  {
    assert [c][1..] == [];
  }
}
