/** The submission section. Without a `vendorId` in the page address the form
    creates an item; with one it updates that item; either way a staged file
    is uploaded only after the record request, and "Create New" always starts
    a blank form afterwards. Dispatching a request never throws (a rejection
    comes back as a value), so every `catch` branch of these handlers is
    unreachable and does not appear here. */
module SaveAndSubmit {
  import opened JsValues
  import opened SupplierSlice
  import opened AttachmentSlice
  import opened ListGateway
  import opened Utils

  /** The toasts the handlers show. */
  datatype Notice =
    | AttachmentAdded | AttachmentDeleted
    | SupplierUpdated | SupplierCreated | SupplierCreationFailed

  /** Everything the handlers read or change: both stores, the staged file,
      the page's query string without its "?" (None when there is none, and
      the source of `recordId` at every render), the active tab of the
      parent, and what was sent and shown so far. */
  datatype Session = Session(
    record: Record,
    files: seq<Attachment>,
    staged: Option<File>,
    query: Option<string>,
    tab: int,
    calls: seq<Call>,
    notices: seq<Notice>)

  /** `if (recordId)`: a record identifier is present and not empty. */
  predicate HasRecordId(recordId: Option<string>)
  {
    recordId.Some? && recordId.value != ""
  }

  /** The query string written after a create: `vendorId=<ID>`. */
  function VendorQuery(id: nat): string
  {
    "vendorId=" + IntToString(id)
  }

  /** onDrop: stage the first accepted file, or nothing. */
  function DropStep(s: Session, accepted: seq<File>): Session
  {
    s.(staged := if |accepted| > 0 then Some(accepted[0]) else None)
  }

  /** handleRemarkChange. */
  function RemarkStep(s: Session, text: string): Session
  {
    s.(record := SetField(s.record, remark, Str(text)))
  }

  /** The effect that lists the item's files whenever `supplier.ID` is set. */
  function FetchAttachmentsStep(s: Session, listed: Listed): Session
  {
    if TruthyProp(Get(s.record, ID)) then
      s.(calls := s.calls + [ListFiles(NumberOfProp(Get(s.record, ID)))],
         files := if listed.ListedFiles? then listed.files else s.files)
    else s
  }

  /** handleAddAttachment: with a staged file, one upload for the given item;
      the file is unstaged and success is shown however the upload settles. */
  function AddAttachmentStep(s: Session, webUrl: string, supplierId: JsNumber, added: Settled): Session
  {
    match s.staged
    case None => s
    case Some(file) =>
      s.(calls := s.calls + [AddFile(supplierId, file.name)],
         files := if added.Fulfilled? then Added(s.files, webUrl, Some(file)) else s.files,
         notices := s.notices + [AttachmentAdded],
         staged := None)
  }

  /** handleDeleteAttachment: only when the record has an `ID`. */
  function DeleteAttachmentStep(s: Session, fileName: string, deleted: Settled): Session
  {
    if TruthyProp(Get(s.record, ID)) then
      s.(calls := s.calls + [DeleteFile(NumberOfProp(Get(s.record, ID)), fileName)],
         files := if deleted.Fulfilled? then Without(s.files, fileName) else s.files,
         notices := s.notices + [AttachmentDeleted])
    else s
  }

  /** handleUpdate, with `recordId` read from the query string of the
      render the handler belongs to. The outcome of the update request is
      received and not looked at. */
  function UpdateStep(s: Session, webUrl: string, updated: Settled, added: Settled): Session
  {
    var recordId := RecordIdOf(s.query);
    if !HasRecordId(recordId) then s
    else
      var rid := recordId.value;
      var s1 := s.(calls := s.calls + [UpdateItem(NumberOf(rid), Payload(s.record))]);
      var s2 := AddAttachmentStep(s1, webUrl, NumberOf(rid), added);
      s2.(notices := s2.notices + [SupplierUpdated])
  }

  /** handleSave. */
  function SaveStep(s: Session, webUrl: string, created: Created, added: Settled): Session
  {
    var s1 := s.(calls := s.calls + [AddItem(Payload(s.record))]);
    match created
    case CreateRejected => s1.(notices := s1.notices + [SupplierCreationFailed])
    case CreatedItem(id) =>
      var s2 := AddAttachmentStep(s1, webUrl, Int(id), added);
      s2.(notices := s2.notices + [SupplierCreated], query := Some(VendorQuery(id)))
  }

  /** handleSaveAndCreateNew. */
  function SaveAndCreateNewStep(s: Session, webUrl: string, updated: Settled, created: Created, added: Settled): Session
  {
    var s1 := if HasRecordId(RecordIdOf(s.query)) then UpdateStep(s, webUrl, updated, added)
              else SaveStep(s, webUrl, created, added);
    s1.(query := None, record := InitialState(), files := [], tab := 0)
  }

  // ---------------------------------------------------------------------------
  // What the handlers promise
  // ---------------------------------------------------------------------------

  /** The requests a step added to the log. */
  function NewCalls(s: Session, t: Session): seq<Call>
    requires |s.calls| <= |t.calls|
  {
    t.calls[|s.calls|..]
  }

  /** Upload of a staged file: exactly one upload request, for the given
      item and the staged name; the file is unstaged whatever the outcome,
      the success toast is shown whatever the outcome, and the list grows by
      one entry exactly when the upload was fulfilled. Nothing happens
      without a staged file. */
  lemma AddAttachmentBehaviour(s: Session, webUrl: string, supplierId: JsNumber, added: Settled)
    ensures var t := AddAttachmentStep(s, webUrl, supplierId, added);
      && t.staged.None?
      && t.record == s.record && t.query == s.query && t.tab == s.tab
      && (s.staged.None? ==> t == s)
      && (s.staged.Some? ==>
            && t.calls == s.calls + [AddFile(supplierId, s.staged.value.name)]
            && t.notices == s.notices + [AttachmentAdded]
            && t.files == (if added.Fulfilled? then Added(s.files, webUrl, s.staged) else s.files))
  {
  }

  /** Deleting without an `ID` in the record does nothing; with one, it
      sends one delete and shows the deletion notice; the list never grows,
      becomes `Without` of itself when the delete was fulfilled and is kept
      when it was rejected; the record, the staged file, the address and the
      tab are left alone. */
  lemma DeleteAttachmentBehaviour(s: Session, fileName: string, deleted: Settled)
    ensures var t := DeleteAttachmentStep(s, fileName, deleted);
      && (!TruthyProp(Get(s.record, ID)) ==> t == s)
      && |t.files| <= |s.files|
      && (TruthyProp(Get(s.record, ID)) ==>
            && t.calls == s.calls + [DeleteFile(NumberOfProp(Get(s.record, ID)), fileName)]
            && t.notices == s.notices + [AttachmentDeleted]
            && t.files == (if deleted.Fulfilled? then Without(s.files, fileName) else s.files)
            && t.record == s.record && t.staged == s.staged && t.query == s.query && t.tab == s.tab)
  {
  }

  /** handleUpdate without a `recordId` does nothing. With one it sends
      exactly one update (of the normalised record, for `Number(recordId)`)
      and no create, followed by the upload of a staged file for that same
      item, which is then unstaged; it shows success however the update
      settled. */
  lemma UpdateBehaviour(s: Session, webUrl: string, updated: Settled, added: Settled)
    ensures !HasRecordId(RecordIdOf(s.query)) ==> UpdateStep(s, webUrl, updated, added) == s
    ensures HasRecordId(RecordIdOf(s.query)) ==>
      var t := UpdateStep(s, webUrl, updated, added);
      var id := NumberOf(RecordIdOf(s.query).value);
      && |s.calls| < |t.calls|
      && t.calls[..|s.calls|] == s.calls
      && t.calls[|s.calls|] == UpdateItem(id, Payload(s.record))
      && (s.staged.None? ==> NewCalls(s, t) == [UpdateItem(id, Payload(s.record))] && t.files == s.files)
      && (s.staged.Some? ==>
            && NewCalls(s, t) == [UpdateItem(id, Payload(s.record)), AddFile(id, s.staged.value.name)]
            && t.files == if added.Fulfilled? then Added(s.files, webUrl, s.staged) else s.files)
      && t.staged.None?
      && Count(t.calls, IsUpdate) == Count(s.calls, IsUpdate) + 1
      && Count(t.calls, IsCreate) == Count(s.calls, IsCreate)
      && t.notices[|t.notices| - 1] == SupplierUpdated
      && t.record == s.record && t.query == s.query && t.tab == s.tab
    ensures UpdateStep(s, webUrl, Fulfilled, added) == UpdateStep(s, webUrl, Rejected, added)
  {
    if HasRecordId(RecordIdOf(s.query)) {
      var id := NumberOf(RecordIdOf(s.query).value);
      var u := UpdateItem(id, Payload(s.record));
      var t := UpdateStep(s, webUrl, updated, added);
      var d := if s.staged.Some? then [u, AddFile(id, s.staged.value.name)] else [u];
      assert t.calls == s.calls + d;
      assert NewCalls(s, t) == d;
      CountAppend(s.calls, d, IsUpdate);
      CountAppend(s.calls, d, IsCreate);
      if s.staged.Some? {
        CountAppend([u], [AddFile(id, s.staged.value.name)], IsUpdate);
        CountAppend([u], [AddFile(id, s.staged.value.name)], IsCreate);
        assert [u] + [AddFile(id, s.staged.value.name)] == d;
        CountSingle(AddFile(id, s.staged.value.name), IsUpdate);
        CountSingle(AddFile(id, s.staged.value.name), IsCreate);
      }
      CountSingle(u, IsUpdate);
      CountSingle(u, IsCreate);
    }
  }

  /** handleSave sends exactly one create (of the normalised record) and no
      update. When the create is fulfilled it uploads a staged file for the
      new `ID`, unstages it, and writes `vendorId=<ID>` into the address; a
      rejection leaves the address, the staged file and the attachment list
      as they were. */
  lemma SaveBehaviour(s: Session, webUrl: string, created: Created, added: Settled)
    ensures var t := SaveStep(s, webUrl, created, added);
      && |s.calls| < |t.calls|
      && t.calls[..|s.calls|] == s.calls
      && t.calls[|s.calls|] == AddItem(Payload(s.record))
      && Count(t.calls, IsCreate) == Count(s.calls, IsCreate) + 1
      && Count(t.calls, IsUpdate) == Count(s.calls, IsUpdate)
      && t.record == s.record && t.tab == s.tab
      && (created.CreatedItem? ==>
            && t.query == Some(VendorQuery(created.id))
            && t.staged.None?
            && (s.staged.None? ==> NewCalls(s, t) == [AddItem(Payload(s.record))] && t.files == s.files)
            && (s.staged.Some? ==>
                  && NewCalls(s, t) == [AddItem(Payload(s.record)), AddFile(Int(created.id), s.staged.value.name)]
                  && t.files == if added.Fulfilled? then Added(s.files, webUrl, s.staged) else s.files)
            && t.notices[|t.notices| - 1] == SupplierCreated)
      && (created.CreateRejected? ==>
            && t.calls == s.calls + [AddItem(Payload(s.record))]
            && t.query == s.query && t.staged == s.staged && t.files == s.files
            && t.notices == s.notices + [SupplierCreationFailed])
  {
    var c := AddItem(Payload(s.record));
    var t := SaveStep(s, webUrl, created, added);
    var d := if created.CreatedItem? && s.staged.Some?
             then [c, AddFile(Int(created.id), s.staged.value.name)] else [c];
    assert t.calls == s.calls + d;
    assert NewCalls(s, t) == d;
    CountAppend(s.calls, d, IsUpdate);
    CountAppend(s.calls, d, IsCreate);
    if |d| == 2 {
      var f := AddFile(Int(created.id), s.staged.value.name);
      assert [c] + [f] == d;
      CountAppend([c], [f], IsUpdate);
      CountAppend([c], [f], IsCreate);
      CountSingle(f, IsUpdate);
      CountSingle(f, IsCreate);
    }
    CountSingle(c, IsUpdate);
    CountSingle(c, IsCreate);
  }

  /** After a fulfilled create the address holds `vendorId=<ID>`, so the
      next render reads that `ID` back as `recordId`: the section switches
      from creating to updating, and its next update goes to the created
      item. */
  lemma SaveSwitchesToUpdate(s: Session, webUrl: string, id: nat, added: Settled, updated: Settled, added': Settled)
    ensures var t := SaveStep(s, webUrl, CreatedItem(id), added);
      && RecordIdOf(t.query) == Some(IntToString(id))
      && NumberOf(RecordIdOf(t.query).value) == Int(id)
      && var u := UpdateStep(t, webUrl, updated, added');
         |t.calls| < |u.calls| && u.calls[|t.calls|] == UpdateItem(Int(id), Payload(t.record))
  {
    var digits := IntToString(id);
    assert digits == NatToString(id);
    ParamValueOfSingle("vendorId", digits);
    assert VendorQuery(id) == "vendorId" + "=" + digits;
    NumberOfIntToString(id);
  }

  /** "Create New" takes the update path exactly when there is a
      `recordId` and the save path otherwise, sending exactly the requests
      of that path, and afterwards, however the requests settled, the record is
      the initial one, the attachment list is empty, the query string is
      gone and the first tab is shown. A staged file survives only a
      rejected create. */
  lemma SaveAndCreateNewBehaviour(s: Session, webUrl: string, updated: Settled, created: Created, added: Settled)
    ensures var recordId := RecordIdOf(s.query);
      var t := SaveAndCreateNewStep(s, webUrl, updated, created, added);
      && t.record == InitialState() && t.files == [] && t.query.None? && t.tab == 0
      && |s.calls| <= |t.calls|
      && (HasRecordId(recordId) ==>
            var id := NumberOf(recordId.value);
            NewCalls(s, t) == [UpdateItem(id, Payload(s.record))] +
                              (if s.staged.Some? then [AddFile(id, s.staged.value.name)] else []))
      && (!HasRecordId(recordId) ==>
            NewCalls(s, t) == [AddItem(Payload(s.record))] +
                              (if created.CreatedItem? && s.staged.Some?
                               then [AddFile(Int(created.id), s.staged.value.name)] else []))
      && Count(t.calls, IsCreate) == Count(s.calls, IsCreate) + (if HasRecordId(recordId) then 0 else 1)
      && Count(t.calls, IsUpdate) == Count(s.calls, IsUpdate) + (if HasRecordId(recordId) then 1 else 0)
      && t.staged == (if !HasRecordId(recordId) && created.CreateRejected? then s.staged else None)
  {
    var recordId := RecordIdOf(s.query);
    if HasRecordId(recordId) {
      UpdateBehaviour(s, webUrl, updated, added);
      AddAttachmentBehaviour(s.(calls := s.calls + [UpdateItem(NumberOf(recordId.value), Payload(s.record))]),
                             webUrl, NumberOf(recordId.value), added);
    } else {
      SaveBehaviour(s, webUrl, created, added);
      if created.CreatedItem? {
        AddAttachmentBehaviour(s.(calls := s.calls + [AddItem(Payload(s.record))]), webUrl, Int(created.id), added);
      }
    }
  }

  /** The submission section's own state and its view of its surroundings. */
  class SaveAndSubmitForm {
    const supplier: SupplierStore
    const attachments: AttachmentStore
    var uploadedFile: Option<File>
    /** window.location.search without its "?", None when empty. */
    var query: Option<string>
    /** The parent's active tab, set through setActiveTab. */
    var activeTab: int
    var calls: seq<Call>
    var notices: seq<Notice>

    /** getQueryParams().recordId, read afresh at every render. */
    function RecordId(): Option<string>
      reads this
    {
      RecordIdOf(query)
    }

    ghost function Snap(): Session
      reads this, supplier, attachments
    {
      Session(supplier.state, attachments.fetchedAttachments, uploadedFile, query, activeTab, calls, notices)
    }

    constructor (supplier: SupplierStore, attachments: AttachmentStore, query: Option<string>, activeTab: int)
      ensures this.supplier == supplier && this.attachments == attachments
      ensures uploadedFile.None? && this.query == query && this.activeTab == activeTab
      ensures calls == [] && notices == []
    {
      this.supplier := supplier;
      this.attachments := attachments;
      uploadedFile := None;
      this.query := query;
      this.activeTab := activeTab;
      calls := [];
      notices := [];
    }

    method OnDrop(acceptedFiles: seq<File>)
      modifies this
      ensures Snap() == DropStep(old(Snap()), acceptedFiles)
    {
      uploadedFile := if |acceptedFiles| > 0 then Some(acceptedFiles[0]) else None;
    }

    method HandleRemarkChange(text: string)
      modifies supplier
      ensures Snap() == RemarkStep(old(Snap()), text)
    {
      supplier.SetSupplierField(remark, Str(text));
    }

    method FetchAttachmentsEffect(listed: Listed)
      modifies this, attachments
      ensures Snap() == FetchAttachmentsStep(old(Snap()), listed)
    {
      var id := Get(supplier.state, ID);
      if TruthyProp(id) {
        calls := calls + [ListFiles(NumberOfProp(id))];
        if listed.ListedFiles? {
          attachments.FetchAttachmentsFulfilled(listed.files);
        }
      }
    }

    method HandleAddAttachment(supplierId: JsNumber, added: Settled)
      modifies this, attachments
      ensures Snap() == AddAttachmentStep(old(Snap()), attachments.webUrl, supplierId, added)
    {
      if uploadedFile.Some? {
        var file := uploadedFile.value;
        calls := calls + [AddFile(supplierId, file.name)];
        if added.Fulfilled? {
          attachments.AddAttachmentFulfilled(Some(file));
        }
        notices := notices + [AttachmentAdded];
        uploadedFile := None;
      }
    }

    method HandleDeleteAttachment(fileName: string, deleted: Settled)
      modifies this, attachments
      ensures Snap() == DeleteAttachmentStep(old(Snap()), fileName, deleted)
    {
      var id := Get(supplier.state, ID);
      if TruthyProp(id) {
        calls := calls + [DeleteFile(NumberOfProp(id), fileName)];
        if deleted.Fulfilled? {
          attachments.DeleteAttachmentFulfilled(fileName);
        }
        notices := notices + [AttachmentDeleted];
      }
    }

    method HandleUpdate(updated: Settled, added: Settled)
      modifies this, attachments
      ensures Snap() == UpdateStep(old(Snap()), attachments.webUrl, updated, added)
    {
      var recordId := RecordId();
      if HasRecordId(recordId) {
        var id := NumberOf(recordId.value);
        calls := calls + [UpdateItem(id, Payload(supplier.state))];
        HandleAddAttachment(id, added);
        notices := notices + [SupplierUpdated];
      }
    }

    method HandleSave(created: Created, added: Settled)
      modifies this, attachments
      ensures Snap() == SaveStep(old(Snap()), attachments.webUrl, created, added)
    {
      calls := calls + [AddItem(Payload(supplier.state))];
      match created {
        case CreatedItem(id) =>
          HandleAddAttachment(Int(id), added);
          notices := notices + [SupplierCreated];
          query := Some(VendorQuery(id));
        case CreateRejected =>
          notices := notices + [SupplierCreationFailed];
      }
    }

    method HandleSaveAndCreateNew(updated: Settled, created: Created, added: Settled)
      modifies this, supplier, attachments
      ensures Snap() == SaveAndCreateNewStep(old(Snap()), attachments.webUrl, updated, created, added)
    {
      if HasRecordId(RecordId()) {
        HandleUpdate(updated, added);
      } else {
        HandleSave(created, added);
      }
      query := None;
      supplier.ResetSupplierState();
      attachments.ResetAttachments();
      activeTab := 0;
    }
  }
}
