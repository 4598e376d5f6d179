/** The attachment store: the ordered list of files attached to the current
    supplier item, replaced by a fetch, appended to by an upload and filtered
    by a delete. */
module AttachmentSlice {
  import opened JsValues

  datatype Attachment = Attachment(FileName: string, ServerRelativeUrl: string)

  /** The address recorded for a file just uploaded, built from the site
      address and the file name. */
  function AttachmentUrl(webUrl: string, name: string): string
  {
    webUrl + "/path-to-attachments/" + name
  }

  /** addAttachment.fulfilled: a returned file is appended at the end under
      its own name, with no check for an entry of the same name; no file
      leaves the list as it was. */
  function Added(list: seq<Attachment>, webUrl: string, payload: Option<File>): (r: seq<Attachment>)
    ensures payload.None? ==> r == list
    ensures payload.Some? ==>
      |r| == |list| + 1 && r[..|list|] == list && r[|list|].FileName == payload.value.name
  {
    match payload
    case None => list
    case Some(file) => list + [Attachment(file.name, AttachmentUrl(webUrl, file.name))]
  }

  /** deleteAttachment.fulfilled: `filter(file => file.FileName !== name)`.
      The result holds exactly the entries of another name and is never
      longer. */
  function Without(list: seq<Attachment>, name: string): (r: seq<Attachment>)
    ensures |r| <= |list|
    ensures forall a :: a in r <==> a in list && a.FileName != name
  {
    if list == [] then []
    else
      (if list[0].FileName != name then [list[0]] else []) + Without(list[1..], name)
  }

  /** Each entry of another name is kept as often as it occurred; none of
      the deleted name is left. */
  lemma {:induction false} WithoutCounts(list: seq<Attachment>, name: string, a: Attachment)
    ensures a.FileName != name ==> multiset(Without(list, name))[a] == multiset(list)[a]
    ensures a.FileName == name ==> multiset(Without(list, name))[a] == 0
  {
    if list != [] {
      assert list == [list[0]] + list[1..];
      WithoutCounts(list[1..], name, a);
    }
  }

  /** Filtering keeps the order: it distributes over concatenation. */
  lemma {:induction false} WithoutAppend(a: seq<Attachment>, b: seq<Attachment>, name: string)
    ensures Without(a + b, name) == Without(a, name) + Without(b, name)
  {
    if a == [] {
      assert a + b == b;
    } else {
      assert (a + b)[1..] == a[1..] + b;
      assert (a + b)[0] == a[0];
      WithoutAppend(a[1..], b, name);
    }
  }

  /** Deleting a name no entry has changes nothing. */
  lemma {:induction false} WithoutAbsent(list: seq<Attachment>, name: string)
    requires forall i :: 0 <= i < |list| ==> list[i].FileName != name
    ensures Without(list, name) == list
  {
    if list != [] {
      WithoutAbsent(list[1..], name);
    }
  }

  /** Deleting the same name twice is deleting it once. */
  lemma WithoutIdempotent(list: seq<Attachment>, name: string)
    ensures Without(Without(list, name), name) == Without(list, name)
  {
    var r := Without(list, name);
    forall i | 0 <= i < |r| ensures r[i].FileName != name {
      assert r[i] in r;
    }
    WithoutAbsent(r, name);
  }

  /** Deleting a name also removes an entry just added under that name, and
      every earlier duplicate of it. */
  lemma DeleteUndoesAdd(list: seq<Attachment>, webUrl: string, file: File)
    ensures Without(Added(list, webUrl, Some(file)), file.name) == Without(list, file.name)
  {
    var entry := Attachment(file.name, AttachmentUrl(webUrl, file.name));
    WithoutAppend(list, [entry], file.name);
    assert Without([entry], file.name) == [];
  }

  /** The attachment store. */
  class AttachmentStore {
    /** The site address `sp.web.toUrl()` that upload addresses start with. */
    const webUrl: string
    var fetchedAttachments: seq<Attachment>

    constructor (webUrl: string)
      ensures this.webUrl == webUrl && fetchedAttachments == []
    {
      this.webUrl := webUrl;
      fetchedAttachments := [];
    }

    /** resetAttachments: empty from any state. */
    method ResetAttachments()
      modifies this
      ensures fetchedAttachments == []
    {
      fetchedAttachments := [];
    }

    /** fetchAttachments.fulfilled: the whole list is replaced. */
    method FetchAttachmentsFulfilled(payload: seq<Attachment>)
      modifies this
      ensures fetchedAttachments == payload
    {
      fetchedAttachments := payload;
    }

    /** addAttachment.fulfilled: push one entry when a file came back. */
    method AddAttachmentFulfilled(payload: Option<File>)
      modifies this
      ensures fetchedAttachments == Added(old(fetchedAttachments), webUrl, payload)
    {
      if payload.Some? {
        var name := payload.value.name;
        fetchedAttachments := fetchedAttachments + [Attachment(name, AttachmentUrl(webUrl, name))];
      }
    }

    /** deleteAttachment.fulfilled: drop every entry of that name. */
    method DeleteAttachmentFulfilled(fileName: string)
      modifies this
      ensures fetchedAttachments == Without(old(fetchedAttachments), fileName)
    {
      fetchedAttachments := Without(fetchedAttachments, fileName);
    }
  }
}
