/**
 * Documents: create and update have no lifecycle gate, delete has one; the upload guard, and
 * the caller-scoped reads.
 */
module DocumentActions {
  import opened Types
  import opened Collections
  import opened Database
  import opened Ledger

  datatype NewDocument = NewDocument(
    name: string,
    description: Option<string>,
    fileUrl: string,
    fileType: string,
    fileSize: int,
    isWill: Option<bool>)

  /**
   * `createDocument`: no lifecycle gate; `isWill` defaults to false, and nothing stops an owner
   * from marking several documents as their will.
   */
  method CreateDocument(s: Store, caller: Option<string>, input: NewDocument, now: Timestamp) returns (r: Outcome<Id>)
    requires s.Valid()
    modifies s`documents
    ensures s.Valid()
    ensures match s.Authorize(caller, false)
      case Error(e) => r == Error(e) && s.documents == old(s.documents)
      case Data(pid) =>
        && r.Data? && r.value !in old(s.documents)
        && s.documents == old(s.documents)[r.value := Document(pid, input.name, input.description, input.fileUrl,
                                                               input.fileType, input.fileSize,
                                                               Override(input.isWill, false), now)]
  {
    var auth := s.Authorize(caller, false);
    if auth.Error? {
      return Error(auth.error);
    }
    var id := FreshId(s.documents.Keys);
    s.documents := s.documents[id := Document(auth.value, input.name, input.description, input.fileUrl,
                                              input.fileType, input.fileSize, Override(input.isWill, false), now)];
    r := Data(id);
  }

  /** The part of an uploaded form the guard looks at. */
  datatype UploadFile = UploadFile(name: string)

  /** The blob key an upload is stored under, inside the uploader's own directory. */
  function UploadKey(area: string, clerkUserId: string, fileName: string): (key: string)
    ensures area + "/" + clerkUserId + "/" <= key
    ensures |key| >= |fileName| && key[|key| - |fileName|..] == fileName
  {
    var dir := area + "/" + clerkUserId + "/";
    assert (dir + fileName)[..|dir|] == dir;
    dir + fileName
  }

  /**
   * `uploadDocumentFile` without the storage call: no identity or no file is an error, and
   * there is no profile lookup and no lifecycle gate. On success, the key the file is put under.
   */
  function UploadDocumentFile(caller: Option<string>, file: Option<UploadFile>): (r: Outcome<string>)
    ensures caller.None? ==> r == Error(NotAuthenticated)
    ensures caller.Some? && file.None? ==> r == Error(NoFileProvided)
    ensures caller.Some? && file.Some? ==>
      && r.Data? && "documents/" + caller.value + "/" <= r.value
      && |r.value| >= |file.value.name| && r.value[|r.value| - |file.value.name|..] == file.value.name
  {
    if caller.None? then Error(NotAuthenticated)
    else if file.None? then Error(NoFileProvided)
    else Data(UploadKey("documents", caller.value, file.value.name))
  }

  datatype DocumentPatch = DocumentPatch(
    name: Option<string>,
    description: Option<string>,
    fileUrl: Option<string>,
    fileType: Option<string>,
    fileSize: Option<int>,
    isWill: Option<bool>)

  /** Every supplied field replaces its column, `updatedAt` is stamped, and the owner never changes. */
  function PatchedDocument(d: Document, patch: DocumentPatch, now: Timestamp): (r: Document)
    ensures r.userId == d.userId && r.updatedAt == now
    ensures r.name == Override(patch.name, d.name)
    ensures r.description == (if patch.description.Some? then patch.description else d.description)
    ensures r.fileUrl == Override(patch.fileUrl, d.fileUrl)
    ensures r.fileType == Override(patch.fileType, d.fileType)
    ensures r.fileSize == Override(patch.fileSize, d.fileSize)
    ensures r.isWill == Override(patch.isWill, d.isWill)
  {
    d.(name := Override(patch.name, d.name),
       description := if patch.description.Some? then patch.description else d.description,
       fileUrl := Override(patch.fileUrl, d.fileUrl),
       fileType := Override(patch.fileType, d.fileType),
       fileSize := Override(patch.fileSize, d.fileSize),
       isWill := Override(patch.isWill, d.isWill),
       updatedAt := now)
  }

  /** `updateDocument`: no lifecycle gate; owner-scoped. */
  method UpdateDocument(s: Store, caller: Option<string>, documentId: Id, patch: DocumentPatch, now: Timestamp)
    returns (r: Outcome<Id>)
    requires s.Valid()
    modifies s`documents
    ensures s.Valid()
    ensures match s.Authorize(caller, false)
      case Error(e) => r == Error(e) && s.documents == old(s.documents)
      case Data(pid) =>
        if !old(s.OwnsDocument(pid, documentId)) then
          r == Error(NotFound(Documents)) && s.documents == old(s.documents)
        else
          r == Data(documentId) &&
          s.documents == old(s.documents)[documentId := PatchedDocument(old(s.documents[documentId]), patch, now)]
  {
    var auth := s.Authorize(caller, false);
    if auth.Error? {
      return Error(auth.error);
    }
    if !s.OwnsDocument(auth.value, documentId) {
      return Error(NotFound(Documents));
    }
    s.documents := s.documents[documentId := PatchedDocument(s.documents[documentId], patch, now)];
    r := Data(documentId);
  }

  /**
   * `deleteDocument`: gated, owner-scoped. The blob delete may fail; the failure is swallowed
   * and the row is deleted all the same.
   */
  method DeleteDocument(s: Store, caller: Option<string>, documentId: Id) returns (r: Outcome<()>)
    requires s.Valid()
    modifies s`documents
    ensures s.Valid()
    ensures match s.Authorize(caller, true)
      case Error(e) => r == Error(e) && s.documents == old(s.documents)
      case Data(pid) =>
        if !old(s.OwnsDocument(pid, documentId)) then
          r == Error(NotFound(Documents)) && s.documents == old(s.documents)
        else
          r == Data(()) && s.documents == old(s.documents) - {documentId}
  {
    var auth := s.Authorize(caller, true);
    if auth.Error? {
      return Error(auth.error);
    }
    if !s.OwnsDocument(auth.value, documentId) {
      return Error(NotFound(Documents));
    }
    var blobDeleted: bool := *;
    s.documents := s.documents - {documentId};
    r := Data(());
  }

  /**
   * `listDocuments`: no profile gives an empty list; otherwise the caller's documents,
   * restricted to `isWill` only when the option is defined, most recently updated first.
   */
  ghost function ListDocuments(s: Store, caller: Option<string>, isWill: Option<bool>): (r: Outcome<seq<Id>>)
    reads s`profiles, s`profileOrder, s`documents
    ensures caller.None? <==> r.Error?
    ensures r.Error? ==> r.error == NotAuthenticated
    ensures r.Data? ==> Distinct(r.value)
    ensures caller.Some? && s.ProfileOf(caller.value).None? ==> r == Data([])
    ensures caller.Some? && s.ProfileOf(caller.value).Some? ==>
      var pid := s.ProfileOf(caller.value).value;
      && r.Data?
      && (forall id :: id in r.value <==>
            s.OwnsDocument(pid, id) && (isWill.Some? ==> s.documents[id].isWill == isWill.value))
      && (forall i, j :: 0 <= i < j < |r.value| ==>
            r.value[i] in s.documents && r.value[j] in s.documents &&
            s.documents[r.value[i]].updatedAt >= s.documents[r.value[j]].updatedAt)
  {
    if caller.None? then Error(NotAuthenticated)
    else match s.ProfileOf(caller.value)
      case None => Data([])
      case Some(pid) =>
        Data(SortedDesc(map id | id in s.documents.Keys && s.documents[id].userId == pid &&
                                 (isWill.Some? ==> s.documents[id].isWill == isWill.value)
                             :: s.documents[id].updatedAt))
  }

  /** A document with the contacts on its access list. */
  datatype DocumentView = DocumentView(id: Id, document: Document, accessList: set<Id>)

  /** `getDocument`: no profile is an error; another owner's document gives `null`. */
  function GetDocument(s: Store, caller: Option<string>, documentId: Id): (r: Outcome<Option<DocumentView>>)
    reads s`profiles, s`profileOrder, s`documents, s`documentAccess
    ensures r.Error? <==> s.Authorize(caller, false).Error?
    ensures r.Error? ==> r.error == s.Authorize(caller, false).error
    ensures r.Data? ==>
      var pid := s.Authorize(caller, false).value;
      && (r.value.None? <==> !s.OwnsDocument(pid, documentId))
      && (r.value.Some? ==>
            var v := r.value.value;
            && v.id == documentId && v.document == s.documents[documentId]
            && (forall c :: c in v.accessList <==> (documentId, c) in s.documentAccess))
  {
    match s.Authorize(caller, false)
    case Error(e) => Error(e)
    case Data(pid) =>
      if !s.OwnsDocument(pid, documentId) then Data(None)
      else Data(Some(DocumentView(documentId, s.documents[documentId], GrantsOf(s.documentAccess, documentId))))
  }
}
