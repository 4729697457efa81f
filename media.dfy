/**
 * Media items and folders: creating an item, the upload guard and the folder create/update
 * pass the lifecycle gate; the two deletes do not. The reads are scoped to the caller.
 */
module MediaActions {
  import opened Types
  import opened Collections
  import opened Database
  import opened Ledger
  import DocumentActions

  datatype NewMediaItem = NewMediaItem(
    name: string,
    fileUrl: string,
    fileType: string,
    fileSize: int,
    folderId: Option<Id>)

  /** A folder given to `createMediaItem` is looked up only when non-empty, and must be the caller's. */
  predicate FolderRejected(s: Store, pid: Id, folderId: Option<Id>)
    reads s`folders
  {
    Present(folderId) && !s.OwnsFolder(pid, folderId.value)
  }

  /**
   * `createMediaItem`: gated; a named folder must be the caller's. Without a folder the item is
   * created unorganized.
   */
  method CreateMediaItem(s: Store, caller: Option<string>, input: NewMediaItem, now: Timestamp) returns (r: Outcome<Id>)
    requires s.Valid()
    modifies s`items
    ensures s.Valid()
    ensures match s.Authorize(caller, true)
      case Error(e) => r == Error(e) && s.items == old(s.items)
      case Data(pid) =>
        if FolderRejected(s, pid, input.folderId) then
          r == Error(NotFound(Folders)) && s.items == old(s.items)
        else
          && r.Data? && r.value !in old(s.items)
          && s.items == old(s.items)[r.value := MediaItem(pid, input.name, input.fileUrl, input.fileType,
                                                         input.fileSize, input.folderId, now)]
  {
    var auth := s.Authorize(caller, true);
    if auth.Error? {
      return Error(auth.error);
    }
    var pid := auth.value;
    if FolderRejected(s, pid, input.folderId) {
      return Error(NotFound(Folders));
    }
    var id := FreshId(s.items.Keys);
    s.items := s.items[id := MediaItem(pid, input.name, input.fileUrl, input.fileType, input.fileSize, input.folderId, now)];
    r := Data(id);
  }

  /**
   * `uploadMediaFile` without the storage call. The gate is optional-chained: a caller with no
   * profile passes it; a DECEASED or INACTIVE profile is refused before the file is looked at.
   */
  function UploadMediaFile(s: Store, caller: Option<string>, file: Option<DocumentActions.UploadFile>): (r: Outcome<string>)
    reads s`profiles, s`profileOrder
    ensures caller.None? ==> r == Error(NotAuthenticated)
    ensures caller.Some? && s.ProfileOf(caller.value).Some? && s.profiles[s.ProfileOf(caller.value).value].status != Active ==>
      r == Error(Gate(s.profiles[s.ProfileOf(caller.value).value].status).value)
    ensures caller.Some? && (s.ProfileOf(caller.value).None? || s.profiles[s.ProfileOf(caller.value).value].status == Active) ==>
      if file.None? then r == Error(NoFileProvided)
      else r.Data? && "media/" + caller.value + "/" <= r.value
    ensures r.Data? ==> file.Some?
  {
    if caller.None? then Error(NotAuthenticated)
    else
      var profile := s.ProfileOf(caller.value);
      if profile.Some? && Gate(s.profiles[profile.value].status).Some? then
        Error(Gate(s.profiles[profile.value].status).value)
      else if file.None? then Error(NoFileProvided)
      else Data(DocumentActions.UploadKey("media", caller.value, file.value.name))
  }

  datatype NewFolder = NewFolder(name: string, description: Option<string>)

  /** `createMediaFolder`: gated; the folder belongs to the caller. */
  method CreateMediaFolder(s: Store, caller: Option<string>, input: NewFolder, now: Timestamp) returns (r: Outcome<Id>)
    requires s.Valid()
    modifies s`folders
    ensures s.Valid()
    ensures match s.Authorize(caller, true)
      case Error(e) => r == Error(e) && s.folders == old(s.folders)
      case Data(pid) =>
        && r.Data? && r.value !in old(s.folders)
        && s.folders == old(s.folders)[r.value := Folder(pid, input.name, input.description, now)]
  {
    var auth := s.Authorize(caller, true);
    if auth.Error? {
      return Error(auth.error);
    }
    var id := FreshId(s.folders.Keys);
    s.folders := s.folders[id := Folder(auth.value, input.name, input.description, now)];
    r := Data(id);
  }

  datatype FolderPatch = FolderPatch(name: Option<string>, description: Option<string>)

  /** Only the name and description can change; the owner never does. */
  function PatchedFolder(f: Folder, patch: FolderPatch, now: Timestamp): (r: Folder)
    ensures r.userId == f.userId && r.updatedAt == now
    ensures r.name == Override(patch.name, f.name)
    ensures r.description == (if patch.description.Some? then patch.description else f.description)
  {
    f.(name := Override(patch.name, f.name),
       description := if patch.description.Some? then patch.description else f.description,
       updatedAt := now)
  }

  /** `updateMediaFolder`: gated, then owner-scoped. */
  method UpdateMediaFolder(s: Store, caller: Option<string>, folderId: Id, patch: FolderPatch, now: Timestamp)
    returns (r: Outcome<Id>)
    requires s.Valid()
    modifies s`folders
    ensures s.Valid()
    ensures match s.Authorize(caller, true)
      case Error(e) => r == Error(e) && s.folders == old(s.folders)
      case Data(pid) =>
        if !old(s.OwnsFolder(pid, folderId)) then
          r == Error(NotFound(Folders)) && s.folders == old(s.folders)
        else
          r == Data(folderId) && s.folders == old(s.folders)[folderId := PatchedFolder(old(s.folders[folderId]), patch, now)]
  {
    var auth := s.Authorize(caller, true);
    if auth.Error? {
      return Error(auth.error);
    }
    if !s.OwnsFolder(auth.value, folderId) {
      return Error(NotFound(Folders));
    }
    s.folders := s.folders[folderId := PatchedFolder(s.folders[folderId], patch, now)];
    r := Data(folderId);
  }

  /** `deleteMediaItem`: no lifecycle gate; a failed blob delete is swallowed. */
  method DeleteMediaItem(s: Store, caller: Option<string>, itemId: Id) returns (r: Outcome<()>)
    requires s.Valid()
    modifies s`items
    ensures s.Valid()
    ensures match s.Authorize(caller, false)
      case Error(e) => r == Error(e) && s.items == old(s.items)
      case Data(pid) =>
        if !old(s.OwnsItem(pid, itemId)) then
          r == Error(NotFound(MediaItems)) && s.items == old(s.items)
        else
          r == Data(()) && s.items == old(s.items) - {itemId}
  {
    var auth := s.Authorize(caller, false);
    if auth.Error? {
      return Error(auth.error);
    }
    if !s.OwnsItem(auth.value, itemId) {
      return Error(NotFound(MediaItems));
    }
    var blobDeleted: bool := *;
    s.items := s.items - {itemId};
    r := Data(());
  }

  /** `mediaItem.deleteMany({ where: { folderId } })`: the items outside the folder. */
  function ItemsOutside(items: map<Id, MediaItem>, folderId: Id): (r: map<Id, MediaItem>)
    ensures forall id :: id in r <==> id in items && items[id].folderId != Some(folderId)
    ensures forall id :: id in r ==> r[id] == items[id]
  {
    map id | id in items.Keys && items[id].folderId != Some(folderId) :: items[id]
  }

  /**
   * `deleteMediaFolder`: no lifecycle gate. Every item filed in the folder is deleted, then the
   * folder itself; blob delete failures are swallowed.
   */
  method DeleteMediaFolder(s: Store, caller: Option<string>, folderId: Id) returns (r: Outcome<()>)
    requires s.Valid()
    modifies s`items, s`folders
    ensures s.Valid()
    ensures match s.Authorize(caller, false)
      case Error(e) => r == Error(e) && s.items == old(s.items) && s.folders == old(s.folders)
      case Data(pid) =>
        if !old(s.OwnsFolder(pid, folderId)) then
          r == Error(NotFound(Folders)) && s.items == old(s.items) && s.folders == old(s.folders)
        else
          && r == Data(())
          && s.items == ItemsOutside(old(s.items), folderId)
          && s.folders == old(s.folders) - {folderId}
  {
    var auth := s.Authorize(caller, false);
    if auth.Error? {
      return Error(auth.error);
    }
    if !s.OwnsFolder(auth.value, folderId) {
      return Error(NotFound(Folders));
    }
    s.items := ItemsOutside(s.items, folderId);
    s.folders := s.folders - {folderId};
    r := Data(());
  }

  /** `listMediaFolders`: no profile gives an empty list; otherwise the caller's folders, most recently updated first. */
  ghost function ListMediaFolders(s: Store, caller: Option<string>): (r: Outcome<seq<Id>>)
    reads s`profiles, s`profileOrder, s`folders
    ensures caller.None? <==> r.Error?
    ensures r.Error? ==> r.error == NotAuthenticated
    ensures r.Data? ==> Distinct(r.value)
    ensures caller.Some? && s.ProfileOf(caller.value).None? ==> r == Data([])
    ensures caller.Some? && s.ProfileOf(caller.value).Some? ==>
      var pid := s.ProfileOf(caller.value).value;
      && r.Data?
      && (forall id :: id in r.value <==> s.OwnsFolder(pid, id))
      && (forall i, j :: 0 <= i < j < |r.value| ==>
            r.value[i] in s.folders && r.value[j] in s.folders &&
            s.folders[r.value[i]].updatedAt >= s.folders[r.value[j]].updatedAt)
  {
    if caller.None? then Error(NotAuthenticated)
    else match s.ProfileOf(caller.value)
      case None => Data([])
      case Some(pid) =>
        Data(SortedDesc(map id | id in s.folders.Keys && s.folders[id].userId == pid :: s.folders[id].updatedAt))
  }

  /**
   * `listMediaItems`: no profile gives an empty list; otherwise the caller's items, restricted
   * to `folderId` only when one is given (non-empty), newest first.
   */
  ghost function ListMediaItems(s: Store, caller: Option<string>, folderId: Option<Id>): (r: Outcome<seq<Id>>)
    reads s`profiles, s`profileOrder, s`items
    ensures caller.None? <==> r.Error?
    ensures r.Error? ==> r.error == NotAuthenticated
    ensures r.Data? ==> Distinct(r.value)
    ensures caller.Some? && s.ProfileOf(caller.value).None? ==> r == Data([])
    ensures caller.Some? && s.ProfileOf(caller.value).Some? ==>
      var pid := s.ProfileOf(caller.value).value;
      && r.Data?
      && (forall id :: id in r.value <==>
            s.OwnsItem(pid, id) && (Present(folderId) ==> s.items[id].folderId == folderId))
      && (forall i, j :: 0 <= i < j < |r.value| ==>
            r.value[i] in s.items && r.value[j] in s.items &&
            s.items[r.value[i]].createdAt >= s.items[r.value[j]].createdAt)
  {
    if caller.None? then Error(NotAuthenticated)
    else match s.ProfileOf(caller.value)
      case None => Data([])
      case Some(pid) =>
        Data(SortedDesc(map id | id in s.items.Keys && s.items[id].userId == pid &&
                                 (Present(folderId) ==> s.items[id].folderId == folderId)
                             :: s.items[id].createdAt))
  }

  /** A folder with the items filed in it and the contacts on its access list. */
  datatype FolderView = FolderView(id: Id, folder: Folder, items: set<Id>, accessList: set<Id>)

  /** `getMediaFolder`: no profile is an error; another owner's folder gives `null`. */
  function GetMediaFolder(s: Store, caller: Option<string>, folderId: Id): (r: Outcome<Option<FolderView>>)
    reads s`profiles, s`profileOrder, s`folders, s`items, s`folderAccess
    ensures r.Error? <==> s.Authorize(caller, false).Error?
    ensures r.Error? ==> r.error == s.Authorize(caller, false).error
    ensures r.Data? ==>
      var pid := s.Authorize(caller, false).value;
      && (r.value.None? <==> !s.OwnsFolder(pid, folderId))
      && (r.value.Some? ==>
            var v := r.value.value;
            && v.id == folderId && v.folder == s.folders[folderId]
            && (forall i :: i in v.items <==> i in s.items && s.items[i].folderId == Some(folderId))
            && (forall c :: c in v.accessList <==> (folderId, c) in s.folderAccess))
  {
    match s.Authorize(caller, false)
    case Error(e) => Error(e)
    case Data(pid) =>
      if !s.OwnsFolder(pid, folderId) then Data(None)
      else
        var filed := set i | i in s.items.Keys && s.items[i].folderId == Some(folderId);
        Data(Some(FolderView(folderId, s.folders[folderId], filed, GrantsOf(s.folderAccess, folderId))))
  }
}
