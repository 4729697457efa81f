/**
 * Revoking one grant, and replacing a resource's whole grant set. All five actions pass the
 * lifecycle gate (DECEASED before INACTIVE) before they look at the resource.
 */
module RevokeAccess {
  import opened Types
  import opened Collections
  import opened Database
  import opened Ledger

  method RevokeDocumentAccess(s: Store, caller: Option<string>, documentId: Id, contactId: Id)
    returns (r: Outcome<()>)
    modifies s`documentAccess
    ensures match s.Authorize(caller, true)
      case Error(e) => r == Error(e) && s.documentAccess == old(s.documentAccess)
      case Data(pid) =>
        if !s.OwnsDocument(pid, documentId) then
          r == Error(NotFound(Documents)) && s.documentAccess == old(s.documentAccess)
        else if (documentId, contactId) !in old(s.documentAccess) then
          r == Error(RecordNotFound) && s.documentAccess == old(s.documentAccess)
        else
          r == Data(()) && s.documentAccess == old(s.documentAccess) - {(documentId, contactId)}
  {
    var auth := s.Authorize(caller, true);
    if auth.Error? {
      return Error(auth.error);
    }
    if !s.OwnsDocument(auth.value, documentId) {
      return Error(NotFound(Documents));
    }
    if (documentId, contactId) !in s.documentAccess {
      return Error(RecordNotFound);
    }
    s.documentAccess := s.documentAccess - {(documentId, contactId)};
    r := Data(());
  }

  method RevokeFolderAccess(s: Store, caller: Option<string>, folderId: Id, contactId: Id)
    returns (r: Outcome<()>)
    modifies s`folderAccess
    ensures match s.Authorize(caller, true)
      case Error(e) => r == Error(e) && s.folderAccess == old(s.folderAccess)
      case Data(pid) =>
        if !s.OwnsFolder(pid, folderId) then
          r == Error(NotFound(Folders)) && s.folderAccess == old(s.folderAccess)
        else if (folderId, contactId) !in old(s.folderAccess) then
          r == Error(RecordNotFound) && s.folderAccess == old(s.folderAccess)
        else
          r == Data(()) && s.folderAccess == old(s.folderAccess) - {(folderId, contactId)}
  {
    var auth := s.Authorize(caller, true);
    if auth.Error? {
      return Error(auth.error);
    }
    if !s.OwnsFolder(auth.value, folderId) {
      return Error(NotFound(Folders));
    }
    if (folderId, contactId) !in s.folderAccess {
      return Error(RecordNotFound);
    }
    s.folderAccess := s.folderAccess - {(folderId, contactId)};
    r := Data(());
  }

  method RevokeAccountAccess(s: Store, caller: Option<string>, accountId: Id, contactId: Id)
    returns (r: Outcome<()>)
    modifies s`accountAccess
    ensures match s.Authorize(caller, true)
      case Error(e) => r == Error(e) && s.accountAccess == old(s.accountAccess)
      case Data(pid) =>
        if !s.OwnsAccount(pid, accountId) then
          r == Error(NotFound(Accounts)) && s.accountAccess == old(s.accountAccess)
        else if (accountId, contactId) !in old(s.accountAccess) then
          r == Error(RecordNotFound) && s.accountAccess == old(s.accountAccess)
        else
          r == Data(()) && s.accountAccess == old(s.accountAccess) - {(accountId, contactId)}
  {
    var auth := s.Authorize(caller, true);
    if auth.Error? {
      return Error(auth.error);
    }
    if !s.OwnsAccount(auth.value, accountId) {
      return Error(NotFound(Accounts));
    }
    if (accountId, contactId) !in s.accountAccess {
      return Error(RecordNotFound);
    }
    s.accountAccess := s.accountAccess - {(accountId, contactId)};
    r := Data(());
  }

  /**
   * `deleteMany` then, for a non-empty list, `createMany` without `skipDuplicates`. The contact
   * ids are not checked against the caller's contacts. A repeated id makes the insert fail
   * after the delete has already run, leaving the document with no grants at all.
   */
  method UpdateDocumentSharing(s: Store, caller: Option<string>, documentId: Id, contactIds: seq<Id>)
    returns (r: Outcome<()>)
    modifies s`documentAccess
    ensures match s.Authorize(caller, true)
      case Error(e) => r == Error(e) && s.documentAccess == old(s.documentAccess)
      case Data(pid) =>
        if !s.OwnsDocument(pid, documentId) then
          r == Error(NotFound(Documents)) && s.documentAccess == old(s.documentAccess)
        else if !Distinct(contactIds) then
          r == Error(UniqueViolation) && s.documentAccess == ClearResource(old(s.documentAccess), documentId)
        else
          r == Data(()) && s.documentAccess == ClearResource(old(s.documentAccess), documentId) + Pairs(documentId, contactIds)
  {
    var auth := s.Authorize(caller, true);
    if auth.Error? {
      return Error(auth.error);
    }
    if !s.OwnsDocument(auth.value, documentId) {
      return Error(NotFound(Documents));
    }
    s.documentAccess := ClearResource(s.documentAccess, documentId);
    if |contactIds| > 0 {
      if !Distinct(contactIds) {
        return Error(UniqueViolation);
      }
      s.documentAccess := s.documentAccess + Pairs(documentId, contactIds);
    }
    r := Data(());
  }

  method UpdateFolderSharing(s: Store, caller: Option<string>, folderId: Id, contactIds: seq<Id>)
    returns (r: Outcome<()>)
    modifies s`folderAccess
    ensures match s.Authorize(caller, true)
      case Error(e) => r == Error(e) && s.folderAccess == old(s.folderAccess)
      case Data(pid) =>
        if !s.OwnsFolder(pid, folderId) then
          r == Error(NotFound(Folders)) && s.folderAccess == old(s.folderAccess)
        else if !Distinct(contactIds) then
          r == Error(UniqueViolation) && s.folderAccess == ClearResource(old(s.folderAccess), folderId)
        else
          r == Data(()) && s.folderAccess == ClearResource(old(s.folderAccess), folderId) + Pairs(folderId, contactIds)
  {
    var auth := s.Authorize(caller, true);
    if auth.Error? {
      return Error(auth.error);
    }
    if !s.OwnsFolder(auth.value, folderId) {
      return Error(NotFound(Folders));
    }
    s.folderAccess := ClearResource(s.folderAccess, folderId);
    if |contactIds| > 0 {
      if !Distinct(contactIds) {
        return Error(UniqueViolation);
      }
      s.folderAccess := s.folderAccess + Pairs(folderId, contactIds);
    }
    r := Data(());
  }
}
