/**
 * Granting contacts access to a document, a media folder or a digital account. None of the
 * three consults the lifecycle gate: a DECEASED or INACTIVE owner can still grant.
 */
module GrantAccess {
  import opened Types
  import opened Database
  import opened Ledger

  method GrantDocumentAccess(s: Store, caller: Option<string>, documentId: Id, contactIds: seq<Id>)
    returns (r: Outcome<()>)
    modifies s`documentAccess
    ensures match s.Authorize(caller, false)
      case Error(e) => r == Error(e) && s.documentAccess == old(s.documentAccess)
      case Data(pid) =>
        if !s.OwnsDocument(pid, documentId) then
          r == Error(NotFound(Documents)) && s.documentAccess == old(s.documentAccess)
        else if !ContactsCheck(s.contacts, pid, contactIds) then
          r == Error(ContactsNotFound) && s.documentAccess == old(s.documentAccess)
        else
          r == Data(()) && s.documentAccess == old(s.documentAccess) + Pairs(documentId, contactIds)
  {
    var auth := s.Authorize(caller, false);
    if auth.Error? {
      return Error(auth.error);
    }
    var pid := auth.value;
    if !s.OwnsDocument(pid, documentId) {
      return Error(NotFound(Documents));
    }
    if !ContactsCheck(s.contacts, pid, contactIds) {
      return Error(ContactsNotFound);
    }
    s.documentAccess := s.documentAccess + Pairs(documentId, contactIds);
    r := Data(());
  }

  method GrantFolderAccess(s: Store, caller: Option<string>, folderId: Id, contactIds: seq<Id>)
    returns (r: Outcome<()>)
    modifies s`folderAccess
    ensures match s.Authorize(caller, false)
      case Error(e) => r == Error(e) && s.folderAccess == old(s.folderAccess)
      case Data(pid) =>
        if !s.OwnsFolder(pid, folderId) then
          r == Error(NotFound(Folders)) && s.folderAccess == old(s.folderAccess)
        else if !ContactsCheck(s.contacts, pid, contactIds) then
          r == Error(ContactsNotFound) && s.folderAccess == old(s.folderAccess)
        else
          r == Data(()) && s.folderAccess == old(s.folderAccess) + Pairs(folderId, contactIds)
  {
    var auth := s.Authorize(caller, false);
    if auth.Error? {
      return Error(auth.error);
    }
    var pid := auth.value;
    if !s.OwnsFolder(pid, folderId) {
      return Error(NotFound(Folders));
    }
    if !ContactsCheck(s.contacts, pid, contactIds) {
      return Error(ContactsNotFound);
    }
    s.folderAccess := s.folderAccess + Pairs(folderId, contactIds);
    r := Data(());
  }

  method GrantAccountAccess(s: Store, caller: Option<string>, accountId: Id, contactIds: seq<Id>)
    returns (r: Outcome<()>)
    modifies s`accountAccess
    ensures match s.Authorize(caller, false)
      case Error(e) => r == Error(e) && s.accountAccess == old(s.accountAccess)
      case Data(pid) =>
        if !s.OwnsAccount(pid, accountId) then
          r == Error(NotFound(Accounts)) && s.accountAccess == old(s.accountAccess)
        else if !ContactsCheck(s.contacts, pid, contactIds) then
          r == Error(ContactsNotFound) && s.accountAccess == old(s.accountAccess)
        else
          r == Data(()) && s.accountAccess == old(s.accountAccess) + Pairs(accountId, contactIds)
  {
    var auth := s.Authorize(caller, false);
    if auth.Error? {
      return Error(auth.error);
    }
    var pid := auth.value;
    if !s.OwnsAccount(pid, accountId) {
      return Error(NotFound(Accounts));
    }
    if !ContactsCheck(s.contacts, pid, contactIds) {
      return Error(ContactsNotFound);
    }
    s.accountAccess := s.accountAccess + Pairs(accountId, contactIds);
    r := Data(());
  }
}
