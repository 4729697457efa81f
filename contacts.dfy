/**
 * Trusted contacts: create and update pass the lifecycle gate, delete does not; the reads are
 * scoped to the caller's own contacts.
 */
module ContactActions {
  import opened Types
  import opened Collections
  import opened Database
  import opened Ledger

  datatype NewContact = NewContact(
    name: string,
    email: Option<string>,
    phone: Option<string>,
    relationship: Relationship,
    role: Role)

  /** `createContact`: gated; the new contact belongs to the caller and no other row changes. */
  method CreateContact(s: Store, caller: Option<string>, input: NewContact, now: Timestamp) returns (r: Outcome<Id>)
    requires s.Valid()
    modifies s`contacts
    ensures s.Valid()
    ensures match s.Authorize(caller, true)
      case Error(e) => r == Error(e) && s.contacts == old(s.contacts)
      case Data(pid) =>
        && r.Data? && r.value !in old(s.contacts)
        && s.contacts == old(s.contacts)[r.value := Contact(pid, input.name, input.email, input.phone,
                                                            input.relationship, input.role, now)]
  {
    var auth := s.Authorize(caller, true);
    if auth.Error? {
      return Error(auth.error);
    }
    var id := FreshId(s.contacts.Keys);
    s.contacts := s.contacts[id := Contact(auth.value, input.name, input.email, input.phone,
                                           input.relationship, input.role, now)];
    r := Data(id);
  }

  /** The fields `updateContact` accepts besides the id; `None` leaves a column as it is. */
  datatype ContactPatch = ContactPatch(
    name: Option<string>,
    email: Option<string>,
    phone: Option<string>,
    relationship: Option<Relationship>,
    role: Option<Role>)

  /** Every supplied field replaces its column; the owner and creation time never change. */
  function PatchedContact(c: Contact, patch: ContactPatch): (r: Contact)
    ensures r.userId == c.userId && r.createdAt == c.createdAt
    ensures r.name == Override(patch.name, c.name)
    ensures r.email == (if patch.email.Some? then patch.email else c.email)
    ensures r.phone == (if patch.phone.Some? then patch.phone else c.phone)
    ensures r.relationship == Override(patch.relationship, c.relationship)
    ensures r.role == Override(patch.role, c.role)
  {
    c.(name := Override(patch.name, c.name),
       email := if patch.email.Some? then patch.email else c.email,
       phone := if patch.phone.Some? then patch.phone else c.phone,
       relationship := Override(patch.relationship, c.relationship),
       role := Override(patch.role, c.role))
  }

  /** `updateContact`: gated, then owner-scoped; another owner's contact reads as missing. */
  method UpdateContact(s: Store, caller: Option<string>, contactId: Id, patch: ContactPatch) returns (r: Outcome<Id>)
    requires s.Valid()
    modifies s`contacts
    ensures s.Valid()
    ensures match s.Authorize(caller, true)
      case Error(e) => r == Error(e) && s.contacts == old(s.contacts)
      case Data(pid) =>
        if !old(s.OwnsContact(pid, contactId)) then
          r == Error(NotFound(Contacts)) && s.contacts == old(s.contacts)
        else
          r == Data(contactId) && s.contacts == old(s.contacts)[contactId := PatchedContact(old(s.contacts[contactId]), patch)]
  {
    var auth := s.Authorize(caller, true);
    if auth.Error? {
      return Error(auth.error);
    }
    if !s.OwnsContact(auth.value, contactId) {
      return Error(NotFound(Contacts));
    }
    s.contacts := s.contacts[contactId := PatchedContact(s.contacts[contactId], patch)];
    r := Data(contactId);
  }

  /** `deleteContact`: no lifecycle gate, so a DECEASED or INACTIVE owner can still delete. */
  method DeleteContact(s: Store, caller: Option<string>, contactId: Id) returns (r: Outcome<()>)
    requires s.Valid()
    modifies s`contacts
    ensures s.Valid()
    ensures match s.Authorize(caller, false)
      case Error(e) => r == Error(e) && s.contacts == old(s.contacts)
      case Data(pid) =>
        if !old(s.OwnsContact(pid, contactId)) then
          r == Error(NotFound(Contacts)) && s.contacts == old(s.contacts)
        else
          r == Data(()) && s.contacts == old(s.contacts) - {contactId}
  {
    var auth := s.Authorize(caller, false);
    if auth.Error? {
      return Error(auth.error);
    }
    if !s.OwnsContact(auth.value, contactId) {
      return Error(NotFound(Contacts));
    }
    s.contacts := s.contacts - {contactId};
    r := Data(());
  }

  /**
   * `listContacts`: no profile gives an empty list; otherwise the caller's contacts, newest
   * first.
   */
  ghost function ListContacts(s: Store, caller: Option<string>): (r: Outcome<seq<Id>>)
    reads s`profiles, s`profileOrder, s`contacts
    ensures caller.None? <==> r.Error?
    ensures r.Error? ==> r.error == NotAuthenticated
    ensures r.Data? ==> Distinct(r.value)
    ensures caller.Some? && s.ProfileOf(caller.value).None? ==> r == Data([])
    ensures caller.Some? && s.ProfileOf(caller.value).Some? ==>
      var pid := s.ProfileOf(caller.value).value;
      && r.Data?
      && (forall id :: id in r.value <==> s.OwnsContact(pid, id))
      && (forall i, j :: 0 <= i < j < |r.value| ==>
            r.value[i] in s.contacts && r.value[j] in s.contacts &&
            s.contacts[r.value[i]].createdAt >= s.contacts[r.value[j]].createdAt)
  {
    if caller.None? then Error(NotAuthenticated)
    else match s.ProfileOf(caller.value)
      case None => Data([])
      case Some(pid) =>
        Data(SortedDesc(map id | id in s.contacts.Keys && s.contacts[id].userId == pid :: s.contacts[id].createdAt))
  }

  /** A contact with the resources of each kind it has been granted. */
  datatype ContactView = ContactView(
    id: Id,
    contact: Contact,
    documents: set<Id>,
    folders: set<Id>,
    accounts: set<Id>)

  /**
   * `getContact`: no profile is an error; another owner's contact gives `null`; an owned
   * contact comes with its grants of all three kinds.
   */
  function GetContact(s: Store, caller: Option<string>, contactId: Id): (r: Outcome<Option<ContactView>>)
    reads s`profiles, s`profileOrder, s`contacts, s`documentAccess, s`folderAccess, s`accountAccess
    ensures r.Error? <==> s.Authorize(caller, false).Error?
    ensures r.Error? ==> r.error == s.Authorize(caller, false).error
    ensures r.Data? ==>
      var pid := s.Authorize(caller, false).value;
      && (r.value.None? <==> !s.OwnsContact(pid, contactId))
      && (r.value.Some? ==>
            var v := r.value.value;
            && v.id == contactId && v.contact == s.contacts[contactId]
            && (forall d :: d in v.documents <==> (d, contactId) in s.documentAccess)
            && (forall f :: f in v.folders <==> (f, contactId) in s.folderAccess)
            && (forall a :: a in v.accounts <==> (a, contactId) in s.accountAccess))
  {
    match s.Authorize(caller, false)
    case Error(e) => Error(e)
    case Data(pid) =>
      if !s.OwnsContact(pid, contactId) then Data(None)
      else Data(Some(ContactView(contactId, s.contacts[contactId],
                                 GrantedTo(s.documentAccess, contactId),
                                 GrantedTo(s.folderAccess, contactId),
                                 GrantedTo(s.accountAccess, contactId))))
  }
}
