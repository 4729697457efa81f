/**
 * Digital accounts: create and update have no lifecycle gate, delete has one; the reads are
 * scoped to the caller, and the statistics always list all six categories.
 */
module AccountActions {
  import opened Types
  import opened Collections
  import opened Database
  import opened Ledger

  datatype NewAccount = NewAccount(
    category: Category,
    platformName: string,
    platformIcon: Option<string>,
    username: Option<string>,
    email: Option<string>,
    actionOnDeath: ActionOnDeath,
    transferToId: Option<Id>,
    notes: Option<string>)

  /**
   * The TRANSFER check of `createAccount`: only a TRANSFER with a (non-empty) target is looked
   * up, and it must be one of the caller's contacts. Any other target is stored unchecked.
   */
  predicate TransferTargetRejected(s: Store, pid: Id, input: NewAccount)
    reads s`contacts
  {
    input.actionOnDeath == Transfer && Present(input.transferToId) && !s.OwnsContact(pid, input.transferToId.value)
  }

  /** `createAccount`: no lifecycle gate; the TRANSFER target is validated before the insert. */
  method CreateAccount(s: Store, caller: Option<string>, input: NewAccount, now: Timestamp) returns (r: Outcome<Id>)
    requires s.Valid()
    modifies s`accounts
    ensures s.Valid()
    ensures match s.Authorize(caller, false)
      case Error(e) => r == Error(e) && s.accounts == old(s.accounts)
      case Data(pid) =>
        if TransferTargetRejected(s, pid, input) then
          r == Error(TransferContactNotFound) && s.accounts == old(s.accounts)
        else
          && r.Data? && r.value !in old(s.accounts)
          && s.accounts == old(s.accounts)[r.value := Account(pid, input.category, input.platformName, input.platformIcon,
                                                              input.username, input.email, input.actionOnDeath,
                                                              input.transferToId, input.notes, now)]
  {
    var auth := s.Authorize(caller, false);
    if auth.Error? {
      return Error(auth.error);
    }
    var pid := auth.value;
    if TransferTargetRejected(s, pid, input) {
      return Error(TransferContactNotFound);
    }
    var id := FreshId(s.accounts.Keys);
    s.accounts := s.accounts[id := Account(pid, input.category, input.platformName, input.platformIcon,
                                           input.username, input.email, input.actionOnDeath,
                                           input.transferToId, input.notes, now)];
    r := Data(id);
  }

  /**
   * The fields `updateAccount` accepts besides the id. `transferToId` is `string | null`:
   * `Some(None)` clears the target, `None` leaves it.
   */
  datatype AccountPatch = AccountPatch(
    category: Option<Category>,
    platformName: Option<string>,
    platformIcon: Option<string>,
    username: Option<string>,
    email: Option<string>,
    actionOnDeath: Option<ActionOnDeath>,
    transferToId: Option<Option<Id>>,
    notes: Option<string>)

  /** Every supplied field replaces its column, `updatedAt` is stamped, and the owner never changes. */
  function PatchedAccount(a: Account, patch: AccountPatch, now: Timestamp): (r: Account)
    ensures r.userId == a.userId && r.updatedAt == now
    ensures r.category == Override(patch.category, a.category)
    ensures r.platformName == Override(patch.platformName, a.platformName)
    ensures r.actionOnDeath == Override(patch.actionOnDeath, a.actionOnDeath)
    ensures r.transferToId == Override(patch.transferToId, a.transferToId)
    ensures r.platformIcon == (if patch.platformIcon.Some? then patch.platformIcon else a.platformIcon)
    ensures r.username == (if patch.username.Some? then patch.username else a.username)
    ensures r.email == (if patch.email.Some? then patch.email else a.email)
    ensures r.notes == (if patch.notes.Some? then patch.notes else a.notes)
  {
    a.(category := Override(patch.category, a.category),
       platformName := Override(patch.platformName, a.platformName),
       platformIcon := if patch.platformIcon.Some? then patch.platformIcon else a.platformIcon,
       username := if patch.username.Some? then patch.username else a.username,
       email := if patch.email.Some? then patch.email else a.email,
       actionOnDeath := Override(patch.actionOnDeath, a.actionOnDeath),
       transferToId := Override(patch.transferToId, a.transferToId),
       notes := if patch.notes.Some? then patch.notes else a.notes,
       updatedAt := now)
  }

  /** `updateAccount`: no lifecycle gate and no check of a new TRANSFER target. */
  method UpdateAccount(s: Store, caller: Option<string>, accountId: Id, patch: AccountPatch, now: Timestamp)
    returns (r: Outcome<Id>)
    requires s.Valid()
    modifies s`accounts
    ensures s.Valid()
    ensures match s.Authorize(caller, false)
      case Error(e) => r == Error(e) && s.accounts == old(s.accounts)
      case Data(pid) =>
        if !old(s.OwnsAccount(pid, accountId)) then
          r == Error(NotFound(Accounts)) && s.accounts == old(s.accounts)
        else
          r == Data(accountId) && s.accounts == old(s.accounts)[accountId := PatchedAccount(old(s.accounts[accountId]), patch, now)]
  {
    var auth := s.Authorize(caller, false);
    if auth.Error? {
      return Error(auth.error);
    }
    if !s.OwnsAccount(auth.value, accountId) {
      return Error(NotFound(Accounts));
    }
    s.accounts := s.accounts[accountId := PatchedAccount(s.accounts[accountId], patch, now)];
    r := Data(accountId);
  }

  /** `deleteAccount`: gated, then owner-scoped; exactly that row goes. */
  method DeleteAccount(s: Store, caller: Option<string>, accountId: Id) returns (r: Outcome<()>)
    requires s.Valid()
    modifies s`accounts
    ensures s.Valid()
    ensures match s.Authorize(caller, true)
      case Error(e) => r == Error(e) && s.accounts == old(s.accounts)
      case Data(pid) =>
        if !old(s.OwnsAccount(pid, accountId)) then
          r == Error(NotFound(Accounts)) && s.accounts == old(s.accounts)
        else
          r == Data(()) && s.accounts == old(s.accounts) - {accountId}
  {
    var auth := s.Authorize(caller, true);
    if auth.Error? {
      return Error(auth.error);
    }
    if !s.OwnsAccount(auth.value, accountId) {
      return Error(NotFound(Accounts));
    }
    s.accounts := s.accounts - {accountId};
    r := Data(());
  }

  /**
   * `listAccounts`: no profile gives an empty list; otherwise the caller's accounts, restricted
   * to `category` only when one is given, most recently updated first.
   */
  ghost function ListAccounts(s: Store, caller: Option<string>, category: Option<Category>): (r: Outcome<seq<Id>>)
    reads s`profiles, s`profileOrder, s`accounts
    ensures caller.None? <==> r.Error?
    ensures r.Error? ==> r.error == NotAuthenticated
    ensures r.Data? ==> Distinct(r.value)
    ensures caller.Some? && s.ProfileOf(caller.value).None? ==> r == Data([])
    ensures caller.Some? && s.ProfileOf(caller.value).Some? ==>
      var pid := s.ProfileOf(caller.value).value;
      && r.Data?
      && (forall id :: id in r.value <==>
            s.OwnsAccount(pid, id) && (category.Some? ==> s.accounts[id].category == category.value))
      && (forall i, j :: 0 <= i < j < |r.value| ==>
            r.value[i] in s.accounts && r.value[j] in s.accounts &&
            s.accounts[r.value[i]].updatedAt >= s.accounts[r.value[j]].updatedAt)
  {
    if caller.None? then Error(NotAuthenticated)
    else match s.ProfileOf(caller.value)
      case None => Data([])
      case Some(pid) =>
        Data(SortedDesc(map id | id in s.accounts.Keys && s.accounts[id].userId == pid &&
                                 (category.Some? ==> s.accounts[id].category == category.value)
                             :: s.accounts[id].updatedAt))
  }

  /** An account with the contacts on its access list. */
  datatype AccountView = AccountView(id: Id, account: Account, accessList: set<Id>)

  /** `getAccount`: no profile is an error; another owner's account gives `null`. */
  function GetAccount(s: Store, caller: Option<string>, accountId: Id): (r: Outcome<Option<AccountView>>)
    reads s`profiles, s`profileOrder, s`accounts, s`accountAccess
    ensures r.Error? <==> s.Authorize(caller, false).Error?
    ensures r.Error? ==> r.error == s.Authorize(caller, false).error
    ensures r.Data? ==>
      var pid := s.Authorize(caller, false).value;
      && (r.value.None? <==> !s.OwnsAccount(pid, accountId))
      && (r.value.Some? ==>
            var v := r.value.value;
            && v.id == accountId && v.account == s.accounts[accountId]
            && (forall c :: c in v.accessList <==> (accountId, c) in s.accountAccess))
  {
    match s.Authorize(caller, false)
    case Error(e) => Error(e)
    case Data(pid) =>
      if !s.OwnsAccount(pid, accountId) then Data(None)
      else Data(Some(AccountView(accountId, s.accounts[accountId], GrantsOf(s.accountAccess, accountId))))
  }

  const ZeroStats: map<Category, nat> :=
    map[SocialMedia := 0, EmailCommunication := 0, Financial := 0, Crypto := 0, Subscriptions := 0, Other := 0]

  /** The zero record names every category. */
  lemma ZeroStatsComplete()
    ensures forall c :: c in ZeroStats && ZeroStats[c] == 0
  {
    forall c ensures c in ZeroStats && ZeroStats[c] == 0 {
      match c
      case SocialMedia =>
      case EmailCommunication =>
      case Financial =>
      case Crypto =>
      case Subscriptions =>
      case Other =>
    }
  }

  /**
   * Copying every grouped row into a record that started at zero gives each category its
   * count: a category with accounts has a row, and one without keeps its 0.
   */
  lemma RowsCopiedGiveCounts(s: Store, pid: Id, rows: seq<(Category, nat)>, result: map<Category, nat>)
    requires rows == s.GroupByCategory(pid)
    requires forall c :: c in result
    requires forall k :: 0 <= k < |rows| ==> result[rows[k].0] == rows[k].1
    requires forall c :: (forall k :: 0 <= k < |rows| ==> rows[k].0 != c) ==> result[c] == 0
    ensures forall c :: result[c] == s.CategoryCount(pid, c)
  {
    forall c ensures result[c] == s.CategoryCount(pid, c) {
      if s.CategoryCount(pid, c) > 0 {
        var k :| 0 <= k < |rows| && rows[k] == (c, s.CategoryCount(pid, c));
      }
    }
  }

  /**
   * `getAccountStats`: a record with all six categories, every one 0 when there is no profile;
   * otherwise the grouped counts are copied in one row at a time and categories without
   * accounts keep their 0.
   */
  method GetAccountStats(s: Store, caller: Option<string>) returns (r: Outcome<map<Category, nat>>)
    ensures caller.None? <==> r.Error?
    ensures r.Error? ==> r.error == NotAuthenticated
    ensures r.Data? ==> forall c :: c in r.value
    ensures r.Data? && s.ProfileOf(caller.value).None? ==> forall c :: r.value[c] == 0
    ensures r.Data? && s.ProfileOf(caller.value).Some? ==>
      forall c :: r.value[c] == s.CategoryCount(s.ProfileOf(caller.value).value, c)
  {
    if caller.None? {
      return Error(NotAuthenticated);
    }
    ZeroStatsComplete();
    var profile := s.ProfileOf(caller.value);
    if profile.None? {
      return Data(ZeroStats);
    }
    var pid := profile.value;
    var stats := s.GroupByCategory(pid);
    var result := ZeroStats;
    var i := 0;
    while i < |stats|
      invariant 0 <= i <= |stats|
      invariant forall c :: c in result
      invariant forall k :: 0 <= k < i ==> result[stats[k].0] == stats[k].1
      invariant forall c :: (forall k :: 0 <= k < i ==> stats[k].0 != c) ==> result[c] == 0
    {
      result := result[stats[i].0 := stats[i].1];
      i := i + 1;
    }
    RowsCopiedGiveCounts(s, pid, stats, result);
    r := Data(result);
  }
}
