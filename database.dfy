/**
 * The relational store the actions and webhooks share, as one object whose tables are fields,
 * plus the lookups every action starts with (caller -> profile -> lifecycle gate).
 */
module Database {
  import opened Types
  import opened Collections

  // ---------------------------------------------------------------- profile lookups on values

  /** The two ways a profile is looked up: `findUnique` by Clerk id, `findFirst` by email. */
  datatype ProfileKey = ByClerkId(clerkUserId: string) | ByEmail(email: string)

  predicate Matches(p: Profile, key: ProfileKey)
  {
    match key
    case ByClerkId(c) => p.clerkUserId == c
    case ByEmail(e) => p.email == e
  }

  /**
   * The first profile, in insertion order, that matches `key`. For an email this is the
   * deterministic stand-in for `findFirst`, which returns some matching row.
   */
  function FirstMatching(order: seq<Id>, profiles: map<Id, Profile>, key: ProfileKey): (r: Option<Id>)
    ensures r.Some? ==> r.value in order && r.value in profiles && Matches(profiles[r.value], key)
    ensures r.Some? ==> exists i :: 0 <= i < |order| && order[i] == r.value &&
                          forall j :: 0 <= j < i && order[j] in profiles ==> !Matches(profiles[order[j]], key)
    ensures r.None? ==> forall i :: 0 <= i < |order| && order[i] in profiles ==> !Matches(profiles[order[i]], key)
  {
    if order == [] then None
    else if order[0] in profiles && Matches(profiles[order[0]], key) then Some(order[0])
    else
      var r := FirstMatching(order[1..], profiles, key);
      assert forall i :: 0 < i < |order| ==> order[i] == order[1..][i - 1];
      r
  }

  /** The profile table and the insertion-order index list the same ids, each once. */
  ghost predicate Indexed(order: seq<Id>, profiles: map<Id, Profile>)
  {
    Distinct(order) && forall id :: id in profiles <==> id in order
  }

  /** `clerkUserId` is a unique column. */
  ghost predicate ClerkIdsUnique(profiles: map<Id, Profile>)
  {
    forall a, b :: a in profiles && b in profiles && profiles[a].clerkUserId == profiles[b].clerkUserId ==> a == b
  }

  /** Only the death trigger sets DECEASED, and it always stamps `deceasedAt`. */
  ghost predicate DeceasedHaveDate(profiles: map<Id, Profile>)
  {
    forall id :: id in profiles && profiles[id].status == Deceased ==> profiles[id].deceasedAt.Some?
  }

  /** The converse of `DeceasedHaveDate`, which the insurance sync does not keep. */
  ghost predicate DatedAreDeceased(profiles: map<Id, Profile>)
  {
    forall id :: id in profiles && profiles[id].deceasedAt.Some? ==> profiles[id].status == Deceased
  }

  /**
   * The part of the converse that every writer keeps: a profile with a death date is never
   * ACTIVE (the insurance sync may turn it INACTIVE, keeping the date).
   */
  ghost predicate DatedNotActive(profiles: map<Id, Profile>)
  {
    forall id :: id in profiles && profiles[id].deceasedAt.Some? ==> profiles[id].status != Active
  }

  lemma NoMatchInIndexed(order: seq<Id>, profiles: map<Id, Profile>, key: ProfileKey)
    requires Indexed(order, profiles)
    requires FirstMatching(order, profiles, key).None?
    ensures forall id :: id in profiles ==> !Matches(profiles[id], key)
  {
    forall id | id in profiles ensures !Matches(profiles[id], key) {
      assert id in order;
      var i :| 0 <= i < |order| && order[i] == id;
    }
  }

  /**
   * The webhooks' lookup: by Clerk id when one is given, falling back to email only when that
   * finds nothing (an empty string counts as not given).
   */
  function WebhookLookup(order: seq<Id>, profiles: map<Id, Profile>, clerkUserId: Option<string>, email: Option<string>): (r: Option<Id>)
    ensures r.Some? ==> r.value in profiles
  {
    var byClerk := if Present(clerkUserId) then FirstMatching(order, profiles, ByClerkId(clerkUserId.value)) else None;
    if byClerk.Some? then byClerk
    else if Present(email) then FirstMatching(order, profiles, ByEmail(email.value))
    else None
  }

  /** Two profile tables with the same rows as far as the lookups can see: same ids, Clerk ids and emails. */
  ghost predicate SameIdentities(p1: map<Id, Profile>, p2: map<Id, Profile>)
  {
    && (forall id :: id in p1 <==> id in p2)
    && (forall id :: id in p1 ==> p1[id].clerkUserId == p2[id].clerkUserId && p1[id].email == p2[id].email)
  }

  /**
   * Rewriting profiles without touching their Clerk ids or emails leaves every lookup where it
   * was: the webhooks' status writes never move `findUnique` or `findFirst`.
   */
  lemma {:induction false} FirstMatchingStable(order: seq<Id>, p1: map<Id, Profile>, p2: map<Id, Profile>, key: ProfileKey)
    requires SameIdentities(p1, p2)
    ensures FirstMatching(order, p1, key) == FirstMatching(order, p2, key)
  {
    if order != [] {
      FirstMatchingStable(order[1..], p1, p2, key);
    }
  }

  lemma WebhookLookupStable(order: seq<Id>, p1: map<Id, Profile>, p2: map<Id, Profile>,
                            clerkUserId: Option<string>, email: Option<string>)
    requires SameIdentities(p1, p2)
    ensures WebhookLookup(order, p1, clerkUserId, email) == WebhookLookup(order, p2, clerkUserId, email)
  {
    if Present(clerkUserId) {
      FirstMatchingStable(order, p1, p2, ByClerkId(clerkUserId.value));
    }
    if Present(email) {
      FirstMatchingStable(order, p1, p2, ByEmail(email.value));
    }
  }

  /** The lookup prefers the Clerk id, falls back to the email, and misses only when neither matches. */
  lemma WebhookLookupMeaning(order: seq<Id>, profiles: map<Id, Profile>, clerkUserId: Option<string>, email: Option<string>)
    requires Indexed(order, profiles)
    ensures var r := WebhookLookup(order, profiles, clerkUserId, email);
      && (Present(clerkUserId) && (exists id :: id in profiles && profiles[id].clerkUserId == clerkUserId.value) ==>
            r.Some? && profiles[r.value].clerkUserId == clerkUserId.value)
      && (r.Some? ==>
            && r.value in profiles
            && ((Present(clerkUserId) && profiles[r.value].clerkUserId == clerkUserId.value) ||
                (Present(email) && profiles[r.value].email == email.value)))
      && (r.None? <==> forall id :: id in profiles ==>
            !(Present(clerkUserId) && profiles[id].clerkUserId == clerkUserId.value) &&
            !(Present(email) && profiles[id].email == email.value))
  {
    if Present(clerkUserId) && FirstMatching(order, profiles, ByClerkId(clerkUserId.value)).None? {
      NoMatchInIndexed(order, profiles, ByClerkId(clerkUserId.value));
    }
    if Present(email) && FirstMatching(order, profiles, ByEmail(email.value)).None? {
      NoMatchInIndexed(order, profiles, ByEmail(email.value));
    }
  }

  // ---------------------------------------------------------------- the store

  class Store {
    var profiles: map<Id, Profile>
    /** Profile ids in insertion order: the order `findFirst` scans. */
    var profileOrder: seq<Id>
    var contacts: map<Id, Contact>
    var accounts: map<Id, Account>
    var documents: map<Id, Document>
    var folders: map<Id, Folder>
    var items: map<Id, MediaItem>
    /** The three join tables, keyed by (resourceId, contactId) as in `documentId_contactId`. */
    var documentAccess: set<(Id, Id)>
    var folderAccess: set<(Id, Id)>
    var accountAccess: set<(Id, Id)>
    /** Legacy access tokens keyed by (profileId, contactId). */
    var tokens: map<(Id, Id), LegacyToken>
    /** Pending invitations keyed by their unique email. */
    var invitations: map<string, Invitation>

    /** Every owned row belongs to an existing profile (profiles are never deleted). */
    ghost predicate OwnersExist()
      reads this`profiles, this`contacts, this`accounts, this`documents, this`folders, this`items
    {
      && (forall id :: id in contacts ==> contacts[id].userId in profiles)
      && (forall id :: id in accounts ==> accounts[id].userId in profiles)
      && (forall id :: id in documents ==> documents[id].userId in profiles)
      && (forall id :: id in folders ==> folders[id].userId in profiles)
      && (forall id :: id in items ==> items[id].userId in profiles)
    }

    ghost predicate Valid()
      reads this`profiles, this`profileOrder, this`contacts, this`accounts, this`documents, this`folders, this`items
    {
      && Indexed(profileOrder, profiles)
      && ClerkIdsUnique(profiles)
      && DeceasedHaveDate(profiles)
      && DatedNotActive(profiles)
      && OwnersExist()
    }

    constructor ()
      ensures Valid()
      ensures profiles == map[] && profileOrder == [] && contacts == map[] && accounts == map[]
      ensures documents == map[] && folders == map[] && items == map[]
      ensures documentAccess == {} && folderAccess == {} && accountAccess == {}
      ensures tokens == map[] && invitations == map[]
    {
      profiles, profileOrder := map[], [];
      contacts, accounts, documents, folders, items := map[], map[], map[], map[], map[];
      documentAccess, folderAccess, accountAccess := {}, {}, {};
      tokens, invitations := map[], map[];
    }

    /** `userProfile.findUnique({ where: { clerkUserId } })`. */
    function ProfileOf(clerkUserId: string): (r: Option<Id>)
      reads this`profiles, this`profileOrder
      ensures r.Some? ==> r.value in profiles && profiles[r.value].clerkUserId == clerkUserId
      ensures r.None? && Indexed(profileOrder, profiles) ==>
                forall id :: id in profiles ==> profiles[id].clerkUserId != clerkUserId
    {
      FirstMatching(profileOrder, profiles, ByClerkId(clerkUserId))
    }

    /**
     * The prefix every owner-facing action shares: no identity -> "Not authenticated", no
     * profile -> "Profile not found", and, for the actions that have the gate, DECEASED ->
     * locked, INACTIVE -> deactivated. On success, the caller's own profile id.
     */
    function Authorize(caller: Option<string>, gated: bool): (r: Outcome<Id>)
      reads this`profiles, this`profileOrder
      ensures caller.None? ==> r == Error(NotAuthenticated)
      ensures r.Data? ==> r.value in profiles && caller == Some(profiles[r.value].clerkUserId)
      ensures r.Data? && gated ==> profiles[r.value].status == Active
      ensures r.Error? ==> r.error in {NotAuthenticated, ProfileNotFound, Locked, Deactivated}
    {
      if caller.None? then Error(NotAuthenticated)
      else match ProfileOf(caller.value)
        case None => Error(ProfileNotFound)
        case Some(pid) =>
          if gated && Gate(profiles[pid].status).Some? then Error(Gate(profiles[pid].status).value)
          else Data(pid)
    }

    predicate OwnsContact(pid: Id, id: Id) reads this`contacts
    {
      id in contacts && contacts[id].userId == pid
    }

    predicate OwnsAccount(pid: Id, id: Id) reads this`accounts
    {
      id in accounts && accounts[id].userId == pid
    }

    predicate OwnsDocument(pid: Id, id: Id) reads this`documents
    {
      id in documents && documents[id].userId == pid
    }

    predicate OwnsFolder(pid: Id, id: Id) reads this`folders
    {
      id in folders && folders[id].userId == pid
    }

    predicate OwnsItem(pid: Id, id: Id) reads this`items
    {
      id in items && items[id].userId == pid
    }

    // ------------------------------------------------------------ owner-scoped row sets

    /** `trustedContact.findMany({ where: { userId } })`, as a set of row ids. */
    function ContactsOf(pid: Id): (r: set<Id>)
      reads this`contacts
      ensures forall id :: id in r <==> OwnsContact(pid, id)
    {
      set id | id in contacts.Keys && contacts[id].userId == pid
    }

    function AccountsOf(pid: Id): (r: set<Id>)
      reads this`accounts
      ensures forall id :: id in r <==> OwnsAccount(pid, id)
    {
      set id | id in accounts.Keys && accounts[id].userId == pid
    }

    function DocumentsOf(pid: Id): (r: set<Id>)
      reads this`documents
      ensures forall id :: id in r <==> OwnsDocument(pid, id)
    {
      set id | id in documents.Keys && documents[id].userId == pid
    }

    function ItemsOf(pid: Id): (r: set<Id>)
      reads this`items
      ensures forall id :: id in r <==> OwnsItem(pid, id)
    {
      set id | id in items.Keys && items[id].userId == pid
    }

    /** `digitalAccount.count({ where: { userId, category } })`. */
    function CategoryCount(pid: Id, c: Category): (n: nat)
      reads this`accounts
      ensures n <= |AccountsOf(pid)|
      ensures n == 0 <==> forall id :: OwnsAccount(pid, id) ==> accounts[id].category != c
    {
      var ids := set id | id in accounts.Keys && accounts[id].userId == pid && accounts[id].category == c;
      assert ids <= AccountsOf(pid);
      SubsetCount(ids, AccountsOf(pid));
      assert |ids| == 0 <==> forall id :: OwnsAccount(pid, id) ==> accounts[id].category != c by {
        assert forall id :: id in ids <==> OwnsAccount(pid, id) && accounts[id].category == c;
        if ids != {} {
          var some :| some in ids;
        }
      }
      |ids|
    }

    /**
     * `digitalAccount.groupBy({ by: ["category"], where: { userId }, _count: true })` restricted
     * to `cats`: one row per category that has at least one account, with its count. The rows
     * come in the order of `cats` (the database leaves the order open).
     */
    function GroupRows(pid: Id, cats: seq<Category>): seq<(Category, nat)>
      reads this`accounts
    {
      if cats == [] then []
      else if CategoryCount(pid, cats[0]) > 0 then [(cats[0], CategoryCount(pid, cats[0]))] + GroupRows(pid, cats[1..])
      else GroupRows(pid, cats[1..])
    }

    /**
     * The rows are exactly the categories of `cats` that have accounts, each with its count, and
     * no category twice when `cats` lists each once.
     */
    lemma {:induction false} GroupRowsMeaning(pid: Id, cats: seq<Category>)
      ensures forall i :: 0 <= i < |GroupRows(pid, cats)| ==>
        GroupRows(pid, cats)[i].0 in cats && GroupRows(pid, cats)[i].1 > 0 &&
        GroupRows(pid, cats)[i].1 == CategoryCount(pid, GroupRows(pid, cats)[i].0)
      ensures forall c :: c in cats && CategoryCount(pid, c) > 0 ==> (c, CategoryCount(pid, c)) in GroupRows(pid, cats)
      ensures Distinct(cats) ==>
        forall i, j :: 0 <= i < j < |GroupRows(pid, cats)| ==> GroupRows(pid, cats)[i].0 != GroupRows(pid, cats)[j].0
    {
      if cats != [] {
        var tail := GroupRows(pid, cats[1..]);
        var r := GroupRows(pid, cats);
        GroupRowsMeaning(pid, cats[1..]);
        if Distinct(cats) {
          DistinctTail(cats);
        }
        if CategoryCount(pid, cats[0]) > 0 {
          assert r == [(cats[0], CategoryCount(pid, cats[0]))] + tail;
          assert forall i :: 0 < i < |r| ==> r[i] == tail[i - 1];
        } else {
          assert r == tail;
        }
      }
    }

    /** The grouped rows over every category. */
    function GroupByCategory(pid: Id): (r: seq<(Category, nat)>)
      reads this`accounts
      ensures forall i :: 0 <= i < |r| ==> r[i].1 > 0 && r[i].1 == CategoryCount(pid, r[i].0)
      ensures forall c :: CategoryCount(pid, c) > 0 ==> (c, CategoryCount(pid, c)) in r
      ensures forall i, j :: 0 <= i < j < |r| ==> r[i].0 != r[j].0
    {
      GroupRowsMeaning(pid, AllCategories);
      assert forall c :: c in AllCategories by {
        forall c ensures c in AllCategories {
          AllCategoriesListsEveryCategory(c);
        }
      }
      GroupRows(pid, AllCategories)
    }
  }

  /**
   * The lifecycle gate seen through `Authorize`: a gated action of a DECEASED owner fails
   * "locked", of an INACTIVE owner "deactivated", while an ungated action reaches the owner's
   * profile whatever its status.
   */
  lemma AuthorizeGate(s: Store, clerkUserId: string)
    requires Indexed(s.profileOrder, s.profiles)
    requires exists id :: id in s.profiles && s.profiles[id].clerkUserId == clerkUserId
    ensures var pid := s.ProfileOf(clerkUserId);
      && pid.Some?
      && s.Authorize(Some(clerkUserId), false) == Data(pid.value)
      && (s.profiles[pid.value].status == Deceased ==> s.Authorize(Some(clerkUserId), true) == Error(Locked))
      && (s.profiles[pid.value].status == Inactive ==> s.Authorize(Some(clerkUserId), true) == Error(Deactivated))
      && (s.profiles[pid.value].status == Active ==> s.Authorize(Some(clerkUserId), true) == Data(pid.value))
  {
  }

  /** A row id no table row uses yet: the database's generated primary key. */
  method FreshId(used: set<Id>) returns (id: Id)
    ensures id !in used
  {
    var longest: nat := 0;
    var rest := used;
    while rest != {}
      invariant rest <= used
      invariant forall u :: u in used && u !in rest ==> |u| <= longest
      decreases rest
    {
      var u :| u in rest;
      if |u| > longest {
        longest := |u|;
      }
      rest := rest - {u};
    }
    id := seq(longest + 1, _ => 'c');
  }
}
