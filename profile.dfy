/**
 * The owner's own profile: creating it, updating it, completing onboarding, and the two reads
 * (the profile with its relation counts, and the dashboard statistics).
 */
module ProfileActions {
  import opened Types
  import opened Collections
  import opened Database

  // ---------------------------------------------------------------- create

  datatype NewProfile = NewProfile(
    fullName: string,
    dateOfBirth: Option<Timestamp>,
    email: string,
    phone: Option<string>,
    countryOfResidence: Option<string>)

  /**
   * `createProfile`: one profile per Clerk user. The new row is ACTIVE (the column default),
   * has no death date and has not completed onboarding.
   */
  method CreateProfile(s: Store, caller: Option<string>, input: NewProfile) returns (r: Outcome<Id>)
    requires s.Valid()
    modifies s`profiles, s`profileOrder
    ensures s.Valid()
    ensures caller.None? ==>
      r == Error(NotAuthenticated) && s.profiles == old(s.profiles) && s.profileOrder == old(s.profileOrder)
    ensures caller.Some? && old(s.ProfileOf(caller.value)).Some? ==>
      r == Error(ProfileAlreadyExists) && s.profiles == old(s.profiles) && s.profileOrder == old(s.profileOrder)
    ensures caller.Some? && old(s.ProfileOf(caller.value)).None? ==>
      && r.Data? && r.value !in old(s.profiles)
      && s.profiles == old(s.profiles)[r.value := Profile(caller.value, input.fullName, input.email, input.dateOfBirth,
                                                        input.phone, input.countryOfResidence, Active, None, false)]
      && s.profileOrder == old(s.profileOrder) + [r.value]
  {
    if caller.None? {
      return Error(NotAuthenticated);
    }
    if s.ProfileOf(caller.value).Some? {
      return Error(ProfileAlreadyExists);
    }
    var id := FreshId(s.profiles.Keys);
    assert id !in s.profileOrder;
    var row := Profile(caller.value, input.fullName, input.email, input.dateOfBirth,
                       input.phone, input.countryOfResidence, Active, None, false);
    s.profiles := s.profiles[id := row];
    s.profileOrder := s.profileOrder + [id];
    r := Data(id);
  }

  // ---------------------------------------------------------------- update

  /** The fields `updateProfile` accepts; `None` leaves a column as it is. Status is not among them. */
  datatype ProfilePatch = ProfilePatch(
    fullName: Option<string>,
    dateOfBirth: Option<Timestamp>,
    email: Option<string>,
    phone: Option<string>,
    countryOfResidence: Option<string>,
    onboardingComplete: Option<bool>)

  /** `update({ data: input })`: every supplied field replaces its column and no other column changes. */
  function Patched(p: Profile, patch: ProfilePatch): (r: Profile)
    ensures r.clerkUserId == p.clerkUserId && r.status == p.status && r.deceasedAt == p.deceasedAt
    ensures r.fullName == (if patch.fullName.Some? then patch.fullName.value else p.fullName)
    ensures r.email == (if patch.email.Some? then patch.email.value else p.email)
    ensures r.dateOfBirth == (if patch.dateOfBirth.Some? then patch.dateOfBirth else p.dateOfBirth)
    ensures r.phone == (if patch.phone.Some? then patch.phone else p.phone)
    ensures r.countryOfResidence == (if patch.countryOfResidence.Some? then patch.countryOfResidence else p.countryOfResidence)
    ensures r.onboardingComplete == (if patch.onboardingComplete.Some? then patch.onboardingComplete.value else p.onboardingComplete)
  {
    p.(fullName := Override(patch.fullName, p.fullName),
       email := Override(patch.email, p.email),
       dateOfBirth := if patch.dateOfBirth.Some? then patch.dateOfBirth else p.dateOfBirth,
       phone := if patch.phone.Some? then patch.phone else p.phone,
       countryOfResidence := if patch.countryOfResidence.Some? then patch.countryOfResidence else p.countryOfResidence,
       onboardingComplete := Override(patch.onboardingComplete, p.onboardingComplete))
  }

  /** Applying the same patch twice is applying it once. */
  lemma PatchedIdempotent(p: Profile, patch: ProfilePatch)
    ensures Patched(Patched(p, patch), patch) == Patched(p, patch)
  {
  }

  /**
   * `updateProfile`. The gate is optional-chained (`existingProfile?.status`), so a caller with
   * no profile passes it and the `update` that follows fails on the missing row.
   */
  method UpdateProfile(s: Store, caller: Option<string>, patch: ProfilePatch) returns (r: Outcome<Id>)
    requires s.Valid()
    modifies s`profiles
    ensures s.Valid()
    ensures caller.None? ==> r == Error(NotAuthenticated) && s.profiles == old(s.profiles)
    ensures caller.Some? ==> match old(s.ProfileOf(caller.value))
      case None => r == Error(RecordNotFound) && s.profiles == old(s.profiles)
      case Some(pid) =>
        if Gate(old(s.profiles[pid].status)).Some? then
          r == Error(Gate(old(s.profiles[pid].status)).value) && s.profiles == old(s.profiles)
        else
          r == Data(pid) && s.profiles == old(s.profiles)[pid := Patched(old(s.profiles[pid]), patch)]
  {
    if caller.None? {
      return Error(NotAuthenticated);
    }
    var existing := s.ProfileOf(caller.value);
    if existing.None? {
      return Error(RecordNotFound);
    }
    var pid := existing.value;
    var gate := Gate(s.profiles[pid].status);
    if gate.Some? {
      return Error(gate.value);
    }
    s.profiles := s.profiles[pid := Patched(s.profiles[pid], patch)];
    r := Data(pid);
  }

  /**
   * `completeOnboarding`: the same gate, then `onboardingComplete := true`; on a profile that
   * has already completed onboarding the store is left as it was.
   */
  method CompleteOnboarding(s: Store, caller: Option<string>) returns (r: Outcome<Id>)
    requires s.Valid()
    modifies s`profiles
    ensures s.Valid()
    ensures caller.None? ==> r == Error(NotAuthenticated) && s.profiles == old(s.profiles)
    ensures caller.Some? ==> match old(s.ProfileOf(caller.value))
      case None => r == Error(RecordNotFound) && s.profiles == old(s.profiles)
      case Some(pid) =>
        if Gate(old(s.profiles[pid].status)).Some? then
          r == Error(Gate(old(s.profiles[pid].status)).value) && s.profiles == old(s.profiles)
        else
          && r == Data(pid)
          && s.profiles == old(s.profiles)[pid := old(s.profiles[pid]).(onboardingComplete := true)]
          && (old(s.profiles[pid].onboardingComplete) ==> s.profiles == old(s.profiles))
  {
    if caller.None? {
      return Error(NotAuthenticated);
    }
    var existing := s.ProfileOf(caller.value);
    if existing.None? {
      return Error(RecordNotFound);
    }
    var pid := existing.value;
    var gate := Gate(s.profiles[pid].status);
    if gate.Some? {
      return Error(gate.value);
    }
    s.profiles := s.profiles[pid := s.profiles[pid].(onboardingComplete := true)];
    r := Data(pid);
  }

  // ---------------------------------------------------------------- reads

  /** `findUnique` with `trustedContacts` included and the `_count` of the three owned tables. */
  datatype ProfileView = ProfileView(
    id: Id,
    profile: Profile,
    trustedContacts: set<Id>,
    accountCount: nat,
    documentCount: nat,
    mediaCount: nat)

  /** `getProfile`: a caller without a profile gets `null` data, not an error. */
  function GetProfile(s: Store, caller: Option<string>): (r: Outcome<Option<ProfileView>>)
    reads s`profiles, s`profileOrder, s`contacts, s`accounts, s`documents, s`items
    ensures caller.None? <==> r.Error?
    ensures r.Error? ==> r.error == NotAuthenticated
    ensures r == Data(None) ==> caller.Some? && s.ProfileOf(caller.value).None?
    ensures r.Data? && r.value.Some? ==>
      var v := r.value.value;
      && v.id in s.profiles && v.profile == s.profiles[v.id] && caller == Some(v.profile.clerkUserId)
      && (forall c :: c in v.trustedContacts <==> s.OwnsContact(v.id, c))
      && v.accountCount == |s.AccountsOf(v.id)|
      && v.documentCount == |s.DocumentsOf(v.id)|
      && v.mediaCount == |s.ItemsOf(v.id)|
  {
    if caller.None? then Error(NotAuthenticated)
    else match s.ProfileOf(caller.value)
      case None => Data(None)
      case Some(pid) =>
        Data(Some(ProfileView(pid, s.profiles[pid], s.ContactsOf(pid),
                              |s.AccountsOf(pid)|, |s.DocumentsOf(pid)|, |s.ItemsOf(pid)|)))
  }

  datatype Stats = Stats(
    totalAccounts: nat,
    totalDocuments: nat,
    totalMedia: nat,
    totalContacts: nat,
    accountsByCategory: map<Category, nat>)

  /** The profile (with its trusted contacts) and its statistics; `None` when there is no profile. */
  datatype ProfileWithStats = ProfileWithStats(profile: Option<(Id, Profile, set<Id>)>, stats: Stats)

  /**
   * `accountsByCategory.reduce((acc, item) => { acc[item.category] = item._count; ... }, {})`:
   * later rows overwrite earlier ones, and keys no row names keep their value.
   */
  function FoldCategoryRows(rows: seq<(Category, nat)>, acc: map<Category, nat>): (r: map<Category, nat>)
    ensures forall c :: c in acc ==> c in r
    ensures forall c :: c in r && c !in acc ==> exists i :: 0 <= i < |rows| && rows[i].0 == c
    ensures forall c :: c in acc && (forall i :: 0 <= i < |rows| ==> rows[i].0 != c) ==> r[c] == acc[c]
    ensures (forall i, j :: 0 <= i < j < |rows| ==> rows[i].0 != rows[j].0) ==>
              forall i :: 0 <= i < |rows| ==> rows[i].0 in r && r[rows[i].0] == rows[i].1
    decreases |rows|
  {
    if rows == [] then acc
    else
      var r := FoldCategoryRows(rows[1..], acc[rows[0].0 := rows[0].1]);
      assert forall i :: 1 <= i < |rows| ==> rows[i] == rows[1..][i - 1];
      r
  }

  /** Folding the grouped rows gives each category with accounts its count, and nothing else. */
  lemma CategoryMapExact(s: Store, pid: Id)
    ensures var m := FoldCategoryRows(s.GroupByCategory(pid), map[]);
      && (forall c :: c in m <==> s.CategoryCount(pid, c) > 0)
      && (forall c :: c in m ==> m[c] == s.CategoryCount(pid, c))
  {
    var rows := s.GroupByCategory(pid);
    var m := FoldCategoryRows(rows, map[]);
    forall c | c in m ensures m[c] == s.CategoryCount(pid, c) && s.CategoryCount(pid, c) > 0 {
      var i :| 0 <= i < |rows| && rows[i].0 == c;
    }
    forall c | s.CategoryCount(pid, c) > 0 ensures c in m {
      var i :| 0 <= i < |rows| && rows[i] == (c, s.CategoryCount(pid, c));
    }
  }

  /**
   * `getProfileWithStats`: with no profile, a null profile, zero totals and an empty category
   * map; otherwise the owner's totals and a category map that holds exactly the categories with
   * at least one account (unlike `getAccountStats`, which always lists all six).
   */
  function GetProfileWithStats(s: Store, caller: Option<string>): (r: Outcome<ProfileWithStats>)
    reads s`profiles, s`profileOrder, s`contacts, s`accounts, s`documents, s`items
    ensures caller.None? <==> r.Error?
    ensures r.Error? ==> r.error == NotAuthenticated
    ensures r.Data? && r.value.profile.None? ==>
      && caller.Some? && s.ProfileOf(caller.value).None?
      && r.value.stats == Stats(0, 0, 0, 0, map[])
    ensures r.Data? && r.value.profile.Some? ==>
      var (pid, p, contacts) := r.value.profile.value;
      var st := r.value.stats;
      && pid in s.profiles && p == s.profiles[pid] && caller == Some(p.clerkUserId)
      && (forall c :: c in contacts <==> s.OwnsContact(pid, c))
      && st.totalContacts == |contacts|
      && st.totalAccounts == |s.AccountsOf(pid)|
      && st.totalDocuments == |s.DocumentsOf(pid)|
      && st.totalMedia == |s.ItemsOf(pid)|
      && (forall c :: c in st.accountsByCategory <==> s.CategoryCount(pid, c) > 0)
      && (forall c :: c in st.accountsByCategory ==> st.accountsByCategory[c] == s.CategoryCount(pid, c))
  {
    if caller.None? then Error(NotAuthenticated)
    else match s.ProfileOf(caller.value)
      case None => Data(ProfileWithStats(None, Stats(0, 0, 0, 0, map[])))
      case Some(pid) =>
        var contacts := s.ContactsOf(pid);
        var byCategory := FoldCategoryRows(s.GroupByCategory(pid), map[]);
        CategoryMapExact(s, pid);
        var stats := Stats(|s.AccountsOf(pid)|, |s.DocumentsOf(pid)|, |s.ItemsOf(pid)|, |contacts|, byCategory);
        Data(ProfileWithStats(Some((pid, s.profiles[pid], contacts)), stats))
  }
}
