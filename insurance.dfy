/**
 * The insurance-sync webhook: first every `newUsers` entry becomes a pending invitation (unless
 * one exists for that email) with an invitation email, then every `disabledUsers` entry is looked
 * up (Clerk id first, then email) and its profile set INACTIVE, whatever its status was. Each
 * entry is tallied as processed or failed; a store call that throws fails only its own entry.
 */
module Insurance {
  import opened Types
  import opened Database
  import opened Mail

  datatype NewUser = NewUser(email: string, name: Option<string>, insuranceRef: Option<string>)

  datatype DisabledUser = DisabledUser(email: Option<string>, clerkUserId: Option<string>, insuranceRef: Option<string>)

  datatype InsurancePayload = InsurancePayload(newUsers: Option<seq<NewUser>>, disabledUsers: Option<seq<DisabledUser>>)

  /** One list's counters in the reply. */
  datatype Tally = Tally(processed: nat, failed: nat, errors: seq<string>)

  /** The reply: 500 when the body does not parse, otherwise `ok: true` with both tallies. */
  datatype SyncReply = SyncFailed | Synced(newUsers: Tally, disabledUsers: Tally)

  const NoTally := Tally(0, 0, [])

  /** `payload.list && payload.list.length > 0`: an absent list is processed like an empty one. */
  function ListOf<T>(list: Option<seq<T>>): seq<T>
  {
    if list.Some? then list.value else []
  }

  function Counted(t: Tally): Tally
  {
    t.(processed := t.processed + 1)
  }

  function Failed(t: Tally, error: string): Tally
  {
    Tally(t.processed, t.failed + 1, t.errors + [error])
  }

  /** A possibly-undefined value inside a template literal. */
  function Shown(o: Option<string>): string
  {
    if o.Some? then o.value else "undefined"
  }

  function SignUpUrl(env: Env): string
  {
    BaseUrl(env) + "/sign-up"
  }

  // ---------------------------------------------------------------- new users

  /** What the invitation loop has done after a prefix of the list. */
  datatype InviteState = InviteState(invitations: map<string, Invitation>, tally: Tally, mails: seq<Message>)

  /**
   * One entry at position `index`: a throwing store call fails it; an existing invitation counts
   * it as processed with nothing written or sent; otherwise the invitation is created, emailed
   * when a sender is configured, and counted as processed whether or not the send succeeds.
   */
  function InviteStep(st: InviteState, u: NewUser, index: nat, faults: set<nat>, env: Env): InviteState
  {
    if index in faults then st.(tally := Failed(st.tally, "Failed to invite " + u.email))
    else if u.email in st.invitations then st.(tally := Counted(st.tally))
    else
      InviteState(st.invitations[u.email := Invitation(u.email, u.name, u.insuranceRef)],
                  Counted(st.tally),
                  st.mails + (if MailConfigured(env) then [InvitationMessage(u.email, u.name, SignUpUrl(env))] else []))
  }

  /** The invitation loop over `users`, from `invitations` and no tallies. */
  function InviteRun(users: seq<NewUser>, invitations: map<string, Invitation>, faults: set<nat>, env: Env): InviteState
  {
    if users == [] then InviteState(invitations, NoTally, [])
    else InviteStep(InviteRun(users[..|users| - 1], invitations, faults, env), users[|users| - 1], |users| - 1, faults, env)
  }

  /** Every entry is counted exactly once, and each failure carries one error message. */
  lemma {:induction false} InviteTally(users: seq<NewUser>, invitations: map<string, Invitation>, faults: set<nat>, env: Env)
    ensures var t := InviteRun(users, invitations, faults, env).tally;
      t.processed + t.failed == |users| && |t.errors| == t.failed
    ensures (forall i :: 0 <= i < |users| ==> i !in faults) ==> InviteRun(users, invitations, faults, env).tally.failed == 0
  {
    if users != [] {
      InviteTally(users[..|users| - 1], invitations, faults, env);
    }
  }

  /**
   * The invitations afterwards: the old ones untouched, plus one for each email of an entry
   * whose store calls succeeded, carrying the data of such an entry.
   */
  lemma {:induction false} InviteRows(users: seq<NewUser>, invitations: map<string, Invitation>, faults: set<nat>, env: Env)
    ensures var after := InviteRun(users, invitations, faults, env).invitations;
      && (forall e :: e in invitations ==> e in after && after[e] == invitations[e])
      && (forall e :: e in after <==> e in invitations || exists i :: 0 <= i < |users| && i !in faults && users[i].email == e)
      && (forall e :: e in after && e !in invitations ==>
            exists i :: 0 <= i < |users| && i !in faults && users[i].email == e &&
                        after[e] == Invitation(e, users[i].name, users[i].insuranceRef))
  {
    if users != [] {
      var front := users[..|users| - 1];
      var n := |users| - 1;
      InviteRows(front, invitations, faults, env);
      var mid := InviteRun(front, invitations, faults, env).invitations;
      var after := InviteRun(users, invitations, faults, env).invitations;
      forall i | 0 <= i < |front|
        ensures users[i] == front[i]
      {
      }
      forall e | e in after
        ensures e in invitations || exists i :: 0 <= i < |users| && i !in faults && users[i].email == e
      {
        if e !in mid {
          assert users[n].email == e && n !in faults;
        }
      }
      forall e | e in after && e !in invitations
        ensures exists i :: 0 <= i < |users| && i !in faults && users[i].email == e &&
                            after[e] == Invitation(e, users[i].name, users[i].insuranceRef)
      {
        if e in mid {
          var i :| 0 <= i < |front| && i !in faults && front[i].email == e &&
                   mid[e] == Invitation(e, front[i].name, front[i].insuranceRef);
          assert after[e] == mid[e];
        } else {
          assert users[n].email == e && after[e] == Invitation(e, users[n].name, users[n].insuranceRef);
        }
      }
    }
  }

  /** A key new to both sets adds one to the difference. */
  lemma OneMoreKey<T>(a: set<T>, b: set<T>, x: T)
    requires x !in a && b <= a
    ensures |(a + {x}) - b| == |a - b| + 1
  {
    assert (a + {x}) - b == (a - b) + {x};
  }

  /** The run never drops an invitation that was there before. */
  lemma {:induction false} InviteKeepsOld(users: seq<NewUser>, invitations: map<string, Invitation>, faults: set<nat>, env: Env)
    ensures invitations.Keys <= InviteRun(users, invitations, faults, env).invitations.Keys
  {
    if users != [] {
      InviteKeepsOld(users[..|users| - 1], invitations, faults, env);
    }
  }

  /**
   * One email per invitation this run created, and only with a configured sender: an entry that
   * found an existing invitation is not emailed again.
   */
  lemma {:induction false} InviteMailCount(users: seq<NewUser>, invitations: map<string, Invitation>, faults: set<nat>, env: Env)
    ensures var r := InviteRun(users, invitations, faults, env);
      && (!MailConfigured(env) ==> r.mails == [])
      && (MailConfigured(env) ==> |r.mails| == |r.invitations.Keys - invitations.Keys|)
  {
    if users != [] {
      var front := users[..|users| - 1];
      InviteMailCount(front, invitations, faults, env);
      InviteKeepsOld(front, invitations, faults, env);
      var mid := InviteRun(front, invitations, faults, env);
      var r := InviteRun(users, invitations, faults, env);
      var u := users[|users| - 1];
      if (|users| - 1) in faults || u.email in mid.invitations {
        assert r.invitations == mid.invitations && r.mails == mid.mails;
      } else {
        assert r.invitations.Keys == mid.invitations.Keys + {u.email};
        OneMoreKey(mid.invitations.Keys, invitations.Keys, u.email);
      }
    }
  }

  /** Every email goes to an address whose invitation this run created, with the sign-up link. */
  lemma {:induction false} InviteMailTargets(users: seq<NewUser>, invitations: map<string, Invitation>, faults: set<nat>, env: Env)
    ensures forall k :: 0 <= k < |InviteRun(users, invitations, faults, env).mails| ==>
      var m := InviteRun(users, invitations, faults, env).mails[k];
      && m.InvitationMessage? && m.signUpUrl == SignUpUrl(env)
      && m.to in InviteRun(users, invitations, faults, env).invitations && m.to !in invitations
  {
    if users != [] {
      var front := users[..|users| - 1];
      InviteMailTargets(front, invitations, faults, env);
      InviteRows(front, invitations, faults, env);
      var mid := InviteRun(front, invitations, faults, env);
      var r := InviteRun(users, invitations, faults, env);
      assert mid.invitations.Keys <= r.invitations.Keys;
      forall k | 0 <= k < |r.mails|
        ensures r.mails[k].InvitationMessage? && r.mails[k].signUpUrl == SignUpUrl(env)
        ensures r.mails[k].to in r.invitations && r.mails[k].to !in invitations
      {
        if k < |mid.mails| {
          assert r.mails[k] == mid.mails[k];
        }
      }
    }
  }

  /**
   * Once every listed email has an invitation, the run writes nothing and sends nothing, and
   * every entry whose store calls succeed counts as processed.
   */
  lemma {:induction false} InviteSettled(users: seq<NewUser>, invitations: map<string, Invitation>, faults: set<nat>, env: Env)
    requires forall i :: 0 <= i < |users| ==> users[i].email in invitations
    ensures InviteRun(users, invitations, faults, env).invitations == invitations
    ensures InviteRun(users, invitations, faults, env).mails == []
  {
    if users != [] {
      InviteSettled(users[..|users| - 1], invitations, faults, env);
    }
  }

  /** Sending the same batch twice: the second run creates no invitation and sends no email. */
  lemma InviteTwice(users: seq<NewUser>, invitations: map<string, Invitation>, env: Env)
    ensures var once := InviteRun(users, invitations, {}, env);
      var twice := InviteRun(users, once.invitations, {}, env);
      twice.invitations == once.invitations && twice.mails == [] && twice.tally == Tally(|users|, 0, [])
  {
    var once := InviteRun(users, invitations, {}, env);
    InviteRows(users, invitations, {}, env);
    InviteSettled(users, once.invitations, {}, env);
    InviteTally(users, once.invitations, {}, env);
  }

  // ---------------------------------------------------------------- disabled users

  /** `User not found: ${user.email || user.clerkUserId}`. */
  function NotFoundError(u: DisabledUser): string
  {
    "User not found: " + (if Present(u.email) then u.email.value else Shown(u.clerkUserId))
  }

  /** What the deactivation loop has done after a prefix of the list. */
  datatype DisableState = DisableState(profiles: map<Id, Profile>, tally: Tally)

  /**
   * One entry at position `index`: a throwing store call fails it; no matching profile fails it
   * as not found; otherwise the profile's status is set to INACTIVE, and nothing else about it.
   */
  function DisableStep(order: seq<Id>, st: DisableState, u: DisabledUser, index: nat, faults: set<nat>): DisableState
  {
    if index in faults then st.(tally := Failed(st.tally, "Failed to disable " + Shown(u.email)))
    else match WebhookLookup(order, st.profiles, u.clerkUserId, u.email)
      case None => st.(tally := Failed(st.tally, NotFoundError(u)))
      case Some(pid) => DisableState(st.profiles[pid := st.profiles[pid].(status := Inactive)], Counted(st.tally))
  }

  function DisableRun(order: seq<Id>, profiles: map<Id, Profile>, users: seq<DisabledUser>, faults: set<nat>): DisableState
  {
    if users == [] then DisableState(profiles, NoTally)
    else DisableStep(order, DisableRun(order, profiles, users[..|users| - 1], faults), users[|users| - 1], |users| - 1, faults)
  }

  /**
   * The deactivation loop only ever writes `status := INACTIVE`: the same profiles, the same
   * identities and death dates, every status either kept or INACTIVE.
   */
  lemma {:induction false} DisableOnlyStatus(order: seq<Id>, profiles: map<Id, Profile>, users: seq<DisabledUser>, faults: set<nat>)
    ensures var after := DisableRun(order, profiles, users, faults).profiles;
      && SameIdentities(profiles, after)
      && (forall id :: id in profiles ==>
            after[id] == profiles[id].(status := after[id].status) &&
            (after[id].status == profiles[id].status || after[id].status == Inactive))
  {
    if users != [] {
      var front := users[..|users| - 1];
      DisableOnlyStatus(order, profiles, front, faults);
      DisableStepEffect(order, DisableRun(order, profiles, front, faults), users[|users| - 1], |users| - 1, faults);
    }
  }

  /** Every entry is counted exactly once, and each failure carries one error message. */
  lemma {:induction false} DisableTally(order: seq<Id>, profiles: map<Id, Profile>, users: seq<DisabledUser>, faults: set<nat>)
    requires Indexed(order, profiles)
    ensures var t := DisableRun(order, profiles, users, faults).tally;
      t.processed + t.failed == |users| && |t.errors| == t.failed
  {
    if users != [] {
      var front := users[..|users| - 1];
      DisableTally(order, profiles, front, faults);
      DisableOnlyStatus(order, profiles, front, faults);
      var mid := DisableRun(order, profiles, front, faults).profiles;
      var u := users[|users| - 1];
      var found := WebhookLookup(order, mid, u.clerkUserId, u.email);
      WebhookLookupStable(order, profiles, mid, u.clerkUserId, u.email);
      WebhookLookupMeaning(order, profiles, u.clerkUserId, u.email);
    }
  }

  lemma DisableKeepsIdentities(order: seq<Id>, profiles: map<Id, Profile>, users: seq<DisabledUser>, faults: set<nat>)
    ensures SameIdentities(profiles, DisableRun(order, profiles, users, faults).profiles)
  {
    DisableOnlyStatus(order, profiles, users, faults);
  }

  /** One step writes at most `status := INACTIVE` on one profile, the one its lookup found. */
  lemma DisableStepEffect(order: seq<Id>, st: DisableState, u: DisabledUser, index: nat, faults: set<nat>)
    ensures var after := DisableStep(order, st, u, index, faults).profiles;
      && (forall id :: id in st.profiles <==> id in after)
      && (forall id :: id in st.profiles ==> after[id] == st.profiles[id] || after[id] == st.profiles[id].(status := Inactive))
      && (index !in faults && WebhookLookup(order, st.profiles, u.clerkUserId, u.email).Some? ==>
            after[WebhookLookup(order, st.profiles, u.clerkUserId, u.email).value].status == Inactive)
  {
  }

  /**
   * An entry whose store calls succeed and whose lookup finds a profile leaves that profile
   * INACTIVE, even one that was DECEASED (its death date stays).
   */
  lemma {:induction false} DisableFound(order: seq<Id>, profiles: map<Id, Profile>, users: seq<DisabledUser>, faults: set<nat>)
    ensures var after := DisableRun(order, profiles, users, faults).profiles;
      && (forall id :: id in profiles <==> id in after)
      && (forall i :: 0 <= i < |users| && i !in faults && WebhookLookup(order, profiles, users[i].clerkUserId, users[i].email).Some? ==>
            after[WebhookLookup(order, profiles, users[i].clerkUserId, users[i].email).value].status == Inactive)
  {
    if users != [] {
      var front := users[..|users| - 1];
      var n := |users| - 1;
      DisableFound(order, profiles, front, faults);
      DisableKeepsIdentities(order, profiles, front, faults);
      var midState := DisableRun(order, profiles, front, faults);
      var mid := midState.profiles;
      var after := DisableRun(order, profiles, users, faults).profiles;
      DisableStepEffect(order, midState, users[n], n, faults);
      WebhookLookupStable(order, profiles, mid, users[n].clerkUserId, users[n].email);
      forall i | 0 <= i < |users| && i !in faults && WebhookLookup(order, profiles, users[i].clerkUserId, users[i].email).Some?
        ensures after[WebhookLookup(order, profiles, users[i].clerkUserId, users[i].email).value].status == Inactive
      {
        if i < n {
          assert users[i] == front[i];
        }
      }
    }
  }

  /** A profile whose status changed was found by an entry whose store calls succeeded. */
  lemma {:induction false} DisableChangedWasFound(order: seq<Id>, profiles: map<Id, Profile>, users: seq<DisabledUser>, faults: set<nat>)
    ensures var after := DisableRun(order, profiles, users, faults).profiles;
      && (forall id :: id in profiles <==> id in after)
      && (forall id :: id in profiles && after[id].status != profiles[id].status ==>
            exists i :: 0 <= i < |users| && i !in faults && WebhookLookup(order, profiles, users[i].clerkUserId, users[i].email) == Some(id))
  {
    DisableOnlyStatus(order, profiles, users, faults);
    if users != [] {
      var front := users[..|users| - 1];
      var n := |users| - 1;
      DisableChangedWasFound(order, profiles, front, faults);
      DisableOnlyStatus(order, profiles, front, faults);
      var mid := DisableRun(order, profiles, front, faults).profiles;
      var after := DisableRun(order, profiles, users, faults).profiles;
      WebhookLookupStable(order, profiles, mid, users[n].clerkUserId, users[n].email);
      forall id | id in profiles && after[id].status != profiles[id].status
        ensures exists i :: 0 <= i < |users| && i !in faults && WebhookLookup(order, profiles, users[i].clerkUserId, users[i].email) == Some(id)
      {
        if mid[id].status == profiles[id].status {
          assert n !in faults && WebhookLookup(order, profiles, users[n].clerkUserId, users[n].email) == Some(id);
        } else {
          var i :| 0 <= i < |front| && i !in faults && WebhookLookup(order, profiles, front[i].clerkUserId, front[i].email) == Some(id);
          assert users[i] == front[i];
        }
      }
    }
  }

  /**
   * A DECEASED profile named in `disabledUsers` ends INACTIVE with its death date still set, so
   * "DECEASED exactly when dated" does not survive the sync; only `DatedNotActive` does.
   */
  lemma DisableKeepsDeathDate(order: seq<Id>, profiles: map<Id, Profile>, u: DisabledUser, pid: Id)
    requires pid in profiles && profiles[pid].status == Deceased && profiles[pid].deceasedAt.Some?
    requires WebhookLookup(order, profiles, u.clerkUserId, u.email) == Some(pid)
    ensures var after := DisableRun(order, profiles, [u], {}).profiles;
      && pid in after && after[pid].status == Inactive
      && after[pid].deceasedAt == profiles[pid].deceasedAt
      && !DatedAreDeceased(after)
  {
  }

  // ---------------------------------------------------------------- the endpoint

  /** The `newUsers` loop. `faults` are the positions whose store calls throw. */
  method InviteAll(s: Store, mailer: Mailer, env: Env, users: seq<NewUser>, faults: set<nat>) returns (tally: Tally)
    modifies s`invitations, mailer
    ensures var run := InviteRun(users, old(s.invitations), faults, env);
      s.invitations == run.invitations && tally == run.tally && mailer.sent == old(mailer.sent) + run.mails
  {
    tally := NoTally;
    ghost var invitations0 := s.invitations;
    ghost var sent0 := mailer.sent;
    var i := 0;
    while i < |users|
      invariant 0 <= i <= |users|
      invariant var run := InviteRun(users[..i], invitations0, faults, env);
        s.invitations == run.invitations && tally == run.tally && mailer.sent == sent0 + run.mails
    {
      var u := users[i];
      assert users[..i + 1][..i] == users[..i];
      if i in faults {
        tally := Failed(tally, "Failed to invite " + u.email);
      } else if u.email in s.invitations {
        tally := Counted(tally);
      } else {
        s.invitations := s.invitations[u.email := Invitation(u.email, u.name, u.insuranceRef)];
        if MailConfigured(env) {
          var delivered := mailer.Send(InvitationMessage(u.email, u.name, SignUpUrl(env)));
        }
        tally := Counted(tally);
      }
      i := i + 1;
    }
    assert users[..|users|] == users;
  }

  /** Only status changes, to INACTIVE, so the store stays well formed. */
  lemma DisableKeepsValid(s: Store, profiles: map<Id, Profile>, users: seq<DisabledUser>, faults: set<nat>)
    requires s.Valid() && s.profiles == profiles
    ensures var after := DisableRun(s.profileOrder, profiles, users, faults).profiles;
      && Indexed(s.profileOrder, after) && ClerkIdsUnique(after) && DeceasedHaveDate(after)
      && DatedNotActive(after)
      && (forall id :: id in profiles <==> id in after)
  {
    DisableOnlyStatus(s.profileOrder, profiles, users, faults);
  }

  /** The `disabledUsers` loop. `faults` are the positions whose store calls throw. */
  method DisableAll(s: Store, users: seq<DisabledUser>, faults: set<nat>) returns (tally: Tally)
    requires s.Valid()
    modifies s`profiles
    ensures s.Valid()
    ensures var run := DisableRun(s.profileOrder, old(s.profiles), users, faults);
      s.profiles == run.profiles && tally == run.tally
  {
    tally := NoTally;
    ghost var profiles0 := s.profiles;
    DisableKeepsValid(s, profiles0, users, faults);
    var j := 0;
    while j < |users|
      invariant 0 <= j <= |users|
      invariant var run := DisableRun(s.profileOrder, profiles0, users[..j], faults);
        s.profiles == run.profiles && tally == run.tally
    {
      var u := users[j];
      assert users[..j + 1][..j] == users[..j];
      if j in faults {
        tally := Failed(tally, "Failed to disable " + Shown(u.email));
      } else {
        var found := WebhookLookup(s.profileOrder, s.profiles, u.clerkUserId, u.email);
        if found.None? {
          tally := Failed(tally, NotFoundError(u));
        } else {
          var pid := found.value;
          s.profiles := s.profiles[pid := s.profiles[pid].(status := Inactive)];
          tally := Counted(tally);
        }
      }
      j := j + 1;
    }
    assert users[..|users|] == users;
  }

  /**
   * `POST /webhooks/insurance`. New users are processed before disabled users; once the body
   * parses, the reply is always `ok: true`.
   */
  method Sync(s: Store, mailer: Mailer, env: Env, body: Option<InsurancePayload>, inviteFaults: set<nat>, disableFaults: set<nat>)
    returns (reply: SyncReply)
    requires s.Valid()
    modifies s`invitations, s`profiles, mailer
    ensures s.Valid()
    ensures body.None? ==>
      reply == SyncFailed && s.invitations == old(s.invitations) && s.profiles == old(s.profiles) && mailer.sent == old(mailer.sent)
    ensures body.Some? ==>
      var invited := InviteRun(ListOf(body.value.newUsers), old(s.invitations), inviteFaults, env);
      var disabled := DisableRun(s.profileOrder, old(s.profiles), ListOf(body.value.disabledUsers), disableFaults);
      && s.invitations == invited.invitations && mailer.sent == old(mailer.sent) + invited.mails
      && s.profiles == disabled.profiles
      && reply == Synced(invited.tally, disabled.tally)
  {
    if body.None? {
      return SyncFailed;
    }
    var newTally := InviteAll(s, mailer, env, ListOf(body.value.newUsers), inviteFaults);
    var disabledTally := DisableAll(s, ListOf(body.value.disabledUsers), disableFaults);
    reply := Synced(newTally, disabledTally);
  }
}
