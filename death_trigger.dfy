/**
 * The death-trigger webhook: find the owner (Clerk id first, then email), refuse an owner who is
 * already DECEASED, flip the status and stamp the date, then give every trusted contact a legacy
 * token, reusing an existing one (and then sending nothing) or minting a fresh one and emailing
 * its link.
 */
module DeathTrigger {
  import opened Types
  import opened Collections
  import opened Database
  import opened SecureToken
  import opened Mail

  /** The JSON body; an empty string counts as absent, and `deathDate` is already parsed. */
  datatype DeathPayload = DeathPayload(email: Option<string>, clerkUserId: Option<string>, deathDate: Option<Timestamp>)

  /** One entry of `tokensGenerated`. */
  datatype TokenEntry = TokenEntry(contactId: Id, contactName: string, contactEmail: Option<string>, role: Role, token: string)

  /** One entry of the reply's `accessTokens`. */
  datatype AccessToken = AccessToken(contactName: string, contactEmail: Option<string>, role: Role, accessLink: string)

  /** The reply, by HTTP status: 500, 400, 404, 400, and 200 with the summary. */
  datatype DeathReply =
    | Failed
    | MissingIdentity
    | UserNotFound
    | AlreadyDeceased
    | Processed(userId: Id, userName: string, deceasedAt: Timestamp, trustedContactsNotified: nat, accessTokens: seq<AccessToken>)

  /** The checks before any write: either an early reply, or the profile to flip and its date. */
  datatype Screening = Stop(reply: DeathReply) | Go(pid: Id, deceasedAt: Timestamp)

  function Screen(order: seq<Id>, profiles: map<Id, Profile>, body: Option<DeathPayload>, now: Timestamp): (r: Screening)
    ensures body.None? ==> r == Stop(Failed)
    ensures body.Some? && !Present(body.value.email) && !Present(body.value.clerkUserId) ==> r == Stop(MissingIdentity)
    ensures r == Stop(UserNotFound) <==>
      body.Some? && (Present(body.value.email) || Present(body.value.clerkUserId)) &&
      WebhookLookup(order, profiles, body.value.clerkUserId, body.value.email).None?
    ensures r == Stop(AlreadyDeceased) <==>
      body.Some? && (Present(body.value.email) || Present(body.value.clerkUserId)) &&
      var found := WebhookLookup(order, profiles, body.value.clerkUserId, body.value.email);
      found.Some? && profiles[found.value].status == Deceased
    ensures r.Go? ==>
      && body.Some?
      && WebhookLookup(order, profiles, body.value.clerkUserId, body.value.email) == Some(r.pid)
      && r.pid in profiles && profiles[r.pid].status != Deceased
      && r.deceasedAt == Override(body.value.deathDate, now)
    ensures r.Stop? ==> !r.reply.Processed?
  {
    if body.None? then Stop(Failed)
    else if !Present(body.value.email) && !Present(body.value.clerkUserId) then Stop(MissingIdentity)
    else match WebhookLookup(order, profiles, body.value.clerkUserId, body.value.email)
      case None => Stop(UserNotFound)
      case Some(pid) =>
        if profiles[pid].status == Deceased then Stop(AlreadyDeceased)
        else Go(pid, Override(body.value.deathDate, now))
  }

  /** The profile after the flip: DECEASED with the date, nothing else changed. */
  function Flipped(p: Profile, deceasedAt: Timestamp): (r: Profile)
    ensures r.status == Deceased && r.deceasedAt == Some(deceasedAt)
    ensures r.clerkUserId == p.clerkUserId && r.email == p.email && r.fullName == p.fullName
  {
    p.(status := Deceased, deceasedAt := Some(deceasedAt))
  }

  /**
   * Once the trigger has flipped a profile, the same request again (at any time) finds the same
   * profile and is refused as already deceased: a second trigger is a no-op.
   */
  lemma SecondTriggerRefused(order: seq<Id>, profiles: map<Id, Profile>, body: Option<DeathPayload>, now: Timestamp, later: Timestamp)
    requires Screen(order, profiles, body, now).Go?
    ensures var g := Screen(order, profiles, body, now);
      Screen(order, profiles[g.pid := Flipped(profiles[g.pid], g.deceasedAt)], body, later) == Stop(AlreadyDeceased)
  {
    var g := Screen(order, profiles, body, now);
    var flipped := profiles[g.pid := Flipped(profiles[g.pid], g.deceasedAt)];
    WebhookLookupStable(order, profiles, flipped, body.value.clerkUserId, body.value.email);
  }

  /** An entry is about the contact it names. */
  predicate Describes(e: TokenEntry, c: Contact)
  {
    e.contactName == c.name && e.contactEmail == c.email && e.role == c.role
  }

  function LegacyLink(token: string): (link: string)
    ensures "/legacy/" <= link && link[8..] == token
  {
    "/legacy/" + token
  }

  /** `accessTokens`: one per generated entry, in order, each linking to `/legacy/<token>`. */
  function Summary(generated: seq<TokenEntry>): (r: seq<AccessToken>)
    ensures |r| == |generated|
    ensures forall i :: 0 <= i < |r| ==>
      && r[i].contactName == generated[i].contactName && r[i].contactEmail == generated[i].contactEmail
      && r[i].role == generated[i].role && "/legacy/" <= r[i].accessLink && r[i].accessLink[8..] == generated[i].token
  {
    seq(|generated|, i requires 0 <= i < |generated| =>
      AccessToken(generated[i].contactName, generated[i].contactEmail, generated[i].role, LegacyLink(generated[i].token)))
  }

  /** The email a freshly minted token is announced with. */
  function NotificationOf(e: TokenEntry, env: Env, deceasedName: string): Message
    requires Present(e.contactEmail)
  {
    DeathNotification(e.contactEmail.value, e.contactName, deceasedName, BaseUrl(env) + LegacyLink(e.token))
  }

  /** Whether the loop emails this entry: only a new token, only with a sender and an address. */
  predicate Mailed(e: TokenEntry, before: map<(Id, Id), LegacyToken>, pid: Id, env: Env)
  {
    (pid, e.contactId) !in before && MailConfigured(env) && Present(e.contactEmail)
  }

  /**
   * The entries the loop emails, in loop order: exactly those with a newly minted token and an
   * address, and none at all without a configured sender. A reused token is never emailed.
   */
  function MailedEntries(generated: seq<TokenEntry>, before: map<(Id, Id), LegacyToken>, pid: Id, env: Env): (r: seq<TokenEntry>)
    ensures forall e :: e in r <==> e in generated && Mailed(e, before, pid, env)
    ensures forall k :: 0 <= k < |r| ==> Mailed(r[k], before, pid, env)
    ensures !MailConfigured(env) ==> r == []
    ensures |r| <= |generated|
  {
    if generated == [] then []
    else
      var front := generated[..|generated| - 1];
      var last := generated[|generated| - 1];
      assert generated == front + [last];
      MailedEntries(front, before, pid, env) + (if Mailed(last, before, pid, env) then [last] else [])
  }

  /** The sends the loop attempts: one death notification per mailed entry, in the same order. */
  function Notifications(generated: seq<TokenEntry>, before: map<(Id, Id), LegacyToken>, pid: Id, env: Env, deceasedName: string): seq<Message>
  {
    if generated == [] then []
    else
      var last := generated[|generated| - 1];
      Notifications(generated[..|generated| - 1], before, pid, env, deceasedName) +
        (if Mailed(last, before, pid, env) then [NotificationOf(last, env, deceasedName)] else [])
  }

  /** The sends are the death notifications of the mailed entries, one each and in order. */
  lemma {:induction false} NotificationsOfMailed(generated: seq<TokenEntry>, before: map<(Id, Id), LegacyToken>, pid: Id, env: Env, deceasedName: string)
    ensures var sends := Notifications(generated, before, pid, env, deceasedName);
      var mailed := MailedEntries(generated, before, pid, env);
      |sends| == |mailed| && forall k :: 0 <= k < |sends| ==> sends[k] == NotificationOf(mailed[k], env, deceasedName)
  {
    if generated != [] {
      NotificationsOfMailed(generated[..|generated| - 1], before, pid, env, deceasedName);
    }
  }

  lemma NotificationsAppend(generated: seq<TokenEntry>, e: TokenEntry, before: map<(Id, Id), LegacyToken>, pid: Id, env: Env, deceasedName: string)
    ensures Notifications(generated + [e], before, pid, env, deceasedName) ==
      Notifications(generated, before, pid, env, deceasedName) +
        (if Mailed(e, before, pid, env) then [NotificationOf(e, env, deceasedName)] else [])
  {
    assert (generated + [e])[..|generated|] == generated;
  }

  /**
   * The token table after the loop: the old rows untouched, plus one new row, with a fresh
   * 64-hex-character token and no expiry, for each served contact that had none.
   */
  ghost predicate TokensMinted(before: map<(Id, Id), LegacyToken>, after: map<(Id, Id), LegacyToken>, pid: Id, served: set<Id>)
  {
    && (forall k :: k in after <==> k in before || (k.0 == pid && k.1 in served))
    && (forall k :: k in before ==> after[k] == before[k])
    && (forall k :: k in after && k !in before ==> IsSecureToken(after[k].token) && after[k].expiresAt.None?)
  }

  /** The contacts `tokensGenerated` has an entry for. */
  function ContactIdsOf(generated: seq<TokenEntry>): (r: set<Id>)
  {
    if generated == [] then {}
    else ContactIdsOf(generated[..|generated| - 1]) + {generated[|generated| - 1].contactId}
  }

  lemma {:induction false} ContactIdsOfMeaning(generated: seq<TokenEntry>)
    ensures forall c :: c in ContactIdsOf(generated) <==> exists i :: 0 <= i < |generated| && generated[i].contactId == c
  {
    if generated != [] {
      var front := generated[..|generated| - 1];
      ContactIdsOfMeaning(front);
      forall c | c in ContactIdsOf(front)
        ensures exists i :: 0 <= i < |generated| && generated[i].contactId == c
      {
        var i :| 0 <= i < |front| && front[i].contactId == c;
        assert generated[i] == front[i];
      }
      forall i | 0 <= i < |generated|
        ensures generated[i].contactId in ContactIdsOf(generated)
      {
        if i < |front| {
          assert generated[i] == front[i];
        }
      }
    }
  }

  /**
   * `tokensGenerated`: one entry per served contact, describing it and carrying the token its
   * (profile, contact) row holds.
   */
  ghost predicate GeneratedFor(generated: seq<TokenEntry>, contacts: map<Id, Contact>, tokens: map<(Id, Id), LegacyToken>, pid: Id, served: set<Id>)
  {
    && (forall i, j :: 0 <= i < j < |generated| ==> generated[i].contactId != generated[j].contactId)
    && served == ContactIdsOf(generated)
    && (forall i :: 0 <= i < |generated| ==>
          && generated[i].contactId in contacts && Describes(generated[i], contacts[generated[i].contactId])
          && (pid, generated[i].contactId) in tokens && tokens[(pid, generated[i].contactId)].token == generated[i].token)
  }

  /** A served contact that already had a token leaves the table as it was. */
  lemma TokenReused(before: map<(Id, Id), LegacyToken>, after: map<(Id, Id), LegacyToken>, pid: Id, served: set<Id>, c: Id)
    requires TokensMinted(before, after, pid, served)
    requires (pid, c) in after
    ensures TokensMinted(before, after, pid, served + {c})
  {
  }

  /** A served contact without a token adds exactly its fresh row. */
  lemma TokenMinted(before: map<(Id, Id), LegacyToken>, after: map<(Id, Id), LegacyToken>, pid: Id, served: set<Id>, c: Id, t: string)
    requires TokensMinted(before, after, pid, served)
    requires (pid, c) !in after && IsSecureToken(t)
    ensures TokensMinted(before, after[(pid, c) := LegacyToken(t, None)], pid, served + {c})
  {
  }

  /** Appending the entry for a new served contact keeps `tokensGenerated` in step with the table. */
  lemma GeneratedExtend(generated: seq<TokenEntry>, contacts: map<Id, Contact>, mid: map<(Id, Id), LegacyToken>,
                        after: map<(Id, Id), LegacyToken>, pid: Id, served: set<Id>, entry: TokenEntry)
    requires GeneratedFor(generated, contacts, mid, pid, served)
    requires entry.contactId !in served && entry.contactId in contacts && Describes(entry, contacts[entry.contactId])
    requires (pid, entry.contactId) in after && after[(pid, entry.contactId)].token == entry.token
    requires forall k :: k in mid ==> k in after && after[k] == mid[k]
    ensures GeneratedFor(generated + [entry], contacts, after, pid, served + {entry.contactId})
  {
    var g := generated + [entry];
    assert g[..|g| - 1] == generated;
    assert ContactIdsOf(g) == served + {entry.contactId};
    forall i, j | 0 <= i < j < |g|
      ensures g[i].contactId != g[j].contactId
    {
      if j == |generated| {
        ContactIdsOfMeaning(generated);
      }
    }
  }

  /** The loop state for the contacts served so far. */
  ghost predicate LoopState(s: Store, mailer: Mailer, env: Env, pid: Id, deceasedName: string,
                            tokens0: map<(Id, Id), LegacyToken>, sent0: seq<Message>, served: set<Id>,
                            generated: seq<TokenEntry>)
    reads s`tokens, s`contacts, mailer
  {
    && TokensMinted(tokens0, s.tokens, pid, served)
    && GeneratedFor(generated, s.contacts, s.tokens, pid, served)
    && mailer.sent == sent0 + Notifications(generated, tokens0, pid, env, deceasedName)
  }

  /** The entry for a contact that already has a token for this profile: that same token. */
  function ReusedEntry(s: Store, pid: Id, c: Id): (e: TokenEntry)
    reads s`tokens, s`contacts
    requires c in s.contacts && (pid, c) in s.tokens
    ensures e.contactId == c && Describes(e, s.contacts[c]) && e.token == s.tokens[(pid, c)].token
  {
    var contact := s.contacts[c];
    TokenEntry(c, contact.name, contact.email, contact.role, s.tokens[(pid, c)].token)
  }

  /** A contact without a token: a fresh one is generated and inserted for (profile, contact). */
  method MintToken(s: Store, pid: Id, c: Id, ghost tokens0: map<(Id, Id), LegacyToken>, ghost served: set<Id>,
                   generated: seq<TokenEntry>)
    returns (entry: TokenEntry)
    requires c in s.contacts && c !in served && (pid, c) !in s.tokens
    requires TokensMinted(tokens0, s.tokens, pid, served)
    requires GeneratedFor(generated, s.contacts, s.tokens, pid, served)
    modifies s`tokens
    ensures entry.contactId == c && Describes(entry, s.contacts[c]) && IsSecureToken(entry.token)
    ensures TokensMinted(tokens0, s.tokens, pid, served + {c})
    ensures GeneratedFor(generated + [entry], s.contacts, s.tokens, pid, served + {c})
  {
    var contact := s.contacts[c];
    ghost var mid := s.tokens;
    var token := GenerateSecureToken();
    TokenMinted(tokens0, mid, pid, served, c, token);
    s.tokens := s.tokens[(pid, c) := LegacyToken(token, None)];
    entry := TokenEntry(c, contact.name, contact.email, contact.role, token);
    GeneratedExtend(generated, s.contacts, mid, s.tokens, pid, served, entry);
  }

  /** The notification for a newly minted token, sent only with a configured sender and an address. */
  method Announce(mailer: Mailer, env: Env, pid: Id, deceasedName: string, ghost tokens0: map<(Id, Id), LegacyToken>,
                  ghost sent0: seq<Message>, ghost generated: seq<TokenEntry>, entry: TokenEntry)
    requires (pid, entry.contactId) !in tokens0
    requires mailer.sent == sent0 + Notifications(generated, tokens0, pid, env, deceasedName)
    modifies mailer
    ensures mailer.sent == sent0 + Notifications(generated + [entry], tokens0, pid, env, deceasedName)
  {
    NotificationsAppend(generated, entry, tokens0, pid, env, deceasedName);
    if MailConfigured(env) && Present(entry.contactEmail) {
      var delivered := mailer.Send(NotificationOf(entry, env, deceasedName));
    }
  }

  /** Serving a contact that already has a token keeps the loop state: no new row and no send. */
  lemma ReuseKeepsState(s: Store, mailer: Mailer, env: Env, pid: Id, deceasedName: string,
                        tokens0: map<(Id, Id), LegacyToken>, sent0: seq<Message>, served: set<Id>,
                        generated: seq<TokenEntry>, c: Id)
    requires c in s.contacts && c !in served && (pid, c) in s.tokens && (pid, c) in tokens0
    requires LoopState(s, mailer, env, pid, deceasedName, tokens0, sent0, served, generated)
    ensures LoopState(s, mailer, env, pid, deceasedName, tokens0, sent0, served + {c}, generated + [ReusedEntry(s, pid, c)])
  {
    var entry := ReusedEntry(s, pid, c);
    NotificationsAppend(generated, entry, tokens0, pid, env, deceasedName);
    TokenReused(tokens0, s.tokens, pid, served, c);
    GeneratedExtend(generated, s.contacts, s.tokens, s.tokens, pid, served, entry);
  }

  /** Serving a contact without a token: mint, insert, and announce it. */
  method ServeNew(s: Store, mailer: Mailer, env: Env, pid: Id, deceasedName: string,
                  ghost tokens0: map<(Id, Id), LegacyToken>, ghost sent0: seq<Message>, ghost served: set<Id>,
                  generated: seq<TokenEntry>, c: Id)
    returns (entry: TokenEntry)
    requires c in s.contacts && c !in served && (pid, c) !in s.tokens && (pid, c) !in tokens0
    requires LoopState(s, mailer, env, pid, deceasedName, tokens0, sent0, served, generated)
    modifies s`tokens, mailer
    ensures entry.contactId == c && IsSecureToken(entry.token)
    ensures LoopState(s, mailer, env, pid, deceasedName, tokens0, sent0, served + {c}, generated + [entry])
  {
    entry := MintToken(s, pid, c, tokens0, served, generated);
    Announce(mailer, env, pid, deceasedName, tokens0, sent0, generated, entry);
  }

  /** One pass of the loop for a contact whose store calls succeed. */
  method ServeContact(s: Store, mailer: Mailer, env: Env, pid: Id, deceasedName: string,
                      ghost tokens0: map<(Id, Id), LegacyToken>, ghost sent0: seq<Message>, ghost served: set<Id>,
                      generated: seq<TokenEntry>, c: Id)
    returns (entry: TokenEntry)
    requires c in s.contacts && c !in served
    requires LoopState(s, mailer, env, pid, deceasedName, tokens0, sent0, served, generated)
    modifies s`tokens, mailer
    ensures entry.contactId == c
    ensures LoopState(s, mailer, env, pid, deceasedName, tokens0, sent0, served + {c}, generated + [entry])
  {
    assert (pid, c) in s.tokens <==> (pid, c) in tokens0;
    if (pid, c) in s.tokens {
      entry := ReusedEntry(s, pid, c);
      ReuseKeepsState(s, mailer, env, pid, deceasedName, tokens0, sent0, served, generated, c);
    } else {
      entry := ServeNew(s, mailer, env, pid, deceasedName, tokens0, sent0, served, generated, c);
    }
  }

  /**
   * The loop over the owner's trusted contacts. `faulty` is the set of contacts whose token
   * lookup or insert throws: such a contact is logged and skipped, and the loop goes on.
   */
  method NotifyContacts(s: Store, mailer: Mailer, env: Env, pid: Id, deceasedName: string, faulty: set<Id>)
    returns (generated: seq<TokenEntry>)
    modifies s`tokens, mailer
    ensures LoopState(s, mailer, env, pid, deceasedName, old(s.tokens), old(mailer.sent), s.ContactsOf(pid) - faulty, generated)
  {
    generated := [];
    ghost var tokens0 := s.tokens;
    ghost var sent0 := mailer.sent;
    ghost var served: set<Id> := {};
    var pending := s.ContactsOf(pid);
    while pending != {}
      invariant served !! pending && served !! faulty && served + pending - faulty == s.ContactsOf(pid) - faulty
      invariant LoopState(s, mailer, env, pid, deceasedName, tokens0, sent0, served, generated)
      decreases pending
    {
      var c :| c in pending;
      pending := pending - {c};
      if c !in faulty {
        var entry := ServeContact(s, mailer, env, pid, deceasedName, tokens0, sent0, served, generated, c);
        generated := generated + [entry];
        served := served + {c};
      }
    }
    assert served == s.ContactsOf(pid) - faulty;
  }

  /** The status flip: DECEASED and the date on the one profile; the store stays well formed. */
  method MarkDeceased(s: Store, pid: Id, deceasedAt: Timestamp)
    requires s.Valid() && pid in s.profiles
    modifies s`profiles
    ensures s.Valid()
    ensures s.profiles == old(s.profiles)[pid := Flipped(old(s.profiles)[pid], deceasedAt)]
  {
    s.profiles := s.profiles[pid := Flipped(s.profiles[pid], deceasedAt)];
  }

  /** The writes once a living owner is found: the flip, then the contacts, then the summary. */
  method ProcessDeath(s: Store, mailer: Mailer, env: Env, pid: Id, deceasedAt: Timestamp, faulty: set<Id>)
    returns (reply: DeathReply, generated: seq<TokenEntry>)
    requires s.Valid() && pid in s.profiles
    modifies s`profiles, s`tokens, mailer
    ensures s.Valid()
    ensures s.profiles == old(s.profiles)[pid := Flipped(old(s.profiles)[pid], deceasedAt)]
    ensures reply == Processed(pid, old(s.profiles)[pid].fullName, deceasedAt, |generated|, Summary(generated))
    ensures LoopState(s, mailer, env, pid, old(s.profiles)[pid].fullName, old(s.tokens), old(mailer.sent),
                      s.ContactsOf(pid) - faulty, generated)
  {
    var name := s.profiles[pid].fullName;
    ghost var tokens0, sent0 := s.tokens, mailer.sent;
    MarkDeceased(s, pid, deceasedAt);
    assert s.tokens == tokens0 && mailer.sent == sent0;
    generated := NotifyContacts(s, mailer, env, pid, name, faulty);
    reply := Processed(pid, name, deceasedAt, |generated|, Summary(generated));
  }

  /**
   * `POST /webhooks/death-trigger`. The status write comes first and is never undone; the
   * contacts are then served by `NotifyContacts`.
   */
  method Trigger(s: Store, mailer: Mailer, env: Env, body: Option<DeathPayload>, now: Timestamp, faulty: set<Id>)
    returns (reply: DeathReply, generated: seq<TokenEntry>)
    requires s.Valid()
    modifies s`profiles, s`tokens, mailer
    ensures s.Valid()
    ensures match Screen(old(s.profileOrder), old(s.profiles), body, now)
      case Stop(early) =>
        && reply == early && generated == []
        && s.profiles == old(s.profiles) && s.tokens == old(s.tokens) && mailer.sent == old(mailer.sent)
      case Go(pid, deceasedAt) =>
        && s.profiles == old(s.profiles)[pid := Flipped(old(s.profiles)[pid], deceasedAt)]
        && reply == Processed(pid, old(s.profiles)[pid].fullName, deceasedAt, |generated|, Summary(generated))
        && LoopState(s, mailer, env, pid, old(s.profiles)[pid].fullName, old(s.tokens), old(mailer.sent),
                     s.ContactsOf(pid) - faulty, generated)
  {
    var screening := Screen(s.profileOrder, s.profiles, body, now);
    if screening.Stop? {
      return screening.reply, [];
    }
    reply, generated := ProcessDeath(s, mailer, env, screening.pid, screening.deceasedAt, faulty);
  }
}
