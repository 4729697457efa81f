/**
 * The three access join tables as sets of (resourceId, contactId) pairs, and the set algebra
 * the grant, revoke and replace actions perform on them.
 */
module Ledger {
  import opened Types
  import opened Collections

  /** The rows `createMany` is handed: one (resource, contact) pair per listed contact id. */
  function Pairs(resourceId: Id, contactIds: seq<Id>): (r: set<(Id, Id)>)
    ensures forall p :: p in r <==> p.0 == resourceId && p.1 in contactIds
  {
    set c | c in contactIds :: (resourceId, c)
  }

  /** The contacts granted access to one resource. */
  function GrantsOf(grants: set<(Id, Id)>, resourceId: Id): (r: set<Id>)
    ensures forall c :: c in r <==> (resourceId, c) in grants
  {
    set p | p in grants && p.0 == resourceId :: p.1
  }

  /** The resources granted to one contact: the `include` of a contact's access rows. */
  function GrantedTo(grants: set<(Id, Id)>, contactId: Id): (r: set<Id>)
    ensures forall rid :: rid in r <==> (rid, contactId) in grants
  {
    set p | p in grants && p.1 == contactId :: p.0
  }

  /** `deleteMany({ where: { resourceId } })`. */
  function ClearResource(grants: set<(Id, Id)>, resourceId: Id): (r: set<(Id, Id)>)
    ensures r <= grants
    ensures forall p :: p in r <==> p in grants && p.0 != resourceId
  {
    set p | p in grants && p.0 != resourceId
  }

  /**
   * Granting with `skipDuplicates` is set union: the resource gains exactly the listed
   * contacts, and every other resource keeps its grants.
   */
  lemma GrantUnion(grants: set<(Id, Id)>, resourceId: Id, contactIds: seq<Id>)
    ensures GrantsOf(grants + Pairs(resourceId, contactIds), resourceId) == GrantsOf(grants, resourceId) + Elements(contactIds)
    ensures forall other :: other != resourceId ==>
              GrantsOf(grants + Pairs(resourceId, contactIds), other) == GrantsOf(grants, other)
  {
    var after := grants + Pairs(resourceId, contactIds);
    forall c ensures c in GrantsOf(after, resourceId) <==> c in GrantsOf(grants, resourceId) + Elements(contactIds) {
      if c in GrantsOf(after, resourceId) {
        var p :| p in after && p.0 == resourceId && p.1 == c;
      }
      if c in contactIds {
        assert (resourceId, c) in after;
      }
      if c in GrantsOf(grants, resourceId) {
        var p :| p in grants && p.0 == resourceId && p.1 == c;
        assert p in after;
      }
    }
    forall other | other != resourceId ensures GrantsOf(after, other) == GrantsOf(grants, other) {
      forall c ensures c in GrantsOf(after, other) <==> c in GrantsOf(grants, other) {
        if c in GrantsOf(after, other) {
          var p :| p in after && p.0 == other && p.1 == c;
        }
        if c in GrantsOf(grants, other) {
          var p :| p in grants && p.0 == other && p.1 == c;
          assert p in after;
        }
      }
    }
  }

  /** Repeating a grant leaves the join table as the first call left it. */
  lemma GrantIdempotent(grants: set<(Id, Id)>, resourceId: Id, contactIds: seq<Id>)
    ensures var once := grants + Pairs(resourceId, contactIds);
            once + Pairs(resourceId, contactIds) == once
  {
  }

  /**
   * Replacing (clear, then insert the list) leaves the resource granted to exactly the listed
   * contacts, and every other resource keeps its grants.
   */
  lemma ReplaceExact(grants: set<(Id, Id)>, resourceId: Id, contactIds: seq<Id>)
    ensures GrantsOf(ClearResource(grants, resourceId) + Pairs(resourceId, contactIds), resourceId) == Elements(contactIds)
    ensures forall other :: other != resourceId ==>
              GrantsOf(ClearResource(grants, resourceId) + Pairs(resourceId, contactIds), other) == GrantsOf(grants, other)
  {
    var cleared := ClearResource(grants, resourceId);
    ClearedHasNone(grants, resourceId);
    GrantUnion(cleared, resourceId, contactIds);
    forall other | other != resourceId ensures GrantsOf(cleared, other) == GrantsOf(grants, other) {
      forall c ensures c in GrantsOf(cleared, other) <==> c in GrantsOf(grants, other) {
        if c in GrantsOf(grants, other) {
          var p :| p in grants && p.0 == other && p.1 == c;
          assert p in cleared;
        }
      }
    }
  }

  /** After `deleteMany` the resource has no grants left. */
  lemma ClearedHasNone(grants: set<(Id, Id)>, resourceId: Id)
    ensures GrantsOf(ClearResource(grants, resourceId), resourceId) == {}
  {
  }

  /** The ids among `contactIds` that are contacts of `pid`: the rows `findMany` returns. */
  function OwnedAmong(contacts: map<Id, Contact>, pid: Id, contactIds: seq<Id>): set<Id>
  {
    set c | c in contactIds && c in contacts && contacts[c].userId == pid
  }

  /** `contacts.length !== input.contactIds.length` is the failure condition. */
  predicate ContactsCheck(contacts: map<Id, Contact>, pid: Id, contactIds: seq<Id>)
  {
    |OwnedAmong(contacts, pid, contactIds)| == |contactIds|
  }

  /**
   * The count comparison accepts exactly the lists whose every id is a contact of the caller
   * and that name no contact twice.
   */
  lemma ContactsCheckMeaning(contacts: map<Id, Contact>, pid: Id, contactIds: seq<Id>)
    ensures ContactsCheck(contacts, pid, contactIds) <==>
      (forall i :: 0 <= i < |contactIds| ==> contactIds[i] in contacts && contacts[contactIds[i]].userId == pid)
      && Distinct(contactIds)
  {
    var found := OwnedAmong(contacts, pid, contactIds);
    var listed := Elements(contactIds);
    ElementsCount(contactIds);
    assert found <= listed;
    var allOwned := forall i :: 0 <= i < |contactIds| ==> contactIds[i] in contacts && contacts[contactIds[i]].userId == pid;
    if allOwned {
      forall c | c in listed ensures c in found {
        var i :| 0 <= i < |contactIds| && contactIds[i] == c;
      }
      assert found == listed;
    } else {
      var i :| 0 <= i < |contactIds| && !(contactIds[i] in contacts && contacts[contactIds[i]].userId == pid);
      var missing := contactIds[i];
      assert missing in listed && missing !in found;
      assert found <= listed - {missing};
      SubsetCount(found, listed - {missing});
      assert |listed - {missing}| == |listed| - 1;
    }
  }
}
