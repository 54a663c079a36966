/**
  The document store as the front end sees it: the `users` and `gigs`
  collections, each a map from document id to document. Reads are lookups.
  Every write takes a `fail` flag that stands for a rejection by the
  store (access rules, network); a rejected write changes nothing.
 */
module Store {
  import opened Values

  function Lookup(coll: map<string, Doc>, id: string): (snap: Option<Doc>)
    ensures snap.Some? <==> id in coll
    ensures snap.Some? ==> snap.value == coll[id]
  {
    if id in coll then Some(coll[id]) else None
  }

  class Firestore {
    var users: map<string, Doc>
    var gigs: map<string, Doc>

    constructor (users0: map<string, Doc>, gigs0: map<string, Doc>)
      ensures users == users0 && gigs == gigs0
    {
      users, gigs := users0, gigs0;
    }

    /** `getDoc(doc(db, "users", id))`: the snapshot, absent when there is no such document. */
    method GetUser(id: string) returns (snap: Option<Doc>)
      ensures snap.Some? <==> id in users
      ensures snap.Some? ==> snap.value == users[id]
    {
      snap := Lookup(users, id);
    }

    /** `setDoc(doc(db, "users", id), d)`: replaces the whole document. */
    method SetUser(id: string, d: Doc, fail: bool) returns (ok: bool)
      modifies this
      ensures ok == !fail
      ensures users == if ok then old(users)[id := d] else old(users)
      ensures gigs == old(gigs)
    {
      ok := !fail;
      if ok {
        users := users[id := d];
      }
    }

    /**
      `updateDoc(doc(db, "users", id), patch)`: fails when the document does not
      exist; otherwise only the patched fields change.
     */
    method UpdateUser(id: string, patch: map<string, Change>, fail: bool) returns (ok: bool)
      modifies this
      ensures ok == (!fail && id in old(users))
      ensures users == if ok then old(users)[id := Apply(old(users)[id], patch)] else old(users)
      ensures gigs == old(gigs)
    {
      ok := !fail && id in users;
      if ok {
        users := users[id := Apply(users[id], patch)];
      }
    }

    /**
      `addDoc(collection(db, "gigs"), d)`: stores a new document under `newId`,
      the unused id the store picks.
     */
    method AddGig(newId: string, d: Doc, fail: bool) returns (ok: bool)
      requires newId !in gigs
      modifies this
      ensures ok == !fail
      ensures gigs == if ok then old(gigs)[newId := d] else old(gigs)
      ensures users == old(users)
    {
      ok := !fail;
      if ok {
        gigs := gigs[newId := d];
      }
    }

    /** `updateDoc(doc(db, "gigs", id), patch)`, with the same failure rules. */
    method UpdateGig(id: string, patch: map<string, Change>, fail: bool) returns (ok: bool)
      modifies this
      ensures ok == (!fail && id in old(gigs))
      ensures gigs == if ok then old(gigs)[id := Apply(old(gigs)[id], patch)] else old(gigs)
      ensures users == old(users)
    {
      ok := !fail && id in gigs;
      if ok {
        gigs := gigs[id := Apply(gigs[id], patch)];
      }
    }
  }
}
