/**
  The profile store operations of src/services/userService.js over the
  `users` collection: create-if-absent with seeded defaults, lookup, and
  update as a field merge. A call that the store rejects ends `Rejected`
  (the returned promise rejects) and writes nothing.
 */
module UserService {
  import opened Values
  import opened Store
  import Session

  datatype Reply = Rejected | Resolved(profile: Option<Doc>)

  /** The document written for a first sign-in. */
  function SeedProfile(user: Session.ProviderUser, now: nat): (d: Doc)
    ensures d.Keys == {"displayName", "email", "photoURL", "points", "completedGigs", "createdAt"}
    ensures d["points"] == Num(0) && d["completedGigs"] == Num(0)
    ensures d["displayName"] == (if Truthy(user.displayName) then user.displayName else Str(""))
    ensures d["photoURL"] == (if Truthy(user.photoURL) then user.photoURL else Str(""))
    ensures d["email"] == user.email && d["createdAt"] == Time(now)
  {
    map[
      "displayName" := Or(user.displayName, Str("")),
      "email" := user.email,
      "photoURL" := Or(user.photoURL, Str("")),
      "points" := Num(0),
      "completedGigs" := Num(0),
      "createdAt" := Time(now)
    ]
  }

  /** `getUserProfile(userId)`: null for an empty id or a missing document. */
  function GetUserProfile(users: map<string, Doc>, userId: string): (r: Option<Doc>)
    ensures r.None? <==> userId == "" || userId !in users
    ensures r.Some? ==> r.value == WithKey("uid", userId, users[userId])
  {
    if userId == "" then None
    else match Lookup(users, userId)
      case Some(data) => Some(WithKey("uid", userId, data))
      case None => None
  }

  /**
    `createUserProfile(user)`: nothing for no user; the seed document for an
    absent one; the stored document, untouched, for an existing one.
   */
  method CreateUserProfile(db: Firestore, user: Option<Session.ProviderUser>, now: nat, writeFails: bool)
    returns (r: Reply)
    modifies db
    ensures db.gigs == old(db.gigs)
    ensures user.None? ==> r == Resolved(None) && db.users == old(db.users)
    ensures user.Some? && user.value.uid in old(db.users) ==>
              db.users == old(db.users) && r == Resolved(Some(WithKey("uid", user.value.uid, old(db.users)[user.value.uid])))
    ensures user.Some? && user.value.uid !in old(db.users) && writeFails ==>
              db.users == old(db.users) && r == Rejected
    ensures user.Some? && user.value.uid !in old(db.users) && !writeFails ==>
              db.users == old(db.users)[user.value.uid := SeedProfile(user.value, now)]
              && r == Resolved(Some(WithKey("uid", user.value.uid, SeedProfile(user.value, now))))
  {
    if user.None? {
      return Resolved(None);
    }
    var u := user.value;
    var snap := db.GetUser(u.uid);
    if snap.None? {
      var seed := SeedProfile(u, now);
      var ok := db.SetUser(u.uid, seed, writeFails);
      if !ok {
        return Rejected;
      }
      return Resolved(Some(WithKey("uid", u.uid, seed)));
    }
    r := Resolved(Some(WithKey("uid", u.uid, snap.value)));
  }

  /** Creating a profile twice writes once: the second call finds the document and returns it. */
  method CreateTwice(db: Firestore, user: Session.ProviderUser, now1: nat, now2: nat)
    returns (first: Reply, second: Reply)
    modifies db
    ensures first == second
    ensures user.uid in db.users
    ensures user.uid in old(db.users) ==> db.users == old(db.users)
    ensures user.uid !in old(db.users) ==> db.users == old(db.users)[user.uid := SeedProfile(user, now1)]
  {
    first := CreateUserProfile(db, Some(user), now1, false);
    second := CreateUserProfile(db, Some(user), now2, false);
  }

  /**
    `updateUserProfile(userId, data)`: writes `data` plus `updatedAt` over the
    stored document and returns the profile read back. The store refuses to
    update a document that does not exist.
   */
  method UpdateUserProfile(db: Firestore, userId: string, data: Doc, now: nat, writeFails: bool)
    returns (r: Reply)
    modifies db
    ensures db.gigs == old(db.gigs)
    ensures userId == "" ==> r == Resolved(None) && db.users == old(db.users)
    ensures userId != "" && (writeFails || userId !in old(db.users)) ==>
              r == Rejected && db.users == old(db.users)
    ensures userId != "" && !writeFails && userId in old(db.users) ==>
              db.users == old(db.users)[userId := old(db.users)[userId] + data + map["updatedAt" := Time(now)]]
              && r == Resolved(GetUserProfile(db.users, userId))
  {
    if userId == "" {
      return Resolved(None);
    }
    var fields := data + map["updatedAt" := Time(now)];
    if userId in db.users {
      ApplyPutsIsSpread(db.users[userId], fields);
      assert db.users[userId] + fields == db.users[userId] + data + map["updatedAt" := Time(now)];
    }
    var ok := db.UpdateUser(userId, Puts(fields), writeFails);
    if !ok {
      return Rejected;
    }
    r := Resolved(GetUserProfile(db.users, userId));
  }

  /**
    What a successful update leaves in the store: every written field holds
    its new value, `updatedAt` the time of the call, and every other field
    its old value.
   */
  lemma UpdateIsFieldMerge(stored: Doc, data: Doc, now: nat)
    ensures var d := stored + data + map["updatedAt" := Time(now)];
      && d.Keys == stored.Keys + data.Keys + {"updatedAt"}
      && d["updatedAt"] == Time(now)
      && (forall k :: k in data && k != "updatedAt" ==> d[k] == data[k])
      && (forall k :: k in stored && k !in data && k != "updatedAt" ==> d[k] == stored[k])
  {
  }
}
