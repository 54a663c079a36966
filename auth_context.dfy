/**
  The auth context of src/context/AuthContext.js: the signed-in account,
  the locally held profile and the loading flag, and the profile writes
  made by sign-up and by profile edits.
 */
module AuthContext {
  import opened Values
  import opened Store
  import Session

  /** `{...prev, ...data}` with `prev` possibly null: `data` wins on every key it has. */
  function MergeProfile(prev: Option<Doc>, data: Doc): (r: Doc)
    ensures r.Keys == data.Keys + (if prev.Some? then prev.value.Keys else {})
    ensures forall k :: k in data ==> r[k] == data[k]
    ensures prev.Some? ==> forall k :: k in prev.value && k !in data ==> r[k] == prev.value[k]
    ensures prev.None? ==> r == data
  {
    match prev
    case Some(p) => p + data
    case None => data
  }

  /** Merging the same data twice is merging it once. */
  lemma MergeIdempotent(prev: Option<Doc>, data: Doc)
    ensures MergeProfile(Some(MergeProfile(prev, data)), data) == MergeProfile(prev, data)
  {
  }

  /** The document `signUp` writes for a new account. */
  function SignUpProfile(user: Session.ProviderUser, displayName: Value, now: nat): (d: Doc)
    ensures d.Keys == {"uid", "email", "displayName", "createdAt", "points", "purchases", "sales"}
    ensures d["points"] == Num(0) && d["purchases"] == Arr([]) && d["sales"] == Arr([])
    ensures d["uid"] == Str(user.uid) && d["email"] == user.email && d["displayName"] == displayName
  {
    map[
      "uid" := Str(user.uid),
      "email" := user.email,
      "displayName" := displayName,
      "createdAt" := Time(now),
      "points" := Num(0),
      "purchases" := Arr([]),
      "sales" := Arr([])
    ]
  }

  class AuthProvider {
    var user: Option<Session.ProviderUser>
    var userProfile: Option<Doc>
    var loading: bool

    constructor ()
      ensures user == None && userProfile == None && loading
    {
      user, userProfile, loading := None, None, true;
    }

    /**
      The `onAuthStateChanged` handler. A missing document, or a read that
      fails (`readFails`), leaves the previous profile in place.
     */
    method OnAuthStateChanged(db: Firestore, u: Option<Session.ProviderUser>, readFails: bool)
      modifies this
      ensures user == u && !loading
      ensures u.None? ==> userProfile == None
      ensures u.Some? && !readFails && u.value.uid in db.users ==> userProfile == Some(db.users[u.value.uid])
      ensures u.Some? && (readFails || u.value.uid !in db.users) ==> userProfile == old(userProfile)
    {
      user := u;
      if u.Some? {
        if !readFails {
          var snap := db.GetUser(u.value.uid);
          if snap.Some? {
            userProfile := snap;
          }
        }
      } else {
        userProfile := None;
      }
      loading := false;
    }

    /**
      `signUp`: the provider creates the account (`account`, or `None` when it
      refuses), then the profile document is written over whatever was there.
      The local state is left to the next auth-state change.
     */
    method SignUp(db: Firestore, account: Option<Session.ProviderUser>, displayName: Value, now: nat, writeFails: bool)
      returns (ok: bool)
      modifies db
      ensures ok == (account.Some? && !writeFails)
      ensures db.users == if ok then old(db.users)[account.value.uid := SignUpProfile(account.value, displayName, now)]
                          else old(db.users)
      ensures db.gigs == old(db.gigs)
    {
      if account.None? {
        return false;
      }
      var a := account.value;
      ok := db.SetUser(a.uid, SignUpProfile(a, displayName, now), writeFails);
    }

    /** `signOut`: the local state is cleared first, whatever the provider answers. */
    method SignOut(providerFails: bool) returns (ok: bool)
      modifies this
      ensures user == None && userProfile == None && loading == old(loading)
      ensures ok == !providerFails
    {
      user := None;
      userProfile := None;
      ok := !providerFails;
    }

    /**
      `updateUserProfile(data)`: without a user nothing happens (`None`);
      otherwise the store document is updated and, only if that succeeds, the
      local profile becomes the previous one with `data` spread over it.
     */
    method UpdateUserProfile(db: Firestore, data: Doc, writeFails: bool) returns (r: Option<bool>)
      modifies this, db
      ensures user == old(user) && loading == old(loading) && db.gigs == old(db.gigs)
      ensures user.None? ==> r == None && userProfile == old(userProfile) && db.users == old(db.users)
      ensures user.Some? ==> r == Some(!writeFails && user.value.uid in old(db.users))
      ensures r == Some(true) ==>
                userProfile == Some(MergeProfile(old(userProfile), data))
                && db.users == old(db.users)[user.value.uid := old(db.users)[user.value.uid] + data]
      ensures r == Some(false) ==> userProfile == old(userProfile) && db.users == old(db.users)
    {
      if user.None? {
        return None;
      }
      var id := user.value.uid;
      if id in db.users {
        ApplyPutsIsSpread(db.users[id], data);
      }
      var ok := db.UpdateUser(id, Puts(data), writeFails);
      if !ok {
        return Some(false);
      }
      userProfile := Some(MergeProfile(userProfile, data));
      r := Some(true);
    }
  }
}
