/**
  The profile page of src/app/profile/page.js: the profile shown, merged
  from the signed-in account and the stored document; the gig creation
  form and the list of the user's own gigs; and the small display rules
  (avatar initial, payment badges).
 */
module ProfilePage {
  import opened Values
  import opened Store
  import Text
  import Session
  import GigDetailModal

  /** The fields the view merge always sets itself, whatever the stored document holds. */
  const Guarded: set<string> := {"displayName", "email", "photoURL", "points", "completedGigs", "bio"}

  /** The fields the account alone provides. */
  const DefaultFields: set<string> := {"uid", "id", "email", "displayName", "photoURL", "points", "completedGigs"}

  /** The profile built from the account alone (`authUser` has no `photoURL`, so that one reads as undefined). */
  function Defaults(userId: string, auth: Session.AuthUser): (d: Doc)
    ensures d.Keys == DefaultFields
  {
    map[
      "uid" := Str(userId),
      "id" := Str(userId),
      "email" := Or(auth.email, Str("")),
      "displayName" := Or(auth.name, Str("")),
      "photoURL" := Or(Null, Str("")),
      "points" := Num(0),
      "completedGigs" := Num(0)
    ]
  }

  /** The guarded fields as the merge writes them last, from the stored document `s`. */
  function Overrides(s: Doc, auth: Session.AuthUser): (o: Doc)
    ensures o.Keys == Guarded
  {
    map[
      "displayName" := Or(Or(Get(s, "displayName"), auth.name), Str("")),
      "email" := Or(Or(Get(s, "email"), auth.email), Str("")),
      "photoURL" := Or(Or(Get(s, "photoURL"), Null), Str("")),
      "points" := Or(Get(s, "points"), Num(0)),
      "completedGigs" := Or(Get(s, "completedGigs"), Num(0)),
      "bio" := Or(Get(s, "bio"), Str(""))
    ]
  }

  /**
    The profile held by the page: the account defaults, with the stored
    document (when there is one) spread over them and the guarded fields
    written last.
   */
  function ProfileView(userId: string, auth: Session.AuthUser, stored: Option<Doc>): (r: Doc)
    ensures stored.None? ==> r.Keys == DefaultFields
    ensures stored.Some? ==> r.Keys == DefaultFields + stored.value.Keys + Guarded
  {
    match stored
    case None => Defaults(userId, auth)
    case Some(s) => Defaults(userId, auth) + s + Overrides(s, auth)
  }

  /** A truthy stored value of a guarded field survives the last write. */
  lemma OverrideKeepsTruthy(s: Doc, auth: Session.AuthUser, k: string)
    requires k in Guarded && k in s && Truthy(s[k])
    ensures k in Overrides(s, auth) && Overrides(s, auth)[k] == s[k]
  {
    assert Get(s, k) == s[k];
  }

  /** A stored field outside the guarded ones is shown as stored. */
  lemma UnguardedFieldKept(userId: string, auth: Session.AuthUser, s: Doc, k: string)
    requires k in s && k !in Guarded
    ensures ProfileView(userId, auth, Some(s))[k] == s[k]
  {
    assert k !in Overrides(s, auth);
    assert ProfileView(userId, auth, Some(s)) == Defaults(userId, auth) + s + Overrides(s, auth);
  }

  /**
    A stored field is shown as stored, unless it is one of the guarded
    fields and falsy; `uid` and `id` come from the account only when the
    document lacks them.
   */
  lemma StoredFieldsWin(userId: string, auth: Session.AuthUser, s: Doc)
    ensures var r := ProfileView(userId, auth, Some(s));
      && (forall k :: k in s && (k !in Guarded || Truthy(s[k])) ==> r[k] == s[k])
      && r["uid"] == (if "uid" in s then s["uid"] else Str(userId))
      && r["id"] == (if "id" in s then s["id"] else Str(userId))
  {
    var r := ProfileView(userId, auth, Some(s));
    forall k | k in s && (k !in Guarded || Truthy(s[k])) ensures r[k] == s[k] {
      if k in Guarded {
        OverrideKeepsTruthy(s, auth, k);
      } else {
        UnguardedFieldKept(userId, auth, s, k);
      }
    }
    assert "uid" !in Guarded && "id" !in Guarded;
    if "uid" in s { UnguardedFieldKept(userId, auth, s, "uid"); }
    if "id" in s { UnguardedFieldKept(userId, auth, s, "id"); }
  }

  /** Without a stored document the guarded fields come from the account, and there is no `bio`. */
  lemma AccountOnlyFallbacks(userId: string, auth: Session.AuthUser)
    ensures var r := ProfileView(userId, auth, None);
      && r["displayName"] == FirstTruthy([Null, auth.name], Str(""))
      && r["email"] == FirstTruthy([Null, auth.email], Str(""))
      && r["photoURL"] == FirstTruthy([Null], Str(""))
      && r["points"] == FirstTruthy([Null], Num(0))
      && r["completedGigs"] == FirstTruthy([Null], Num(0))
      && "bio" !in r
  {
    OrChain(Null, auth.name, Str(""));
    OrChain(Null, auth.email, Str(""));
    OrFirst(Null, Str(""));
    OrFirst(Null, Num(0));
  }

  /** With a stored document each guarded field is the first truthy of the stored and the account value. */
  lemma StoredFallbacks(userId: string, auth: Session.AuthUser, s: Doc)
    ensures var r := ProfileView(userId, auth, Some(s));
      && r["displayName"] == FirstTruthy([Get(s, "displayName"), auth.name], Str(""))
      && r["email"] == FirstTruthy([Get(s, "email"), auth.email], Str(""))
      && r["photoURL"] == FirstTruthy([Get(s, "photoURL")], Str(""))
      && r["points"] == FirstTruthy([Get(s, "points")], Num(0))
      && r["completedGigs"] == FirstTruthy([Get(s, "completedGigs")], Num(0))
      && r["bio"] == FirstTruthy([Get(s, "bio")], Str(""))
  {
    var o := Overrides(s, auth);
    assert ProfileView(userId, auth, Some(s)) == Defaults(userId, auth) + s + o;
    OrChain(Get(s, "displayName"), auth.name, Str(""));
    OrChain(Get(s, "email"), auth.email, Str(""));
    OrChain(Get(s, "photoURL"), Null, Str(""));
    OrFirst(Get(s, "photoURL"), Str(""));
    OrFirst(Get(s, "points"), Num(0));
    OrFirst(Get(s, "completedGigs"), Num(0));
    OrFirst(Get(s, "bio"), Str(""));
  }

  /**
    Each guarded field is the first truthy of the stored value and the
    account value, else 0 or "". Without a document there is no `bio`.
   */
  lemma GuardedFallbacks(userId: string, auth: Session.AuthUser, stored: Option<Doc>)
    ensures var r := ProfileView(userId, auth, stored);
      var s := if stored.Some? then stored.value else map[];
      && r["displayName"] == FirstTruthy([Get(s, "displayName"), auth.name], Str(""))
      && r["email"] == FirstTruthy([Get(s, "email"), auth.email], Str(""))
      && r["photoURL"] == FirstTruthy([Get(s, "photoURL")], Str(""))
      && r["points"] == FirstTruthy([Get(s, "points")], Num(0))
      && r["completedGigs"] == FirstTruthy([Get(s, "completedGigs")], Num(0))
      && ("bio" in r <==> stored.Some?)
      && (stored.Some? ==> r["bio"] == FirstTruthy([Get(s, "bio")], Str("")))
  {
    if stored.Some? {
      StoredFallbacks(userId, auth, stored.value);
    } else {
      AccountOnlyFallbacks(userId, auth);
    }
  }

  /** `getInitial`: the upper-cased first character of a non-empty string, otherwise "U". */
  function GetInitial(v: Value): (r: string)
    ensures |r| == 1 && !('a' <= r[0] <= 'z')
    ensures v.Str? && v.s != "" ==> Text.LowerChar(r[0]) == Text.LowerChar(v.s[0])
    ensures !(v.Str? && v.s != "") ==> r == "U"
  {
    if v.Str? && |v.s| > 0 then [Text.UpperChar(v.s[0])] else "U"
  }

  /** The avatar text as written: `getInitial(displayName) || getInitial(email) || "U"`. */
  function AvatarAsWritten(user: Doc): (r: Value)
    ensures r.Str? && |r.s| == 1 && Truthy(r)
    // a letter other than "U" can only come from the display name
    ensures r != Str("U") ==> Get(user, "displayName").Str? && Get(user, "displayName").s != ""
  {
    Or(Or(Str(GetInitial(Get(user, "displayName"))), Str(GetInitial(Get(user, "email")))), Str("U"))
  }

  /** The first operand is never falsy, so the e-mail is never consulted. */
  lemma EmailInitialUnreachable(user: Doc)
    ensures AvatarAsWritten(user) == Str(GetInitial(Get(user, "displayName")))
  {
  }

  /** A user without a display name but with an e-mail gets "U", not the e-mail's initial. */
  lemma AvatarIgnoresEmail()
    ensures AvatarAsWritten(map["displayName" := Str(""), "email" := Str("bob@example.com")]) == Str("U")
    ensures AvatarInitial(map["displayName" := Str(""), "email" := Str("bob@example.com")]) == "B"
  {
    var user := map["displayName" := Str(""), "email" := Str("bob@example.com")];
    EmailInitialUnreachable(user);
  }

  /** The avatar text as intended: the display name's initial, else the e-mail's, else "U". */
  function AvatarInitial(user: Doc): (r: string)
    ensures |r| == 1
    ensures Get(user, "displayName").Str? && Get(user, "displayName").s != "" ==>
              r == GetInitial(Get(user, "displayName"))
    ensures !(Get(user, "displayName").Str? && Get(user, "displayName").s != "")
            && Get(user, "email").Str? && Get(user, "email").s != "" ==>
              Text.LowerChar(r[0]) == Text.LowerChar(Get(user, "email").s[0])
    ensures r == "U" <==> (Get(user, "displayName").Str? && Get(user, "displayName").s != "" && GetInitial(Get(user, "displayName")) == "U")
                          || (!(Get(user, "displayName").Str? && Get(user, "displayName").s != "")
                              && (!(Get(user, "email").Str? && Get(user, "email").s != "") || GetInitial(Get(user, "email")) == "U"))
  {
    var name, email := Get(user, "displayName"), Get(user, "email");
    if name.Str? && name.s != "" then GetInitial(name)
    else GetInitial(email)
  }

  /** The payment badges a listing shows: a price badge, a points badge, or both. */
  datatype Badges = Badges(cash: bool, points: bool)

  /** The price badge for cash listings, the points badge for points listings, both for "both". */
  function ShownBadges(paymentMethod: string): (b: Badges)
    ensures b.cash && b.points <==> paymentMethod == "both"
    ensures b.cash && !b.points <==> paymentMethod == "cash"
    ensures b.points && !b.cash <==> paymentMethod == "points"
    ensures !b.cash && !b.points <==> paymentMethod != "cash" && paymentMethod != "points" && paymentMethod != "both"
  {
    Badges(paymentMethod == "cash" || paymentMethod == "both", paymentMethod == "points" || paymentMethod == "both")
  }

  /**
    The badges and the purchase modal agree: a listing with one badge opens
    the modal with that method chosen, a listing with both opens it with
    nothing chosen and Confirm disabled, and a listing with an unknown
    method shows no badge.
   */
  lemma BadgesAgreeWithInitialSelection(pm: string)
    ensures var b := ShownBadges(pm);
      var sel := GigDetailModal.InitialSelection(pm);
      && (sel == Some(GigDetailModal.Cash) <==> b.cash && !b.points)
      && (sel == Some(GigDetailModal.Points) <==> b.points && !b.cash)
      && (b.cash && b.points <==> GigDetailModal.ConfirmDisabled(false, sel, pm))
      && (!b.cash && !b.points <==> pm !in {"cash", "points", "both"})
  {
    GigDetailModal.InitialConfirmState(pm);
  }

  /** The author name stored on a new gig: `user?.displayName || authUser?.name || authUser?.email || "Unknown user"`. */
  function Username(user: Option<Doc>, auth: Session.AuthUser): (r: Value)
    ensures Truthy(r)
  {
    var name := if user.Some? then Get(user.value, "displayName") else Null;
    Or(Or(Or(name, auth.name), auth.email), Str("Unknown user"))
  }

  /**
    The author name is the profile's display name, else the account name,
    else the account e-mail, whichever comes first truthy, else "Unknown user".
   */
  lemma UsernamePrefersProfileName(user: Option<Doc>, auth: Session.AuthUser)
    ensures Username(user, auth)
            == FirstTruthy([if user.Some? then Get(user.value, "displayName") else Null, auth.name, auth.email],
                           Str("Unknown user"))
  {
    OrChain4(if user.Some? then Get(user.value, "displayName") else Null, auth.name, auth.email, Str("Unknown user"));
  }

  /** Why the form is turned away. */
  datatype Reason = FillFields | LoginRequired | InvalidPrice

  /** The warning shown for each reason. */
  function ReasonText(reason: Reason): string {
    match reason
    case FillFields => "Please fill all the fields"
    case LoginRequired => "You must be logged in to create a gig"
    case InvalidPrice => "Please enter a valid price"
  }

  const AddFailed := "Failed to add gig. Please try again."
  const GigAdded := "Gig added successfully!"
  const UserIdMissing := "User ID not found"
  const LoadFailed := "Failed to load profile data"

  /** The outcome of the checks in `handleAddGig`: the warning shown, or the gig to store. */
  datatype GigCheck = Rejected(reason: Reason) | Accepted(gig: Doc)

  /**
    The checks of `handleAddGig` in their order, then the gig record. The
    price is the parsed form of `priceText`, `None` when it is not a number.
   */
  function CheckGig(title: string, description: string, priceText: string, auth: Option<Session.AuthUser>,
                    price: Option<int>, paymentMethod: string, user: Option<Doc>, now: nat): (r: GigCheck)
    ensures r == Rejected(FillFields) <==> title == "" || description == "" || priceText == ""
    ensures r == Rejected(LoginRequired) <==>
              title != "" && description != "" && priceText != "" && (auth.None? || auth.value.id == "")
    ensures r == Rejected(InvalidPrice) <==>
              title != "" && description != "" && priceText != "" && auth.Some? && auth.value.id != ""
              && (price.None? || price.value <= 0)
    ensures r.Accepted? ==>
              && auth.Some? && price.Some? && price.value > 0
              && r.gig.Keys == {"title", "description", "price", "points", "paymentMethod", "userId", "username", "createdAt"}
              && r.gig["price"] == Num(price.value) && r.gig["points"] == r.gig["price"]
              && r.gig["userId"] == Str(auth.value.id) && r.gig["paymentMethod"] == Str(paymentMethod)
              && r.gig["title"] == Str(title) && r.gig["description"] == Str(description)
              && r.gig["username"] == Username(user, auth.value) && r.gig["createdAt"] == Time(now)
  {
    if title == "" || description == "" || priceText == "" then Rejected(FillFields)
    else if auth.None? || auth.value.id == "" then Rejected(LoginRequired)
    else if price.None? || price.value <= 0 then Rejected(InvalidPrice)
    else
      Accepted(map[
        "title" := Str(title),
        "description" := Str(description),
        "price" := Num(price.value),
        "points" := Num(price.value),
        "paymentMethod" := Str(paymentMethod),
        "userId" := Str(auth.value.id),
        "username" := Username(user, auth.value),
        "createdAt" := Time(now)
      ])
  }

  /** The list built from a query snapshot, in the snapshot's order. */
  function Listed(snapshot: seq<(string, Doc)>): (r: seq<Doc>)
    ensures |r| == |snapshot|
  {
    seq(|snapshot|, i requires 0 <= i < |snapshot| => WithKey("id", snapshot[i].0, snapshot[i].1))
  }

  /**
    What the store promises of the answer to "gigs whose userId is
    `userId`": each entry is a stored gig of that user, under its own id,
    and no id appears twice.
   */
  predicate IsQueryAnswer(gigs: map<string, Doc>, userId: string, snapshot: seq<(string, Doc)>) {
    && (forall i :: 0 <= i < |snapshot| ==>
          snapshot[i].0 in gigs && gigs[snapshot[i].0] == snapshot[i].1 && Get(snapshot[i].1, "userId") == Str(userId))
    && (forall i, j :: 0 <= i < j < |snapshot| ==> snapshot[i].0 != snapshot[j].0)
  }

  /** Every listed gig belongs to the user, and is a stored gig with the `id` field added. */
  lemma ListedGigsBelongToUser(gigs: map<string, Doc>, userId: string, snapshot: seq<(string, Doc)>)
    requires IsQueryAnswer(gigs, userId, snapshot)
    ensures forall i :: 0 <= i < |snapshot| ==>
              && Get(Listed(snapshot)[i], "userId") == Str(userId)
              && Listed(snapshot)[i] == WithKey("id", snapshot[i].0, gigs[snapshot[i].0])
  {
  }

  /** `gigSnap.forEach(doc => gigs.push({id: doc.id, ...doc.data()}))`. */
  method CollectGigs(snapshot: seq<(string, Doc)>) returns (gigs: seq<Doc>)
    ensures gigs == Listed(snapshot)
  {
    gigs := [];
    var i := 0;
    while i < |snapshot|
      invariant 0 <= i <= |snapshot|
      invariant gigs == Listed(snapshot[..i])
    {
      assert snapshot[..i + 1][..i] == snapshot[..i];
      gigs := gigs + [WithKey("id", snapshot[i].0, snapshot[i].1)];
      i := i + 1;
    }
    assert snapshot[..i] == snapshot;
  }

  class ProfilePage {
    var user: Option<Doc>
    var userGigs: seq<Doc>
    var profileLoading: bool
    var showGigForm: bool
    var gigTitle: string
    var gigDescription: string
    var gigPrice: string
    var paymentMethod: string
    /** The toasts shown so far. */
    var notices: seq<GigDetailModal.Notice>

    constructor ()
      ensures user == None && userGigs == [] && profileLoading && !showGigForm
      ensures gigTitle == "" && gigDescription == "" && gigPrice == "" && paymentMethod == "both"
      ensures notices == []
    {
      user, userGigs, profileLoading, showGigForm := None, [], true, false;
      gigTitle, gigDescription, gigPrice, paymentMethod := "", "", "", "both";
      notices := [];
    }

    /** The form inputs: each keystroke or choice stores the field's new value. */
    method EditForm(title: string, description: string, price: string, method_: string)
      modifies this
      ensures gigTitle == title && gigDescription == description && gigPrice == price && paymentMethod == method_
      ensures showGigForm && user == old(user) && userGigs == old(userGigs) && notices == old(notices)
      ensures profileLoading == old(profileLoading)
    {
      gigTitle, gigDescription, gigPrice, paymentMethod := title, description, price, method_;
      showGigForm := true;
    }

    /**
      `fetchUserGigs`: with an id and an answer from the store, the list is
      replaced by the snapshot's gigs; a missing id or a failed query
      leaves it as it was, without a message.
     */
    method FetchUserGigs(userId: string, snapshot: Option<seq<(string, Doc)>>)
      modifies this
      ensures userGigs == if userId != "" && snapshot.Some? then Listed(snapshot.value) else old(userGigs)
      ensures user == old(user) && notices == old(notices) && profileLoading == old(profileLoading)
      ensures showGigForm == old(showGigForm) && gigTitle == old(gigTitle) && gigDescription == old(gigDescription)
      ensures gigPrice == old(gigPrice) && paymentMethod == old(paymentMethod)
    {
      if userId == "" || snapshot.None? {
        return;
      }
      userGigs := CollectGigs(snapshot.value);
    }

    /**
      `fetchUserData` for a signed-in account: without an id it warns; a
      failed profile read warns and keeps the old profile; otherwise the
      merged profile is shown and the gigs are fetched. Loading ends in
      every case.
     */
    method FetchUserData(db: Firestore, auth: Session.AuthUser, readFails: bool, snapshot: Option<seq<(string, Doc)>>)
      modifies this
      ensures !profileLoading
      ensures auth.id == "" ==>
                user == old(user) && userGigs == old(userGigs)
                && notices == old(notices) + [GigDetailModal.Notice(GigDetailModal.Warning, UserIdMissing)]
      ensures auth.id != "" && readFails ==>
                user == old(user) && userGigs == old(userGigs)
                && notices == old(notices) + [GigDetailModal.Notice(GigDetailModal.Warning, LoadFailed)]
      ensures auth.id != "" && !readFails ==>
                && user == Some(ProfileView(auth.id, auth, Lookup(db.users, auth.id)))
                && userGigs == (if snapshot.Some? then Listed(snapshot.value) else old(userGigs))
                && notices == old(notices)
      ensures showGigForm == old(showGigForm) && gigTitle == old(gigTitle) && gigDescription == old(gigDescription)
      ensures gigPrice == old(gigPrice) && paymentMethod == old(paymentMethod)
    {
      if auth.id == "" {
        notices := notices + [GigDetailModal.Notice(GigDetailModal.Warning, UserIdMissing)];
        profileLoading := false;
        return;
      }
      if readFails {
        notices := notices + [GigDetailModal.Notice(GigDetailModal.Warning, LoadFailed)];
        profileLoading := false;
        return;
      }
      var snap := db.GetUser(auth.id);
      user := Some(ProfileView(auth.id, auth, snap));
      FetchUserGigs(auth.id, snapshot);
      profileLoading := false;
    }

    /**
      `handleAddGig`. `price` is what `parseFloat` makes of the price text,
      `newId` the id the store gives a new document.
     */
    method AddGig(db: Firestore, auth: Option<Session.AuthUser>, price: Option<int>, newId: string, now: nat,
                  addFails: bool)
      requires newId !in db.gigs
      modifies this, db
      ensures db.users == old(db.users) && user == old(user) && profileLoading == old(profileLoading)
      ensures CheckGig(old(gigTitle), old(gigDescription), old(gigPrice), auth, price, old(paymentMethod), old(user), now).Rejected?
              ==> && db.gigs == old(db.gigs) && userGigs == old(userGigs)
                  && gigTitle == old(gigTitle) && gigDescription == old(gigDescription) && gigPrice == old(gigPrice)
                  && paymentMethod == old(paymentMethod) && showGigForm == old(showGigForm)
                  && notices == old(notices) + [GigDetailModal.Notice(GigDetailModal.Warning, ReasonText(
                       CheckGig(old(gigTitle), old(gigDescription), old(gigPrice), auth, price, old(paymentMethod),
                                old(user), now).reason))]
      ensures CheckGig(old(gigTitle), old(gigDescription), old(gigPrice), auth, price, old(paymentMethod), old(user), now).Accepted?
              && addFails
              ==> && db.gigs == old(db.gigs) && userGigs == old(userGigs)
                  && gigTitle == old(gigTitle) && gigDescription == old(gigDescription) && gigPrice == old(gigPrice)
                  && paymentMethod == old(paymentMethod) && showGigForm == old(showGigForm)
                  && notices == old(notices) + [GigDetailModal.Notice(GigDetailModal.Warning, AddFailed)]
      ensures CheckGig(old(gigTitle), old(gigDescription), old(gigPrice), auth, price, old(paymentMethod), old(user), now).Accepted?
              && !addFails
              ==> var gig := CheckGig(old(gigTitle), old(gigDescription), old(gigPrice), auth, price, old(paymentMethod),
                                      old(user), now).gig;
                  && db.gigs == old(db.gigs)[newId := gig]
                  && userGigs == [WithKey("id", newId, gig)] + old(userGigs)
                  && gigTitle == "" && gigDescription == "" && gigPrice == "" && paymentMethod == "both" && !showGigForm
                  && notices == old(notices) + [GigDetailModal.Notice(GigDetailModal.Success, GigAdded)]
    {
      var c := CheckGig(gigTitle, gigDescription, gigPrice, auth, price, paymentMethod, user, now);
      if c.Rejected? {
        notices := notices + [GigDetailModal.Notice(GigDetailModal.Warning, ReasonText(c.reason))];
      } else {
        Publish(db, c.gig, newId, addFails);
      }
    }

    /**
      The second half of `handleAddGig`, once the form passed its checks:
      store the gig; on success list it first, reset the form and confirm;
      on failure warn and keep everything.
     */
    method Publish(db: Firestore, gig: Doc, newId: string, addFails: bool)
      requires newId !in db.gigs
      modifies this, db
      ensures db.users == old(db.users) && user == old(user) && profileLoading == old(profileLoading)
      ensures addFails ==>
                && db.gigs == old(db.gigs) && userGigs == old(userGigs)
                && gigTitle == old(gigTitle) && gigDescription == old(gigDescription) && gigPrice == old(gigPrice)
                && paymentMethod == old(paymentMethod) && showGigForm == old(showGigForm)
                && notices == old(notices) + [GigDetailModal.Notice(GigDetailModal.Warning, AddFailed)]
      ensures !addFails ==>
                && db.gigs == old(db.gigs)[newId := gig]
                && userGigs == [WithKey("id", newId, gig)] + old(userGigs)
                && gigTitle == "" && gigDescription == "" && gigPrice == "" && paymentMethod == "both" && !showGigForm
                && notices == old(notices) + [GigDetailModal.Notice(GigDetailModal.Success, GigAdded)]
    {
      var ok := db.AddGig(newId, gig, addFails);
      if !ok {
        notices := notices + [GigDetailModal.Notice(GigDetailModal.Warning, AddFailed)];
        return;
      }
      userGigs := [WithKey("id", newId, gig)] + userGigs;
      gigTitle, gigDescription, gigPrice, paymentMethod := "", "", "", "both";
      showGigForm := false;
      notices := notices + [GigDetailModal.Notice(GigDetailModal.Success, GigAdded)];
    }
  }

  /**
    A new gig is listed first under its new id, with points equal to its
    price and the author's id, and the gigs listed before follow in order.
   */
  lemma NewGigListedFirst(newId: string, gig: Doc, before: seq<Doc>, title: string, description: string,
                          priceText: string, auth: Option<Session.AuthUser>, price: Option<int>, pm: string,
                          user: Option<Doc>, now: nat)
    requires CheckGig(title, description, priceText, auth, price, pm, user, now) == Accepted(gig)
    ensures var listed := [WithKey("id", newId, gig)] + before;
      && listed[0]["id"] == Str(newId) && listed[0]["points"] == listed[0]["price"] == Num(price.value)
      && listed[0]["userId"] == Str(auth.value.id)
      && listed[1..] == before
  {
    assert "id" !in gig;
    assert ([WithKey("id", newId, gig)] + before)[1..] == before;
  }
}
