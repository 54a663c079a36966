/**
  The purchase engine of src/components/GigDetailModal.jsx. A buyer picks a
  payment method and confirms; the points path checks the buyer's balance
  and then makes two independent writes (debit the buyer, credit the
  seller), the cash path only appends advisory history records. There is
  no self-purchase check and no transaction: each write can fail on its
  own, and a debit already made is not rolled back.

  `Confirm` states the outcome of one confirmation as a function of the
  store before it; `PurchaseModal.ConfirmPayment` performs the same steps
  against the store object and is proved to agree with it.
 */
module GigDetailModal {
  import opened Values
  import opened Store
  import Text

  datatype Payment = Cash | Points

  /** The listing as the modal receives it. An empty `contactInstructions` means none. */
  datatype Gig = Gig(
    id: string,
    title: string,
    price: int,
    points: int,
    paymentMethod: string,
    userId: string,
    contactInstructions: string,
    oneTimeOnly: bool)

  datatype Level = Warning | Error | Success | Alert
  /** A message shown to the buyer (toast or alert). */
  datatype Notice = Notice(level: Level, text: string)

  datatype ContactInfo = ContactInfo(name: Value, email: Value, phone: Value, additionalInfo: string)

  /** Which store calls of one confirmation fail (access rules, network). */
  datatype Failures = Failures(sellerRead: bool, buyerRead: bool, buyerWrite: bool, sellerWrite: bool, gigWrite: bool)

  /** The selection the modal opens with: only a single-method listing preselects. */
  function InitialSelection(paymentMethod: string): (r: Option<Payment>)
    ensures r == Some(Cash) <==> paymentMethod == "cash"
    ensures r == Some(Points) <==> paymentMethod == "points"
    ensures r == None <==> paymentMethod != "cash" && paymentMethod != "points"
  {
    if paymentMethod == "cash" then Some(Cash)
    else if paymentMethod == "points" then Some(Points)
    else None
  }

  /** The Confirm button is disabled while processing, or with no choice made on a "both" listing. */
  function ConfirmDisabled(isProcessing: bool, selected: Option<Payment>, paymentMethod: string): (disabled: bool)
    // no second confirmation while one is running
    ensures isProcessing ==> disabled
    // when idle, only a missing choice can disable it, and only on a "both" listing
    ensures !isProcessing && disabled ==> selected.None?
    ensures !isProcessing && selected.None? ==> (disabled <==> paymentMethod == "both")
  {
    isProcessing || (selected.None? && paymentMethod == "both")
  }

  /**
    On a freshly opened modal, Confirm is disabled exactly for "both"
    listings; a listing with any other unknown method opens with Confirm
    enabled and nothing selected.
   */
  lemma InitialConfirmState(paymentMethod: string)
    ensures ConfirmDisabled(false, InitialSelection(paymentMethod), paymentMethod) <==> paymentMethod == "both"
    ensures paymentMethod !in {"cash", "points", "both"} ==>
              !ConfirmDisabled(false, InitialSelection(paymentMethod), paymentMethod)
              && InitialSelection(paymentMethod).None?
  {
  }

  const SelectMessage := "Please select a payment method"
  const CreatorMissing := "Could not find gig creator's information"
  const ProfileMissing := "User profile not found"
  const PermissionMessage :=
    "Permission error: You may need to request the gig creator to update their profile settings, or contact support."
  const FailedMessage := "Failed to process payment. Please try again."
  const CashConfirmed := "Cash payment arrangement confirmed"
  const CashUnrecorded := "Could not record your purchase, but you can still contact the seller"
  const DefaultInstructions := "Contact the gig creator directly to arrange the service."

  const InsufficientHead := "Not enough points. You have "
  const InsufficientMiddle := " points, but this gig requires "

  /** The not-enough-points alert: it names both the balance and the price. */
  function InsufficientMessage(have: int, need: int): (msg: string)
    ensures Text.IsPrefix(InsufficientHead, msg)
    ensures Text.Contains(msg, Text.IntToDecimal(have))
    ensures Text.Contains(msg, Text.IntToDecimal(need))
  {
    var h, n := Text.IntToDecimal(have), Text.IntToDecimal(need);
    Text.ContainsFields(InsufficientHead, h, InsufficientMiddle, n, " points.");
    InsufficientHead + h + InsufficientMiddle + n + " points."
  }

  function TransferredMessage(n: int): string {
    "Successfully transferred " + Text.IntToDecimal(n) + " points"
  }

  /**
    The seller's contact block: the seller's own name, phone and the gig's
    instructions when they are given, the defaults otherwise.
   */
  function Contact(seller: Doc, gig: Gig): (c: ContactInfo)
    ensures Truthy(Get(seller, "displayName")) ==> c.name == Get(seller, "displayName")
    ensures !Truthy(Get(seller, "displayName")) ==> c.name == Str("Gig Creator")
    ensures Truthy(Get(seller, "phone")) ==> c.phone == Get(seller, "phone")
    ensures !Truthy(Get(seller, "phone")) ==> c.phone == Str("No phone provided")
    ensures gig.contactInstructions != "" ==> c.additionalInfo == gig.contactInstructions
    ensures gig.contactInstructions == "" ==> c.additionalInfo == DefaultInstructions
    ensures Truthy(c.name) && Truthy(c.phone) && c.additionalInfo != ""
    ensures c.email == Get(seller, "email")
  {
    ContactInfo(
      Or(Get(seller, "displayName"), Str("Gig Creator")),
      Get(seller, "email"),
      Or(Get(seller, "phone"), Str("No phone provided")),
      if gig.contactInstructions != "" then gig.contactInstructions else DefaultInstructions)
  }

  function PointsPurchaseRecord(gig: Gig, now: nat): Value {
    Obj(map["gigId" := Str(gig.id), "title" := Str(gig.title), "points" := Num(gig.points), "date" := Time(now)])
  }

  function PointsSaleRecord(gig: Gig, buyer: string, now: nat): Value {
    Obj(map["gigId" := Str(gig.id), "title" := Str(gig.title), "points" := Num(gig.points),
            "buyerId" := Str(buyer), "date" := Time(now)])
  }

  function CashPurchaseRecord(gig: Gig, now: nat): Value {
    Obj(map["gigId" := Str(gig.id), "title" := Str(gig.title), "price" := Num(gig.price),
            "paymentType" := Str("cash"), "date" := Time(now)])
  }

  function CashSaleRecord(gig: Gig, buyer: string, now: nat): Value {
    Obj(map["gigId" := Str(gig.id), "title" := Str(gig.title), "price" := Num(gig.price),
            "paymentType" := Str("cash"), "buyerId" := Str(buyer), "date" := Time(now)])
  }

  /** The buyer's write on the points path: the balance read before, less the price. */
  function DebitPatch(have: int, gig: Gig, now: nat): map<string, Change> {
    map["points" := Put(Num(have - gig.points)), "purchases" := Union(PointsPurchaseRecord(gig, now))]
  }

  /** The seller's write on the points path: computed from the seller snapshot read first. */
  function CreditPatch(sellerSnapshot: Doc, gig: Gig, buyer: string, now: nat): map<string, Change> {
    map["points" := Put(Num(NumOr0(sellerSnapshot, "points") + gig.points)),
        "sales" := Union(PointsSaleRecord(gig, buyer, now))]
  }

  function CashPurchasePatch(gig: Gig, now: nat): map<string, Change> {
    map["purchases" := Union(CashPurchaseRecord(gig, now))]
  }

  function CashSalePatch(gig: Gig, buyer: string, now: nat): map<string, Change> {
    map["sales" := Union(CashSaleRecord(gig, buyer, now))]
  }

  function TakenPatch(buyer: string, now: nat): map<string, Change> {
    map["status" := Put(Str("taken")), "takenBy" := Put(Str(buyer)), "takenAt" := Put(Time(now))]
  }

  /**
    The outcome of one confirmation: the store afterwards, the messages
    shown, the contact block when the purchase is confirmed, and whether
    the listing refresh was triggered.
   */
  datatype Attempt = Attempt(
    users: map<string, Doc>,
    gigs: map<string, Doc>,
    notices: seq<Notice>,
    contact: Option<ContactInfo>,
    refreshed: bool)
  {
    predicate Confirmed() { contact.Some? }
  }

  /** Confirmation: contact details, then the best-effort "taken" mark for a one-time gig. */
  function Finish(gig: Gig, buyer: string, seller: Doc, users: map<string, Doc>, gigs: map<string, Doc>,
                  notices: seq<Notice>, f: Failures, hasRefresh: bool, now: nat): (a: Attempt)
    ensures a.Confirmed() && a.contact == Some(Contact(seller, gig))
    ensures a.users == users && a.notices == notices
    // only the listing itself can change, and only a one-time listing whose mark succeeds
    ensures a.gigs.Keys == gigs.Keys
    ensures forall id :: id in gigs && id != gig.id ==> a.gigs[id] == gigs[id]
    ensures a.gigs != gigs ==> gig.oneTimeOnly && !f.gigWrite
    ensures a.refreshed <==> hasRefresh && gig.oneTimeOnly && !f.gigWrite && gig.id in gigs
  {
    var contact := Some(Contact(seller, gig));
    if gig.oneTimeOnly && !f.gigWrite && gig.id in gigs then
      Attempt(users, gigs[gig.id := Apply(gigs[gig.id], TakenPatch(buyer, now))], notices, contact, hasRefresh)
    else
      Attempt(users, gigs, notices, contact, false)
  }

  /** The points branch, once the seller's profile has been read. */
  function PointsPath(gig: Gig, buyer: string, seller: Doc, users: map<string, Doc>, gigs: map<string, Doc>,
                      f: Failures, hasRefresh: bool, now: nat): (a: Attempt)
    ensures |a.notices| == 1
    ensures a.users.Keys == users.Keys && a.gigs.Keys == gigs.Keys
    ensures !a.Confirmed() ==> a.gigs == gigs && !a.refreshed && a.notices[0].level != Success
    ensures a.Confirmed() ==> a.notices == [Notice(Success, TransferredMessage(gig.points))]
    // nothing is written before the balance check passes and the debit is accepted
    ensures a.users != users ==>
              !f.buyerRead && buyer in users && NumOr0(users[buyer], "points") >= gig.points && !f.buyerWrite
  {
    if f.buyerRead then Attempt(users, gigs, [Notice(Error, FailedMessage)], None, false)
    else if buyer !in users then Attempt(users, gigs, [Notice(Error, ProfileMissing)], None, false)
    else
      var have := NumOr0(users[buyer], "points");
      if have < gig.points then
        Attempt(users, gigs, [Notice(Alert, InsufficientMessage(have, gig.points))], None, false)
      else if f.buyerWrite then
        Attempt(users, gigs, [Notice(Error, PermissionMessage)], None, false)
      else
        var debited := users[buyer := Apply(users[buyer], DebitPatch(have, gig, now))];
        if f.sellerWrite || gig.userId !in debited then
          Attempt(debited, gigs, [Notice(Error, PermissionMessage)], None, false)
        else
          var credited := debited[gig.userId := Apply(debited[gig.userId], CreditPatch(seller, gig, buyer, now))];
          Finish(gig, buyer, seller, credited, gigs, [Notice(Success, TransferredMessage(gig.points))], f, hasRefresh, now)
  }

  /** The cash branch: history records are advisory, so it always confirms. */
  function CashPath(gig: Gig, buyer: string, seller: Doc, users: map<string, Doc>, gigs: map<string, Doc>,
                    f: Failures, hasRefresh: bool, now: nat): (a: Attempt)
    ensures a.Confirmed() && |a.notices| == 1
    ensures a.users.Keys == users.Keys && a.gigs.Keys == gigs.Keys
    ensures a.notices[0].level == Success <==> !f.buyerWrite && buyer in users
    ensures a.users != users ==> !f.buyerWrite && buyer in users
  {
    if f.buyerWrite || buyer !in users then
      Finish(gig, buyer, seller, users, gigs, [Notice(Warning, CashUnrecorded)], f, hasRefresh, now)
    else
      var recorded := users[buyer := Apply(users[buyer], CashPurchasePatch(gig, now))];
      var mirrored :=
        if f.sellerWrite || gig.userId !in recorded then recorded
        else recorded[gig.userId := Apply(recorded[gig.userId], CashSalePatch(gig, buyer, now))];
      Finish(gig, buyer, seller, mirrored, gigs, [Notice(Success, CashConfirmed)], f, hasRefresh, now)
  }

  /** `handleConfirmPayment`, as a function of the state it starts from. */
  function Confirm(gig: Gig, buyer: string, selected: Option<Payment>, users: map<string, Doc>,
                   gigs: map<string, Doc>, f: Failures, hasRefresh: bool, now: nat): (a: Attempt)
    ensures |a.notices| == 1
    ensures a.users.Keys == users.Keys && a.gigs.Keys == gigs.Keys
    // a purchase is confirmed only with a method chosen and the seller's profile read
    ensures a.Confirmed() ==> selected.Some? && !f.sellerRead && gig.userId in users
    ensures !a.Confirmed() ==> a.gigs == gigs && !a.refreshed
    ensures selected == Some(Cash) && !f.sellerRead && gig.userId in users ==> a.Confirmed()
  {
    if selected.None? then Attempt(users, gigs, [Notice(Warning, SelectMessage)], None, false)
    else if f.sellerRead then Attempt(users, gigs, [Notice(Error, FailedMessage)], None, false)
    else if gig.userId !in users then Attempt(users, gigs, [Notice(Error, CreatorMissing)], None, false)
    else if selected.value == Points then PointsPath(gig, buyer, users[gig.userId], users, gigs, f, hasRefresh, now)
    else CashPath(gig, buyer, users[gig.userId], users, gigs, f, hasRefresh, now)
  }

  function Balance(users: map<string, Doc>, id: string): int {
    if id in users then NumOr0(users[id], "points") else 0
  }

  class PurchaseModal {
    const gig: Gig
    const buyer: string
    /** Whether the parent passed a `refreshGigs` callback. */
    const hasRefresh: bool
    var isProcessing: bool
    var paymentConfirmed: bool
    var contactInfo: Option<ContactInfo>
    var selectedPayment: Option<Payment>
    /** Every message shown so far, oldest first. */
    var notices: seq<Notice>
    /** How many times `refreshGigs` was called. */
    var refreshes: nat

    /** The modal for a signed-in buyer (without a uid it only offers to log in). */
    constructor (gig: Gig, buyer: string, hasRefresh: bool)
      requires buyer != ""
      ensures this.gig == gig && this.buyer == buyer && this.hasRefresh == hasRefresh
      ensures selectedPayment == InitialSelection(gig.paymentMethod)
      ensures !isProcessing && !paymentConfirmed && contactInfo == None && notices == [] && refreshes == 0
    {
      this.gig, this.buyer, this.hasRefresh := gig, buyer, hasRefresh;
      isProcessing, paymentConfirmed, contactInfo := false, false, None;
      selectedPayment := InitialSelection(gig.paymentMethod);
      notices, refreshes := [], 0;
    }

    /** `handlePaymentMethodSelect`. */
    method SelectPayment(p: Payment)
      modifies this
      ensures selectedPayment == Some(p)
      ensures isProcessing == old(isProcessing) && paymentConfirmed == old(paymentConfirmed)
      ensures contactInfo == old(contactInfo) && notices == old(notices) && refreshes == old(refreshes)
    {
      selectedPayment := Some(p);
    }

    /** Shows the contact block, confirms, and marks a one-time gig as taken. */
    method Finalize(db: Firestore, seller: Doc, shown: Notice, f: Failures, now: nat)
      modifies this, db
      ensures var a := Finish(gig, buyer, seller, old(db.users), old(db.gigs), [shown], f, hasRefresh, now);
        && db.users == a.users && db.gigs == a.gigs
        && notices == old(notices) + a.notices && contactInfo == a.contact && paymentConfirmed
        && refreshes == old(refreshes) + (if a.refreshed then 1 else 0)
      ensures selectedPayment == old(selectedPayment) && isProcessing == old(isProcessing)
    {
      notices := notices + [shown];
      contactInfo := Some(Contact(seller, gig));
      paymentConfirmed := true;
      if gig.oneTimeOnly {
        var ok := db.UpdateGig(gig.id, TakenPatch(buyer, now), f.gigWrite);
        if ok && hasRefresh {
          refreshes := refreshes + 1;
        }
      }
    }

    /** The points path, from the buyer read on (lines 84-136 of the component). */
    method PayWithPoints(db: Firestore, seller: Doc, f: Failures, now: nat)
      modifies this, db
      ensures var a := PointsPath(gig, buyer, seller, old(db.users), old(db.gigs), f, hasRefresh, now);
        && db.users == a.users && db.gigs == a.gigs && notices == old(notices) + a.notices
        && contactInfo == (if a.Confirmed() then a.contact else old(contactInfo))
        && paymentConfirmed == (old(paymentConfirmed) || a.Confirmed())
        && refreshes == old(refreshes) + (if a.refreshed then 1 else 0)
      ensures selectedPayment == old(selectedPayment) && isProcessing == old(isProcessing)
    {
      if f.buyerRead {
        notices := notices + [Notice(Error, FailedMessage)];
        return;
      }
      var snap := db.GetUser(buyer);
      if snap.None? {
        notices := notices + [Notice(Error, ProfileMissing)];
        return;
      }
      var have := NumOr0(snap.value, "points");
      if have < gig.points {
        notices := notices + [Notice(Alert, InsufficientMessage(have, gig.points))];
        return;
      }
      var debited := db.UpdateUser(buyer, DebitPatch(have, gig, now), f.buyerWrite);
      if !debited {
        notices := notices + [Notice(Error, PermissionMessage)];
        return;
      }
      var credited := db.UpdateUser(gig.userId, CreditPatch(seller, gig, buyer, now), f.sellerWrite);
      if !credited {
        notices := notices + [Notice(Error, PermissionMessage)];
        return;
      }
      Finalize(db, seller, Notice(Success, TransferredMessage(gig.points)), f, now);
    }

    /** The cash path (lines 137-175 of the component), which always goes on to confirm. */
    method PayWithCash(db: Firestore, seller: Doc, f: Failures, now: nat)
      modifies this, db
      ensures var a := CashPath(gig, buyer, seller, old(db.users), old(db.gigs), f, hasRefresh, now);
        && db.users == a.users && db.gigs == a.gigs && notices == old(notices) + a.notices
        && contactInfo == a.contact && paymentConfirmed
        && refreshes == old(refreshes) + (if a.refreshed then 1 else 0)
      ensures selectedPayment == old(selectedPayment) && isProcessing == old(isProcessing)
    {
      var recorded := db.UpdateUser(buyer, CashPurchasePatch(gig, now), f.buyerWrite);
      if !recorded {
        Finalize(db, seller, Notice(Warning, CashUnrecorded), f, now);
        return;
      }
      // a failed mirror write on the seller's side is ignored
      var _ := db.UpdateUser(gig.userId, CashSalePatch(gig, buyer, now), f.sellerWrite);
      Finalize(db, seller, Notice(Success, CashConfirmed), f, now);
    }

    /** `handleConfirmPayment`. */
    method ConfirmPayment(db: Firestore, f: Failures, now: nat)
      modifies this, db
      ensures var a := Confirm(gig, buyer, old(selectedPayment), old(db.users), old(db.gigs), f, hasRefresh, now);
        && db.users == a.users && db.gigs == a.gigs && notices == old(notices) + a.notices
        && contactInfo == (if a.Confirmed() then a.contact else old(contactInfo))
        && paymentConfirmed == (old(paymentConfirmed) || a.Confirmed())
        && refreshes == old(refreshes) + (if a.refreshed then 1 else 0)
      ensures selectedPayment == old(selectedPayment)
      ensures isProcessing == (if old(selectedPayment).None? then old(isProcessing) else false)
    {
      if selectedPayment.None? {
        notices := notices + [Notice(Warning, SelectMessage)];
        return;
      }
      isProcessing := true;
      if f.sellerRead {
        notices := notices + [Notice(Error, FailedMessage)];
      } else {
        var snap := db.GetUser(gig.userId);
        if snap.None? {
          notices := notices + [Notice(Error, CreatorMissing)];
        } else if selectedPayment.value == Points {
          PayWithPoints(db, snap.value, f, now);
        } else {
          PayWithCash(db, snap.value, f, now);
        }
      }
      isProcessing := false;
    }
  }
}
