/**
  What one confirmation in the gig detail modal does to the ledger, stated
  over `GigDetailModal.Confirm`: which attempts write nothing, how points
  move, what a half-finished transfer leaves behind, and that the cash
  path never touches a balance.
 */
module PurchaseLaws {
  import opened Values
  import opened Store
  import opened GigDetailModal
  import Text

  /** No balance in the collection is negative. */
  predicate NoNegativeBalance(users: map<string, Doc>) {
    forall id :: id in users ==> NumOr0(users[id], "points") >= 0
  }

  /** The buyer's debit sets the balance and records the purchase. */
  lemma DebitEffect(d: Doc, have: int, gig: Gig, now: nat)
    ensures var r := Apply(d, DebitPatch(have, gig, now));
      && NumOr0(r, "points") == have - gig.points
      && Get(r, "purchases").Arr? && PointsPurchaseRecord(gig, now) in Get(r, "purchases").items
      && (Get(d, "purchases").Arr? ==> Get(d, "purchases").items <= Get(r, "purchases").items)
      && (forall k :: k in d && k != "points" && k != "purchases" ==> r[k] == d[k])
  {
    var patch := DebitPatch(have, gig, now);
    assert "points" in patch && "purchases" in patch;
  }

  /** The seller's credit sets the balance from the snapshot and records the sale. */
  lemma CreditEffect(d: Doc, snapshot: Doc, gig: Gig, buyer: string, now: nat)
    ensures var r := Apply(d, CreditPatch(snapshot, gig, buyer, now));
      && NumOr0(r, "points") == NumOr0(snapshot, "points") + gig.points
      && Get(r, "sales").Arr? && PointsSaleRecord(gig, buyer, now) in Get(r, "sales").items
      && (Get(d, "sales").Arr? ==> Get(d, "sales").items <= Get(r, "sales").items)
      && (forall k :: k in d && k != "points" && k != "sales" ==> r[k] == d[k])
  {
    var patch := CreditPatch(snapshot, gig, buyer, now);
    assert "points" in patch && "sales" in patch;
  }

  /**
    A one-field `arrayUnion` write: the record is in the array afterwards,
    an existing array is kept as a prefix, and every other field is kept.
   */
  lemma UnionEffect(d: Doc, field: string, item: Value)
    ensures var r := Apply(d, map[field := Union(item)]);
      && r.Keys == d.Keys + {field}
      && Get(r, field).Arr? && item in Get(r, field).items
      && (Get(d, field).Arr? ==> Get(d, field).items <= Get(r, field).items)
      && (forall k :: k in d && k != field ==> r[k] == d[k])
  {
    var patch := map[field := Union(item)];
    assert field in patch;
  }

  /** A history append leaves the points field as it was. */
  lemma HistoryKeepsPoints(d: Doc, patch: map<string, Change>)
    requires "points" !in patch
    ensures Get(Apply(d, patch), "points") == Get(d, "points")
  {
  }

  /** Confirmation leaves the profiles as the payment path left them. */
  lemma FinishKeepsUsers(gig: Gig, buyer: string, seller: Doc, users: map<string, Doc>, gigs: map<string, Doc>,
                         notices: seq<Notice>, f: Failures, hasRefresh: bool, now: nat)
    ensures var a := Finish(gig, buyer, seller, users, gigs, notices, f, hasRefresh, now);
      && a.users == users && a.notices == notices && a.contact == Some(Contact(seller, gig))
      && a.gigs == (if gig.oneTimeOnly && !f.gigWrite && gig.id in gigs
                    then gigs[gig.id := Apply(gigs[gig.id], TakenPatch(buyer, now))] else gigs)
      && a.refreshed == (gig.oneTimeOnly && !f.gigWrite && gig.id in gigs && hasRefresh)
  {
  }

  /** The listing and refresh outcome of the cash path, as for any confirmed purchase. */
  lemma CashPathGigs(gig: Gig, buyer: string, seller: Doc, users: map<string, Doc>, gigs: map<string, Doc>,
                     f: Failures, hasRefresh: bool, now: nat)
    ensures var a := CashPath(gig, buyer, seller, users, gigs, f, hasRefresh, now);
      var marks := gig.oneTimeOnly && !f.gigWrite && gig.id in gigs;
      && a.Confirmed()
      && a.gigs == (if marks then gigs[gig.id := Apply(gigs[gig.id], TakenPatch(buyer, now))] else gigs)
      && a.refreshed == (marks && hasRefresh)
  {
    if f.buyerWrite || buyer !in users {
      FinishKeepsUsers(gig, buyer, seller, users, gigs, [Notice(Warning, CashUnrecorded)], f, hasRefresh, now);
    } else {
      var recorded := users[buyer := Apply(users[buyer], CashPurchasePatch(gig, now))];
      var mirrored :=
        if f.sellerWrite || gig.userId !in recorded then recorded
        else recorded[gig.userId := Apply(recorded[gig.userId], CashSalePatch(gig, buyer, now))];
      FinishKeepsUsers(gig, buyer, seller, mirrored, gigs, [Notice(Success, CashConfirmed)], f, hasRefresh, now);
    }
  }

  /** The listing and refresh outcome of the points path: changed only when it confirms. */
  lemma PointsPathGigs(gig: Gig, buyer: string, seller: Doc, users: map<string, Doc>, gigs: map<string, Doc>,
                       f: Failures, hasRefresh: bool, now: nat)
    ensures var a := PointsPath(gig, buyer, seller, users, gigs, f, hasRefresh, now);
      var marks := a.Confirmed() && gig.oneTimeOnly && !f.gigWrite && gig.id in gigs;
      && a.gigs == (if marks then gigs[gig.id := Apply(gigs[gig.id], TakenPatch(buyer, now))] else gigs)
      && a.refreshed == (marks && hasRefresh)
  {
    if !f.buyerRead && buyer in users && NumOr0(users[buyer], "points") >= gig.points && !f.buyerWrite {
      var have := NumOr0(users[buyer], "points");
      var debited := users[buyer := Apply(users[buyer], DebitPatch(have, gig, now))];
      if !f.sellerWrite && gig.userId in debited {
        var credited := debited[gig.userId := Apply(debited[gig.userId], CreditPatch(seller, gig, buyer, now))];
        FinishKeepsUsers(gig, buyer, seller, credited, gigs, [Notice(Success, TransferredMessage(gig.points))],
                         f, hasRefresh, now);
      }
    }
  }

  /**
    The listing changes only on a confirmed purchase of a one-time gig whose
    "taken" write succeeds, and the refresh is triggered only then.
   */
  lemma ConfirmGigs(gig: Gig, buyer: string, sel: Option<Payment>, users: map<string, Doc>,
                    gigs: map<string, Doc>, f: Failures, hasRefresh: bool, now: nat)
    ensures var a := Confirm(gig, buyer, sel, users, gigs, f, hasRefresh, now);
      var marks := a.Confirmed() && gig.oneTimeOnly && !f.gigWrite && gig.id in gigs;
      && a.gigs == (if marks then gigs[gig.id := Apply(gigs[gig.id], TakenPatch(buyer, now))] else gigs)
      && a.refreshed == (marks && hasRefresh)
  {
    if sel.Some? && !f.sellerRead && gig.userId in users {
      if sel.value == Cash {
        CashPathGigs(gig, buyer, users[gig.userId], users, gigs, f, hasRefresh, now);
      } else {
        PointsPathGigs(gig, buyer, users[gig.userId], users, gigs, f, hasRefresh, now);
      }
    }
  }

  /**
    The cash path keeps the set of profiles and every points field; it is
    confirmed exactly when the seller's profile was read.
   */
  lemma CashPathKeepsPoints(gig: Gig, buyer: string, users: map<string, Doc>, gigs: map<string, Doc>,
                            f: Failures, hasRefresh: bool, now: nat)
    requires gig.userId in users
    ensures var a := CashPath(gig, buyer, users[gig.userId], users, gigs, f, hasRefresh, now);
      && a.users.Keys == users.Keys
      && (forall id :: id in users ==> Get(a.users[id], "points") == Get(users[id], "points"))
      && a.contact == Some(Contact(users[gig.userId], gig))
  {
    var seller := users[gig.userId];
    if f.buyerWrite || buyer !in users {
      FinishKeepsUsers(gig, buyer, seller, users, gigs, [Notice(Warning, CashUnrecorded)], f, hasRefresh, now);
    } else {
      HistoryKeepsPoints(users[buyer], CashPurchasePatch(gig, now));
      var recorded := users[buyer := Apply(users[buyer], CashPurchasePatch(gig, now))];
      assert forall id :: id in users ==> Get(recorded[id], "points") == Get(users[id], "points");
      var mirrored := recorded;
      if !f.sellerWrite && gig.userId in recorded {
        HistoryKeepsPoints(recorded[gig.userId], CashSalePatch(gig, buyer, now));
        mirrored := recorded[gig.userId := Apply(recorded[gig.userId], CashSalePatch(gig, buyer, now))];
        assert forall id :: id in users ==> Get(mirrored[id], "points") == Get(recorded[id], "points");
      }
      assert CashPath(gig, buyer, seller, users, gigs, f, hasRefresh, now)
          == Finish(gig, buyer, seller, mirrored, gigs, [Notice(Success, CashConfirmed)], f, hasRefresh, now);
      FinishKeepsUsers(gig, buyer, seller, mirrored, gigs, [Notice(Success, CashConfirmed)], f, hasRefresh, now);
    }
  }

  /** Each payment path answers the same whether or not the "taken" write fails. */
  lemma PathsIgnoreGigWrite(gig: Gig, buyer: string, p: Payment, users: map<string, Doc>,
                            gigs: map<string, Doc>, f: Failures, hasRefresh: bool, now: nat)
    requires gig.userId in users
    ensures var g := f.(gigWrite := !f.gigWrite);
      var seller := users[gig.userId];
      var a := if p == Points then PointsPath(gig, buyer, seller, users, gigs, f, hasRefresh, now)
               else CashPath(gig, buyer, seller, users, gigs, f, hasRefresh, now);
      var b := if p == Points then PointsPath(gig, buyer, seller, users, gigs, g, hasRefresh, now)
               else CashPath(gig, buyer, seller, users, gigs, g, hasRefresh, now);
      a.contact == b.contact && a.users == b.users && a.notices == b.notices
  {
    var g := f.(gigWrite := !f.gigWrite);
    var seller := users[gig.userId];
    if p == Cash {
      if f.buyerWrite || buyer !in users {
        FinishKeepsUsers(gig, buyer, seller, users, gigs, [Notice(Warning, CashUnrecorded)], f, hasRefresh, now);
        FinishKeepsUsers(gig, buyer, seller, users, gigs, [Notice(Warning, CashUnrecorded)], g, hasRefresh, now);
      } else {
        var recorded := users[buyer := Apply(users[buyer], CashPurchasePatch(gig, now))];
        var mirrored :=
          if f.sellerWrite || gig.userId !in recorded then recorded
          else recorded[gig.userId := Apply(recorded[gig.userId], CashSalePatch(gig, buyer, now))];
        FinishKeepsUsers(gig, buyer, seller, mirrored, gigs, [Notice(Success, CashConfirmed)], f, hasRefresh, now);
        FinishKeepsUsers(gig, buyer, seller, mirrored, gigs, [Notice(Success, CashConfirmed)], g, hasRefresh, now);
      }
    } else if !f.buyerRead && buyer in users && NumOr0(users[buyer], "points") >= gig.points && !f.buyerWrite {
      var have := NumOr0(users[buyer], "points");
      var debited := users[buyer := Apply(users[buyer], DebitPatch(have, gig, now))];
      if !f.sellerWrite && gig.userId in debited {
        var credited := debited[gig.userId := Apply(debited[gig.userId], CreditPatch(seller, gig, buyer, now))];
        var notices := [Notice(Success, TransferredMessage(gig.points))];
        FinishKeepsUsers(gig, buyer, seller, credited, gigs, notices, f, hasRefresh, now);
        FinishKeepsUsers(gig, buyer, seller, credited, gigs, notices, g, hasRefresh, now);
      }
    }
  }

  /** The points path leaves every balance non-negative when it starts that way and the price is not negative. */
  lemma PointsPathKeepsBalances(gig: Gig, buyer: string, users: map<string, Doc>, gigs: map<string, Doc>,
                                f: Failures, hasRefresh: bool, now: nat)
    requires gig.points >= 0 && NoNegativeBalance(users) && gig.userId in users
    ensures NoNegativeBalance(PointsPath(gig, buyer, users[gig.userId], users, gigs, f, hasRefresh, now).users)
  {
    var seller := users[gig.userId];
    if !f.buyerRead && buyer in users && NumOr0(users[buyer], "points") >= gig.points && !f.buyerWrite {
      var have := NumOr0(users[buyer], "points");
      var debited := users[buyer := Apply(users[buyer], DebitPatch(have, gig, now))];
      DebitEffect(users[buyer], have, gig, now);
      assert NoNegativeBalance(debited) by {
        forall id | id in debited ensures NumOr0(debited[id], "points") >= 0 {
          if id != buyer { assert debited[id] == users[id]; }
        }
      }
      if !f.sellerWrite && gig.userId in debited {
        var credited := debited[gig.userId := Apply(debited[gig.userId], CreditPatch(seller, gig, buyer, now))];
        var notices := [Notice(Success, TransferredMessage(gig.points))];
        CreditEffect(debited[gig.userId], seller, gig, buyer, now);
        assert NoNegativeBalance(credited) by {
          forall id | id in credited ensures NumOr0(credited[id], "points") >= 0 {
            if id != gig.userId { assert credited[id] == debited[id]; }
          }
        }
        FinishKeepsUsers(gig, buyer, seller, credited, gigs, notices, f, hasRefresh, now);
      }
    }
  }

  /** Confirming with no payment method selected only warns: nothing is read or written. */
  lemma NoSelectionOnlyWarns(gig: Gig, buyer: string, users: map<string, Doc>, gigs: map<string, Doc>,
                             f: Failures, hasRefresh: bool, now: nat)
    ensures var a := Confirm(gig, buyer, None, users, gigs, f, hasRefresh, now);
      && a.users == users && a.gigs == gigs && !a.Confirmed() && !a.refreshed
      && a.notices == [Notice(Warning, SelectMessage)]
  {
  }

  /** A missing seller profile, or a missing buyer profile on the points path, writes nothing. */
  lemma MissingProfileWritesNothing(gig: Gig, buyer: string, p: Payment, users: map<string, Doc>,
                                    gigs: map<string, Doc>, f: Failures, hasRefresh: bool, now: nat)
    requires !f.sellerRead
    requires gig.userId !in users || (p == Points && !f.buyerRead && buyer !in users)
    ensures var a := Confirm(gig, buyer, Some(p), users, gigs, f, hasRefresh, now);
      && a.users == users && a.gigs == gigs && !a.Confirmed()
      && a.notices == [Notice(Error, if gig.userId !in users then CreatorMissing else ProfileMissing)]
  {
  }

  /**
    A buyer whose balance is below the price is turned away with a message
    naming both numbers; both balances and both histories stay as they were.
   */
  lemma InsufficientPointsRejected(gig: Gig, buyer: string, users: map<string, Doc>, gigs: map<string, Doc>,
                                   f: Failures, hasRefresh: bool, now: nat)
    requires !f.sellerRead && !f.buyerRead && gig.userId in users && buyer in users
    requires Balance(users, buyer) < gig.points
    ensures var a := Confirm(gig, buyer, Some(Points), users, gigs, f, hasRefresh, now);
      && a.users == users && a.gigs == gigs && !a.Confirmed()
      && |a.notices| == 1 && a.notices[0].level == Alert
      && Text.Contains(a.notices[0].text, Text.IntToDecimal(Balance(users, buyer)))
      && Text.Contains(a.notices[0].text, Text.IntToDecimal(gig.points))
  {
  }

  /**
    A points purchase between two different users with both writes done:
    the buyer pays the price, the seller receives it, the sum of the two
    balances is kept, both histories gain their record, and nobody else's
    profile changes.
   */
  lemma PointsTransfer(gig: Gig, buyer: string, users: map<string, Doc>, gigs: map<string, Doc>,
                       f: Failures, hasRefresh: bool, now: nat)
    requires !f.sellerRead && !f.buyerRead && !f.buyerWrite && !f.sellerWrite
    requires gig.userId in users && buyer in users && buyer != gig.userId
    requires Balance(users, buyer) >= gig.points
    ensures var a := Confirm(gig, buyer, Some(Points), users, gigs, f, hasRefresh, now);
      && a.Confirmed() && a.contact == Some(Contact(users[gig.userId], gig))
      && a.users.Keys == users.Keys
      && Balance(a.users, buyer) == Balance(users, buyer) - gig.points
      && Balance(a.users, gig.userId) == Balance(users, gig.userId) + gig.points
      && Balance(a.users, buyer) + Balance(a.users, gig.userId) == Balance(users, buyer) + Balance(users, gig.userId)
      && Balance(a.users, buyer) >= 0
      && PointsPurchaseRecord(gig, now) in Get(a.users[buyer], "purchases").items
      && PointsSaleRecord(gig, buyer, now) in Get(a.users[gig.userId], "sales").items
      && (forall id :: id in users && id != buyer && id != gig.userId ==> a.users[id] == users[id])
      && a.notices == [Notice(Success, TransferredMessage(gig.points))]
      // the histories only grow, and no other field of the two profiles changes
      && (Get(users[buyer], "purchases").Arr? ==>
            Get(users[buyer], "purchases").items <= Get(a.users[buyer], "purchases").items)
      && (Get(users[gig.userId], "sales").Arr? ==>
            Get(users[gig.userId], "sales").items <= Get(a.users[gig.userId], "sales").items)
      && (forall k :: k in users[buyer] && k != "points" && k != "purchases" ==> a.users[buyer][k] == users[buyer][k])
      && (forall k :: k in users[gig.userId] && k != "points" && k != "sales" ==>
            a.users[gig.userId][k] == users[gig.userId][k])
  {
    var seller, have := gig.userId, Balance(users, buyer);
    var debited := users[buyer := Apply(users[buyer], DebitPatch(have, gig, now))];
    var credited := debited[seller := Apply(debited[seller], CreditPatch(users[seller], gig, buyer, now))];
    var notices := [Notice(Success, TransferredMessage(gig.points))];
    assert Confirm(gig, buyer, Some(Points), users, gigs, f, hasRefresh, now)
        == Finish(gig, buyer, users[seller], credited, gigs, notices, f, hasRefresh, now);
    FinishKeepsUsers(gig, buyer, users[seller], credited, gigs, notices, f, hasRefresh, now);
    DebitEffect(users[buyer], have, gig, now);
    CreditEffect(debited[seller], users[seller], gig, buyer, now);
    assert credited[buyer] == debited[buyer];
  }

  /**
    Nothing stops a user from buying their own gig: the credit is computed
    from the balance read before the debit, so the net effect is that the
    user gains the price.
   */
  lemma SelfPurchaseMintsPoints(gig: Gig, users: map<string, Doc>, gigs: map<string, Doc>,
                                f: Failures, hasRefresh: bool, now: nat)
    requires !f.sellerRead && !f.buyerRead && !f.buyerWrite && !f.sellerWrite
    requires gig.userId in users && Balance(users, gig.userId) >= gig.points
    ensures var a := Confirm(gig, gig.userId, Some(Points), users, gigs, f, hasRefresh, now);
      && a.Confirmed()
      && Balance(a.users, gig.userId) == Balance(users, gig.userId) + gig.points
  {
  }

  /**
    The transfer is not atomic: when the buyer's debit lands and the
    seller's credit is refused, the buyer has paid, the seller's profile is
    untouched, the purchase is not confirmed, and the price is gone from
    the sum of the two balances.
   */
  lemma CreditLostWhenSellerWriteFails(gig: Gig, buyer: string, users: map<string, Doc>, gigs: map<string, Doc>,
                                       f: Failures, hasRefresh: bool, now: nat)
    requires !f.sellerRead && !f.buyerRead && !f.buyerWrite && f.sellerWrite
    requires gig.userId in users && buyer in users && buyer != gig.userId
    requires Balance(users, buyer) >= gig.points
    ensures var a := Confirm(gig, buyer, Some(Points), users, gigs, f, hasRefresh, now);
      && !a.Confirmed() && a.gigs == gigs
      && Balance(a.users, buyer) == Balance(users, buyer) - gig.points
      && gig.userId in a.users && a.users[gig.userId] == users[gig.userId]
      && Balance(a.users, buyer) + Balance(a.users, gig.userId)
         == Balance(users, buyer) + Balance(users, gig.userId) - gig.points
      && a.notices == [Notice(Error, PermissionMessage)]
  {
  }

  /** A points purchase is confirmed exactly when both reads find profiles, funds suffice and both writes succeed. */
  lemma PointsConfirmedIff(gig: Gig, buyer: string, users: map<string, Doc>, gigs: map<string, Doc>,
                           f: Failures, hasRefresh: bool, now: nat)
    ensures Confirm(gig, buyer, Some(Points), users, gigs, f, hasRefresh, now).Confirmed()
            <==> !f.sellerRead && !f.buyerRead && !f.buyerWrite && !f.sellerWrite
                 && gig.userId in users && buyer in users && Balance(users, buyer) >= gig.points
  {
  }

  /** The buyer's write is the first one: if it fails, the points path changes nothing at all. */
  lemma FailedDebitWritesNothing(gig: Gig, buyer: string, users: map<string, Doc>, gigs: map<string, Doc>,
                                 f: Failures, hasRefresh: bool, now: nat)
    requires f.buyerWrite
    ensures var a := Confirm(gig, buyer, Some(Points), users, gigs, f, hasRefresh, now);
      a.users == users && a.gigs == gigs && !a.Confirmed()
  {
  }

  /**
    The cash path between two users with the buyer's record accepted: the
    buyer's history gains the cash purchase record, the seller's gains the
    mirrored sale record unless that write is refused, the old histories
    stay as prefixes, no other field changes and nobody else is touched.
   */
  lemma CashRecordsAppended(gig: Gig, buyer: string, users: map<string, Doc>, gigs: map<string, Doc>,
                            f: Failures, hasRefresh: bool, now: nat)
    requires !f.sellerRead && !f.buyerWrite
    requires gig.userId in users && buyer in users && buyer != gig.userId
    ensures var a := Confirm(gig, buyer, Some(Cash), users, gigs, f, hasRefresh, now);
      && a.Confirmed() && a.users.Keys == users.Keys
      && Get(a.users[buyer], "purchases").Arr? && CashPurchaseRecord(gig, now) in Get(a.users[buyer], "purchases").items
      && (Get(users[buyer], "purchases").Arr? ==>
            Get(users[buyer], "purchases").items <= Get(a.users[buyer], "purchases").items)
      && (forall k :: k in users[buyer] && k != "purchases" ==> a.users[buyer][k] == users[buyer][k])
      && (!f.sellerWrite ==>
            && Get(a.users[gig.userId], "sales").Arr?
            && CashSaleRecord(gig, buyer, now) in Get(a.users[gig.userId], "sales").items
            && (Get(users[gig.userId], "sales").Arr? ==>
                  Get(users[gig.userId], "sales").items <= Get(a.users[gig.userId], "sales").items)
            && (forall k :: k in users[gig.userId] && k != "sales" ==> a.users[gig.userId][k] == users[gig.userId][k]))
      && (f.sellerWrite ==> a.users[gig.userId] == users[gig.userId])
      && (forall id :: id in users && id != buyer && id != gig.userId ==> a.users[id] == users[id])
  {
    var seller := users[gig.userId];
    var recorded := users[buyer := Apply(users[buyer], CashPurchasePatch(gig, now))];
    UnionEffect(users[buyer], "purchases", CashPurchaseRecord(gig, now));
    var mirrored := recorded;
    if !f.sellerWrite {
      mirrored := recorded[gig.userId := Apply(recorded[gig.userId], CashSalePatch(gig, buyer, now))];
      UnionEffect(users[gig.userId], "sales", CashSaleRecord(gig, buyer, now));
    }
    assert Confirm(gig, buyer, Some(Cash), users, gigs, f, hasRefresh, now)
        == Finish(gig, buyer, seller, mirrored, gigs, [Notice(Success, CashConfirmed)], f, hasRefresh, now);
    FinishKeepsUsers(gig, buyer, seller, mirrored, gigs, [Notice(Success, CashConfirmed)], f, hasRefresh, now);
  }

  /**
    The cash path never changes a points field, keeps every profile, and is
    confirmed whenever the seller's profile was read, even when one or both
    history writes fail.
   */
  lemma CashNeverTouchesPoints(gig: Gig, buyer: string, users: map<string, Doc>, gigs: map<string, Doc>,
                               f: Failures, hasRefresh: bool, now: nat)
    ensures var a := Confirm(gig, buyer, Some(Cash), users, gigs, f, hasRefresh, now);
      && a.users.Keys == users.Keys
      && (forall id :: id in users ==> Get(a.users[id], "points") == Get(users[id], "points"))
      && (a.Confirmed() <==> !f.sellerRead && gig.userId in users)
      && (a.Confirmed() ==> a.contact == Some(Contact(users[gig.userId], gig)))
  {
    if !f.sellerRead && gig.userId in users {
      CashPathKeepsPoints(gig, buyer, users, gigs, f, hasRefresh, now);
    }
  }

  /**
    A confirmed purchase of a one-time gig marks it taken by the buyer when
    that write succeeds; the other listings are untouched.
   */
  lemma OneTimeGigMarkedTaken(gig: Gig, buyer: string, p: Payment, users: map<string, Doc>,
                              gigs: map<string, Doc>, f: Failures, hasRefresh: bool, now: nat)
    requires gig.oneTimeOnly && !f.gigWrite && gig.id in gigs
    requires Confirm(gig, buyer, Some(p), users, gigs, f, hasRefresh, now).Confirmed()
    ensures var a := Confirm(gig, buyer, Some(p), users, gigs, f, hasRefresh, now);
      && gig.id in a.gigs && a.gigs.Keys == gigs.Keys
      && Get(a.gigs[gig.id], "status") == Str("taken") && Get(a.gigs[gig.id], "takenBy") == Str(buyer)
      && a.refreshed == hasRefresh
      && (forall id :: id in gigs && id != gig.id ==> a.gigs[id] == gigs[id])
  {
    ConfirmGigs(gig, buyer, Some(p), users, gigs, f, hasRefresh, now);
    var patch := TakenPatch(buyer, now);
    assert "status" in patch && "takenBy" in patch;
  }

  /** The "taken" mark is best effort: whether it fails changes neither the confirmation nor the profiles. */
  lemma TakenMarkIsNonCritical(gig: Gig, buyer: string, sel: Option<Payment>, users: map<string, Doc>,
                               gigs: map<string, Doc>, f: Failures, hasRefresh: bool, now: nat)
    ensures var a := Confirm(gig, buyer, sel, users, gigs, f, hasRefresh, now);
      var b := Confirm(gig, buyer, sel, users, gigs, f.(gigWrite := !f.gigWrite), hasRefresh, now);
      a.contact == b.contact && a.users == b.users && a.notices == b.notices
  {
    if sel.Some? && !f.sellerRead && gig.userId in users {
      PathsIgnoreGigWrite(gig, buyer, sel.value, users, gigs, f, hasRefresh, now);
    }
  }

  /** With non-negative gig prices, no confirmation can drive any balance below zero. */
  lemma BalancesStayNonNegative(gig: Gig, buyer: string, sel: Option<Payment>, users: map<string, Doc>,
                                gigs: map<string, Doc>, f: Failures, hasRefresh: bool, now: nat)
    requires gig.points >= 0 && NoNegativeBalance(users)
    ensures NoNegativeBalance(Confirm(gig, buyer, sel, users, gigs, f, hasRefresh, now).users)
  {
    var a := Confirm(gig, buyer, sel, users, gigs, f, hasRefresh, now);
    if sel == Some(Cash) {
      CashNeverTouchesPoints(gig, buyer, users, gigs, f, hasRefresh, now);
      forall id | id in a.users ensures NumOr0(a.users[id], "points") >= 0 {
        assert Get(a.users[id], "points") == Get(users[id], "points");
      }
    } else if sel == Some(Points) && !f.sellerRead && gig.userId in users {
      PointsPathKeepsBalances(gig, buyer, users, gigs, f, hasRefresh, now);
    }
  }

  /** The two amounts of the example, as the alert prints them. */
  lemma FortyAndFifty()
    ensures Text.IntToDecimal(40) == "40" && Text.IntToDecimal(50) == "50"
  {
    assert Text.NatToDecimal(40) == Text.NatToDecimal(4) + [Text.DigitChar(0)];
    assert Text.NatToDecimal(50) == Text.NatToDecimal(5) + [Text.DigitChar(0)];
  }

  /** A buyer with 40 points cannot take a 50-point gig; the message shows "40" and "50". */
  lemma FortyPointsCannotBuyFifty(gig: Gig, buyer: Doc, seller: Doc, gigs: map<string, Doc>, now: nat)
    requires gig.points == 50 && gig.userId == "seller"
    requires Get(buyer, "points") == Num(40)
    ensures var users := map["buyer" := buyer, "seller" := seller];
      var a := Confirm(gig, "buyer", Some(Points), users, gigs, Failures(false, false, false, false, false), false, now);
      && a.users == users && !a.Confirmed()
      && Text.Contains(a.notices[0].text, "40") && Text.Contains(a.notices[0].text, "50")
  {
    var users := map["buyer" := buyer, "seller" := seller];
    assert Balance(users, "buyer") == 40;
    InsufficientPointsRejected(gig, "buyer", users, gigs, Failures(false, false, false, false, false), false, now);
    FortyAndFifty();
  }

  /**
    A buyer with 100 points opens a 50-point gig offered for cash or points,
    picks points and confirms: the buyer keeps 50, the seller gains 50, and
    the modal shows the confirmation with the seller's contact block.
   */
  method BuyBothListingWithPoints(sellerPoints: nat, now: nat)
    returns (buyerAfter: int, sellerAfter: int, confirmed: bool, contactShown: bool)
    ensures buyerAfter == 50 && sellerAfter == sellerPoints + 50 && confirmed && contactShown
  {
    var gig := Gig("g1", "Guitar lesson", 50, 50, "both", "seller", "", false);
    var db := new Firestore(map["buyer" := map["points" := Num(100)], "seller" := map["points" := Num(sellerPoints)]], map[]);
    var modal := new PurchaseModal(gig, "buyer", false);
    assert modal.selectedPayment.None?;
    modal.SelectPayment(Points);
    PointsTransfer(gig, "buyer", db.users, db.gigs, Failures(false, false, false, false, false), false, now);
    modal.ConfirmPayment(db, Failures(false, false, false, false, false), now);
    buyerAfter := Balance(db.users, "buyer");
    sellerAfter := Balance(db.users, "seller");
    confirmed := modal.paymentConfirmed;
    contactShown := modal.contactInfo.Some?;
  }
}
