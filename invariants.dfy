/** Every operation, applied where the views offer it, keeps `Negotiation.Valid`. */
module Invariants {
  import opened Records
  import opened Visibility
  import opened Negotiation

  /** With unique ids, looking up a record's id finds that record. */
  lemma LookupFindsUnique(offers: seq<Record>, k: nat)
    requires UniqueIds(offers) && k < |offers|
    ensures Lookup(offers, offers[k].id) == Some(k)
  {
  }

  /** Under the invariant the parent of every counter is found, and it is an
      offer, not the counter itself. */
  lemma ParentFound(s: Store, c: nat)
    requires Valid(s) && c < |s.offers| && s.offers[c].kind == Counter
    ensures ParentIndex(s.offers, c).Some?
    ensures var p := ParentIndex(s.offers, c).value;
      p != c && s.offers[p].kind == Offer && Some(s.offers[p].id) == s.offers[c].parentOfferId
  {
    assert Shaped(s.offers[c]) && ParentResolves(s.offers, s.offers[c]);
    var j :| 0 <= j < |s.offers| && s.offers[j].id == s.offers[c].parentOfferId.value && s.offers[j].kind == Offer;
    LookupFindsUnique(s.offers, j);
  }

  /** A store whose first records keep their ids and kinds still holds every
      offer and every id it held. */
  lemma IdsKept(a: seq<Record>, b: seq<Record>)
    requires |a| <= |b|
    requires forall j :: 0 <= j < |a| ==> b[j].id == a[j].id && b[j].kind == a[j].kind
    ensures forall id :: HasOffer(a, id) ==> HasOffer(b, id)
    ensures forall id :: Known(a, id) ==> Known(b, id)
  {
    forall id | HasOffer(a, id) ensures HasOffer(b, id) {
      var j :| 0 <= j < |a| && a[j].id == id && a[j].kind == Offer;
      assert b[j].id == id && b[j].kind == Offer;
    }
    forall id | Known(a, id) ensures Known(b, id) {
      var j :| 0 <= j < |a| && a[j].id == id;
      assert b[j].id == id;
    }
  }

  /** Rewriting one record without touching its id, kind or parent, into a
      record shaped for its kind, keeps the invariant. */
  lemma UpdateKeepsValid(s: Store, k: nat, r: Record, t: Store)
    requires Valid(s) && k < |s.offers|
    requires r.id == s.offers[k].id && r.kind == s.offers[k].kind
    requires r.parentOfferId == s.offers[k].parentOfferId && Shaped(r)
    requires t.offers == s.offers[k := r]
    requires NoDup(t.marks) && forall m :: m in t.marks ==> Known(s.offers, m.offerId)
    ensures Valid(t)
  {
    IdsKept(s.offers, t.offers);
    forall i | 0 <= i < |t.offers|
      ensures Shaped(t.offers[i]) && ParentResolves(t.offers, t.offers[i])
    {
      assert Shaped(s.offers[i]) && ParentResolves(s.offers, s.offers[i]);
    }
  }

  /** Appending a record with a fresh id, shaped for its kind and whose parent
      is an offer of the store, keeps the invariant. */
  lemma AppendKeepsValid(s: Store, r: Record, t: Store)
    requires Valid(s) && Fresh(s.offers, r.id) && Shaped(r) && ParentResolves(s.offers, r)
    requires t.offers == s.offers + [r]
    requires NoDup(t.marks) && forall m :: m in t.marks ==> Known(s.offers, m.offerId)
    ensures Valid(t)
  {
    IdsKept(s.offers, t.offers);
    forall i | 0 <= i < |t.offers|
      ensures Shaped(t.offers[i]) && ParentResolves(t.offers, t.offers[i])
    {
      if i < |s.offers| {
        assert t.offers[i] == s.offers[i];
        assert Shaped(s.offers[i]) && ParentResolves(s.offers, s.offers[i]);
      }
    }
  }

  /** Setting a mark on a record of the store keeps the invariant. */
  lemma AddMarkKeepsValid(s: Store, i: nat, buyer: string, t: Store)
    requires Valid(s) && i < |s.offers|
    requires t.offers == s.offers && t.marks == AddMark(s.marks, Mark(buyer, s.offers[i].id))
    ensures Valid(t)
  {
    assert Known(s.offers, s.offers[i].id);
  }

  lemma CreateOfferKeepsValid(s: Store, users: seq<User>, producer: string, terms: Terms, id: string, now: string)
    requires Valid(s) && Fresh(s.offers, id)
    ensures Valid(CreateOffer(s, users, producer, terms, id, now))
  {
    var t := CreateOffer(s, users, producer, terms, id, now);
    AppendKeepsValid(s, t.offers[|s.offers|], t);
  }

  lemma CreateCounterKeepsValid(s: Store, i: nat, buyer: string, terms: Terms, id: string, now: string)
    requires Valid(s) && i < |s.offers| && Shows(BuyerFeed(buyer, s.marks), s.offers[i])
    requires Fresh(s.offers, id)
    ensures Valid(CreateCounter(s, i, buyer, terms, id, now))
  {
    var o := s.offers[i];
    var t := CreateCounter(s, i, buyer, terms, id, now);
    var counter := Record(id, Counter, o.producer, Some(buyer), Some(o.id), terms, Open, now, now);
    var mid := Store(s.offers + [counter], s.history, s.notifications, s.marks);
    assert HasOffer(s.offers, o.id);
    AppendKeepsValid(s, counter, mid);
    assert Known(mid.offers, o.id) by { assert mid.offers[i] == o; }
    UpdateKeepsValid(mid, i, o.(status := Open, updatedAt := now), t);
  }

  lemma ExpressInterestKeepsValid(s: Store, i: nat, user: string, now: string)
    requires Valid(s) && i < |s.offers|
    ensures Valid(ExpressInterest(s, i, user, now))
  {
    AddMarkKeepsValid(s, i, user, ExpressInterest(s, i, user, now));
  }

  lemma AcceptOfferKeepsValid(s: Store, i: nat, user: string, now: string)
    requires Valid(s) && i < |s.offers| && Shows(BuyerFeed(user, s.marks), s.offers[i])
    ensures Valid(AcceptOffer(s, i, user, now))
  {
    var o := s.offers[i];
    var t := AcceptOffer(s, i, user, now);
    assert Known(s.offers, o.id);
    UpdateKeepsValid(s, i, t.offers[i], t);
  }

  lemma RejectOfferKeepsValid(s: Store, i: nat, user: string, now: string)
    requires Valid(s) && i < |s.offers|
    ensures Valid(RejectOffer(s, i, user, now))
  {
    AddMarkKeepsValid(s, i, user, RejectOffer(s, i, user, now));
  }

  lemma AcceptCounterKeepsValid(s: Store, c: nat, user: string, now: string)
    requires Valid(s) && c < |s.offers| && Shows(OpenCounters(user), s.offers[c])
    ensures Valid(AcceptCounter(s, c, user, now))
  {
    var k := s.offers[c];
    var t := AcceptCounter(s, c, user, now);
    ParentFound(s, c);
    var p := ParentIndex(s.offers, c).value;
    var mid := Store(s.offers[c := k.(status := Accepted, updatedAt := now)], s.history, s.notifications, s.marks);
    UpdateKeepsValid(s, c, mid.offers[c], mid);
    UpdateKeepsValid(mid, p, t.offers[p], t);
  }

  lemma RejectCounterKeepsValid(s: Store, c: nat, user: string, now: string)
    requires Valid(s) && c < |s.offers| && Shows(OpenCounters(user), s.offers[c])
    ensures Valid(RejectCounter(s, c, user, now))
  {
    var t := RejectCounter(s, c, user, now);
    UpdateKeepsValid(s, c, t.offers[c], t);
  }

  lemma ReviseOfferKeepsValid(s: Store, p: nat, c: nat, terms: Terms, now: string)
    requires Valid(s) && c < |s.offers| && s.offers[c].kind == Counter && s.offers[c].status == Open
    requires ParentIndex(s.offers, c) == Some(p)
    ensures p < |s.offers| && s.offers[c].buyer.Some?
    ensures Valid(ReviseOffer(s, p, c, terms, now))
  {
    ParentFound(s, c);
    assert Shaped(s.offers[c]);
    var t := ReviseOffer(s, p, c, terms, now);
    var b := s.offers[c].buyer.value;
    RemoveMarkKeepsNoDup(s.marks, Mark(b, s.offers[p].id));
    var mid := Store(s.offers[p := t.offers[p]], s.history, s.notifications, t.marks);
    UpdateKeepsValid(s, p, t.offers[p], mid);
    UpdateKeepsValid(mid, c, t.offers[c], t);
  }

  lemma DeleteOfferKeepsValid(s: Store, i: nat, user: string, users: seq<User>, now: string)
    requires Valid(s) && i < |s.offers| && Shows(MyOffers(user), s.offers[i])
    ensures Valid(DeleteOffer(s, i, user, users, now))
  {
    var t := DeleteOffer(s, i, user, users, now);
    UpdateKeepsValid(s, i, t.offers[i], t);
  }

  lemma DeleteCounterKeepsValid(s: Store, c: nat, user: string, now: string)
    requires Valid(s) && c < |s.offers| && Shows(MyCounters(user), s.offers[c])
    ensures s.offers[c].parentOfferId.Some?
    ensures Valid(DeleteCounter(s, c, user, now))
  {
    assert Shaped(s.offers[c]);
    var t := DeleteCounter(s, c, user, now);
    UpdateKeepsValid(s, c, t.offers[c], t);
  }
}
