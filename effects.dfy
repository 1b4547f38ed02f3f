/** What each operation does to the store, stated record by record and log by
    log: which record changed and in which fields, what was appended and under
    which id, who was told, what each view shows afterwards, and that nothing
    else changed. */
module Effects {
  import opened Records
  import opened Messages
  import opened Logs
  import opened Visibility
  import opened Negotiation
  import opened Invariants

  /** Marking an offer for one buyer hides it from that buyer and leaves the
      feed of every other buyer exactly as it was. */
  lemma MarkHidesFromMarkerOnly(offers: seq<Record>, marks: seq<Mark>, user: string, id: string)
    ensures forall r: Record :: r.id == id ==> !Shows(BuyerFeed(user, AddMark(marks, Mark(user, id))), r)
    ensures forall b :: b != user ==>
      Select(offers, BuyerFeed(b, AddMark(marks, Mark(user, id)))) == Select(offers, BuyerFeed(b, marks))
  {
    forall b | b != user
      ensures Select(offers, BuyerFeed(b, AddMark(marks, Mark(user, id)))) == Select(offers, BuyerFeed(b, marks))
    {
      SelectAgrees(offers, BuyerFeed(b, AddMark(marks, Mark(user, id))), BuyerFeed(b, marks));
    }
  }

  /** A broadcast appended to the notification log gives every buyer of the
      directory exactly one more message and everybody else none. */
  lemma BroadcastCounts(before: seq<Notification>, users: seq<User>, message: string, now: string)
    requires UniqueNames(users)
    ensures forall u :: |NotificationsFor(before + BuyerNotes(users, message, now), u)|
                        == |NotificationsFor(before, u)| + if IsBuyer(users, u) then 1 else 0
  {
    forall u ensures |NotificationsFor(before + BuyerNotes(users, message, now), u)|
                     == |NotificationsFor(before, u)| + if IsBuyer(users, u) then 1 else 0
    {
      NotificationsForAppend(before, BuyerNotes(users, message, now), u);
      BroadcastReachesEachBuyerOnce(users, message, now, u);
    }
  }

  /** Publishing appends one open offer without buyer or parent, logs it under
      its own id, tells every buyer once with a message naming the offer, and
      puts it in every buyer's feed; no existing record changes. */
  lemma CreateOfferEffect(s: Store, users: seq<User>, producer: string, terms: Terms, id: string, now: string)
    requires Valid(s) && Fresh(s.offers, id)
    ensures var t := CreateOffer(s, users, producer, terms, id, now); var n := |s.offers|;
      |t.offers| == n + 1 && t.offers[..n] == s.offers &&
      t.offers[n].id == id && t.offers[n].kind == Offer && t.offers[n].status == Open &&
      t.offers[n].producer == producer && t.offers[n].buyer.None? && t.offers[n].parentOfferId.None? &&
      t.offers[n].terms == terms &&
      LoggedOnce(s.history, t.history, id) && t.history[|s.history|].actor == producer &&
      t.notifications[..|s.notifications|] == s.notifications &&
      (forall x :: x in t.notifications[|s.notifications|..] ==> Mentions(x.message, id)) &&
      t.marks == s.marks &&
      (forall b :: Shows(BuyerFeed(b, t.marks), t.offers[n]))
    ensures var t := CreateOffer(s, users, producer, terms, id, now);
      UniqueNames(users) ==>
        forall u :: |NotificationsFor(t.notifications, u)| == |NotificationsFor(s.notifications, u)| + if IsBuyer(users, u) then 1 else 0
  {
    var t := CreateOffer(s, users, producer, terms, id, now);
    assert t.notifications[|s.notifications|..] == BuyerNotes(users, NewOfferMessage(producer, id), now);
    if UniqueNames(users) {
      BroadcastCounts(s.notifications, users, NewOfferMessage(producer, id), now);
    }
  }

  /** A counter is appended with the offer's id as parent, the offer's producer,
      the commenting buyer and status open; the offer stays open and only its
      timestamp moves; the entry is logged under the offer's id; the producer is
      told and sees the counter among the open ones; the offer leaves the
      buyer's feed. */
  lemma CreateCounterEffect(s: Store, i: nat, buyer: string, terms: Terms, id: string, now: string)
    requires Valid(s) && i < |s.offers| && Shows(BuyerFeed(buyer, s.marks), s.offers[i])
    requires Fresh(s.offers, id)
    ensures var t := CreateCounter(s, i, buyer, terms, id, now); var o := s.offers[i]; var n := |s.offers|;
      |t.offers| == n + 1 &&
      t.offers[n].id == id && t.offers[n].kind == Counter && t.offers[n].parentOfferId == Some(o.id) &&
      t.offers[n].producer == o.producer && t.offers[n].buyer == Some(buyer) &&
      t.offers[n].status == Open && t.offers[n].terms == terms &&
      t.offers[i] == o.(updatedAt := now) && t.offers[i].status == Open &&
      (forall j :: 0 <= j < n && j != i ==> t.offers[j] == s.offers[j]) &&
      LoggedOnce(s.history, t.history, o.id) && t.history[|s.history|].actor == buyer &&
      NotifiedOnce(s.notifications, t.notifications, o.producer) &&
      IsMarked(t.marks, buyer, o.id) && !Shows(BuyerFeed(buyer, t.marks), t.offers[i]) &&
      t.offers[n] in Select(t.offers, OpenCounters(o.producer))
  {
    var t := CreateCounter(s, i, buyer, terms, id, now);
    assert Shaped(s.offers[i]);
    assert t.offers[|s.offers|] in t.offers;
  }

  /** Marking interest leaves every record as it was; it is logged under the
      offer's id, the producer is told, and the offer leaves this buyer's feed
      only. */
  lemma ExpressInterestEffect(s: Store, i: nat, user: string, now: string)
    requires i < |s.offers| && Shows(BuyerFeed(user, s.marks), s.offers[i])
    ensures var t := ExpressInterest(s, i, user, now); var o := s.offers[i];
      t.offers == s.offers &&
      LoggedOnce(s.history, t.history, o.id) && t.history[|s.history|].actor == user &&
      NotifiedOnce(s.notifications, t.notifications, o.producer) &&
      !Shows(BuyerFeed(user, t.marks), o) &&
      forall b :: b != user ==> Select(t.offers, BuyerFeed(b, t.marks)) == Select(s.offers, BuyerFeed(b, s.marks))
  {
    MarkHidesFromMarkerOnly(s.offers, s.marks, user, s.offers[i].id);
  }

  /** Turning an offer down leaves every record as it was; it is logged under
      the offer's id, the producer is told, and the offer stays in the feed of
      every other buyer. */
  lemma RejectOfferEffect(s: Store, i: nat, user: string, now: string)
    requires i < |s.offers| && Shows(BuyerFeed(user, s.marks), s.offers[i])
    ensures var t := RejectOffer(s, i, user, now); var o := s.offers[i];
      t.offers == s.offers &&
      LoggedOnce(s.history, t.history, o.id) && t.history[|s.history|].actor == user &&
      NotifiedOnce(s.notifications, t.notifications, o.producer) &&
      !Shows(BuyerFeed(user, t.marks), o) &&
      forall b :: b != user ==> Select(t.offers, BuyerFeed(b, t.marks)) == Select(s.offers, BuyerFeed(b, s.marks))
  {
    MarkHidesFromMarkerOnly(s.offers, s.marks, user, s.offers[i].id);
  }

  /** Accepting an offer makes it the buyer's accepted deal: the status is
      accepted and the buyer set, nothing else in the record or the store
      changes, the producer is told, the deal is listed among the buyer's
      closed deals, and no buyer's feed shows it any more. */
  lemma AcceptOfferEffect(s: Store, i: nat, user: string, now: string)
    requires Valid(s) && i < |s.offers| && Shows(BuyerFeed(user, s.marks), s.offers[i])
    ensures var t := AcceptOffer(s, i, user, now); var o := s.offers[i];
      |t.offers| == |s.offers| &&
      t.offers[i] == o.(status := Accepted, buyer := Some(user), updatedAt := now) &&
      (forall j :: 0 <= j < |s.offers| && j != i ==> t.offers[j] == s.offers[j]) &&
      LoggedOnce(s.history, t.history, o.id) && t.history[|s.history|].actor == user &&
      NotifiedOnce(s.notifications, t.notifications, o.producer) &&
      IsMarked(t.marks, user, o.id) &&
      t.offers[i] in Select(t.offers, ClosedDeals(user)) &&
      forall b :: !Shows(BuyerFeed(b, t.marks), t.offers[i])
  {
    var t := AcceptOffer(s, i, user, now);
    assert t.offers[i] in t.offers;
  }

  /** The records after accepting a counter: the counter is accepted and its
      parent offer closed for the counter's buyer. Every other record, the
      sibling counters of the same offer included, stays exactly as it was. */
  lemma AcceptCounterRecords(s: Store, c: nat, user: string, now: string)
    requires Valid(s) && c < |s.offers| && Shows(OpenCounters(user), s.offers[c])
    ensures ParentIndex(s.offers, c).Some? && s.offers[c].buyer.Some?
    ensures var t := AcceptCounter(s, c, user, now); var k := s.offers[c];
      var p := ParentIndex(s.offers, c).value; var o := s.offers[p];
      |t.offers| == |s.offers| && p != c && o.kind == Offer && Some(o.id) == k.parentOfferId &&
      t.offers[c] == k.(status := Accepted, updatedAt := now) &&
      t.offers[p] == o.(status := Closed, buyer := k.buyer, updatedAt := now) &&
      (forall j :: 0 <= j < |s.offers| && j != c && j != p ==> t.offers[j] == s.offers[j])
  {
    ParentFound(s, c);
    assert Shaped(s.offers[c]);
    var k := s.offers[c];
    var p := ParentIndex(s.offers, c).value;
    var accepted := s.offers[c := k.(status := Accepted, updatedAt := now)];
    assert AcceptCounter(s, c, user, now).offers == accepted[p := accepted[p].(status := Closed, buyer := k.buyer, updatedAt := now)];
  }

  /** What accepting a counter logs and shows, beside the records changed
      (`AcceptCounterRecords`): the entry is logged under the counter's id, so
      the parent offer's timeline does not show it; the counter's buyer is told;
      no mark changes; and the closed offer is listed among that buyer's deals. */
  lemma AcceptCounterEffect(s: Store, c: nat, user: string, now: string)
    requires Valid(s) && c < |s.offers| && Shows(OpenCounters(user), s.offers[c])
    ensures ParentIndex(s.offers, c).Some? && s.offers[c].buyer.Some?
    ensures var t := AcceptCounter(s, c, user, now); var k := s.offers[c];
      var p := ParentIndex(s.offers, c).value; var o := s.offers[p];
      p < |t.offers| &&
      LoggedOnce(s.history, t.history, k.id) && t.history[|s.history|].actor == user &&
      HistoryFor(t.history, o.id) == HistoryFor(s.history, o.id) &&
      NotifiedOnce(s.notifications, t.notifications, k.buyer.value) &&
      t.marks == s.marks &&
      t.offers[p] in Select(t.offers, ClosedDeals(k.buyer.value))
  {
    AcceptCounterRecords(s, c, user, now);
    var t := AcceptCounter(s, c, user, now);
    var k := s.offers[c];
    var p := ParentIndex(s.offers, c).value;
    assert LoggedOnce(s.history, t.history, k.id) by {
      assert t.history == s.history + [HistoryEntry(k.id, user, AcceptCounterAction, AcceptCounterDetail(FieldText(k.buyer)), now)];
    }
    assert k.id != s.offers[p].id;
    LoggedOnceTimelines(s.history, t.history, k.id);
    assert NotifiedOnce(s.notifications, t.notifications, k.buyer.value) by {
      assert t.notifications == s.notifications + [Notification(FieldText(k.buyer), AcceptCounterMessage(k.id), now)];
    }
    assert Shows(ClosedDeals(k.buyer.value), t.offers[p]);
    SelectHas(t.offers, p, ClosedDeals(k.buyer.value));
  }

  /** Accepting an open counter on an offer that a buyer has already accepted
      outright turns that deal into a closed deal of the counter's buyer: the
      first buyer no longer holds it. */
  lemma AcceptCounterOverridesAcceptedOffer(s: Store, c: nat, user: string, now: string)
    requires Valid(s) && c < |s.offers| && Shows(OpenCounters(user), s.offers[c])
    requires ParentIndex(s.offers, c).Some? && s.offers[ParentIndex(s.offers, c).value].status == Accepted
    ensures var t := AcceptCounter(s, c, user, now); var p := ParentIndex(s.offers, c).value;
      t.offers[p].status == Closed && t.offers[p].buyer == s.offers[c].buyer &&
      (s.offers[p].buyer != s.offers[c].buyer ==> t.offers[p] !in Select(t.offers, ClosedDeals(s.offers[p].buyer.value)))
  {
    AcceptCounterRecords(s, c, user, now);
    var p := ParentIndex(s.offers, c).value;
    assert Shaped(s.offers[p]);
  }

  /** Accepting one counter leaves a sibling open counter of the same offer
      open and listed for the producer; accepting that one as well closes the
      offer again, now for the sibling's buyer. */
  lemma SiblingCounterStaysOpen(s: Store, c: nat, d: nat, user: string, now: string, later: string)
    requires Valid(s) && c < |s.offers| && d < |s.offers| && c != d
    requires Shows(OpenCounters(user), s.offers[c]) && Shows(OpenCounters(user), s.offers[d])
    requires s.offers[c].parentOfferId == s.offers[d].parentOfferId
    ensures ParentIndex(s.offers, c).Some?
    ensures var t := AcceptCounter(s, c, user, now); var p := ParentIndex(s.offers, c).value;
      t.offers[d] == s.offers[d] && t.offers[d] in Select(t.offers, OpenCounters(user)) &&
      t.offers[p].status == Closed && t.offers[p].buyer == s.offers[c].buyer &&
      var u := AcceptCounter(t, d, user, later);
      u.offers[p].status == Closed && u.offers[p].buyer == s.offers[d].buyer
  {
    AcceptCounterRecords(s, c, user, now);
    AcceptCounterKeepsValid(s, c, user, now);
    var t := AcceptCounter(s, c, user, now);
    var p := ParentIndex(s.offers, c).value;
    ParentFound(s, d);
    assert ParentIndex(s.offers, d) == Some(p);
    assert t.offers[d] in t.offers;
    AcceptCounterRecords(t, d, user, later);
    assert t.offers[p].id == s.offers[p].id;
    LookupFindsUnique(t.offers, p);
  }

  /** Turning a counter down sets it to rejected; its parent and every other
      record stay as they were; the counter's buyer is told and the producer no
      longer sees the counter among the open ones. */
  lemma RejectCounterEffect(s: Store, c: nat, user: string, now: string)
    requires Valid(s) && c < |s.offers| && Shows(OpenCounters(user), s.offers[c])
    ensures s.offers[c].buyer.Some?
    ensures var t := RejectCounter(s, c, user, now); var k := s.offers[c];
      |t.offers| == |s.offers| &&
      t.offers[c] == k.(status := Rejected, updatedAt := now) &&
      (forall j :: 0 <= j < |s.offers| && j != c ==> t.offers[j] == s.offers[j]) &&
      LoggedOnce(s.history, t.history, k.id) && t.history[|s.history|].actor == user &&
      NotifiedOnce(s.notifications, t.notifications, k.buyer.value) &&
      t.marks == s.marks &&
      t.offers[c] !in Select(t.offers, OpenCounters(user))
  {
    assert Shaped(s.offers[c]);
  }

  /** The records after a revision: the offer's terms rewritten, the offer open,
      the counter answered, and every other record untouched. */
  lemma ReviseOfferRecords(s: Store, p: nat, c: nat, terms: Terms, now: string)
    requires Valid(s) && c < |s.offers| && s.offers[c].kind == Counter && s.offers[c].status == Open
    requires ParentIndex(s.offers, c) == Some(p)
    ensures p < |s.offers| && p != c && s.offers[c].buyer.Some?
    ensures var t := ReviseOffer(s, p, c, terms, now); var o := s.offers[p]; var k := s.offers[c];
      |t.offers| == |s.offers| &&
      t.offers[p] == o.(terms := t.offers[p].terms, status := Open, updatedAt := now) &&
      t.offers[p].terms.tons == terms.tons && t.offers[p].terms.collection == terms.collection &&
      t.offers[p].terms.crates == terms.crates && t.offers[p].terms.price == terms.price &&
      t.offers[p].terms.notes == (if terms.notes != "" then terms.notes else o.terms.notes) &&
      t.offers[c] == k.(status := Answered, updatedAt := now) &&
      (forall j :: 0 <= j < |s.offers| && j != p && j != c ==> t.offers[j] == s.offers[j])
  {
    ParentFound(s, c);
    assert Shaped(s.offers[c]);
    var o := s.offers[p];
    var revised := Terms(terms.tons, terms.collection, terms.crates, terms.price,
                         if terms.notes != "" then terms.notes else o.terms.notes);
    var offers := s.offers[p := o.(terms := revised, status := Open, updatedAt := now)];
    assert ReviseOffer(s, p, c, terms, now).offers == offers[c := offers[c].(status := Answered, updatedAt := now)];
  }

  /** Revising overwrites the offer's tons, collection, crates and price, and
      its notes only when new notes are given; id, producer, buyer and creation
      time stay; the offer ends open and the counter answered; every other
      record stays; the counter's buyer is told, its mark on the offer is
      cleared with every other mark kept, and the offer is back in that
      buyer's feed. */
  lemma ReviseOfferEffect(s: Store, p: nat, c: nat, terms: Terms, now: string)
    requires Valid(s) && c < |s.offers| && s.offers[c].kind == Counter && s.offers[c].status == Open
    requires ParentIndex(s.offers, c) == Some(p)
    ensures p < |s.offers| && p != c && s.offers[c].buyer.Some?
    ensures var t := ReviseOffer(s, p, c, terms, now); var o := s.offers[p]; var k := s.offers[c];
      var b := k.buyer.value;
      |t.offers| == |s.offers| &&
      t.offers[p].id == o.id && t.offers[p].kind == o.kind && t.offers[p].producer == o.producer &&
      t.offers[p].buyer == o.buyer && t.offers[p].createdAt == o.createdAt &&
      t.offers[p].terms.tons == terms.tons && t.offers[p].terms.collection == terms.collection &&
      t.offers[p].terms.crates == terms.crates && t.offers[p].terms.price == terms.price &&
      (terms.notes != "" ==> t.offers[p].terms.notes == terms.notes) &&
      (terms.notes == "" ==> t.offers[p].terms.notes == o.terms.notes) &&
      t.offers[p].status == Open && t.offers[p].updatedAt == now &&
      t.offers[c] == k.(status := Answered, updatedAt := now) &&
      (forall j :: 0 <= j < |s.offers| && j != p && j != c ==> t.offers[j] == s.offers[j]) &&
      LoggedOnce(s.history, t.history, o.id) && t.history[|s.history|].actor == o.producer &&
      NotifiedOnce(s.notifications, t.notifications, b) &&
      !IsMarked(t.marks, b, o.id) &&
      (forall m :: m != Mark(b, o.id) ==> (m in t.marks <==> m in s.marks)) &&
      Shows(BuyerFeed(b, t.marks), t.offers[p]) &&
      t.offers[c] !in Select(t.offers, OpenCounters(k.producer))
  {
    ReviseOfferRecords(s, p, c, terms, now);
  }

  /** Revising through a counter whose parent was already closed for some
      buyer puts that closed deal back on the market: the offer is open again,
      keeps its buyer, and shows in the counter's buyer's feed. */
  lemma ReviseReopensClosedDeal(s: Store, p: nat, c: nat, terms: Terms, now: string)
    requires Valid(s) && c < |s.offers| && s.offers[c].kind == Counter && s.offers[c].status == Open
    requires ParentIndex(s.offers, c) == Some(p)
    requires p < |s.offers| && s.offers[p].status == Closed
    ensures s.offers[c].buyer.Some?
    ensures var t := ReviseOffer(s, p, c, terms, now);
      t.offers[p].status == Open && t.offers[p].buyer == s.offers[p].buyer && t.offers[p].buyer.Some? &&
      Shows(BuyerFeed(s.offers[c].buyer.value, t.marks), t.offers[p])
  {
    ReviseOfferEffect(s, p, c, terms, now);
    assert Shaped(s.offers[p]);
  }

  /** Deleting an offer sets it to deleted and changes nothing else in the
      store; it is logged under the offer's id, every buyer of the directory is
      told once, and no buyer's feed shows it any more. */
  lemma DeleteOfferEffect(s: Store, i: nat, user: string, users: seq<User>, now: string)
    requires i < |s.offers| && Shows(MyOffers(user), s.offers[i])
    requires s.offers[i].status != Closed && s.offers[i].status != Accepted
    ensures var t := DeleteOffer(s, i, user, users, now); var o := s.offers[i];
      |t.offers| == |s.offers| &&
      t.offers[i] == o.(status := Deleted, updatedAt := now) &&
      (forall j :: 0 <= j < |s.offers| && j != i ==> t.offers[j] == s.offers[j]) &&
      LoggedOnce(s.history, t.history, o.id) && t.history[|s.history|].actor == user &&
      t.notifications[..|s.notifications|] == s.notifications &&
      (forall x :: x in t.notifications[|s.notifications|..] ==> Mentions(x.message, o.id)) &&
      t.marks == s.marks &&
      forall b :: !Shows(BuyerFeed(b, t.marks), t.offers[i])
    ensures var t := DeleteOffer(s, i, user, users, now);
      UniqueNames(users) ==>
        forall u :: |NotificationsFor(t.notifications, u)| == |NotificationsFor(s.notifications, u)| + if IsBuyer(users, u) then 1 else 0
  {
    var t := DeleteOffer(s, i, user, users, now);
    assert t.notifications[|s.notifications|..] == BuyerNotes(users, DeletedOfferMessage(s.offers[i].id), now);
    if UniqueNames(users) {
      BroadcastCounts(s.notifications, users, DeletedOfferMessage(s.offers[i].id), now);
    }
  }

  /** Withdrawing a counter sets it to deleted and changes nothing else in the
      store; the entry goes to the parent offer's timeline and not to the
      counter's own; the producer is told and no longer sees the counter among
      the open ones. */
  lemma DeleteCounterEffect(s: Store, c: nat, user: string, now: string)
    requires Valid(s) && c < |s.offers| && Shows(MyCounters(user), s.offers[c]) && s.offers[c].status == Open
    ensures s.offers[c].parentOfferId.Some?
    ensures var t := DeleteCounter(s, c, user, now); var k := s.offers[c]; var parent := k.parentOfferId.value;
      |t.offers| == |s.offers| &&
      t.offers[c] == k.(status := Deleted, updatedAt := now) &&
      (forall j :: 0 <= j < |s.offers| && j != c ==> t.offers[j] == s.offers[j]) &&
      LoggedOnce(s.history, t.history, parent) && t.history[|s.history|].actor == user &&
      HistoryFor(t.history, k.id) == HistoryFor(s.history, k.id) &&
      NotifiedOnce(s.notifications, t.notifications, k.producer) &&
      t.marks == s.marks &&
      t.offers[c] !in Select(t.offers, OpenCounters(k.producer))
  {
    ParentFound(s, c);
    var t := DeleteCounter(s, c, user, now);
    var p := ParentIndex(s.offers, c).value;
    assert s.offers[c].id != s.offers[p].id;
    LoggedOnceTimelines(s.history, t.history, s.offers[c].parentOfferId.value);
  }
}
