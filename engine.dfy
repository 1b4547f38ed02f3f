/** The negotiation engine as the program runs it: one session object owning
    the record store, the history log, the notification log and the buyer
    marks, changed in place step by step. Each operation is proved to leave the
    state that the function of the same name in `Negotiation` describes, and
    to keep the invariant. The views' list-building loops are read-only
    methods proved against `Negotiation.Select`. */
module Engine {
  import opened Records
  import opened Messages
  import opened Logs
  import opened Visibility
  import opened Negotiation
  import opened Invariants

  class Session {
    var offers: seq<Record>
    var history: seq<HistoryEntry>
    var notifications: seq<Notification>
    var buyerActions: seq<Mark>

    /** The session's state as a value. */
    function State(): Store
      reads this
    {
      Store(offers, history, notifications, buyerActions)
    }

    ghost predicate Valid()
      reads this
    {
      Negotiation.Valid(State())
    }

    /** Start of a session: the three persisted collections as loaded, and no
        buyer marks (they are not persisted). */
    constructor (loadedOffers: seq<Record>, loadedHistory: seq<HistoryEntry>, loadedNotifications: seq<Notification>)
      requires Negotiation.Valid(Store(loadedOffers, loadedHistory, loadedNotifications, []))
      ensures Valid()
      ensures State() == Store(loadedOffers, loadedHistory, loadedNotifications, [])
    {
      offers := loadedOffers;
      history := loadedHistory;
      notifications := loadedNotifications;
      buyerActions := [];
    }

    // -------------------------------------------------------------------------
    // The logs and the marks

    /** Appends one entry to the history log. */
    method RecordHistory(offerId: string, actor: string, action: string, detail: string, now: string)
      modifies this
      ensures history == old(history) + [HistoryEntry(offerId, actor, action, detail, now)]
      ensures offers == old(offers) && notifications == old(notifications) && buyerActions == old(buyerActions)
    {
      history := history + [HistoryEntry(offerId, actor, action, detail, now)];
    }

    /** Appends one message for one user. */
    method Notify(user: string, message: string, now: string)
      modifies this
      ensures notifications == old(notifications) + [Notification(user, message, now)]
      ensures offers == old(offers) && history == old(history) && buyerActions == old(buyerActions)
    {
      notifications := notifications + [Notification(user, message, now)];
    }

    /** Walks the directory in order and messages every user whose role is buyer. */
    method NotifyBuyers(users: seq<User>, message: string, now: string)
      modifies this
      ensures notifications == old(notifications) + BuyerNotes(users, message, now)
      ensures offers == old(offers) && history == old(history) && buyerActions == old(buyerActions)
    {
      var i := 0;
      while i < |users|
        invariant 0 <= i <= |users|
        invariant notifications == old(notifications) + BuyerNotes(users[..i], message, now)
        invariant offers == old(offers) && history == old(history) && buyerActions == old(buyerActions)
      {
        var u := users[i];
        if u.role == Buyer {
          Notify(u.name, message, now);
        }
        BuyerNotesStep(users, i, message, now);
        i := i + 1;
      }
      assert users[..i] == users;
    }

    /** The position of the first record with the given id, if any. */
    method GetOfferById(id: string) returns (r: Option<nat>)
      ensures r == Lookup(offers, id)
    {
      var i := 0;
      while i < |offers|
        invariant 0 <= i <= |offers|
        invariant Fresh(offers[..i], id)
      {
        if offers[i].id == id {
          return Some(i);
        }
        i := i + 1;
      }
      assert offers[..i] == offers;
      return None;
    }

    /** Whether the buyer has already acted on the offer. */
    method HasProcessed(buyer: string, offerId: string) returns (b: bool)
      ensures b == IsMarked(buyerActions, buyer, offerId)
    {
      var i := 0;
      while i < |buyerActions|
        invariant 0 <= i <= |buyerActions|
        invariant Mark(buyer, offerId) !in buyerActions[..i]
      {
        var a := buyerActions[i];
        if a.buyer == buyer && a.offerId == offerId {
          return true;
        }
        i := i + 1;
      }
      assert buyerActions[..i] == buyerActions;
      return false;
    }

    /** Records that the buyer has acted on the offer, unless already recorded. */
    method MarkProcessed(buyer: string, offerId: string)
      modifies this
      ensures buyerActions == AddMark(old(buyerActions), Mark(buyer, offerId))
      ensures offers == old(offers) && history == old(history) && notifications == old(notifications)
    {
      var i := 0;
      while i < |buyerActions|
        invariant 0 <= i <= |buyerActions|
        invariant Mark(buyer, offerId) !in buyerActions[..i]
      {
        var a := buyerActions[i];
        if a.buyer == buyer && a.offerId == offerId {
          return;
        }
        i := i + 1;
      }
      assert buyerActions[..i] == buyerActions;
      buyerActions := buyerActions + [Mark(buyer, offerId)];
    }

    /** Rebuilds the marks without any (buyer, offer) pair equal to the given one. */
    method ClearMark(buyer: string, offerId: string)
      modifies this
      ensures buyerActions == RemoveMark(old(buyerActions), Mark(buyer, offerId))
      ensures offers == old(offers) && history == old(history) && notifications == old(notifications)
    {
      var kept: seq<Mark> := [];
      var i := 0;
      while i < |buyerActions|
        invariant 0 <= i <= |buyerActions|
        invariant kept == RemoveMark(buyerActions[..i], Mark(buyer, offerId))
        invariant unchanged(this)
      {
        var a := buyerActions[i];
        if !(a.buyer == buyer && a.offerId == offerId) {
          kept := kept + [a];
        }
        RemoveMarkStep(buyerActions, i, Mark(buyer, offerId));
        i := i + 1;
      }
      assert buyerActions[..i] == buyerActions;
      buyerActions := kept;
    }

    // -------------------------------------------------------------------------
    // Operations

    /** A producer publishes an offer with a fresh id. */
    method CreateOffer(users: seq<User>, producer: string, terms: Terms, id: string, now: string)
      requires Valid() && Fresh(offers, id)
      modifies this
      ensures State() == Negotiation.CreateOffer(old(State()), users, producer, terms, id, now)
      ensures Valid()
    {
      CreateOfferKeepsValid(State(), users, producer, terms, id, now);
      var offer := Record(id, Offer, producer, None, None, terms, Open, now, now);
      offers := offers + [offer];
      RecordHistory(id, producer, CreateOfferAction, CreateOfferDetail, now);
      NotifyBuyers(users, NewOfferMessage(producer, id), now);
    }

    /** A buyer sends a counter, with a fresh id, to an offer of the buyer's feed. */
    method CreateCounter(i: nat, buyer: string, terms: Terms, id: string, now: string)
      requires Valid() && i < |offers| && Shows(BuyerFeed(buyer, buyerActions), offers[i])
      requires Fresh(offers, id)
      modifies this
      ensures State() == Negotiation.CreateCounter(old(State()), i, buyer, terms, id, now)
      ensures Valid()
    {
      CreateCounterKeepsValid(State(), i, buyer, terms, id, now);
      var o := offers[i];
      var counter := Record(id, Counter, o.producer, Some(buyer), Some(o.id), terms, Open, now, now);
      offers := offers + [counter];
      offers := offers[i := offers[i].(status := Open, updatedAt := now)];
      RecordHistory(o.id, buyer, BuyerCounterAction, BuyerCounterDetail(buyer), now);
      Notify(o.producer, BuyerCounterMessage(buyer, o.id), now);
      MarkProcessed(buyer, o.id);
    }

    /** A producer answers one of the producer's open counters, at `c`, by
        revising its parent offer, found at `p` by looking up the counter's
        parent id. */
    method ReviseOffer(p: nat, c: nat, user: string, terms: Terms, now: string)
      requires Valid() && c < |offers| && Shows(OpenCounters(user), offers[c])
      requires ParentIndex(offers, c) == Some(p)
      modifies this
      ensures p < |old(offers)| && old(offers)[c].buyer.Some?
      ensures State() == Negotiation.ReviseOffer(old(State()), p, c, terms, now)
      ensures Valid()
    {
      ReviseOfferKeepsValid(State(), p, c, terms, now);
      ghost var target := Negotiation.ReviseOffer(State(), p, c, terms, now);
      var o := offers[p];
      var revised := o.terms.(tons := terms.tons, collection := terms.collection,
                              crates := terms.crates, price := terms.price);
      if terms.notes != "" {
        revised := revised.(notes := terms.notes);
      }
      offers := offers[p := o.(terms := revised, status := Open, updatedAt := now)];
      offers := offers[c := offers[c].(status := Answered, updatedAt := now)];
      assert offers == target.offers;
      var b := FieldText(offers[c].buyer);
      RecordHistory(o.id, o.producer, ProducerCounterAction, ProducerCounterDetail(b), now);
      Notify(b, ProducerCounterMessage(o.producer, o.id), now);
      ClearMark(b, o.id);
    }

    /** A buyer marks interest in an offer of the buyer's feed. */
    method ExpressInterest(i: nat, user: string, now: string)
      requires Valid() && i < |offers| && Shows(BuyerFeed(user, buyerActions), offers[i])
      modifies this
      ensures State() == Negotiation.ExpressInterest(old(State()), i, user, now)
      ensures Valid()
    {
      ExpressInterestKeepsValid(State(), i, user, now);
      var o := offers[i];
      RecordHistory(o.id, user, InterestAction, InterestDetail(user), now);
      Notify(o.producer, InterestMessage(user, o.id), now);
      MarkProcessed(user, o.id);
    }

    /** A buyer accepts an offer of the buyer's feed as it stands. */
    method AcceptOffer(i: nat, user: string, now: string)
      requires Valid() && i < |offers| && Shows(BuyerFeed(user, buyerActions), offers[i])
      modifies this
      ensures State() == Negotiation.AcceptOffer(old(State()), i, user, now)
      ensures Valid()
    {
      AcceptOfferKeepsValid(State(), i, user, now);
      var o := offers[i];
      offers := offers[i := o.(status := Accepted, buyer := Some(user), updatedAt := now)];
      RecordHistory(o.id, user, AcceptOfferAction, AcceptOfferDetail(user), now);
      Notify(o.producer, AcceptOfferMessage(user, o.id), now);
      MarkProcessed(user, o.id);
    }

    /** A buyer turns down an offer of the buyer's feed. */
    method RejectOffer(i: nat, user: string, now: string)
      requires Valid() && i < |offers| && Shows(BuyerFeed(user, buyerActions), offers[i])
      modifies this
      ensures State() == Negotiation.RejectOffer(old(State()), i, user, now)
      ensures Valid()
    {
      RejectOfferKeepsValid(State(), i, user, now);
      var o := offers[i];
      RecordHistory(o.id, user, RejectOfferAction, RejectOfferDetail(user), now);
      Notify(o.producer, RejectOfferMessage(user, o.id), now);
      MarkProcessed(user, o.id);
    }

    /** A producer accepts one of the producer's open counters. */
    method AcceptCounter(c: nat, user: string, now: string)
      requires Valid() && c < |offers| && Shows(OpenCounters(user), offers[c])
      modifies this
      ensures State() == Negotiation.AcceptCounter(old(State()), c, user, now)
      ensures Valid()
    {
      AcceptCounterKeepsValid(State(), c, user, now);
      var k := offers[c];
      var parent: Option<nat> := None;
      if k.parentOfferId.Some? {
        parent := GetOfferById(k.parentOfferId.value);
      }
      offers := offers[c := offers[c].(status := Accepted, updatedAt := now)];
      if parent.Some? {
        var p := parent.value;
        offers := offers[p := offers[p].(status := Closed, buyer := k.buyer, updatedAt := now)];
      }
      RecordHistory(k.id, user, AcceptCounterAction, AcceptCounterDetail(FieldText(k.buyer)), now);
      Notify(FieldText(k.buyer), AcceptCounterMessage(k.id), now);
    }

    /** A producer turns down one of the producer's open counters. */
    method RejectCounter(c: nat, user: string, now: string)
      requires Valid() && c < |offers| && Shows(OpenCounters(user), offers[c])
      modifies this
      ensures State() == Negotiation.RejectCounter(old(State()), c, user, now)
      ensures Valid()
    {
      RejectCounterKeepsValid(State(), c, user, now);
      var k := offers[c];
      offers := offers[c := k.(status := Rejected, updatedAt := now)];
      RecordHistory(k.id, user, RejectCounterAction, RejectCounterDetail(FieldText(k.buyer)), now);
      Notify(FieldText(k.buyer), RejectCounterMessage(k.id), now);
    }

    /** A producer deletes one of the producer's offers that is neither closed nor accepted. */
    method DeleteOffer(i: nat, user: string, users: seq<User>, now: string)
      requires Valid() && i < |offers| && Shows(MyOffers(user), offers[i])
      requires offers[i].status != Closed && offers[i].status != Accepted
      modifies this
      ensures State() == Negotiation.DeleteOffer(old(State()), i, user, users, now)
      ensures Valid()
    {
      DeleteOfferKeepsValid(State(), i, user, users, now);
      var o := offers[i];
      offers := offers[i := o.(status := Deleted, updatedAt := now)];
      RecordHistory(o.id, user, DeleteOfferAction, DeleteOfferDetail, now);
      NotifyBuyers(users, DeletedOfferMessage(o.id), now);
    }

    /** A buyer withdraws one of the buyer's counters that is still open. */
    method DeleteCounter(c: nat, user: string, now: string)
      requires Valid() && c < |offers| && Shows(MyCounters(user), offers[c]) && offers[c].status == Open
      modifies this
      ensures old(offers)[c].parentOfferId.Some?
      ensures State() == Negotiation.DeleteCounter(old(State()), c, user, now)
      ensures Valid()
    {
      DeleteCounterKeepsValid(State(), c, user, now);
      var k := offers[c];
      offers := offers[c := k.(status := Deleted, updatedAt := now)];
      RecordHistory(FieldText(k.parentOfferId), user, DeleteCounterAction, DeleteCounterDetail(user), now);
      Notify(k.producer, DeleteCounterMessage(user, k.id), now);
    }

    // -------------------------------------------------------------------------
    // What each view lists

    /** The buyer's feed: offers that are not closed, accepted or deleted and
        that the buyer has not acted on, in store order. */
    method AvailableOffers(user: string) returns (feed: seq<Record>)
      ensures feed == Select(offers, BuyerFeed(user, buyerActions))
    {
      feed := [];
      var i := 0;
      while i < |offers|
        invariant 0 <= i <= |offers|
        invariant feed == Select(offers[..i], BuyerFeed(user, buyerActions))
      {
        var o := offers[i];
        var seen := HasProcessed(user, o.id);
        if o.kind == Offer && o.status != Closed && o.status != Accepted && o.status != Deleted && !seen {
          feed := feed + [o];
        }
        SelectStep(offers, i, BuyerFeed(user, buyerActions));
        i := i + 1;
      }
      assert offers[..i] == offers;
    }

    /** The producer's counters that are still open, in store order. */
    method OpenCountersOf(user: string) returns (counters: seq<Record>)
      ensures counters == Select(offers, OpenCounters(user))
    {
      counters := [];
      var i := 0;
      while i < |offers|
        invariant 0 <= i <= |offers|
        invariant counters == Select(offers[..i], OpenCounters(user))
      {
        var c := offers[i];
        if c.kind == Counter && c.producer == user && c.status == Open {
          counters := counters + [c];
        }
        SelectStep(offers, i, OpenCounters(user));
        i := i + 1;
      }
      assert offers[..i] == offers;
    }

    /** The producer's own offers, whatever their status, in store order. */
    method OffersOf(user: string) returns (mine: seq<Record>)
      ensures mine == Select(offers, MyOffers(user))
    {
      mine := [];
      var i := 0;
      while i < |offers|
        invariant 0 <= i <= |offers|
        invariant mine == Select(offers[..i], MyOffers(user))
      {
        var o := offers[i];
        if o.producer == user && o.kind == Offer {
          mine := mine + [o];
        }
        SelectStep(offers, i, MyOffers(user));
        i := i + 1;
      }
      assert offers[..i] == offers;
    }

    /** The buyer's own counters, whatever their status, in store order. */
    method CountersOf(user: string) returns (mine: seq<Record>)
      ensures mine == Select(offers, MyCounters(user))
    {
      mine := [];
      var i := 0;
      while i < |offers|
        invariant 0 <= i <= |offers|
        invariant mine == Select(offers[..i], MyCounters(user))
      {
        var c := offers[i];
        if c.kind == Counter && c.buyer == Some(user) {
          mine := mine + [c];
        }
        SelectStep(offers, i, MyCounters(user));
        i := i + 1;
      }
      assert offers[..i] == offers;
    }

    /** The offers whose deal the buyer has won, closed or accepted, in store order. */
    method ClosedDealsOf(user: string) returns (deals: seq<Record>)
      ensures deals == Select(offers, ClosedDeals(user))
    {
      deals := [];
      var i := 0;
      while i < |offers|
        invariant 0 <= i <= |offers|
        invariant deals == Select(offers[..i], ClosedDeals(user))
      {
        var o := offers[i];
        if o.kind == Offer && o.buyer == Some(user) && (o.status == Closed || o.status == Accepted) {
          deals := deals + [o];
        }
        SelectStep(offers, i, ClosedDeals(user));
        i := i + 1;
      }
      assert offers[..i] == offers;
    }
  }
}
