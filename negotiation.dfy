/** The negotiation engine as functions on its state: the record store (offers
    and counters in one flat sequence), the history log, the notification log
    and the visibility marks. Each operation is a function from the state
    before to the state after; `Engine.Session` performs the same steps in place. */
module Negotiation {
  import opened Records
  import opened Messages
  import opened Logs
  import opened Visibility

  datatype Store = Store(
    offers: seq<Record>,
    history: seq<HistoryEntry>,
    notifications: seq<Notification>,
    marks: seq<Mark>)

  // ---------------------------------------------------------------------------
  // Looking records up

  /** No record of the store carries `id` yet. */
  predicate Fresh(offers: seq<Record>, id: string)
  {
    forall j :: 0 <= j < |offers| ==> offers[j].id != id
  }

  /** The position of the first record carrying `id`, if any. */
  function Lookup(offers: seq<Record>, id: string): (r: Option<nat>)
    ensures r.Some? ==> r.value < |offers| && offers[r.value].id == id
    ensures r.Some? ==> forall j :: 0 <= j < r.value ==> offers[j].id != id
    ensures r.None? ==> Fresh(offers, id)
  {
    if offers == [] then None
    else if offers[0].id == id then Some(0)
    else match Lookup(offers[1..], id)
      case None => None
      case Some(k) => Some(k + 1)
  }

  /** The position of the record a counter names as its parent, if any. */
  function ParentIndex(offers: seq<Record>, c: nat): Option<nat>
    requires c < |offers|
  {
    match offers[c].parentOfferId
    case None => None
    case Some(p) => Lookup(offers, p)
  }

  // ---------------------------------------------------------------------------
  // The invariant of the store

  predicate UniqueIds(offers: seq<Record>)
  {
    forall i, j :: 0 <= i < j < |offers| ==> offers[i].id != offers[j].id
  }

  /** Some record of kind offer carries `id`. */
  predicate HasOffer(offers: seq<Record>, id: string)
  {
    exists j :: 0 <= j < |offers| && offers[j].id == id && offers[j].kind == Offer
  }

  predicate OfferStatus(st: Status)
  {
    st == Open || st == Accepted || st == Closed || st == Deleted
  }

  predicate CounterStatus(st: Status)
  {
    st == Open || st == Accepted || st == Rejected || st == Answered || st == Deleted
  }

  /** The fields a record of its kind has: an offer has no parent, a status of
      an offer, and a buyer once the deal is done; a counter has a buyer, a
      parent and a status of a counter. */
  predicate Shaped(r: Record)
  {
    match r.kind
    case Offer =>
      r.parentOfferId.None? && OfferStatus(r.status) &&
      ((r.status == Accepted || r.status == Closed) ==> r.buyer.Some?)
    case Counter =>
      r.buyer.Some? && r.parentOfferId.Some? && CounterStatus(r.status)
  }

  /** A counter's parent id names an offer of the store. */
  predicate ParentResolves(offers: seq<Record>, r: Record)
  {
    r.kind == Counter && r.parentOfferId.Some? ==> HasOffer(offers, r.parentOfferId.value)
  }

  /** Some record carries `id`. */
  predicate Known(offers: seq<Record>, id: string)
  {
    exists j :: 0 <= j < |offers| && offers[j].id == id
  }

  /** The invariant every operation keeps: ids are unique, every record is
      shaped for its kind, every counter's parent is an offer of the store, and
      every mark is set once and names a record of the store. */
  predicate Valid(s: Store)
  {
    UniqueIds(s.offers) &&
    (forall i :: 0 <= i < |s.offers| ==> Shaped(s.offers[i]) && ParentResolves(s.offers, s.offers[i])) &&
    NoDup(s.marks) &&
    (forall m :: m in s.marks ==> Known(s.offers, m.offerId))
  }

  // ---------------------------------------------------------------------------
  // What each user is shown

  /** The lists the views build from the record store. */
  datatype View =
    | BuyerFeed(buyer: string, marks: seq<Mark>)  // offers a buyer can still act on
    | OpenCounters(producer: string)              // counters awaiting a producer's answer
    | MyOffers(producer: string)                  // a producer's own offers
    | MyCounters(buyer: string)                   // a buyer's own counters
    | ClosedDeals(buyer: string)                  // offers a buyer has won

  /** Whether view `v` lists record `r`. Only the two counter views list counters. */
  predicate Shows(v: View, r: Record)
    ensures Shows(v, r) ==> (r.kind == Counter <==> (v.OpenCounters? || v.MyCounters?))
  {
    match v
    case BuyerFeed(b, marks) =>
      r.kind == Offer && r.status != Closed && r.status != Accepted && r.status != Deleted &&
      !IsMarked(marks, b, r.id)
    case OpenCounters(p) => r.kind == Counter && r.producer == p && r.status == Open
    case MyOffers(p) => r.producer == p && r.kind == Offer
    case MyCounters(b) => r.kind == Counter && r.buyer == Some(b)
    case ClosedDeals(b) => r.kind == Offer && r.buyer == Some(b) && (r.status == Closed || r.status == Accepted)
  }

  /** The records a view lists, in store order. */
  function Select(offers: seq<Record>, v: View): (r: seq<Record>)
    ensures forall x :: x in r <==> x in offers && Shows(v, x)
    ensures |r| <= |offers|
  {
    if offers == [] then []
    else (if Shows(v, offers[0]) then [offers[0]] else []) + Select(offers[1..], v)
  }

  /** Listing two stretches of the store is the two listings joined. */
  lemma {:induction false} SelectAppend(a: seq<Record>, b: seq<Record>, v: View)
    ensures Select(a + b, v) == Select(a, v) + Select(b, v)
  {
    if a == [] {
      assert a + b == b;
    } else {
      assert (a + b)[0] == a[0];
      assert (a + b)[1..] == a[1..] + b;
      SelectAppend(a[1..], b, v);
    }
  }

  /** Extending the scanned prefix by one record adds that record to the list
      exactly when the view shows it. */
  lemma SelectStep(offers: seq<Record>, i: nat, v: View)
    requires i < |offers|
    ensures Select(offers[..i + 1], v) == Select(offers[..i], v) + (if Shows(v, offers[i]) then [offers[i]] else [])
  {
    assert offers[..i + 1] == offers[..i] + [offers[i]];
    SelectAppend(offers[..i], [offers[i]], v);
    assert [offers[i]][1..] == [];
  }

  /** A record the view shows is on the view's list. */
  lemma SelectHas(offers: seq<Record>, i: nat, v: View)
    requires i < |offers| && Shows(v, offers[i])
    ensures offers[i] in Select(offers, v)
  {
    assert offers[i] in offers;
  }

  /** Two views that agree on every record of the store list the same records. */
  lemma {:induction false} SelectAgrees(offers: seq<Record>, v: View, w: View)
    requires forall x :: x in offers ==> (Shows(v, x) <==> Shows(w, x))
    ensures Select(offers, v) == Select(offers, w)
  {
    if offers != [] {
      assert offers[0] in offers;
      assert forall x :: x in offers[1..] ==> x in offers;
      SelectAgrees(offers[1..], v, w);
    }
  }

  // ---------------------------------------------------------------------------
  // The operations

  /** A producer publishes an offer; every buyer of the directory is told. */
  function CreateOffer(s: Store, users: seq<User>, producer: string, terms: Terms, id: string, now: string): (t: Store)
    ensures |t.offers| == |s.offers| + 1 && t.offers[..|s.offers|] == s.offers
    ensures t.offers[|s.offers|].id == id && t.offers[|s.offers|].kind == Offer && t.offers[|s.offers|].status == Open
    ensures LoggedOnce(s.history, t.history, id)
    ensures |s.notifications| <= |t.notifications| && t.notifications[..|s.notifications|] == s.notifications
    ensures t.marks == s.marks
  {
    var offer := Record(id, Offer, producer, None, None, terms, Open, now, now);
    Store(
      s.offers + [offer],
      s.history + [HistoryEntry(id, producer, CreateOfferAction, CreateOfferDetail, now)],
      s.notifications + BuyerNotes(users, NewOfferMessage(producer, id), now),
      s.marks)
  }

  /** A buyer proposes other terms for the offer at `i`; the offer stays open,
      its producer is told, and the offer leaves the buyer's feed. */
  function CreateCounter(s: Store, i: nat, buyer: string, terms: Terms, id: string, now: string): (t: Store)
    requires i < |s.offers|
    ensures |t.offers| == |s.offers| + 1 && t.offers[|s.offers|].id == id && t.offers[|s.offers|].kind == Counter
    ensures t.offers[i].status == Open
    ensures LoggedOnce(s.history, t.history, s.offers[i].id)
    ensures NotifiedOnce(s.notifications, t.notifications, s.offers[i].producer)
    ensures IsMarked(t.marks, buyer, s.offers[i].id)
  {
    var o := s.offers[i];
    var counter := Record(id, Counter, o.producer, Some(buyer), Some(o.id), terms, Open, now, now);
    Store(
      (s.offers + [counter])[i := o.(status := Open, updatedAt := now)],
      s.history + [HistoryEntry(o.id, buyer, BuyerCounterAction, BuyerCounterDetail(buyer), now)],
      s.notifications + [Notification(o.producer, BuyerCounterMessage(buyer, o.id), now)],
      AddMark(s.marks, Mark(buyer, o.id)))
  }

  /** A producer answers the counter at `c` by rewriting the terms of its parent
      offer at `p`: the offer is open again, the counter is answered, and the
      offer comes back into the counter's buyer's feed. */
  function ReviseOffer(s: Store, p: nat, c: nat, terms: Terms, now: string): (t: Store)
    requires p < |s.offers| && c < |s.offers|
    ensures |t.offers| == |s.offers| && t.offers[c].status == Answered
    ensures p != c ==> t.offers[p].status == Open && t.offers[p].terms.price == terms.price
    ensures LoggedOnce(s.history, t.history, s.offers[p].id)
    ensures NotifiedOnce(s.notifications, t.notifications, FieldText(s.offers[c].buyer))
    ensures !IsMarked(t.marks, FieldText(s.offers[c].buyer), s.offers[p].id)
  {
    var o := s.offers[p];
    var revised := Terms(terms.tons, terms.collection, terms.crates, terms.price,
                         if terms.notes != "" then terms.notes else o.terms.notes);
    var offers := s.offers[p := o.(terms := revised, status := Open, updatedAt := now)];
    var b := FieldText(s.offers[c].buyer);
    Store(
      offers[c := offers[c].(status := Answered, updatedAt := now)],
      s.history + [HistoryEntry(o.id, o.producer, ProducerCounterAction, ProducerCounterDetail(b), now)],
      s.notifications + [Notification(b, ProducerCounterMessage(o.producer, o.id), now)],
      RemoveMark(s.marks, Mark(b, o.id)))
  }

  /** A buyer marks interest in the offer at `i`: logged, its producer told, and
      the offer leaves the buyer's feed. */
  function ExpressInterest(s: Store, i: nat, user: string, now: string): (t: Store)
    requires i < |s.offers|
    ensures t.offers == s.offers
    ensures LoggedOnce(s.history, t.history, s.offers[i].id)
    ensures NotifiedOnce(s.notifications, t.notifications, s.offers[i].producer)
    ensures IsMarked(t.marks, user, s.offers[i].id)
  {
    var o := s.offers[i];
    Store(
      s.offers,
      s.history + [HistoryEntry(o.id, user, InterestAction, InterestDetail(user), now)],
      s.notifications + [Notification(o.producer, InterestMessage(user, o.id), now)],
      AddMark(s.marks, Mark(user, o.id)))
  }

  /** A buyer accepts the offer at `i` as it stands: the deal is the buyer's. */
  function AcceptOffer(s: Store, i: nat, user: string, now: string): (t: Store)
    requires i < |s.offers|
    ensures |t.offers| == |s.offers| && t.offers[i].status == Accepted && t.offers[i].buyer == Some(user)
    ensures LoggedOnce(s.history, t.history, s.offers[i].id)
    ensures NotifiedOnce(s.notifications, t.notifications, s.offers[i].producer)
    ensures IsMarked(t.marks, user, s.offers[i].id)
  {
    var o := s.offers[i];
    Store(
      s.offers[i := o.(status := Accepted, buyer := Some(user), updatedAt := now)],
      s.history + [HistoryEntry(o.id, user, AcceptOfferAction, AcceptOfferDetail(user), now)],
      s.notifications + [Notification(o.producer, AcceptOfferMessage(user, o.id), now)],
      AddMark(s.marks, Mark(user, o.id)))
  }

  /** A buyer turns down the offer at `i`: logged, its producer told, and the
      offer leaves this buyer's feed only. */
  function RejectOffer(s: Store, i: nat, user: string, now: string): (t: Store)
    requires i < |s.offers|
    ensures t.offers == s.offers
    ensures LoggedOnce(s.history, t.history, s.offers[i].id)
    ensures NotifiedOnce(s.notifications, t.notifications, s.offers[i].producer)
    ensures IsMarked(t.marks, user, s.offers[i].id)
  {
    var o := s.offers[i];
    Store(
      s.offers,
      s.history + [HistoryEntry(o.id, user, RejectOfferAction, RejectOfferDetail(user), now)],
      s.notifications + [Notification(o.producer, RejectOfferMessage(user, o.id), now)],
      AddMark(s.marks, Mark(user, o.id)))
  }

  /** A producer accepts the counter at `c`: the counter is accepted and, when
      its parent is found, the parent is closed with the counter's buyer. The
      entry is logged under the counter's own id. */
  function AcceptCounter(s: Store, c: nat, user: string, now: string): (t: Store)
    requires c < |s.offers|
    ensures |t.offers| == |s.offers|
    ensures ParentIndex(s.offers, c) != Some(c) ==> t.offers[c].status == Accepted
    ensures LoggedOnce(s.history, t.history, s.offers[c].id)
    ensures NotifiedOnce(s.notifications, t.notifications, FieldText(s.offers[c].buyer))
    ensures t.marks == s.marks
  {
    var counter := s.offers[c];
    var accepted := s.offers[c := counter.(status := Accepted, updatedAt := now)];
    var offers := match ParentIndex(s.offers, c)
      case None => accepted
      case Some(p) => accepted[p := accepted[p].(status := Closed, buyer := counter.buyer, updatedAt := now)];
    Store(
      offers,
      s.history + [HistoryEntry(counter.id, user, AcceptCounterAction, AcceptCounterDetail(FieldText(counter.buyer)), now)],
      s.notifications + [Notification(FieldText(counter.buyer), AcceptCounterMessage(counter.id), now)],
      s.marks)
  }

  /** A producer turns down the counter at `c`. */
  function RejectCounter(s: Store, c: nat, user: string, now: string): (t: Store)
    requires c < |s.offers|
    ensures |t.offers| == |s.offers| && t.offers[c].status == Rejected
    ensures LoggedOnce(s.history, t.history, s.offers[c].id)
    ensures NotifiedOnce(s.notifications, t.notifications, FieldText(s.offers[c].buyer))
    ensures t.marks == s.marks
  {
    var counter := s.offers[c];
    Store(
      s.offers[c := counter.(status := Rejected, updatedAt := now)],
      s.history + [HistoryEntry(counter.id, user, RejectCounterAction, RejectCounterDetail(FieldText(counter.buyer)), now)],
      s.notifications + [Notification(FieldText(counter.buyer), RejectCounterMessage(counter.id), now)],
      s.marks)
  }

  /** A producer deletes the offer at `i`; every buyer of the directory is told. */
  function DeleteOffer(s: Store, i: nat, user: string, users: seq<User>, now: string): (t: Store)
    requires i < |s.offers|
    ensures |t.offers| == |s.offers| && t.offers[i].status == Deleted
    ensures LoggedOnce(s.history, t.history, s.offers[i].id)
    ensures |s.notifications| <= |t.notifications| && t.notifications[..|s.notifications|] == s.notifications
    ensures t.marks == s.marks
  {
    var o := s.offers[i];
    Store(
      s.offers[i := o.(status := Deleted, updatedAt := now)],
      s.history + [HistoryEntry(o.id, user, DeleteOfferAction, DeleteOfferDetail, now)],
      s.notifications + BuyerNotes(users, DeletedOfferMessage(o.id), now),
      s.marks)
  }

  /** A buyer withdraws the counter at `c`; the entry is logged under the parent offer's id. */
  function DeleteCounter(s: Store, c: nat, user: string, now: string): (t: Store)
    requires c < |s.offers|
    ensures |t.offers| == |s.offers| && t.offers[c].status == Deleted
    ensures LoggedOnce(s.history, t.history, FieldText(s.offers[c].parentOfferId))
    ensures NotifiedOnce(s.notifications, t.notifications, s.offers[c].producer)
    ensures t.marks == s.marks
  {
    var counter := s.offers[c];
    Store(
      s.offers[c := counter.(status := Deleted, updatedAt := now)],
      s.history + [HistoryEntry(FieldText(counter.parentOfferId), user, DeleteCounterAction, DeleteCounterDetail(user), now)],
      s.notifications + [Notification(counter.producer, DeleteCounterMessage(user, counter.id), now)],
      s.marks)
  }
}
