/** Runs of several operations in a row, showing how a closed deal can be put
    back on the market and won by another buyer. */
module Scenarios {
  import opened Records
  import opened Negotiation
  import opened Invariants
  import opened Effects

  /** Two buyers hold open counters `c` and `d` on the same offer. The producer
      accepts `c`, which closes the offer for the first buyer. The producer then
      answers `d` by revising the offer, which puts it back in the second
      buyer's feed while it still names the first buyer. The second buyer
      accepts it, and the deal is the second buyer's. */
  lemma ClosedDealChangesHands(s: Store, c: nat, d: nat, producer: string, terms: Terms,
                               t1: string, t2: string, t3: string)
    requires Valid(s) && c < |s.offers| && d < |s.offers| && c != d
    requires Shows(OpenCounters(producer), s.offers[c]) && Shows(OpenCounters(producer), s.offers[d])
    requires s.offers[c].parentOfferId == s.offers[d].parentOfferId
    ensures ParentIndex(s.offers, c).Some? && s.offers[d].buyer.Some?
    ensures var p := ParentIndex(s.offers, c).value;
      var closed := AcceptCounter(s, c, producer, t1);
      var reopened := ReviseOffer(closed, p, d, terms, t2);
      var won := AcceptOffer(reopened, p, s.offers[d].buyer.value, t3);
      closed.offers[p].status == Closed && closed.offers[p].buyer == s.offers[c].buyer &&
      reopened.offers[p].status == Open && reopened.offers[p].buyer == s.offers[c].buyer &&
      Shows(BuyerFeed(s.offers[d].buyer.value, reopened.marks), reopened.offers[p]) &&
      won.offers[p].status == Accepted && won.offers[p].buyer == s.offers[d].buyer
  {
    AcceptCounterRecords(s, c, producer, t1);
    AcceptCounterKeepsValid(s, c, producer, t1);
    var p := ParentIndex(s.offers, c).value;
    var closed := AcceptCounter(s, c, producer, t1);
    ParentFound(s, d);
    assert ParentIndex(s.offers, d) == Some(p);
    assert closed.offers[p].id == s.offers[p].id;
    LookupFindsUnique(closed.offers, p);
    assert ParentIndex(closed.offers, d) == Some(p);
    assert closed.offers[d] == s.offers[d];
    ReviseOfferEffect(closed, p, d, terms, t2);
    ReviseOfferKeepsValid(closed, p, d, terms, t2);
    var reopened := ReviseOffer(closed, p, d, terms, t2);
    AcceptOfferEffect(reopened, p, s.offers[d].buyer.value, t3);
  }
}
