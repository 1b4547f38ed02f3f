# Commodity negotiation engine — a Dafny model

The application lets a producer publish offers for a harvest: tons, collection days, crates, price
and notes. Buyers see open offers in a feed. A buyer can mark interest, accept an offer as it
stands, turn it down, or send a counter-offer with other terms. The producer answers each open
counter. The producer can accept it, which closes the offer for that buyer, or turn it down, or
revise the original offer in place, which answers the counter and puts the offer back in that
buyer's feed. Producers can delete their offers. Buyers can withdraw their open counters. Every
step is appended to a history log keyed by offer id and to a per-user notification log.

This project models that engine as it is written in `main.py`:

- `records.dfy` (module `Records`): users and roles, record kinds and statuses, the terms of a
  deal, history entries, notifications and buyer marks.
- `messages.dfy` (module `Messages`): the action names and the Spanish detail and message texts
  each operation logs. The two broadcast messages are proved to name the offer they are about.
- `logs.dfy` (module `Logs`): the per-offer timeline and the per-user inbox. It also builds the
  broadcast to every buyer of the directory, which is proved to reach each buyer exactly once.
- `visibility.dfy` (module `Visibility`): the buyer marks that hide an offer from a buyer who has
  already acted on it. Marks can be set, tested and cleared.
- `negotiation.dfy` (module `Negotiation`): the whole state as a value (`Store`), the store
  invariant `Valid`, the lists each view builds (`View`, `Shows`, `Select`), and one function per
  operation giving the state after it.
- `invariants.dfy` (module `Invariants`): every operation, applied where the UI offers it, keeps
  `Valid`.
- `effects.dfy` (module `Effects`): for each operation, which record changed and in which fields,
  what was logged and under which id, who was told, what each view shows afterwards, and that
  nothing else changed.
- `engine.dfy` (module `Engine`): the class `Session`, owning the four lists the program mutates
  in place. It has one method per operation, each proved to leave exactly the state the
  `Negotiation` function describes and to keep the invariant. The list-building loops of the views
  are read-only methods proved equal to `Negotiation.Select`.
- `scenarios.dfy` (module `Scenarios`): a run of three operations on any valid store where two
  buyers hold open counters on the same offer. The producer accepts one counter, then revises
  through the other. The closed deal goes back on the market and the second buyer wins it.

Inputs the program takes from its surroundings are parameters:

- the current time from `ahora()` becomes `now`;
- the fresh id from `generar_id()` becomes `id`, with a precondition that no record carries it yet;
- the user directory becomes a sequence of `User` values, in the order the dictionary iterates.

The program never checks a status inside its mutating code. Which actions are possible is decided
only by which records a view lists and which buttons it draws. Those filters are the preconditions
of the `Session` methods: `BuyerFeed` for the buyer's actions, `OpenCounters` for the producer's
answers (accept, reject and revise), `MyOffers` plus "neither closed nor accepted" for deleting an
offer, and `MyCounters` plus "open" for withdrawing a counter. A revision also needs the counter's
parent to be found, because the revise form is drawn only then.

## Model

| member | source | states |
|---|---|---|
| Logs.HistoryFor | main.py:632-635 | an offer's timeline holds exactly the log entries whose offer id is that offer's id |
| Logs.HistoryForAppend | main.py:710-714 | the timeline of a log extended at the end is the old timeline followed by the timeline of the new entries |
| Logs.LoggedOnceTimelines | main.py:125-134 | appending one entry under an id adds that entry to the end of that id's timeline and leaves every other timeline unchanged |
| Logs.NotificationsFor | main.py:760 | a user's inbox holds exactly the notifications addressed to that user |
| Logs.NotificationsForAppend | main.py:760 | the inbox of a log extended at the end is the old inbox followed by the new messages for that user |
| Logs.NotifiedOnceInboxes | main.py:137-144 | sending one message to a user adds it to the end of that user's inbox and leaves every other inbox unchanged |
| Logs.BuyerNotes | main.py:211-216 | the broadcast contains exactly messages with the given text and date, each addressed to a user whose role is buyer |
| Logs.BuyerNotesAppend | main.py:211-216 | broadcasting over a directory is broadcasting over its two halves in turn, which is how the loop proceeds |
| Logs.BuyerNotesStep | main.py:619-624 | walking one more directory entry adds a message exactly when that entry is a buyer |
| Logs.BroadcastReachesEachBuyerOnce | main.py:211-216 | with unique user names, each buyer receives the broadcast once and every other user receives nothing |
| Messages.NewOfferMessage | main.py:212-215 | the new-offer message names the new offer's id |
| Messages.DeletedOfferMessage | main.py:620-623 | the deleted-offer message names the deleted offer's id |
| Visibility.AddMark | main.py:154-161 | marking adds the pair at the end unless it is already present, in which case nothing changes; the same pair is never stored twice |
| Visibility.RemoveMark | main.py:171-178 | clearing keeps exactly the pairs different from the cleared one |
| Visibility.RemoveMarkAppend | main.py:171-178 | clearing works pair by pair in order, so every other pair keeps its place |
| Visibility.RemoveMarkStep | main.py:174-177 | scanning one more pair keeps it exactly when it differs from the cleared pair |
| Visibility.RemoveMarkAbsent | main.py:171-178 | clearing a pair that is not there leaves the marks unchanged |
| Visibility.RemoveMarkIdempotent | main.py:171-178 | clearing twice is clearing once |
| Visibility.RemoveAfterAdd | main.py:154-178 | marking a new pair and then clearing it gives back the marks as they were |
| Visibility.RemoveMarkKeepsNoDup | main.py:171-178 | clearing never creates a duplicate pair |
| Negotiation.Lookup | main.py:147-151 | the lookup returns the first position whose id matches, or nothing when no record has that id |
| Negotiation.Shows | main.py:341-343 | the filter of each view (this buyer feed, and those at lines 468, 591, 672 and 735-737); only the two counter views ever list a counter |
| Negotiation.Select | main.py:338-345 | a view lists exactly the records of the store it shows, and never more records than the store holds |
| Negotiation.SelectAppend | main.py:466-469 | a list built over a store extended at the end is the old list followed by the new records it shows, so store order is kept |
| Negotiation.SelectStep | main.py:589-592 | scanning one more record adds it to the list exactly when the view shows it |
| Negotiation.SelectHas | main.py:732-739 | every record the view shows is on the view's list |
| Negotiation.SelectAgrees | main.py:338-345 | two filters that agree on every record build the same list |
| Negotiation.CreateOffer | main.py:185-216 | publishing appends one open offer with the new id after the unchanged store, logs once under that id, only appends to the notifications, and sets no mark |
| Negotiation.CreateCounter | main.py:221-261 | countering appends one counter with the new id, leaves the offer open, logs once under the offer's id, tells the producer once, and marks the offer for the buyer |
| Negotiation.ReviseOffer | main.py:274-302 | revising answers the counter, re-opens the offer with the new price, logs once under the offer's id, tells the counter's buyer once, and clears that buyer's mark on the offer |
| Negotiation.ExpressInterest | main.py:365-376 | marking interest changes no record, logs once under the offer's id, tells the producer once, and marks the offer for the buyer |
| Negotiation.AcceptOffer | main.py:382-396 | accepting makes the offer accepted with the acting buyer, logs once under its id, tells the producer once, and marks the offer for the buyer |
| Negotiation.RejectOffer | main.py:402-413 | turning an offer down changes no record, logs once under its id, tells the producer once, and marks the offer for the buyer |
| Negotiation.AcceptCounter | main.py:491-509 | accepting a counter makes it accepted, logs once under the counter's id, tells the counter's buyer once, and changes no mark |
| Negotiation.RejectCounter | main.py:515-527 | turning a counter down makes it rejected, logs once under the counter's id, tells the counter's buyer once, and changes no mark |
| Negotiation.DeleteOffer | main.py:608-624 | deleting makes the offer deleted, logs once under its id, only appends to the notifications, and changes no mark |
| Negotiation.DeleteCounter | main.py:690-703 | withdrawing makes the counter deleted, logs once under its parent's id, tells the producer once, and changes no mark |
| Invariants.LookupFindsUnique | main.py:147-151 | with unique ids, looking up a record's id finds that record's position |
| Invariants.ParentFound | main.py:476 | in a valid store, a counter's parent is found, and it is an offer other than the counter |
| Invariants.IdsKept | main.py:185-304 | overwriting records in place or appending records loses no id and no offer |
| Invariants.UpdateKeepsValid | main.py:382-399 | rewriting one record's status, buyer, terms or time keeps the store invariant |
| Invariants.AppendKeepsValid | main.py:185-203 | appending a well-formed record with a fresh id whose parent is an offer keeps the store invariant |
| Invariants.AddMarkKeepsValid | main.py:154-161 | marking a record of the store keeps the store invariant |
| Invariants.CreateOfferKeepsValid | main.py:185-218 | publishing an offer with a fresh id keeps the store invariant |
| Invariants.CreateCounterKeepsValid | main.py:221-263 | countering an offer of the buyer's feed keeps the store invariant |
| Invariants.ExpressInterestKeepsValid | main.py:365-379 | marking interest keeps the store invariant |
| Invariants.AcceptOfferKeepsValid | main.py:382-399 | accepting an offer of the feed keeps the store invariant |
| Invariants.RejectOfferKeepsValid | main.py:402-418 | turning an offer down keeps the store invariant |
| Invariants.AcceptCounterKeepsValid | main.py:491-512 | accepting an open counter keeps the store invariant |
| Invariants.RejectCounterKeepsValid | main.py:515-530 | turning an open counter down keeps the store invariant |
| Invariants.ReviseOfferKeepsValid | main.py:266-304 | revising the parent of an open counter keeps the store invariant |
| Invariants.DeleteOfferKeepsValid | main.py:608-629 | deleting one of the producer's offers keeps the store invariant |
| Invariants.DeleteCounterKeepsValid | main.py:690-706 | withdrawing one of the buyer's counters keeps the store invariant |
| Effects.MarkHidesFromMarkerOnly | main.py:338-345 | a mark hides the offer from the buyer who set it, and every other buyer's feed stays exactly as it was |
| Effects.BroadcastCounts | main.py:211-216 | after a broadcast each buyer has one more message and every other user has the same inbox |
| Effects.CreateOfferEffect | main.py:185-218 | publishing appends one open offer with no buyer and no parent, and changes no existing record; it is logged once under its own id; each buyer is told once, with a message naming the offer; it enters every buyer's feed |
| Effects.CreateCounterEffect | main.py:221-263 | the counter is appended, open, with the offer's id as parent, the offer's producer and the commenting buyer; only the offer's update time changes and it stays open; the counter is logged under the offer's id; the producer is told; the offer leaves that buyer's feed; the producer sees the counter among the open ones |
| Effects.ExpressInterestEffect | main.py:365-379 | no record changes; it is logged under the offer's id and the producer is told; the offer leaves this buyer's feed and no other |
| Effects.AcceptOfferEffect | main.py:382-399 | the offer becomes accepted with the acting buyer, and no other field or record changes; the producer is told; the deal is listed among the buyer's closed deals; no buyer's feed shows it any more |
| Effects.RejectOfferEffect | main.py:402-418 | no record changes; it is logged under the offer's id and the producer is told; the offer stays in every other buyer's feed |
| Effects.AcceptCounterRecords | main.py:491-498 | the counter becomes accepted; the parent, found by its id, becomes closed with the counter's buyer; every other record, sibling counters included, is untouched |
| Effects.AcceptCounterEffect | main.py:500-509 | the entry is logged under the counter's id, so the parent's timeline does not change; the counter's buyer is told; no mark changes; the closed offer is listed among that buyer's closed deals |
| Effects.AcceptCounterOverridesAcceptedOffer | main.py:491-498 | accepting an open counter on an offer a buyer already accepted outright closes it for the counter's buyer, and the first buyer's closed deals no longer list it |
| Effects.SiblingCounterStaysOpen | main.py:466-512 | after one counter is accepted, a sibling counter of the same offer stays open and listed; accepting it too closes the offer again, now for the sibling's buyer |
| Effects.RejectCounterEffect | main.py:515-530 | the counter becomes rejected; the parent and every other record are untouched; the counter's buyer is told; the counter leaves the producer's open list |
| Effects.ReviseOfferRecords | main.py:275-286 | the offer's tons, collection, crates and price are overwritten, its notes only when the new notes are non-empty; the offer ends open and the counter answered; every other record is untouched |
| Effects.ReviseOfferEffect | main.py:266-304 | tons, collection, crates and price are overwritten; notes are overwritten only when the new notes are non-empty; id, producer, buyer and creation time stay; the offer ends open and the counter answered; every other record is untouched; the entry is logged under the offer's id; the counter's buyer is told; that buyer's mark is cleared and all other marks kept, so the offer is back in that buyer's feed |
| Effects.ReviseReopensClosedDeal | main.py:266-279 | revising through an open counter whose parent was already closed re-opens that deal; the offer still names the earlier buyer and shows in the counter's buyer's feed |
| Effects.DeleteOfferEffect | main.py:608-629 | the offer becomes deleted and nothing else in the store changes; it is logged under its id; every buyer is told once, with a message naming the offer; no buyer's feed shows it any more |
| Effects.DeleteCounterEffect | main.py:690-706 | the counter becomes deleted and nothing else changes; the entry goes to the parent offer's timeline, not the counter's; the producer is told; the counter leaves the producer's open list |
| Engine.Session.constructor | main.py:94-108 | a session starts from the loaded offers, history and notifications with no buyer marks, and satisfies the invariant |
| Engine.Session.RecordHistory | main.py:125-134 | one entry is appended to the history log and nothing else changes |
| Engine.Session.Notify | main.py:137-144 | one message is appended to the notification log and nothing else changes |
| Engine.Session.NotifyBuyers | main.py:211-216 | walking the directory appends exactly the buyer broadcast, in directory order |
| Engine.Session.GetOfferById | main.py:147-151 | the scan returns the position of the first record with the id, or nothing |
| Engine.Session.HasProcessed | main.py:164-168 | the scan answers true exactly when the (buyer, offer) pair is marked |
| Engine.Session.MarkProcessed | main.py:154-161 | the marks become the old marks with the pair added once |
| Engine.Session.ClearMark | main.py:171-178 | the marks are rebuilt without the cleared pair, every other pair in order |
| Engine.Session.CreateOffer | main.py:185-218 | the new state is the published state, and the invariant holds |
| Engine.Session.CreateCounter | main.py:221-263 | for an offer of the buyer's feed, the new state is the countered state, and the invariant holds |
| Engine.Session.ReviseOffer | main.py:266-304 | for one of the producer's open counters whose parent is found, the new state is the revised state, and the invariant holds |
| Engine.Session.ExpressInterest | main.py:365-379 | for an offer of the buyer's feed, the new state is the state with interest recorded, and the invariant holds |
| Engine.Session.AcceptOffer | main.py:382-399 | for an offer of the buyer's feed, the new state is the accepted state, and the invariant holds |
| Engine.Session.RejectOffer | main.py:402-418 | for an offer of the buyer's feed, the new state is the rejected state, and the invariant holds |
| Engine.Session.AcceptCounter | main.py:491-512 | for one of the producer's open counters, the new state is the accepted-counter state, and the invariant holds |
| Engine.Session.RejectCounter | main.py:515-530 | for one of the producer's open counters, the new state is the rejected-counter state, and the invariant holds |
| Engine.Session.DeleteOffer | main.py:608-629 | for the producer's offer that is neither closed nor accepted, the new state is the deleted state, and the invariant holds |
| Engine.Session.DeleteCounter | main.py:690-706 | for the buyer's open counter, the new state is the withdrawn state, and the invariant holds |
| Engine.Session.AvailableOffers | main.py:338-345 | the buyer's feed is exactly the offers that are not closed, accepted or deleted and not marked for that buyer, in store order |
| Engine.Session.OpenCountersOf | main.py:466-469 | the producer's list is exactly that producer's open counters, in store order |
| Engine.Session.OffersOf | main.py:589-592 | the list is exactly the producer's offers, in store order |
| Engine.Session.CountersOf | main.py:670-673 | the list is exactly the buyer's counters, in store order |
| Engine.Session.ClosedDealsOf | main.py:732-739 | the list is exactly the closed or accepted offers naming the buyer, in store order |
| Scenarios.ClosedDealChangesHands | main.py:491-512 | with two open counters on one offer, accepting the first closes the offer for its buyer; revising through the second re-opens it, still naming the first buyer and back in the second buyer's feed; the second buyer can then accept it and the deal becomes theirs |

## Where the code and the documented design differ

The model follows the code in each case.

- The design treats closed, accepted and deleted offers as final. In the code, the producer can
  still revise through any open counter, including a sibling counter of an offer already closed
  by another counter's acceptance. The revision sets the offer back to open and keeps the earlier
  buyer. The offer then reappears in the feed of every buyer who has not marked it. The code
  never checks the parent's status (main.py:266-279, 537). See `Effects.ReviseReopensClosedDeal`
  and `Scenarios.ClosedDealChangesHands`.
- Accepting one counter leaves its siblings open (main.py:491-498). The producer can accept a
  second one, which closes the offer again for another buyer. See `Effects.SiblingCounterStaysOpen`.
- A buyer's outright acceptance does not end the negotiation either. The producer can still accept
  an open counter on that offer, because accepting a counter never looks at the parent's status
  (main.py:491-498). The offer becomes closed for the counter's buyer, and the buyer who accepted
  it first loses the deal. See `Effects.AcceptCounterOverridesAcceptedOffer`.
- An offer may be deleted whenever it is neither closed nor accepted (main.py:608). Deleting an
  offer that is already deleted is therefore possible, and it is logged and broadcast again.
- Accepting or rejecting a counter is logged under the counter's id (main.py:500-501, 518-519).
  Withdrawing a counter is logged under the parent offer's id (main.py:694-695). So the producer's
  history view of an offer, filtered by the offer's id, shows a withdrawal but not an acceptance.

## Left out

- Streamlit rendering, styling, widgets, tabs and the re-run control flow are UI. Only the list
  filters and the state changes behind the buttons are modelled.
- Login and the fixed credential table (main.py:87-92, 311-327) are out of scope. Users enter only
  as a directory of names and roles.
- CSV persistence (`load_csv_list`, `save_csv_list`, `save_all`, main.py:46-74) is file I/O, with
  its handling of missing values. The session starts from already loaded lists.
- Engine.Session.constructor: requires the loaded store to satisfy the invariant. The program
  trusts its CSV files and does not check them.
- `ahora()` and `generar_id()` (main.py:115-122) call the clock and a UUID generator. They are
  parameters. All `ahora()` calls within one operation are taken to return the same time.
- The per-offer history CSV export (main.py:637-646, 716-725) is output formatting only.
- Sorting notifications by their date string (main.py:766) is display order. The model keeps log
  order.
- Tons and price are floating-point numbers in the program; they are `real` here. No arithmetic is
  done on them.
- Two sessions writing the same CSV files at once are not modelled. The program has no
  concurrency logic.
- Negotiation.AcceptCounter, Negotiation.RejectCounter, Negotiation.ReviseOffer,
  Negotiation.DeleteCounter: when a counter has no buyer or no parent, the program uses Python's
  `None` as the notification target, the mark's buyer or the logged offer id. The model uses the
  string "None" in each place (`Records.FieldText`). A valid store never has such a counter.
