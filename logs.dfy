/** The append-only history log and notification log, the queries that read
    them, and the broadcast that notifies every buyer of the directory. */
module Logs {
  import opened Records

  /** The entries logged under `offerId`, in the order they were appended. */
  function HistoryFor(history: seq<HistoryEntry>, offerId: string): (r: seq<HistoryEntry>)
    ensures forall e :: e in r <==> e in history && e.offerId == offerId
    ensures |r| <= |history|
  {
    if history == [] then []
    else (if history[0].offerId == offerId then [history[0]] else []) + HistoryFor(history[1..], offerId)
  }

  /** The timeline of an offer over two stretches of the log is the two timelines joined. */
  lemma {:induction false} HistoryForAppend(a: seq<HistoryEntry>, b: seq<HistoryEntry>, offerId: string)
    ensures HistoryFor(a + b, offerId) == HistoryFor(a, offerId) + HistoryFor(b, offerId)
  {
    if a == [] {
      assert a + b == b;
    } else {
      assert (a + b)[0] == a[0];
      assert (a + b)[1..] == a[1..] + b;
      HistoryForAppend(a[1..], b, offerId);
    }
  }

  /** The messages addressed to `user`, in the order they were appended. */
  function NotificationsFor(notifications: seq<Notification>, user: string): (r: seq<Notification>)
    ensures forall n :: n in r <==> n in notifications && n.target == user
    ensures |r| <= |notifications|
  {
    if notifications == [] then []
    else (if notifications[0].target == user then [notifications[0]] else []) + NotificationsFor(notifications[1..], user)
  }

  /** A user's messages over two stretches of the log are the two parts joined. */
  lemma {:induction false} NotificationsForAppend(a: seq<Notification>, b: seq<Notification>, user: string)
    ensures NotificationsFor(a + b, user) == NotificationsFor(a, user) + NotificationsFor(b, user)
  {
    if a == [] {
      assert a + b == b;
    } else {
      assert (a + b)[0] == a[0];
      assert (a + b)[1..] == a[1..] + b;
      NotificationsForAppend(a[1..], b, user);
    }
  }

  /** `after` is `before` with exactly one entry appended, filed under `offerId`. */
  predicate LoggedOnce(before: seq<HistoryEntry>, after: seq<HistoryEntry>, offerId: string)
  {
    |after| == |before| + 1 && after[..|before|] == before && after[|before|].offerId == offerId
  }

  /** One entry logged under `offerId` extends that offer's timeline by the entry
      and leaves the timeline of every other id as it was. */
  lemma LoggedOnceTimelines(before: seq<HistoryEntry>, after: seq<HistoryEntry>, offerId: string)
    requires LoggedOnce(before, after, offerId)
    ensures HistoryFor(after, offerId) == HistoryFor(before, offerId) + [after[|before|]]
    ensures forall other :: other != offerId ==> HistoryFor(after, other) == HistoryFor(before, other)
  {
    var e := after[|before|];
    assert after == before + [e];
    HistoryForAppend(before, [e], offerId);
    forall other | other != offerId
      ensures HistoryFor(after, other) == HistoryFor(before, other)
    {
      HistoryForAppend(before, [e], other);
    }
  }

  /** `after` is `before` with exactly one message appended, addressed to `user`. */
  predicate NotifiedOnce(before: seq<Notification>, after: seq<Notification>, user: string)
  {
    |after| == |before| + 1 && after[..|before|] == before && after[|before|].target == user
  }

  /** One message to `user` extends that user's inbox by the message and leaves
      every other inbox as it was. */
  lemma NotifiedOnceInboxes(before: seq<Notification>, after: seq<Notification>, user: string)
    requires NotifiedOnce(before, after, user)
    ensures NotificationsFor(after, user) == NotificationsFor(before, user) + [after[|before|]]
    ensures forall other :: other != user ==> NotificationsFor(after, other) == NotificationsFor(before, other)
  {
    var n := after[|before|];
    assert after == before + [n];
    NotificationsForAppend(before, [n], user);
    forall other | other != user
      ensures NotificationsFor(after, other) == NotificationsFor(before, other)
    {
      NotificationsForAppend(before, [n], other);
    }
  }

  /** The message a broadcast sends to one directory entry: one for a buyer, none otherwise. */
  function BroadcastTo(u: User, message: string, now: string): seq<Notification>
  {
    if u.role == Buyer then [Notification(u.name, message, now)] else []
  }

  /** The messages a broadcast to every buyer appends, in directory order. */
  function BuyerNotes(users: seq<User>, message: string, now: string): (r: seq<Notification>)
    ensures forall n :: n in r <==> n.message == message && n.date == now && IsBuyer(users, n.target)
  {
    if users == [] then []
    else BroadcastTo(users[0], message, now) + BuyerNotes(users[1..], message, now)
  }

  /** Broadcasting over two stretches of the directory is the two broadcasts joined. */
  lemma {:induction false} BuyerNotesAppend(a: seq<User>, b: seq<User>, message: string, now: string)
    ensures BuyerNotes(a + b, message, now) == BuyerNotes(a, message, now) + BuyerNotes(b, message, now)
  {
    if a == [] {
      assert a + b == b;
    } else {
      assert (a + b)[0] == a[0];
      assert (a + b)[1..] == a[1..] + b;
      BuyerNotesAppend(a[1..], b, message, now);
    }
  }

  /** Extending the walked prefix of the directory by one user adds that user's message, if any. */
  lemma BuyerNotesStep(users: seq<User>, i: nat, message: string, now: string)
    requires i < |users|
    ensures BuyerNotes(users[..i + 1], message, now) == BuyerNotes(users[..i], message, now) + BroadcastTo(users[i], message, now)
  {
    assert users[..i + 1] == users[..i] + [users[i]];
    BuyerNotesAppend(users[..i], [users[i]], message, now);
    assert [users[i]][1..] == [];
  }

  /** A broadcast reaches every buyer of the directory exactly once and nobody else. */
  lemma {:induction false} BroadcastReachesEachBuyerOnce(users: seq<User>, message: string, now: string, u: string)
    requires UniqueNames(users)
    ensures |NotificationsFor(BuyerNotes(users, message, now), u)| == if IsBuyer(users, u) then 1 else 0
  {
    if users != [] {
      var x, rest := users[0], users[1..];
      assert users == [x] + rest;
      assert UniqueNames(rest) by {
        forall i, j | 0 <= i < j < |rest| ensures rest[i].name != rest[j].name {
          assert rest[i] == users[i + 1] && rest[j] == users[j + 1];
        }
      }
      BroadcastReachesEachBuyerOnce(rest, message, now, u);
      NotificationsForAppend(BroadcastTo(x, message, now), BuyerNotes(rest, message, now), u);
      if x.name == u {
        assert !IsBuyer(rest, u);
        assert IsBuyer(users, u) <==> x.role == Buyer;
      } else {
        assert NotificationsFor(BroadcastTo(x, message, now), u) == [];
        assert IsBuyer(users, u) <==> IsBuyer(rest, u);
      }
    }
  }
}
