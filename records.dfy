/** The records of the negotiation engine: offers and counters (one flat record
    type with a kind discriminator, as the store keeps them), history entries,
    notifications, visibility marks, and the user directory. */
module Records {

  datatype Option<+T> = None | Some(value: T)

  /** Roles of the user directory. */
  datatype Role = Producer | Buyer

  /** One entry of the user directory (username and role); the directory is
      its ordered sequence of entries. */
  datatype User = User(name: string, role: Role)

  /** `tipo` of a record: a producer's offer or a buyer's counter. */
  datatype Kind = Offer | Counter

  /** Statuses of both kinds. Offers use Open, Accepted, Closed, Deleted;
      counters use Open, Accepted, Rejected, Answered, Deleted. */
  datatype Status = Open | Accepted | Closed | Rejected | Answered | Deleted

  /** The business terms: tons, collection days, crates, price and notes. */
  datatype Terms = Terms(tons: real, collection: string, crates: string, price: real, notes: string)

  /** An offer or counter as it sits in the record store. `buyer` is unset on a
      fresh offer; `parentOfferId` is set only on counters. */
  datatype Record = Record(
    id: string,
    kind: Kind,
    producer: string,
    buyer: Option<string>,
    parentOfferId: Option<string>,
    terms: Terms,
    status: Status,
    createdAt: string,
    updatedAt: string)

  /** One line of the action log, keyed by offer id. */
  datatype HistoryEntry = HistoryEntry(offerId: string, actor: string, action: string, detail: string, date: string)

  /** One message for one user. */
  datatype Notification = Notification(target: string, message: string, date: string)

  /** "This buyer has already dispositioned this offer": hides it from the buyer's feed. */
  datatype Mark = Mark(buyer: string, offerId: string)

  /** The user names are distinct, as the keys of a dictionary are. */
  predicate UniqueNames(users: seq<User>)
  {
    forall i, j :: 0 <= i < j < |users| ==> users[i].name != users[j].name
  }

  /** `u` is in the directory with the buyer role. */
  predicate IsBuyer(users: seq<User>, u: string)
  {
    User(u, Buyer) in users
  }

  /** An optional field as an f-string renders it: the value, or "None" when unset. */
  function FieldText(u: Option<string>): string
  {
    match u
    case Some(name) => name
    case None => "None"
  }
}
