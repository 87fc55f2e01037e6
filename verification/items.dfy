/**
 The domain records a list screen can show. They are immutable once fetched;
 only the fields the list screen reads are modelled.
 */
module Items {

  /** A transfer amount. Only the currency formatter looks at it, so it stays opaque. */
  type Amount(==, !new)

  /** A point in time. Only the date formatter looks at it, so it stays opaque. */
  type Date(==, !new)

  datatype Friend = Friend(name: string, phone: string)

  datatype Card = Card(number: string, holder: string)

  /** A money transfer. `isSender` is true when the current user sent it. */
  datatype Transfer = Transfer(
    amount: Amount,
    currencyCode: string,
    description: string,
    date: Date,
    sender: string,
    recipient: string,
    isSender: bool)

  /** The closed set of item kinds a list can hold. */
  datatype Item = FriendItem(friend: Friend) | CardItem(card: Card) | TransferItem(transfer: Transfer)

  function FriendItems(friends: seq<Friend>): seq<Item> {
    seq(|friends|, i requires 0 <= i < |friends| => FriendItem(friends[i]))
  }

  function CardItems(cards: seq<Card>): seq<Item> {
    seq(|cards|, i requires 0 <= i < |cards| => CardItem(cards[i]))
  }

  function TransferItems(transfers: seq<Transfer>): seq<Item> {
    seq(|transfers|, i requires 0 <= i < |transfers| => TransferItem(transfers[i]))
  }
}
