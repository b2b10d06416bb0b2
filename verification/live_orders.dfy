/**
 The public order feed (pages/LiveOrders.tsx): the newest orders, with each
 buyer's uid masked down to its first and last two characters.
 */
module LiveOrders {
  import opened SeqUtil
  import opened JsString
  import opened Types
  import opened MockApi

  const FeedSize: nat := 20

  /** `getOrders().slice(0, 20)`: the store keeps the newest order first. */
  function LiveFeed(orders: seq<Order>): (r: seq<Order>)
    ensures |r| == (if |orders| < FeedSize then |orders| else FeedSize)
    ensures r == orders[..|r|]
  {
    if |orders| < FeedSize then orders else orders[..FeedSize]
  }

  /** A freshly placed order heads the feed, and the rest of the feed is the
      older feed with its last entry dropped once it is full. */
  lemma PlacedOrderLeadsFeed(s: Store, d: OrderDraft, id: string, date: string)
    requires CreateOrder(s, d, id, date).result.Ok?
    ensures var feed := LiveFeed(CreateOrder(s, d, id, date).store.orders);
      && feed[0] == PlacedOrder(d, id, date)
      && feed[1..] == LiveFeed(s.orders)[..|feed| - 1]
  {
    var os := CreateOrder(s, d, id, date).store.orders;
    assert os == [PlacedOrder(d, id, date)] + s.orders;
    var feed := LiveFeed(os);
    assert forall i :: 1 <= i < |feed| ==> feed[i] == s.orders[i - 1];
  }

  /** `maskUid(uid)`: '******' for an empty uid, otherwise the first two and
      the last two characters around four stars (`substring` clamps, so a
      one-character uid shows on both sides). */
  function MaskUid(uid: string): (r: string)
    ensures uid == "" ==> r == "******"
    ensures |uid| >= 2 ==> r == uid[..2] + "****" + uid[|uid| - 2..]
    ensures |uid| == 1 ==> r == uid + "****" + uid
  {
    if uid == "" then "******"
    else Substring(uid, 0, 2) + "****" + Substring(uid, |uid| - 2, |uid|)
  }

  /** The mask has a fixed shape: it never reveals more than four characters
      of the uid, and the middle is always stars. */
  lemma MaskRevealsAtMostFour(uid: string)
    ensures |MaskUid(uid)| == (if |uid| >= 2 then 8 else 6)
    ensures forall i :: 2 <= i < |MaskUid(uid)| - 2 ==> MaskUid(uid)[i] == '*'
    ensures |uid| >= 2 ==> MaskUid(uid)[..2] == uid[..2] && MaskUid(uid)[6..] == uid[|uid| - 2..]
  {
  }
}
