/**
 The landing page (pages/Home.tsx): the live-activity ticker built from the
 newest orders and padded with canned lines, its rotation, the hero
 slideshow counter, and the grouping of the catalogue cards.
 */
module Home {
  import opened SeqUtil
  import opened JsString
  import opened Types
  import opened Constants

  const TickerSize: nat := 5

  const Templates: seq<string> := [
    "User ***89 purchased 115 Diamonds",
    "Player ***21 claimed Monthly Membership",
    "User ***99 purchased 50 Diamonds",
    "Player ***05 just redeemed 60 UC"
  ]

  /** One real ticker line: only the last two characters of the buyer's uid show. */
  function ActivityLine(o: Order): string {
    "Player ***" + SliceLast(o.userUid(), 2) + " bought " + o.draft.packageDetails
  }

  /** `orders.map(ActivityLine)`. */
  function ActivityLines(os: seq<Order>): (r: seq<string>)
    ensures |r| == |os|
    ensures forall i :: 0 <= i < |os| ==> r[i] == ActivityLine(os[i])
  {
    if os == [] then [] else [ActivityLine(os[0])] + ActivityLines(os[1..])
  }

  /** `[...realData, ...templates].slice(0, 5)` with realData from the five newest orders. */
  function Ticker(orders: seq<Order>): (r: seq<string>)
    ensures |r| == (if |orders| == 0 then 4 else TickerSize)
    ensures forall i :: 0 <= i < |r| && i < |orders| ==> r[i] == ActivityLine(orders[i])
    ensures forall i :: |orders| <= i < |r| ==> r[i] == Templates[i - |orders|]
  {
    var recent := if |orders| < TickerSize then orders else orders[..TickerSize];
    var lines := ActivityLines(recent) + Templates;
    if |lines| < TickerSize then lines else lines[..TickerSize]
  }

  /** A real ticker line shows the buyer's uid only through its last two characters. */
  lemma TickerHidesUid(orders: seq<Order>, i: nat)
    requires i < |orders| && i < TickerSize && |orders[i].userUid()| >= 2
    ensures var u := orders[i].userUid();
      Ticker(orders)[i] == "Player ***" + u[|u| - 2..] + " bought " + orders[i].draft.packageDetails
  {
  }

  /** One tick of the ticker: `const [first, ...rest] = prev; return [...rest, first]`.
      On an empty list `first` is `undefined`, given here as `missing`. */
  function Rotate<T>(xs: seq<T>, missing: T): (r: seq<T>)
    ensures |xs| > 0 ==> |r| == |xs| && r[|r| - 1] == xs[0]
    ensures |xs| > 0 ==> forall i :: 0 <= i < |xs| - 1 ==> r[i] == xs[i + 1]
    ensures |xs| == 0 ==> r == [missing]
  {
    if |xs| == 0 then [missing] else xs[1..] + [xs[0]]
  }

  function RotateTimes<T>(xs: seq<T>, missing: T, n: nat): seq<T>
    decreases n
  {
    if n == 0 then xs else RotateTimes(Rotate(xs, missing), missing, n - 1)
  }

  /** After k ticks the list is the original with its first k entries moved to the end. */
  lemma {:induction false} RotateTimesShifts<T>(xs: seq<T>, missing: T, k: nat)
    requires k <= |xs|
    ensures RotateTimes(xs, missing, k) == xs[k..] + xs[..k]
    decreases k
  {
    if k > 0 {
      var ys := Rotate(xs, missing);
      assert ys == xs[1..] + [xs[0]];
      RotateTimesShifts(ys, missing, k - 1);
      assert ys[k - 1..] == (xs[1..] + [xs[0]])[k - 1..] == xs[1..][k - 1..] + [xs[0]];
      assert ys[..k - 1] == xs[1..k];
      assert xs[..k] == [xs[0]] + xs[1..k];
    }
  }

  /** A rotation keeps every line, and a full round of ticks shows the ticker as it began. */
  lemma {:induction false} RotationIsPermutation<T>(xs: seq<T>, missing: T)
    requires |xs| > 0
    ensures multiset(Rotate(xs, missing)) == multiset(xs)
    ensures RotateTimes(xs, missing, |xs|) == xs
  {
    assert xs == [xs[0]] + xs[1..];
    RotateTimesShifts(xs, missing, |xs|);
  }

  const SlideCount: nat := 3

  /** `(prev + 1) % slides.length`; the counter starts at 0. */
  function NextSlide(prev: nat): (r: nat)
    ensures r < SlideCount
    ensures prev + 1 < SlideCount ==> r == prev + 1
    ensures prev + 1 == SlideCount ==> r == 0
  {
    (prev + 1) % SlideCount
  }

  /** The slideshow visits every slide and comes back after three steps. */
  lemma SlidesCycle(i: nat)
    requires i < SlideCount
    ensures NextSlide(NextSlide(NextSlide(i))) == i
    ensures {i, NextSlide(i), NextSlide(NextSlide(i))} == {0, 1, 2}
  {
  }

  /** `CATEGORIES.filter(c => c.group === g)`. */
  function GroupCards(g: CategoryGroup): (r: seq<Category>)
    ensures forall i :: 0 <= i < |r| ==> r[i] in Categories && r[i].group == g
    ensures forall i :: 0 <= i < |Categories| && Categories[i].group == g ==> Categories[i] in r
    ensures IsSubsequence(r, Categories)
  {
    Filter(Categories, (c: Category) => c.group == g)
  }

  /** The three sections of the home page show every catalogue card. */
  lemma SectionsCoverCatalogue()
    ensures forall i :: 0 <= i < |Categories| ==>
      Categories[i] in GroupCards(FreeFire) || Categories[i] in GroupCards(Pubg) || Categories[i] in GroupCards(Subscription)
  {
    forall i | 0 <= i < |Categories|
      ensures Categories[i] in GroupCards(FreeFire) || Categories[i] in GroupCards(Pubg) || Categories[i] in GroupCards(Subscription)
    {
      assert Categories[i].group != OtherGroup;
    }
  }
}
