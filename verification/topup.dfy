/**
 The checkout page (pages/TopUp.tsx): which packages it offers for the
 hash, the 5% tax and total, the validation chain of the Buy button and
 the order it hands to the store, and the collection number it shows for
 a payment method.
 */
module TopUp {
  import opened SeqUtil
  import opened JsString
  import opened Types
  import opened Constants
  import opened MockApi

  datatype Quote = Quote(base: nat, tax: nat, total: nat)

  /** `calculateTotal(price)`: the tax is 5% of the price rounded up to a whole taka. */
  function CalculateTotal(price: nat): (q: Quote)
    ensures q.base == price
    ensures 100 * q.tax >= 5 * price && 100 * (q.tax - 1) < 5 * price
    ensures q.total == price + q.tax && q.total >= price
  {
    var tax := (5 * price + 99) / 100;
    Quote(price, tax, price + tax)
  }

  /** The totals the catalogue shows, package by package. */
  lemma CatalogueTotals()
    ensures forall i :: 0 <= i < |Packages| ==>
      CalculateTotal(Packages[i].priceBDT).total == [90, 184, 452, 893, 1785, 168, 788, 100, 473, 924][i]
  {
  }

  // ---- Which category and packages the page shows ----

  const TopUpSeparator: string := "/topup/"

  /** `window.location.hash.split('/topup/')[1]`; None is `undefined`. */
  function TopUpCategoryId(hash: string): Option<string> {
    SecondPiece(hash, TopUpSeparator)
  }

  /** `CATEGORIES.find(c => c.id === categoryId)`. */
  function FindCategory(hash: string): (r: Option<Category>)
    ensures r.Some? ==> r.value in Categories && TopUpCategoryId(hash) == Some(r.value.id)
    ensures r.None? ==> forall i :: 0 <= i < |Categories| ==> TopUpCategoryId(hash) != Some(Categories[i].id)
  {
    match TopUpCategoryId(hash)
    case None => None
    case Some(cid) =>
      match FirstIndex(Categories, (c: Category) => c.id == cid)
      case Some(k) => Some(Categories[k])
      case None => None
  }

  /** `PACKAGES.filter(p => p.categoryId === categoryId)`: nothing matches `undefined`. */
  function OfferedPackages(hash: string): (r: seq<Package>)
    ensures forall i :: 0 <= i < |r| ==> r[i] in Packages && TopUpCategoryId(hash) == Some(r[i].categoryId)
    ensures forall i :: 0 <= i < |Packages| && TopUpCategoryId(hash) == Some(Packages[i].categoryId) ==>
      Packages[i] in r
    ensures IsSubsequence(r, Packages)
  {
    match TopUpCategoryId(hash)
    case None => []
    case Some(cid) => Filter(Packages, (p: Package) => p.categoryId == cid)
  }

  /** An id with no '/' contains no "/topup/". */
  lemma NoSlashNoSeparator(id: string)
    requires forall i :: 0 <= i < |id| ==> id[i] != '/'
    ensures IndexOf(id, TopUpSeparator).None?
  {
    forall i | 0 <= i <= |id| ensures !OccursAt(id, TopUpSeparator, i) {
      if i + |TopUpSeparator| <= |id| {
        assert id[i..i + |TopUpSeparator|][0] == id[i];
      }
    }
  }

  /** The card link `#/topup/<id>` of the home page reads back as id. */
  lemma {:induction false} CardLinkRoundTrip(id: string)
    requires IndexOf(id, TopUpSeparator).None?
    ensures TopUpCategoryId("#/topup/" + id) == Some(id)
  {
    var h := "#/topup/" + id;
    assert OccursAt(h, TopUpSeparator, 1) by {
      assert h[1..8] == TopUpSeparator;
    }
    assert !OccursAt(h, TopUpSeparator, 0) by {
      assert h[0] == '#';
    }
    assert IndexOf(h, TopUpSeparator) == Some(1);
    assert h[1 + |TopUpSeparator|..] == id;
  }

  /** Every catalogue card opens its own category. */
  lemma CardLinksOpenTheirCategory()
    ensures forall i :: 0 <= i < |Categories| ==> TopUpCategoryId("#/topup/" + Categories[i].id) == Some(Categories[i].id)
  {
    forall i | 0 <= i < |Categories|
      ensures TopUpCategoryId("#/topup/" + Categories[i].id) == Some(Categories[i].id)
    {
      NoSlashNoSeparator(Categories[i].id);
      CardLinkRoundTrip(Categories[i].id);
    }
  }

  // ---- The Buy button ----

  /** The page's form state; an unset payment method (`''`) is None. */
  datatype CheckoutForm = CheckoutForm(
    selected: Option<Package>,
    playerId: string,
    playerName: string,
    payMethod: Option<OrderMethod>,
    trxId: string,
    senderNumber: string
  )

  datatype BuyError = NoPackage | NoPlayerId | NoMethod | NoTrxId | NoSenderNumber

  function BuyErrorMessage(e: BuyError): string {
    match e
    case NoPackage => "Please select a package"
    case NoPlayerId => "Player ID is required"
    case NoMethod => "Select a payment method"
    case NoTrxId => "Transaction ID is missing"
    case NoSenderNumber => "Sender number is missing"
  }

  /** What the page-side checks of `handleBuy` decide. */
  datatype Precheck = NeedLogin | Invalid(error: BuyError) | Ready(draft: OrderDraft)

  /** The order `handleBuy` sends: priced by `calculateTotal`, proof fields
      only for a direct payment. */
  function BuildDraft(user: User, categoryId: string, pkg: Package, f: CheckoutForm, m: OrderMethod): OrderDraft {
    var q := CalculateTotal(pkg.priceBDT);
    OrderDraft(user.id, user.uid, categoryId, pkg.diamonds, q.total, q.base, q.tax, m,
      if m != Wallet then Some(f.trxId) else None,
      if m != Wallet then Some(f.senderNumber) else None,
      f.playerId, Some(f.playerName))
  }

  /** The checks of `handleBuy`, in the source's order; the first that fails wins. */
  function CheckBuy(user: Option<User>, categoryId: string, f: CheckoutForm): (r: Precheck)
    ensures r.NeedLogin? <==> user.None?
    ensures r.Ready? <==>
      && user.Some? && f.selected.Some? && !IsBlank(f.playerId) && f.payMethod.Some?
      && (f.payMethod.value != Wallet ==> f.trxId != "")
      && (f.payMethod.value != Wallet && f.payMethod.value != OrderBinance ==> f.senderNumber != "")
    ensures r == Invalid(NoPackage) ==> user.Some? && f.selected.None?
    ensures r == Invalid(NoPlayerId) ==> user.Some? && f.selected.Some? && IsBlank(f.playerId)
    ensures r == Invalid(NoMethod) ==> user.Some? && f.selected.Some? && !IsBlank(f.playerId) && f.payMethod.None?
    ensures r == Invalid(NoTrxId) ==>
      user.Some? && f.selected.Some? && !IsBlank(f.playerId) && f.payMethod.Some?
      && f.payMethod.value != Wallet && f.trxId == ""
    ensures r == Invalid(NoSenderNumber) ==>
      user.Some? && f.selected.Some? && !IsBlank(f.playerId) && f.payMethod.Some?
      && f.payMethod.value != Wallet && f.payMethod.value != OrderBinance && f.trxId != "" && f.senderNumber == ""
    ensures r.Ready? ==>
      var d, u, pkg, m := r.draft, user.value, f.selected.value, f.payMethod.value;
      && d.userId == u.id && d.userUid == u.uid && d.categoryId == categoryId
      && d.packageDetails == pkg.diamonds && d.paymentMethod == m
      && d.basePrice == pkg.priceBDT && d.tax == CalculateTotal(pkg.priceBDT).tax
      && d.amount == d.basePrice + d.tax
      && (m == Wallet ==> d.trxId.None? && d.senderNumber.None?)
      && (m != Wallet ==> d.trxId == Some(f.trxId) && d.senderNumber == Some(f.senderNumber))
      && d.targetPlayerId == f.playerId && d.targetPlayerName == Some(f.playerName)
  {
    TrimEmptyIffBlank(f.playerId);
    if user.None? then NeedLogin
    else if f.selected.None? then Invalid(NoPackage)
    else if Trim(f.playerId) == "" then Invalid(NoPlayerId)
    else if f.payMethod.None? then Invalid(NoMethod)
    else if f.payMethod.value != Wallet && f.trxId == "" then Invalid(NoTrxId)
    else if f.payMethod.value != Wallet && f.payMethod.value != OrderBinance && f.senderNumber == "" then
      Invalid(NoSenderNumber)
    else Ready(BuildDraft(user.value, categoryId, f.selected.value, f, f.payMethod.value))
  }

  /** The page-side checks make the store's direct-payment checks redundant:
      an order from this page can only fail for an unknown user or, paid from
      the wallet, a short balance. */
  lemma CheckedOrderFailsOnlyOnUserOrBalance(s: Store, user: Option<User>, categoryId: string, f: CheckoutForm,
                                             id: string, date: string)
    requires CheckBuy(user, categoryId, f).Ready?
    ensures var d := CheckBuy(user, categoryId, f).draft;
      var r := CreateOrder(s, d, id, date);
      r.result.Err? ==>
        || r.result.error == UserNotFound
        || (r.result.error == InsufficientBalance && d.paymentMethod == Wallet)
  {
  }

  datatype BuyOutcome = GoToLogin | ShowError(message: string) | OrderPlaced

  datatype BuyReply = BuyReply(store: Store, outcome: BuyOutcome)

  /** `handleBuy()`: `createOrder` is called only when every page-side check passes. */
  function HandleBuy(s: Store, user: Option<User>, categoryId: string, f: CheckoutForm,
                     id: string, date: string): (r: BuyReply)
    ensures !CheckBuy(user, categoryId, f).Ready? ==> r.store == s
    ensures user.None? ==> r.outcome == GoToLogin
    ensures CheckBuy(user, categoryId, f).Invalid? ==>
      r.outcome == ShowError(BuyErrorMessage(CheckBuy(user, categoryId, f).error))
    ensures CheckBuy(user, categoryId, f).Ready? ==>
      var reply := CreateOrder(s, CheckBuy(user, categoryId, f).draft, id, date);
      && r.store == reply.store
      && (r.outcome == OrderPlaced <==> reply.result.Ok?)
      && (reply.result.Err? ==> r.outcome == ShowError(ErrorMessage(reply.result.error)))
  {
    match CheckBuy(user, categoryId, f)
    case NeedLogin => BuyReply(s, GoToLogin)
    case Invalid(e) => BuyReply(s, ShowError(BuyErrorMessage(e)))
    case Ready(d) =>
      var reply := CreateOrder(s, d, id, date);
      match reply.result
      case Ok(_) => BuyReply(reply.store, OrderPlaced)
      case Err(e) => BuyReply(reply.store, ShowError(ErrorMessage(e)))
  }

  /** `getPaymentNumber(method)`: the collection number of bKash, Nagad or
      Binance from the loaded settings (the seed ones before they load), and
      '' for anything else, Wallet included. */
  function GetPaymentNumber(settings: Option<AppSettings>, methodName: string): (r: string)
    ensures var nums := if settings.Some? then settings.value.paymentNumbers else DefaultPaymentNumbers;
      && (methodName == OrderMethodName(OrderBkash) ==> r == nums.bkash)
      && (methodName == OrderMethodName(OrderNagad) ==> r == nums.nagad)
      && (methodName == OrderMethodName(OrderBinance) ==> r == nums.binance)
      && (methodName != "bKash" && methodName != "Nagad" && methodName != "Binance" ==> r == "")
  {
    var nums := match settings case Some(x) => x.paymentNumbers case None => DefaultPaymentNumbers;
    if methodName == "bKash" then nums.bkash
    else if methodName == "Nagad" then nums.nagad
    else if methodName == "Binance" then nums.binance
    else ""
  }

  /** A wallet order shows no collection number. */
  lemma WalletShowsNoNumber(settings: Option<AppSettings>)
    ensures GetPaymentNumber(settings, OrderMethodName(Wallet)) == ""
  {
  }
}
