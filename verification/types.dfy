/**
 The records the store keeps (types.ts): users, orders, deposit requests,
 settings, and the catalogue entries, with each string-literal union type as
 a datatype whose constructors are its literals. Optional fields (`x?: T`)
 and nullable ones (`T | null`) are Option values.
 */
module Types {
  import opened SeqUtil

  /** 'user' | 'admin' */
  datatype UserRole = RegularUser | AdminUser

  datatype User = User(
    id: string,
    uid: string,                   // the player id used as the login key
    name: string,
    password: Option<string>,      // optional; absent on legacy records
    balance: int,
    tokens: nat,
    role: UserRole,
    referralCode: string,
    streakDays: nat,
    lastClaimDate: Option<string>  // a 'YYYY-MM-DD' day, or null
  )

  datatype CategoryGroup = FreeFire | Pubg | Subscription | OtherGroup

  datatype Category = Category(id: string, title: string, group: CategoryGroup, image: string)

  datatype Package = Package(
    id: string,
    categoryId: string,
    diamonds: string,
    priceBDT: nat,
    bonus: Option<string>,
    tag: Option<string>
  )

  /** 'pending' | 'completed' | 'rejected' */
  datatype OrderStatus = OrderPending | OrderCompleted | OrderRejected

  /** The payment methods an order may use: 'Wallet' | 'bKash' | 'Nagad' | 'Binance'. */
  datatype OrderMethod = Wallet | OrderBkash | OrderNagad | OrderBinance

  /** An order without the fields the store assigns (`Omit<Order, 'id' | 'status' | 'date'>`). */
  datatype OrderDraft = OrderDraft(
    userId: string,
    userUid: string,
    categoryId: string,
    packageDetails: string,
    amount: int,                    // the total (base price plus tax); the only value that moves money
    basePrice: int,
    tax: int,
    paymentMethod: OrderMethod,
    trxId: Option<string>,
    senderNumber: Option<string>,
    targetPlayerId: string,
    targetPlayerName: Option<string>
  )

  datatype Order = Order(id: string, status: OrderStatus, date: string, draft: OrderDraft) {
    function userUid(): string { draft.userUid }
    function amount(): int { draft.amount }
    function paymentMethod(): OrderMethod { draft.paymentMethod }
  }

  /** 'pending' | 'approved' | 'rejected' */
  datatype DepositStatus = DepositPending | DepositApproved | DepositRejected

  /** The channels a deposit may come through: 'bKash' | 'Nagad' | 'Rocket' | 'Binance'. */
  datatype DepositMethod = DepositBkash | DepositNagad | DepositRocket | DepositBinance

  /** A deposit request without the fields the store assigns. */
  datatype DepositDraft = DepositDraft(
    userId: string,
    userUid: string,
    amount: int,
    channel: DepositMethod,       // the `method` field
    trxId: string
  )

  datatype DepositRequest = DepositRequest(id: string, status: DepositStatus, date: string, draft: DepositDraft) {
    function userUid(): string { draft.userUid }
    function amount(): int { draft.amount }
  }

  datatype PaymentNumbers = PaymentNumbers(bkash: string, nagad: string, rocket: string, binance: string)

  datatype AppSettings = AppSettings(marqueeNotice: string, paymentNumbers: PaymentNumbers)

  // ---- The literal text of each union member, as stored in JSON ----

  function OrderStatusName(st: OrderStatus): string {
    match st
    case OrderPending => "pending"
    case OrderCompleted => "completed"
    case OrderRejected => "rejected"
  }

  function DepositStatusName(st: DepositStatus): string {
    match st
    case DepositPending => "pending"
    case DepositApproved => "approved"
    case DepositRejected => "rejected"
  }

  function OrderMethodName(m: OrderMethod): string {
    match m
    case Wallet => "Wallet"
    case OrderBkash => "bKash"
    case OrderNagad => "Nagad"
    case OrderBinance => "Binance"
  }

  function DepositMethodName(m: DepositMethod): string {
    match m
    case DepositBkash => "bKash"
    case DepositNagad => "Nagad"
    case DepositRocket => "Rocket"
    case DepositBinance => "Binance"
  }

  /** Reads an order status literal; any other text is not an `OrderStatus`. */
  function ParseOrderStatus(s: string): (r: Option<OrderStatus>)
    ensures r.Some? ==> OrderStatusName(r.value) == s
    ensures r.None? <==> s != "pending" && s != "completed" && s != "rejected"
  {
    if s == "pending" then Some(OrderPending)
    else if s == "completed" then Some(OrderCompleted)
    else if s == "rejected" then Some(OrderRejected)
    else None
  }

  /** Reads a deposit status literal; any other text is not a `DepositStatus`. */
  function ParseDepositStatus(s: string): (r: Option<DepositStatus>)
    ensures r.Some? ==> DepositStatusName(r.value) == s
    ensures r.None? <==> s != "pending" && s != "approved" && s != "rejected"
  {
    if s == "pending" then Some(DepositPending)
    else if s == "approved" then Some(DepositApproved)
    else if s == "rejected" then Some(DepositRejected)
    else None
  }

  /** Reads an order payment-method literal. */
  function ParseOrderMethod(s: string): (r: Option<OrderMethod>)
    ensures r.Some? ==> OrderMethodName(r.value) == s
    ensures r.None? <==> s != "Wallet" && s != "bKash" && s != "Nagad" && s != "Binance"
  {
    if s == "Wallet" then Some(Wallet)
    else if s == "bKash" then Some(OrderBkash)
    else if s == "Nagad" then Some(OrderNagad)
    else if s == "Binance" then Some(OrderBinance)
    else None
  }

  /** Reads a deposit-method literal. */
  function ParseDepositMethod(s: string): (r: Option<DepositMethod>)
    ensures r.Some? ==> DepositMethodName(r.value) == s
    ensures r.None? <==> s != "bKash" && s != "Nagad" && s != "Rocket" && s != "Binance"
  {
    if s == "bKash" then Some(DepositBkash)
    else if s == "Nagad" then Some(DepositNagad)
    else if s == "Rocket" then Some(DepositRocket)
    else if s == "Binance" then Some(DepositBinance)
    else None
  }

  /** Each status and method literal reads back as itself: the unions have
      exactly the listed members. */
  lemma LiteralsRoundTrip()
    ensures forall st: OrderStatus :: ParseOrderStatus(OrderStatusName(st)) == Some(st)
    ensures forall st: DepositStatus :: ParseDepositStatus(DepositStatusName(st)) == Some(st)
    ensures forall m: OrderMethod :: ParseOrderMethod(OrderMethodName(m)) == Some(m)
    ensures forall m: DepositMethod :: ParseDepositMethod(DepositMethodName(m)) == Some(m)
  {
    forall st: OrderStatus ensures ParseOrderStatus(OrderStatusName(st)) == Some(st) {
      match st
      case OrderPending =>
      case OrderCompleted => assert OrderStatusName(st) != "pending";
      case OrderRejected => assert OrderStatusName(st) != "pending" && OrderStatusName(st) != "completed";
    }
    forall st: DepositStatus ensures ParseDepositStatus(DepositStatusName(st)) == Some(st) {
      match st
      case DepositPending =>
      case DepositApproved => assert DepositStatusName(st) != "pending";
      case DepositRejected => assert DepositStatusName(st) != "pending" && DepositStatusName(st) != "approved";
    }
    forall m: OrderMethod ensures ParseOrderMethod(OrderMethodName(m)) == Some(m) {
      match m
      case Wallet =>
      case OrderBkash => assert OrderMethodName(m) != "Wallet";
      case OrderNagad => assert OrderMethodName(m) != "Wallet" && OrderMethodName(m) != "bKash";
      case OrderBinance =>
        assert OrderMethodName(m) != "Wallet" && OrderMethodName(m) != "bKash" && OrderMethodName(m) != "Nagad";
    }
    forall m: DepositMethod ensures ParseDepositMethod(DepositMethodName(m)) == Some(m) {
      match m
      case DepositBkash =>
      case DepositNagad => assert DepositMethodName(m) != "bKash";
      case DepositRocket => assert DepositMethodName(m) != "bKash" && DepositMethodName(m) != "Nagad";
      case DepositBinance =>
        assert DepositMethodName(m) != "bKash" && DepositMethodName(m) != "Nagad" && DepositMethodName(m) != "Rocket";
    }
  }

  /** There is no wallet deposit and no Rocket order. */
  lemma NoWalletDepositNoRocketOrder()
    ensures ParseDepositMethod("Wallet").None?
    ensures ParseOrderMethod("Rocket").None?
  {
  }
}
