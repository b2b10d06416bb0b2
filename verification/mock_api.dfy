/**
 The browser-side ledger (mockApi.ts): five stored records — the user list,
 the order list (newest first), the deposit list (newest first), the
 settings singleton, and the uid of the current session — and the
 operations the pages call. Every operation is a pure function from the
 store before the call to the store after it (and the reply, where the
 source returns one). Identifiers and timestamps the source draws from the
 clock or from `Math.random` are parameters.
 */
module MockApi {
  import opened SeqUtil
  import opened JsString
  import opened Types
  import opened Constants

  datatype Store = Store(
    users: seq<User>,
    orders: seq<Order>,               // newest first
    deposits: seq<DepositRequest>,    // newest first
    settings: Option<AppSettings>,    // None: never saved
    session: Option<string>           // the current-session uid key; None: removed
  )

  /** A browser that has never run the store. */
  const EmptyStore: Store := Store([], [], [], None, None)

  /** The failure replies, each with the message the source shows. */
  datatype ApiError =
    | IncorrectPassword
    | UserNotFound
    | AlreadyClaimed
    | InsufficientBalance
    | MissingTrxId
    | MissingSenderNumber

  function ErrorMessage(e: ApiError): string {
    match e
    case IncorrectPassword => "Incorrect Password"
    case UserNotFound => "User not found"
    case AlreadyClaimed => "Already claimed today!"
    case InsufficientBalance => "Insufficient Wallet Balance. Please Add Money."
    case MissingTrxId => "Transaction ID is required for direct payment."
    case MissingSenderNumber => "Sender Number is required."
  }

  datatype Result<T> = Ok(value: T) | Err(error: ApiError)

  /** The store after a call together with what the call returned. */
  datatype Reply<T> = Reply(store: Store, result: Result<T>)

  /** What `claimDailyReward` returns on success. */
  datatype ClaimReceipt = ClaimReceipt(message: string, newStreak: nat)

  const OrderPlacedMessage: string := "Order Placed Successfully! Admin will verify."
  const DepositSubmittedMessage: string := "Deposit Request Submitted! Wait for Admin Approval."

  /** JavaScript truthiness of an optional string: present and non-empty. */
  predicate Truthy(o: Option<string>) {
    o.Some? && o.value != ""
  }

  // ---- Lookups (`find` / `findIndex`: the first match wins) ----

  function FindUser(users: seq<User>, uid: string): (r: Option<nat>)
    ensures r.Some? ==> r.value < |users| && users[r.value].uid == uid
    ensures r.Some? ==> forall j :: 0 <= j < r.value ==> users[j].uid != uid
    ensures r.None? ==> forall j :: 0 <= j < |users| ==> users[j].uid != uid
  {
    FirstIndex(users, (u: User) => u.uid == uid)
  }

  function FindOrder(orders: seq<Order>, id: string): (r: Option<nat>)
    ensures r.Some? ==> r.value < |orders| && orders[r.value].id == id
    ensures r.Some? ==> forall j :: 0 <= j < r.value ==> orders[j].id != id
    ensures r.None? ==> forall j :: 0 <= j < |orders| ==> orders[j].id != id
  {
    FirstIndex(orders, (o: Order) => o.id == id)
  }

  function FindDeposit(deposits: seq<DepositRequest>, id: string): (r: Option<nat>)
    ensures r.Some? ==> r.value < |deposits| && deposits[r.value].id == id
    ensures r.Some? ==> forall j :: 0 <= j < r.value ==> deposits[j].id != id
    ensures r.None? ==> forall j :: 0 <= j < |deposits| ==> deposits[j].id != id
  {
    FirstIndex(deposits, (d: DepositRequest) => d.id == id)
  }

  /** Two user lists with the same uid at every position resolve every uid alike. */
  lemma FindUserSameUids(a: seq<User>, b: seq<User>, uid: string)
    requires |a| == |b|
    requires forall i :: 0 <= i < |a| ==> a[i].uid == b[i].uid
    ensures FindUser(a, uid) == FindUser(b, uid)
  {
  }

  /** Appending users does not change how an already registered uid resolves. */
  lemma FindUserAppend(a: seq<User>, extra: seq<User>, uid: string)
    requires FindUser(a, uid).Some?
    ensures FindUser(a + extra, uid) == FindUser(a, uid)
  {
    assert forall i :: 0 <= i < |a| ==> (a + extra)[i] == a[i];
  }

  /** Appending a user whose uid is new makes it the one that uid resolves to. */
  lemma FindUserAppendNew(a: seq<User>, u: User)
    requires FindUser(a, u.uid).None?
    ensures FindUser(a + [u], u.uid) == Some(|a|)
  {
    assert forall i :: 0 <= i < |a| ==> (a + [u])[i] == a[i];
    assert (a + [u])[|a|] == u;
  }

  /** The balance of the user a uid resolves to; 0 for an unregistered uid. */
  function BalanceOf(users: seq<User>, uid: string): int {
    match FindUser(users, uid)
    case Some(k) => users[k].balance
    case None => 0
  }

  // ---- Accounts ----

  /** The stored password of the user `uid` resolves to is set and differs from `password`. */
  predicate PasswordMismatch(users: seq<User>, uid: string, password: string) {
    match FindUser(users, uid)
    case Some(k) => Truthy(users[k].password) && users[k].password.value != password
    case None => false
  }

  /** The record `loginUser` registers for an unseen uid. */
  function NewUser(uid: string, password: string, newId: string, referralCode: string): User {
    User(newId, uid, "Player_" + SliceLast(uid, 4), Some(password), 0, 0,
         if uid == AdminUid then AdminUser else RegularUser, referralCode, 0, None)
  }

  /** `loginUser(uid, password)`: login and sign-up in one. `newId` stands for
      `Date.now().toString()` and `referralCode` for the random `REF…` code. */
  function LoginUser(s: Store, uid: string, password: string, newId: string, referralCode: string): (r: Reply<User>)
    // a set password that differs is the only failure, and it changes nothing
    ensures r.result.Err? <==> PasswordMismatch(s.users, uid, password)
    ensures r.result.Err? ==> r.store == s && r.result.error == IncorrectPassword
    // every success opens a session for uid and touches no other record
    ensures r.result.Ok? ==>
      && r.store.session == Some(uid)
      && r.store.orders == s.orders && r.store.deposits == s.deposits && r.store.settings == s.settings
    ensures r.result.Ok? ==>
      && r.result.value.uid == uid
      && r.result.value.password == Some(password)
      && FindUser(r.store.users, uid).Some?
      && r.store.users[FindUser(r.store.users, uid).value] == r.result.value
    // a registered uid: at most its password is bound; no user is added
    ensures FindUser(s.users, uid).Some? && r.result.Ok? ==>
      var k := FindUser(s.users, uid).value;
      && |r.store.users| == |s.users|
      && r.store.users[k] == s.users[k].(password := Some(password))
      && forall j :: 0 <= j < |s.users| && j != k ==> r.store.users[j] == s.users[j]
    // an unseen uid: exactly one fresh user is appended
    ensures FindUser(s.users, uid).None? ==>
      && r.result.Ok?
      && |r.store.users| == |s.users| + 1
      && r.store.users[..|s.users|] == s.users
      && var u := r.store.users[|s.users|];
      && u.uid == uid && u.id == newId && u.referralCode == referralCode
      && u.balance == 0 && u.tokens == 0 && u.streakDays == 0 && u.lastClaimDate.None?
      && u.name == "Player_" + SliceLast(uid, 4)
      && (u.role == AdminUser <==> uid == AdminUid)
  {
    match FindUser(s.users, uid)
    case Some(k) =>
      var u := s.users[k];
      if Truthy(u.password) && u.password.value != password then
        Reply(s, Err(IncorrectPassword))
      else if Truthy(u.password) then
        Reply(s.(session := Some(uid)), Ok(u))
      else
        var bound := u.(password := Some(password));
        var users' := s.users[k := bound];
        FindUserSameUids(s.users, users', uid);
        Reply(s.(users := users', session := Some(uid)), Ok(bound))
    case None =>
      var u := NewUser(uid, password, newId, referralCode);
      FindUserAppendNew(s.users, u);
      assert (s.users + [u])[..|s.users|] == s.users;
      Reply(s.(users := s.users + [u], session := Some(uid)), Ok(u))
  }

  /** `getCurrentUser()`: the user the session uid resolves to; an empty uid is no session. */
  function GetCurrentUser(s: Store): (r: Option<User>)
    ensures r.Some? <==>
      s.session.Some? && s.session.value != "" && FindUser(s.users, s.session.value).Some?
    ensures r.Some? ==> r.value.uid == s.session.value && r.value in s.users
    ensures r.Some? ==> r.value == s.users[FindUser(s.users, s.session.value).value]
  {
    if !Truthy(s.session) then None
    else
      match FindUser(s.users, s.session.value)
      case Some(k) => Some(s.users[k])
      case None => None
  }

  /** `logoutUser()`: removes the session key and nothing else. */
  function LogoutUser(s: Store): (r: Store)
    ensures GetCurrentUser(r).None?
    ensures r.users == s.users && r.orders == s.orders && r.deposits == s.deposits && r.settings == s.settings
  {
    s.(session := None)
  }

  /** The streak a claim on `today` produces (the day strings are the UTC
      `toISOString` dates, passed in). */
  function NextStreak(u: User, yesterday: string): nat {
    if u.lastClaimDate == Some(yesterday) then u.streakDays + 1 else 1
  }

  /** `claimDailyReward(uid)`, with the current UTC day and the day before as inputs. */
  function ClaimDailyReward(s: Store, uid: string, today: string, yesterday: string): (r: Reply<ClaimReceipt>)
    ensures FindUser(s.users, uid).None? ==> r == Reply(s, Err(UserNotFound))
    ensures FindUser(s.users, uid).Some? && s.users[FindUser(s.users, uid).value].lastClaimDate == Some(today) ==>
      r == Reply(s, Err(AlreadyClaimed))
    ensures r.result.Err? ==> r.store == s
    ensures r.result.Ok? ==>
      && r.store.orders == s.orders && r.store.deposits == s.deposits
      && r.store.settings == s.settings && r.store.session == s.session
    ensures r.result.Ok? ==>
      && FindUser(s.users, uid).Some?
      && var k := FindUser(s.users, uid).value;
      && var u := s.users[k];
      && u.lastClaimDate != Some(today)
      && |r.store.users| == |s.users|
      && (forall j :: 0 <= j < |s.users| && j != k ==> r.store.users[j] == s.users[j])
      && r.store.users[k].streakDays == (if u.lastClaimDate == Some(yesterday) then u.streakDays + 1 else 1)
      && r.store.users[k].tokens == u.tokens + 1
      && r.store.users[k].lastClaimDate == Some(today)
      && r.store.users[k].balance == u.balance
      && r.store.users[k] == u.(streakDays := r.store.users[k].streakDays, tokens := u.tokens + 1,
                                lastClaimDate := Some(today))
      && r.result.value.newStreak == r.store.users[k].streakDays
    ensures FindUser(s.users, uid).Some? && s.users[FindUser(s.users, uid).value].lastClaimDate != Some(today) ==>
      r.result.Ok?
  {
    match FindUser(s.users, uid)
    case None => Reply(s, Err(UserNotFound))
    case Some(k) =>
      var u := s.users[k];
      if u.lastClaimDate == Some(today) then Reply(s, Err(AlreadyClaimed))
      else
        var streak := NextStreak(u, yesterday);
        var claimed := u.(streakDays := streak, tokens := u.tokens + 1, lastClaimDate := Some(today));
        var msg := "Claimed! +1 Token. Streak: " + NatToString(streak) + " days";
        Reply(s.(users := s.users[k := claimed]), Ok(ClaimReceipt(msg, streak)))
  }

  // ---- Orders ----

  /** The record `createOrder` stores: the draft spread, a fresh id, status pending. */
  function PlacedOrder(d: OrderDraft, newId: string, date: string): Order {
    Order(newId, OrderPending, date, d)
  }

  /** `createOrder(order)`. `newId` stands for `ORD${Date.now()}` and `date`
      for the ISO timestamp. */
  function CreateOrder(s: Store, d: OrderDraft, newId: string, date: string): (r: Reply<string>)
    // the failures, in the order the source tests them, each leaving the store as it was
    ensures FindUser(s.users, d.userUid).None? ==> r == Reply(s, Err(UserNotFound))
    ensures FindUser(s.users, d.userUid).Some? && d.paymentMethod == Wallet
            && s.users[FindUser(s.users, d.userUid).value].balance < d.amount ==>
      r == Reply(s, Err(InsufficientBalance))
    ensures FindUser(s.users, d.userUid).Some? && d.paymentMethod != Wallet && !Truthy(d.trxId) ==>
      r == Reply(s, Err(MissingTrxId))
    ensures FindUser(s.users, d.userUid).Some? && d.paymentMethod != Wallet && Truthy(d.trxId)
            && !Truthy(d.senderNumber) && d.paymentMethod != OrderBinance ==>
      r == Reply(s, Err(MissingSenderNumber))
    ensures r.result.Err? ==> r.store == s
    // a success prepends exactly one pending order and touches nothing but that user's balance
    ensures r.result.Ok? ==>
      && FindUser(s.users, d.userUid).Some?
      && r.store.orders == [PlacedOrder(d, newId, date)] + s.orders
      && r.store.orders[0].status == OrderPending
      && r.store.orders[0].draft == d
      && r.store.deposits == s.deposits && r.store.settings == s.settings && r.store.session == s.session
      && r.result.value == OrderPlacedMessage
    ensures r.result.Ok? ==>
      var k := FindUser(s.users, d.userUid).value;
      && |r.store.users| == |s.users|
      && (forall j :: 0 <= j < |s.users| && j != k ==> r.store.users[j] == s.users[j])
      && r.store.users[k] == s.users[k].(balance := s.users[k].balance - (if d.paymentMethod == Wallet then d.amount else 0))
    // a wallet order never overdraws
    ensures r.result.Ok? && d.paymentMethod == Wallet ==>
      r.store.users[FindUser(s.users, d.userUid).value].balance >= 0
    // an order that passes every check is placed
    ensures FindUser(s.users, d.userUid).Some?
            && (d.paymentMethod == Wallet ==> s.users[FindUser(s.users, d.userUid).value].balance >= d.amount)
            && (d.paymentMethod != Wallet ==> Truthy(d.trxId) && (Truthy(d.senderNumber) || d.paymentMethod == OrderBinance)) ==>
      r.result.Ok?
  {
    match FindUser(s.users, d.userUid)
    case None => Reply(s, Err(UserNotFound))
    case Some(k) =>
      var u := s.users[k];
      if d.paymentMethod == Wallet && u.balance < d.amount then Reply(s, Err(InsufficientBalance))
      else if d.paymentMethod != Wallet && !Truthy(d.trxId) then Reply(s, Err(MissingTrxId))
      else if d.paymentMethod != Wallet && !Truthy(d.senderNumber) && d.paymentMethod != OrderBinance then
        Reply(s, Err(MissingSenderNumber))
      else
        var users' := if d.paymentMethod == Wallet then s.users[k := u.(balance := u.balance - d.amount)] else s.users;
        Reply(s.(users := users', orders := [PlacedOrder(d, newId, date)] + s.orders), Ok(OrderPlacedMessage))
  }

  /** `getOrders()`: the whole list, newest first. */
  function GetOrders(s: Store): seq<Order> {
    s.orders
  }

  /** `getUserOrders(uid)`: the orders placed under uid, in stored order. */
  function GetUserOrders(s: Store, uid: string): (r: seq<Order>)
    ensures forall i :: 0 <= i < |r| ==> r[i] in s.orders && r[i].userUid() == uid
    ensures forall i :: 0 <= i < |s.orders| && s.orders[i].userUid() == uid ==> s.orders[i] in r
    ensures IsSubsequence(r, s.orders) && multiset(r) <= multiset(s.orders)
    ensures |r| == |set i: nat | i < |s.orders| && s.orders[i].userUid() == uid|
  {
    var p := (o: Order) => o.userUid() == uid;
    FilterCount(s.orders, p);
    SubsequenceMultiset(Filter(s.orders, p), s.orders);
    assert MatchIndices(s.orders, p) == set i: nat | i < |s.orders| && s.orders[i].userUid() == uid;
    Filter(s.orders, p)
  }

  /** A placed order heads its buyer's list and appears in no other user's. */
  lemma PlacedOrderListedFirst(s: Store, d: OrderDraft, newId: string, date: string, uid: string)
    requires CreateOrder(s, d, newId, date).result.Ok?
    ensures var after := GetUserOrders(CreateOrder(s, d, newId, date).store, uid);
      after == (if uid == d.userUid then [PlacedOrder(d, newId, date)] else []) + GetUserOrders(s, uid)
  {
    var os := CreateOrder(s, d, newId, date).store.orders;
    assert os[1..] == s.orders;
  }

  /** `updateOrderStatus(id, status)`: overwrites the status of the first order
      with that id; an unknown id changes nothing; no balance is ever touched. */
  function UpdateOrderStatus(s: Store, id: string, st: OrderStatus): (r: Store)
    ensures r.users == s.users && r.deposits == s.deposits && r.settings == s.settings && r.session == s.session
    ensures FindOrder(s.orders, id).None? ==> r == s
    ensures FindOrder(s.orders, id).Some? ==>
      var k := FindOrder(s.orders, id).value;
      && |r.orders| == |s.orders|
      && r.orders[k] == s.orders[k].(status := st)
      && forall j :: 0 <= j < |s.orders| && j != k ==> r.orders[j] == s.orders[j]
  {
    match FindOrder(s.orders, id)
    case None => s
    case Some(k) => s.(orders := s.orders[k := s.orders[k].(status := st)])
  }

  // ---- Deposits ----

  /** The record `createDepositRequest` stores. */
  function SubmittedDeposit(d: DepositDraft, newId: string, date: string): DepositRequest {
    DepositRequest(newId, DepositPending, date, d)
  }

  /** `createDepositRequest(request)`: always succeeds, prepending a pending record;
      the amount is not checked. */
  function CreateDepositRequest(s: Store, d: DepositDraft, newId: string, date: string): (r: Reply<string>)
    ensures r.result == Ok(DepositSubmittedMessage)
    ensures |r.store.deposits| == |s.deposits| + 1 && r.store.deposits[1..] == s.deposits
    ensures r.store.deposits[0].status == DepositPending && r.store.deposits[0].draft == d
    ensures r.store.deposits[0].id == newId && r.store.deposits[0].date == date
    ensures r.store.users == s.users && r.store.orders == s.orders
    ensures r.store.settings == s.settings && r.store.session == s.session
  {
    Reply(s.(deposits := [SubmittedDeposit(d, newId, date)] + s.deposits), Ok(DepositSubmittedMessage))
  }

  /** `getDepositRequests()`. */
  function GetDepositRequests(s: Store): seq<DepositRequest> {
    s.deposits
  }

  /** `getUserDeposits(uid)`: the deposits filed under uid, in stored order. */
  function GetUserDeposits(s: Store, uid: string): (r: seq<DepositRequest>)
    ensures forall i :: 0 <= i < |r| ==> r[i] in s.deposits && r[i].userUid() == uid
    ensures forall i :: 0 <= i < |s.deposits| && s.deposits[i].userUid() == uid ==> s.deposits[i] in r
    ensures IsSubsequence(r, s.deposits) && multiset(r) <= multiset(s.deposits)
    ensures |r| == |set i: nat | i < |s.deposits| && s.deposits[i].userUid() == uid|
  {
    var p := (d: DepositRequest) => d.userUid() == uid;
    FilterCount(s.deposits, p);
    SubsequenceMultiset(Filter(s.deposits, p), s.deposits);
    assert MatchIndices(s.deposits, p) == set i: nat | i < |s.deposits| && s.deposits[i].userUid() == uid;
    Filter(s.deposits, p)
  }

  /** A filed deposit heads its owner's list and appears in no other user's. */
  lemma FiledDepositListedFirst(s: Store, d: DepositDraft, newId: string, date: string, uid: string)
    ensures var after := GetUserDeposits(CreateDepositRequest(s, d, newId, date).store, uid);
      after == (if uid == d.userUid then [SubmittedDeposit(d, newId, date)] else []) + GetUserDeposits(s, uid)
  {
    var ds := CreateDepositRequest(s, d, newId, date).store.deposits;
    assert ds[1..] == s.deposits;
  }

  /** The edge on which `updateDepositStatus` credits: the stored status is
      pending and the requested one approved. */
  predicate CreditEdge(stored: DepositStatus, requested: DepositStatus) {
    stored == DepositPending && requested == DepositApproved
  }

  /** `updateDepositStatus(id, status)`: credits the owner on the stored-pending
      to approved edge (when the owner is registered), then always sets the
      status; an unknown id changes nothing. */
  function UpdateDepositStatus(s: Store, id: string, st: DepositStatus): (r: Store)
    ensures r.orders == s.orders && r.settings == s.settings && r.session == s.session
    ensures FindDeposit(s.deposits, id).None? ==> r == s
    ensures FindDeposit(s.deposits, id).Some? ==>
      var k := FindDeposit(s.deposits, id).value;
      && |r.deposits| == |s.deposits|
      && r.deposits[k] == s.deposits[k].(status := st)
      && forall j :: 0 <= j < |s.deposits| && j != k ==> r.deposits[j] == s.deposits[j]
    // the users change only on the credit edge, and then only the owner's balance, by the amount
    ensures FindDeposit(s.deposits, id).Some? ==>
      var dep := s.deposits[FindDeposit(s.deposits, id).value];
      if CreditEdge(dep.status, st) && FindUser(s.users, dep.userUid()).Some? then
        var j := FindUser(s.users, dep.userUid()).value;
        && |r.users| == |s.users|
        && r.users[j] == s.users[j].(balance := s.users[j].balance + dep.amount())
        && forall i :: 0 <= i < |s.users| && i != j ==> r.users[i] == s.users[i]
      else r.users == s.users
  {
    match FindDeposit(s.deposits, id)
    case None => s
    case Some(k) =>
      var dep := s.deposits[k];
      var users' :=
        if CreditEdge(dep.status, st) then
          match FindUser(s.users, dep.userUid())
          case Some(j) => s.users[j := s.users[j].(balance := s.users[j].balance + dep.amount())]
          case None => s.users
        else s.users;
      s.(users := users', deposits := s.deposits[k := dep.(status := st)])
  }

  // ---- Settings ----

  /** `getSettings()`: the saved settings, or the seed ones. */
  function GetSettings(s: Store): (r: AppSettings)
    ensures s.settings.None? ==> r == DefaultSettings
    ensures s.settings.Some? ==> r == s.settings.value
  {
    match s.settings
    case Some(x) => x
    case None => DefaultSettings
  }

  /** `updateSettings(settings)`: overwrites the whole singleton. */
  function UpdateSettings(s: Store, x: AppSettings): (r: Store)
    ensures GetSettings(r) == x
    ensures r.users == s.users && r.orders == s.orders && r.deposits == s.deposits && r.session == s.session
  {
    s.(settings := Some(x))
  }
}
