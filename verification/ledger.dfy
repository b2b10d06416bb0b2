/**
 The invariants of the wallet ledger across sequences of store calls:
 where money comes from and goes to, that a wallet never overdraws, that
 a uid names one user, that no account's identity changes, and which
 repeated deposit approvals can and cannot credit twice.
 */
module Ledger {
  import opened SeqUtil
  import opened Types
  import opened Constants
  import opened MockApi

  /** One call into the store that changes it. */
  datatype Op =
    | Login(uid: string, password: string, newId: string, referralCode: string)
    | Logout
    | ClaimDaily(claimUid: string, today: string, yesterday: string)
    | PlaceOrder(order: OrderDraft, orderId: string, orderDate: string)
    | SetOrderStatus(targetOrder: string, orderStatus: OrderStatus)
    | RequestDeposit(deposit: DepositDraft, depositId: string, depositDate: string)
    | SetDepositStatus(targetDeposit: string, depositStatus: DepositStatus)
    | SaveSettings(settings: AppSettings)

  function Step(s: Store, op: Op): Store {
    match op
    case Login(uid, pw, id, code) => LoginUser(s, uid, pw, id, code).store
    case Logout => LogoutUser(s)
    case ClaimDaily(uid, today, yesterday) => ClaimDailyReward(s, uid, today, yesterday).store
    case PlaceOrder(d, id, date) => CreateOrder(s, d, id, date).store
    case SetOrderStatus(id, st) => UpdateOrderStatus(s, id, st)
    case RequestDeposit(d, id, date) => CreateDepositRequest(s, d, id, date).store
    case SetDepositStatus(id, st) => UpdateDepositStatus(s, id, st)
    case SaveSettings(x) => UpdateSettings(s, x)
  }

  /** The store after the calls `ops`, in order. */
  function Run(s: Store, ops: seq<Op>): Store
    decreases |ops|
  {
    if |ops| == 0 then s else Run(Step(s, ops[0]), ops[1..])
  }

  // ---- Totals over the stored records ----

  /** The sum of the amounts of the approved deposits filed under uid. */
  function ApprovedTotal(ds: seq<DepositRequest>, uid: string): int {
    if |ds| == 0 then 0
    else
      (if ds[0].status == DepositApproved && ds[0].userUid() == uid then ds[0].amount() else 0)
      + ApprovedTotal(ds[1..], uid)
  }

  /** The sum of the amounts of the wallet-paid orders placed under uid, whatever their status. */
  function WalletSpent(os: seq<Order>, uid: string): int {
    if |os| == 0 then 0
    else
      (if os[0].paymentMethod() == Wallet && os[0].userUid() == uid then os[0].amount() else 0)
      + WalletSpent(os[1..], uid)
  }

  lemma {:induction false} ApprovedTotalUpdate(ds: seq<DepositRequest>, k: nat, d: DepositRequest, uid: string)
    requires k < |ds|
    ensures ApprovedTotal(ds[k := d], uid) ==
      ApprovedTotal(ds, uid)
      - (if ds[k].status == DepositApproved && ds[k].userUid() == uid then ds[k].amount() else 0)
      + (if d.status == DepositApproved && d.userUid() == uid then d.amount() else 0)
  {
    if k == 0 {
      assert ds[k := d][1..] == ds[1..];
    } else {
      assert ds[k := d][1..] == ds[1..][k - 1 := d];
      ApprovedTotalUpdate(ds[1..], k - 1, d, uid);
    }
  }

  /** Order totals depend on the drafts only, so status changes leave them alone. */
  lemma {:induction false} WalletSpentSameDrafts(a: seq<Order>, b: seq<Order>, uid: string)
    requires |a| == |b|
    requires forall i :: 0 <= i < |a| ==> a[i].draft == b[i].draft
    ensures WalletSpent(a, uid) == WalletSpent(b, uid)
  {
    if |a| > 0 {
      WalletSpentSameDrafts(a[1..], b[1..], uid);
    }
  }

  // ---- How a single call moves balances ----

  lemma BalanceSameMoney(a: seq<User>, b: seq<User>, uid: string)
    requires |a| == |b|
    requires forall i :: 0 <= i < |a| ==> a[i].uid == b[i].uid && a[i].balance == b[i].balance
    ensures BalanceOf(a, uid) == BalanceOf(b, uid)
  {
    FindUserSameUids(a, b, uid);
  }

  lemma BalanceAdjust(users: seq<User>, k: nat, delta: int, uid: string)
    requires k < |users|
    ensures BalanceOf(users[k := users[k].(balance := users[k].balance + delta)], uid) ==
            BalanceOf(users, uid) + (if FindUser(users, uid) == Some(k) then delta else 0)
  {
    FindUserSameUids(users, users[k := users[k].(balance := users[k].balance + delta)], uid);
  }

  lemma BalanceAppendNew(users: seq<User>, u: User, uid: string)
    requires FindUser(users, u.uid).None? && u.balance == 0
    ensures BalanceOf(users + [u], uid) == BalanceOf(users, uid)
  {
    if uid == u.uid {
      FindUserAppendNew(users, u);
    } else if FindUser(users, uid).Some? {
      FindUserAppend(users, [u], uid);
    } else {
      assert forall i :: 0 <= i < |users| ==> (users + [u])[i] == users[i];
      assert (users + [u])[|users|] == u;
    }
  }

  /** The amount a call credits to uid's balance: a deposit of uid's, stored
      pending, being approved while uid is registered. */
  function CreditOf(s: Store, op: Op, uid: string): int {
    match op
    case SetDepositStatus(id, st) =>
      (match FindDeposit(s.deposits, id)
       case Some(k) =>
         var dep := s.deposits[k];
         if CreditEdge(dep.status, st) && dep.userUid() == uid && FindUser(s.users, uid).Some? then dep.amount() else 0
       case None => 0)
    case _ => 0
  }

  lemma LoginMovesNoMoney(s: Store, u: string, pw: string, id: string, code: string, uid: string)
    ensures BalanceOf(LoginUser(s, u, pw, id, code).store.users, uid) == BalanceOf(s.users, uid)
  {
    var t := LoginUser(s, u, pw, id, code).store;
    if FindUser(s.users, u).Some? {
      BalanceSameMoney(s.users, t.users, uid);
    } else {
      assert t.users == s.users + [NewUser(u, pw, id, code)];
      BalanceAppendNew(s.users, NewUser(u, pw, id, code), uid);
    }
  }

  lemma PlaceOrderLedger(s: Store, d: OrderDraft, id: string, date: string, uid: string)
    ensures var t := CreateOrder(s, d, id, date).store;
      BalanceOf(t.users, uid) + WalletSpent(t.orders, uid) == BalanceOf(s.users, uid) + WalletSpent(s.orders, uid)
  {
    var r := CreateOrder(s, d, id, date);
    var t := r.store;
    if r.result.Ok? {
      var k := FindUser(s.users, d.userUid).value;
      assert ([PlacedOrder(d, id, date)] + s.orders)[1..] == s.orders;
      if d.paymentMethod == Wallet {
        assert t.users == s.users[k := s.users[k].(balance := s.users[k].balance + -d.amount)];
        BalanceAdjust(s.users, k, -d.amount, uid);
      } else {
        BalanceSameMoney(s.users, t.users, uid);
      }
    }
  }

  lemma DepositStatusLedger(s: Store, id: string, st: DepositStatus, uid: string)
    ensures BalanceOf(UpdateDepositStatus(s, id, st).users, uid) ==
            BalanceOf(s.users, uid) + CreditOf(s, SetDepositStatus(id, st), uid)
  {
    var t := UpdateDepositStatus(s, id, st);
    if FindDeposit(s.deposits, id).Some? {
      var k := FindDeposit(s.deposits, id).value;
      var dep := s.deposits[k];
      if CreditEdge(dep.status, st) && FindUser(s.users, dep.userUid()).Some? {
        var j := FindUser(s.users, dep.userUid()).value;
        assert t.users == s.users[j := s.users[j].(balance := s.users[j].balance + dep.amount())];
        BalanceAdjust(s.users, j, dep.amount(), uid);
      }
    }
  }

  /** One call: balance plus wallet spending goes up by exactly what the call credits.
      Wallet orders move money from the balance to the spending column; nothing else moves it. */
  lemma StepLedger(s: Store, op: Op, uid: string)
    ensures BalanceOf(Step(s, op).users, uid) + WalletSpent(Step(s, op).orders, uid) ==
            BalanceOf(s.users, uid) + WalletSpent(s.orders, uid) + CreditOf(s, op, uid)
  {
    match op
    case Login(u, pw, id, code) => LoginMovesNoMoney(s, u, pw, id, code, uid);
    case Logout =>
    case ClaimDaily(u, today, yesterday) =>
      BalanceSameMoney(s.users, ClaimDailyReward(s, u, today, yesterday).store.users, uid);
    case PlaceOrder(d, id, date) => PlaceOrderLedger(s, d, id, date, uid);
    case SetOrderStatus(id, st) =>
      WalletSpentSameDrafts(s.orders, UpdateOrderStatus(s, id, st).orders, uid);
    case RequestDeposit(d, id, date) =>
    case SetDepositStatus(id, st) => DepositStatusLedger(s, id, st, uid);
    case SaveSettings(x) =>
  }

  /** The money credited to uid along a run. */
  function CreditedAlong(s: Store, ops: seq<Op>, uid: string): int
    decreases |ops|
  {
    if |ops| == 0 then 0 else CreditOf(s, ops[0], uid) + CreditedAlong(Step(s, ops[0]), ops[1..], uid)
  }

  lemma {:induction false} RunLedger(s: Store, ops: seq<Op>, uid: string)
    ensures BalanceOf(Run(s, ops).users, uid) + WalletSpent(Run(s, ops).orders, uid) ==
            BalanceOf(s.users, uid) + WalletSpent(s.orders, uid) + CreditedAlong(s, ops, uid)
    decreases |ops|
  {
    if |ops| > 0 {
      StepLedger(s, ops[0], uid);
      RunLedger(Step(s, ops[0]), ops[1..], uid);
    }
  }

  /** Money conservation, for any sequence of calls from a fresh browser: every
      user's balance is the deposits credited to it minus the amounts of its
      wallet-paid orders still in the order list. */
  lemma MoneyConservation(ops: seq<Op>, uid: string)
    ensures BalanceOf(Run(EmptyStore, ops).users, uid) ==
            CreditedAlong(EmptyStore, ops, uid) - WalletSpent(Run(EmptyStore, ops).orders, uid)
  {
    RunLedger(EmptyStore, ops, uid);
  }

  // ---- The console's discipline, under which credits are exactly the approved deposits ----

  predicate Registered(users: seq<User>, uid: string) {
    FindUser(users, uid).Some?
  }

  /** Every stored deposit and order belongs to a registered uid. */
  predicate Owned(s: Store) {
    && (forall i :: 0 <= i < |s.deposits| ==> Registered(s.users, s.deposits[i].userUid()))
    && (forall i :: 0 <= i < |s.orders| ==> Registered(s.users, s.orders[i].userUid()))
  }

  /** How the shipped pages call the store: a deposit is filed only for the
      signed-in (so registered) user, and a deposit status is only ever set
      to approved or rejected, on a record that is still pending. */
  predicate ConsoleDiscipline(s: Store, op: Op) {
    match op
    case RequestDeposit(d, _, _) => Registered(s.users, d.userUid)
    case SetDepositStatus(id, st) =>
      && st != DepositPending
      && (FindDeposit(s.deposits, id).Some? ==> s.deposits[FindDeposit(s.deposits, id).value].status == DepositPending)
    case _ => true
  }

  predicate DisciplinedRun(s: Store, ops: seq<Op>)
    decreases |ops|
  {
    |ops| == 0 || (ConsoleDiscipline(s, ops[0]) && DisciplinedRun(Step(s, ops[0]), ops[1..]))
  }

  /** Every uid's balance is its approved deposits minus its wallet spending. */
  ghost predicate Balanced(s: Store) {
    && Owned(s)
    && forall uid :: BalanceOf(s.users, uid) == ApprovedTotal(s.deposits, uid) - WalletSpent(s.orders, uid)
  }

  /** Registered uids stay registered across every call. */
  lemma StepKeepsRegistered(s: Store, op: Op, uid: string)
    requires Registered(s.users, uid)
    ensures Registered(Step(s, op).users, uid)
  {
    var t := Step(s, op);
    match op
    case Login(u, pw, id, code) =>
      if FindUser(s.users, u).Some? {
        FindUserSameUids(s.users, t.users, uid);
      } else {
        FindUserAppend(s.users, [NewUser(u, pw, id, code)], uid);
      }
    case ClaimDaily(u, today, yesterday) =>
      FindUserSameUids(s.users, t.users, uid);
    case PlaceOrder(d, id, date) =>
      FindUserSameUids(s.users, t.users, uid);
    case SetDepositStatus(id, st) =>
      FindUserSameUids(s.users, t.users, uid);
    case _ =>
  }

  lemma StepKeepsOwned(s: Store, op: Op)
    requires Owned(s) && ConsoleDiscipline(s, op)
    ensures Owned(Step(s, op))
  {
    StepKeepsDepositOwners(s, op);
    StepKeepsOrderOwners(s, op);
  }

  /** Every stored deposit keeps a registered owner across a disciplined call. */
  lemma StepKeepsDepositOwners(s: Store, op: Op)
    requires Owned(s) && ConsoleDiscipline(s, op)
    ensures forall i :: 0 <= i < |Step(s, op).deposits| ==>
      Registered(Step(s, op).users, Step(s, op).deposits[i].userUid())
  {
    var t := Step(s, op);
    forall i | 0 <= i < |t.deposits| ensures Registered(t.users, t.deposits[i].userUid()) {
      match op
      case RequestDeposit(d, id, date) =>
        if i == 0 {
          StepKeepsRegistered(s, op, d.userUid);
        } else {
          assert t.deposits[i] == s.deposits[i - 1];
          StepKeepsRegistered(s, op, s.deposits[i - 1].userUid());
        }
      case SetDepositStatus(id, st) =>
        StepKeepsRegistered(s, op, s.deposits[i].userUid());
      case _ =>
        StepKeepsRegistered(s, op, s.deposits[i].userUid());
    }
  }

  /** Every stored order keeps a registered owner across any call. */
  lemma StepKeepsOrderOwners(s: Store, op: Op)
    requires Owned(s)
    ensures forall i :: 0 <= i < |Step(s, op).orders| ==>
      Registered(Step(s, op).users, Step(s, op).orders[i].userUid())
  {
    var t := Step(s, op);
    if op.PlaceOrder? && CreateOrder(s, op.order, op.orderId, op.orderDate).result.Ok? {
      assert t.orders == [PlacedOrder(op.order, op.orderId, op.orderDate)] + s.orders;
      StepKeepsRegistered(s, op, op.order.userUid);
      forall i | 1 <= i < |t.orders| ensures Registered(t.users, t.orders[i].userUid()) {
        assert t.orders[i] == s.orders[i - 1];
        StepKeepsRegistered(s, op, s.orders[i - 1].userUid());
      }
    } else {
      assert |t.orders| == |s.orders|;
      forall i | 0 <= i < |t.orders| ensures Registered(t.users, t.orders[i].userUid()) {
        assert t.orders[i].userUid() == s.orders[i].userUid();
        StepKeepsRegistered(s, op, s.orders[i].userUid());
      }
    }
  }

  /** Under the discipline, what a call credits is exactly what it adds to the approved total. */
  lemma DisciplinedCredit(s: Store, op: Op, uid: string)
    requires Owned(s) && ConsoleDiscipline(s, op)
    ensures ApprovedTotal(Step(s, op).deposits, uid) == ApprovedTotal(s.deposits, uid) + CreditOf(s, op, uid)
  {
    match op
    case RequestDeposit(d, id, date) =>
      assert ([SubmittedDeposit(d, id, date)] + s.deposits)[1..] == s.deposits;
    case SetDepositStatus(id, st) =>
      if FindDeposit(s.deposits, id).Some? {
        var k := FindDeposit(s.deposits, id).value;
        var dep := s.deposits[k];
        assert Registered(s.users, dep.userUid());
        ApprovedTotalUpdate(s.deposits, k, dep.(status := st), uid);
      }
    case _ =>
  }

  lemma StepKeepsBalanced(s: Store, op: Op)
    requires Balanced(s) && ConsoleDiscipline(s, op)
    ensures Balanced(Step(s, op))
  {
    StepKeepsOwned(s, op);
    var t := Step(s, op);
    forall uid ensures BalanceOf(t.users, uid) == ApprovedTotal(t.deposits, uid) - WalletSpent(t.orders, uid) {
      StepLedger(s, op, uid);
      DisciplinedCredit(s, op, uid);
    }
  }

  lemma EmptyStoreBalanced()
    ensures Balanced(EmptyStore)
  {
  }

  lemma {:induction false} RunKeepsBalanced(s: Store, ops: seq<Op>)
    requires Balanced(s) && DisciplinedRun(s, ops)
    ensures Balanced(Run(s, ops))
    decreases |ops|
  {
    if |ops| > 0 {
      StepKeepsBalanced(s, ops[0]);
      RunKeepsBalanced(Step(s, ops[0]), ops[1..]);
    }
  }

  /** Money conservation as the store shows it: along calls made the way the
      pages make them, every balance equals the approved deposits minus the
      wallet-paid orders of that uid. */
  lemma ConsoleConservation(ops: seq<Op>, uid: string)
    requires DisciplinedRun(EmptyStore, ops)
    ensures BalanceOf(Run(EmptyStore, ops).users, uid) ==
            ApprovedTotal(Run(EmptyStore, ops).deposits, uid) - WalletSpent(Run(EmptyStore, ops).orders, uid)
  {
    EmptyStoreBalanced();
    RunKeepsBalanced(EmptyStore, ops);
  }

  // ---- No overdraft ----

  /** No balance below zero, no deposit with a negative amount. */
  predicate Solvent(s: Store) {
    && (forall i :: 0 <= i < |s.users| ==> s.users[i].balance >= 0)
    && (forall i :: 0 <= i < |s.deposits| ==> s.deposits[i].amount() >= 0)
  }

  /** `createDepositRequest` has no positivity check, so this is an assumption
      about its callers; the deposit form meets it (`AddWallet.SubmitKeepsSolvent`). */
  predicate NonNegativeDeposit(op: Op) {
    op.RequestDeposit? ==> op.deposit.amount >= 0
  }

  lemma StepKeepsSolvent(s: Store, op: Op)
    requires Solvent(s) && NonNegativeDeposit(op)
    ensures Solvent(Step(s, op))
  {
    var t := Step(s, op);
    match op
    case Login(u, pw, id, code) =>
      if FindUser(s.users, u).None? {
        assert t.users == s.users + [NewUser(u, pw, id, code)];
      }
    case RequestDeposit(d, id, date) =>
      assert forall i :: 1 <= i < |t.deposits| ==> t.deposits[i] == s.deposits[i - 1];
    case _ =>
  }

  lemma {:induction false} RunKeepsSolvent(s: Store, ops: seq<Op>)
    requires Solvent(s)
    requires forall i :: 0 <= i < |ops| ==> NonNegativeDeposit(ops[i])
    ensures Solvent(Run(s, ops))
    decreases |ops|
  {
    if |ops| > 0 {
      StepKeepsSolvent(s, ops[0]);
      RunKeepsSolvent(Step(s, ops[0]), ops[1..]);
    }
  }

  // ---- One user per uid; identities never change ----

  predicate UniqueUids(users: seq<User>) {
    forall i, j :: 0 <= i < j < |users| ==> users[i].uid != users[j].uid
  }

  lemma StepKeepsUniqueUids(s: Store, op: Op)
    requires UniqueUids(s.users)
    ensures UniqueUids(Step(s, op).users)
  {
    var t := Step(s, op);
    match op
    case Login(u, pw, id, code) =>
      if FindUser(s.users, u).None? {
        assert t.users == s.users + [NewUser(u, pw, id, code)];
      }
    case _ =>
  }

  /** Uids stay unique along any sequence of calls, from a fresh browser on. */
  lemma {:induction false} RunKeepsUniqueUids(s: Store, ops: seq<Op>)
    requires UniqueUids(s.users)
    ensures UniqueUids(Run(s, ops).users)
    ensures UniqueUids(Run(EmptyStore, ops).users)
    decreases |ops|
  {
    if |ops| > 0 {
      StepKeepsUniqueUids(s, ops[0]);
      RunKeepsUniqueUids(Step(s, ops[0]), ops[1..]);
      StepKeepsUniqueUids(EmptyStore, ops[0]);
      RunKeepsUniqueUids(Step(EmptyStore, ops[0]), ops[1..]);
    }
  }

  /** With unique uids, a uid's balance is the balance of the one record holding it. */
  lemma UniqueUidBalance(users: seq<User>, i: nat)
    requires UniqueUids(users) && i < |users|
    ensures FindUser(users, users[i].uid) == Some(i)
    ensures BalanceOf(users, users[i].uid) == users[i].balance
  {
  }

  /** No call removes a user or changes a user's id, uid, name, role or referral code:
      the role given at first login is permanent. */
  lemma StepKeepsIdentities(s: Store, op: Op)
    ensures |Step(s, op).users| >= |s.users|
    ensures forall i :: 0 <= i < |s.users| ==>
      var u, v := s.users[i], Step(s, op).users[i];
      u.id == v.id && u.uid == v.uid && u.name == v.name && u.role == v.role && u.referralCode == v.referralCode
  {
    var t := Step(s, op);
    match op
    case Login(u, pw, id, code) =>
      if FindUser(s.users, u).None? {
        assert t.users == s.users + [NewUser(u, pw, id, code)];
      }
    case _ =>
  }

  // ---- Deposit approval: once, and the case where it is not ----

  lemma FindDepositSameIds(a: seq<DepositRequest>, b: seq<DepositRequest>, id: string)
    requires |a| == |b|
    requires forall i :: 0 <= i < |a| ==> a[i].id == b[i].id
    ensures FindDeposit(a, id) == FindDeposit(b, id)
  {
  }

  /** Approving the same deposit twice is approving it once: the second call
      changes nothing at all, so it credits nothing. */
  lemma ApproveTwiceIsApproveOnce(s: Store, id: string)
    ensures UpdateDepositStatus(UpdateDepositStatus(s, id, DepositApproved), id, DepositApproved)
         == UpdateDepositStatus(s, id, DepositApproved)
  {
    var s1 := UpdateDepositStatus(s, id, DepositApproved);
    FindDepositSameIds(s.deposits, s1.deposits, id);
    if FindDeposit(s.deposits, id).Some? {
      var k := FindDeposit(s.deposits, id).value;
      assert s1.deposits[k].status == DepositApproved;
      assert s1.deposits[k := s1.deposits[k].(status := DepositApproved)] == s1.deposits;
    }
  }

  /** Setting the status of a deposit that is no longer pending never moves money:
      rejecting an approved deposit does not debit, re-approving does not credit. */
  lemma ResolvedDepositMovesNoMoney(s: Store, id: string, st: DepositStatus)
    requires FindDeposit(s.deposits, id).Some?
    requires s.deposits[FindDeposit(s.deposits, id).value].status != DepositPending
    ensures UpdateDepositStatus(s, id, st).users == s.users
  {
  }

  /** Credit-once depends on callers never passing `pending`: approve, reset to
      pending, approve again credits the same deposit twice. */
  lemma PendingResetCreditsTwice()
    ensures
      var u := User("1", "u1", "Player_u1", Some("pw"), 0, 0, RegularUser, "REF1", 0, None);
      var d := DepositRequest("DEP1", DepositPending, "t0", DepositDraft("1", "u1", 100, DepositBkash, "TX1"));
      var s := Store([u], [], [d], None, None);
      var s1 := UpdateDepositStatus(s, "DEP1", DepositApproved);
      var s2 := UpdateDepositStatus(s1, "DEP1", DepositPending);
      var s3 := UpdateDepositStatus(s2, "DEP1", DepositApproved);
      BalanceOf(s1.users, "u1") == 100 && BalanceOf(s3.users, "u1") == 200
  {
    var u := User("1", "u1", "Player_u1", Some("pw"), 0, 0, RegularUser, "REF1", 0, None);
    var d := DepositRequest("DEP1", DepositPending, "t0", DepositDraft("1", "u1", 100, DepositBkash, "TX1"));
    var s := Store([u], [], [d], None, None);
    assert FindUser(s.users, "u1") == Some(0);
    assert FindDeposit(s.deposits, "DEP1") == Some(0);
    var s1 := UpdateDepositStatus(s, "DEP1", DepositApproved);
    assert FindUser(s1.users, "u1") == Some(0);
    assert FindDeposit(s1.deposits, "DEP1") == Some(0);
    var s2 := UpdateDepositStatus(s1, "DEP1", DepositPending);
    assert FindUser(s2.users, "u1") == Some(0);
    assert FindDeposit(s2.deposits, "DEP1") == Some(0);
  }

  // ---- Scenarios, for all inputs ----

  /** A new uid logged in with one password is bound to it: another password
      then fails without effect, the first one succeeds again. */
  lemma LoginBindsFirstPassword(s: Store, uid: string, pw1: string, pw2: string, id: string, code: string)
    requires FindUser(s.users, uid).None?
    requires pw1 != "" && pw1 != pw2
    ensures var s1 := LoginUser(s, uid, pw1, id, code);
      && s1.result.Ok?
      && LoginUser(s1.store, uid, pw2, id, code) == Reply(s1.store, Err(IncorrectPassword))
      && LoginUser(s1.store, uid, pw1, id, code).result.Ok?
  {
    var s1 := LoginUser(s, uid, pw1, id, code);
    FindUserAppendNew(s.users, NewUser(uid, pw1, id, code));
    assert s1.store.users == s.users + [NewUser(uid, pw1, id, code)];
  }

  /** A password of "" counts as no password, so the next login with any
      password succeeds and binds that one instead. */
  lemma EmptyPasswordIsRebound(s: Store, uid: string, other: string, id: string, code: string)
    requires FindUser(s.users, uid).None?
    ensures var s1 := LoginUser(s, uid, "", id, code).store;
      var s2 := LoginUser(s1, uid, other, id, code);
      s2.result.Ok? && s2.result.value.password == Some(other)
  {
    FindUserAppendNew(s.users, NewUser(uid, "", id, code));
  }

  /** The admin role goes to exactly the configured uid (not, for instance, to
      "7382970242" or "00000001"). */
  lemma AdminRoleByUid(s: Store, uid: string, pw: string, id: string, code: string)
    requires FindUser(s.users, uid).None?
    ensures LoginUser(s, uid, pw, id, code).result.value.role == (if uid == AdminUid then AdminUser else RegularUser)
    ensures NewUser("12345678", pw, id, code).role == AdminUser
    ensures NewUser("7382970242", pw, id, code).role == RegularUser
    ensures NewUser("00000001", pw, id, code).role == RegularUser
  {
  }

  /** A second claim on the same day fails and changes nothing. */
  lemma ClaimTwiceSameDay(s: Store, uid: string, today: string, yesterday: string)
    requires ClaimDailyReward(s, uid, today, yesterday).result.Ok?
    ensures var s1 := ClaimDailyReward(s, uid, today, yesterday).store;
      ClaimDailyReward(s1, uid, today, yesterday) == Reply(s1, Err(AlreadyClaimed))
  {
    var s1 := ClaimDailyReward(s, uid, today, yesterday).store;
    FindUserSameUids(s.users, s1.users, uid);
  }

  /** A bKash order: without a sender number it fails with no change; with one
      it is placed pending and no balance moves. */
  lemma DirectOrderNeedsSender(s: Store, d: OrderDraft, id: string, date: string, sender: string)
    requires d.paymentMethod == OrderBkash && Truthy(d.trxId) && d.senderNumber.None?
    requires Registered(s.users, d.userUid) && sender != ""
    ensures CreateOrder(s, d, id, date) == Reply(s, Err(MissingSenderNumber))
    ensures var r := CreateOrder(s, d.(senderNumber := Some(sender)), id, date);
      && r.result.Ok?
      && r.store.orders[0].status == OrderPending
      && forall uid :: BalanceOf(r.store.users, uid) == BalanceOf(s.users, uid)
  {
    var d' := d.(senderNumber := Some(sender));
    var r := CreateOrder(s, d', id, date);
    forall uid ensures BalanceOf(r.store.users, uid) == BalanceOf(s.users, uid) {
      BalanceSameMoney(s.users, r.store.users, uid);
    }
  }

  /** A wallet order the balance cannot cover fails and changes nothing. */
  lemma WalletOrderOverBalance(s: Store, d: OrderDraft, id: string, date: string)
    requires d.paymentMethod == Wallet && Registered(s.users, d.userUid)
    requires d.amount > BalanceOf(s.users, d.userUid)
    ensures CreateOrder(s, d, id, date) == Reply(s, Err(InsufficientBalance))
  {
  }

  /** Rejecting or completing an order never refunds or charges anyone. */
  lemma OrderStatusMovesNoMoney(s: Store, id: string, st: OrderStatus, uid: string)
    ensures BalanceOf(UpdateOrderStatus(s, id, st).users, uid) == BalanceOf(s.users, uid)
    ensures WalletSpent(UpdateOrderStatus(s, id, st).orders, uid) == WalletSpent(s.orders, uid)
  {
    WalletSpentSameDrafts(s.orders, UpdateOrderStatus(s, id, st).orders, uid);
  }

  /** Saving settings then reading them returns what was saved; a fresh store reads the seed. */
  lemma SettingsRoundTrip(s: Store, x: AppSettings)
    ensures GetSettings(UpdateSettings(s, x)) == x
    ensures GetSettings(EmptyStore) == DefaultSettings
  {
  }
}
