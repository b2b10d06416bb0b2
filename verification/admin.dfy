/**
 The admin console (pages/Admin.tsx): who may open it, the pending badges of
 its two queues, the settings form, and the buttons that complete or reject
 an order and approve or reject a deposit.
 */
module Admin {
  import opened SeqUtil
  import opened Types
  import opened Constants
  import opened MockApi
  import opened Ledger

  /** The console's entry check: the signed-in user's uid must be the admin
      uid; the stored role is not consulted. None sends the visitor to `#/`. */
  function AdminGate(s: Store): (r: Option<User>)
    ensures r.Some? <==> GetCurrentUser(s).Some? && GetCurrentUser(s).value.uid == AdminUid
    ensures r.Some? ==> r == GetCurrentUser(s)
  {
    match GetCurrentUser(s)
    case Some(u) => if u.uid == AdminUid then Some(u) else None
    case None => None
  }

  /** The gate goes by uid alone: a stored admin role does not open the
      console under another uid, and the admin uid opens it whatever role
      its record holds. */
  lemma GateIgnoresRole(s: Store)
    requires GetCurrentUser(s).Some?
    ensures GetCurrentUser(s).value.role == AdminUser && GetCurrentUser(s).value.uid != AdminUid ==> AdminGate(s).None?
    ensures GetCurrentUser(s).value.uid == AdminUid ==> AdminGate(s).Some?
  {
  }

  // ---- The pending badges ----

  /** A pending row: it counts towards its badge, and only it is drawn with
      action buttons. */
  predicate IsPendingOrder(o: Order) { o.status == OrderPending }

  predicate IsPendingDeposit(d: DepositRequest) { d.status == DepositPending }

  /** `orders.filter(o => o.status === 'pending').length`. */
  function PendingOrders(os: seq<Order>): (r: nat)
    ensures r <= |os|
    ensures r == 0 <==> forall i :: 0 <= i < |os| ==> os[i].status != OrderPending
    ensures r == |set i: nat | i < |os| && os[i].status == OrderPending|
  {
    FilterCount(os, IsPendingOrder);
    assert MatchIndices(os, IsPendingOrder) == set i: nat | i < |os| && os[i].status == OrderPending;
    var f := Filter(os, IsPendingOrder);
    assert |f| > 0 ==> f[0] in os && IsPendingOrder(f[0]);
    |f|
  }

  /** `deposits.filter(d => d.status === 'pending').length`. */
  function PendingDeposits(ds: seq<DepositRequest>): (r: nat)
    ensures r <= |ds|
    ensures r == 0 <==> forall i :: 0 <= i < |ds| ==> ds[i].status != DepositPending
    ensures r == |set i: nat | i < |ds| && ds[i].status == DepositPending|
  {
    FilterCount(ds, IsPendingDeposit);
    assert MatchIndices(ds, IsPendingDeposit) == set i: nat | i < |ds| && ds[i].status == DepositPending;
    var f := Filter(ds, IsPendingDeposit);
    assert |f| > 0 ==> f[0] in ds && IsPendingDeposit(f[0]);
    |f|
  }

  /** A placed order joins the order queue, a filed deposit the deposit queue. */
  lemma NewRequestsRaiseBadges(s: Store, od: OrderDraft, dd: DepositDraft, id: string, date: string)
    ensures CreateOrder(s, od, id, date).result.Ok? ==>
      PendingOrders(CreateOrder(s, od, id, date).store.orders) == PendingOrders(s.orders) + 1
    ensures PendingDeposits(CreateDepositRequest(s, dd, id, date).store.deposits) == PendingDeposits(s.deposits) + 1
  {
    FilterCons(PlacedOrder(od, id, date), s.orders, IsPendingOrder);
    var ds := CreateDepositRequest(s, dd, id, date).store.deposits;
    assert ds == [ds[0]] + s.deposits;
    FilterCons(ds[0], s.deposits, IsPendingDeposit);
  }

  // ---- The action buttons ----

  datatype OrderDecision = Complete | RejectOrder

  datatype DepositDecision = Approve | RejectDeposit

  function OrderDecisionStatus(d: OrderDecision): OrderStatus {
    match d
    case Complete => OrderCompleted
    case RejectOrder => OrderRejected
  }

  function DepositDecisionStatus(d: DepositDecision): DepositStatus {
    match d
    case Approve => DepositApproved
    case RejectDeposit => DepositRejected
  }

  /** `handleStatusUpdate(orderId, status)`. */
  function HandleStatusUpdate(s: Store, id: string, d: OrderDecision): (r: Store)
    ensures r.users == s.users && r.deposits == s.deposits && r.settings == s.settings && r.session == s.session
    ensures |r.orders| == |s.orders|
    ensures FindOrder(s.orders, id).Some? ==>
      r.orders[FindOrder(s.orders, id).value].status == OrderDecisionStatus(d)
    ensures FindOrder(s.orders, id).Some? ==>
      var k := FindOrder(s.orders, id).value;
      && r.orders[k] == s.orders[k].(status := OrderDecisionStatus(d))
      && forall j :: 0 <= j < |s.orders| && j != k ==> r.orders[j] == s.orders[j]
    ensures FindOrder(s.orders, id).None? ==> r == s
  {
    UpdateOrderStatus(s, id, OrderDecisionStatus(d))
  }

  /** `handleDepositUpdate(depositId, status)`: nothing happens unless the
      operator confirms the prompt. */
  function HandleDepositUpdate(s: Store, id: string, d: DepositDecision, confirmed: bool): (r: Store)
    ensures !confirmed ==> r == s
    ensures r.orders == s.orders && r.settings == s.settings && r.session == s.session
    ensures |r.deposits| == |s.deposits|
    ensures confirmed && FindDeposit(s.deposits, id).Some? ==>
      r.deposits[FindDeposit(s.deposits, id).value].status == DepositDecisionStatus(d)
    ensures confirmed && FindDeposit(s.deposits, id).Some? ==>
      var k := FindDeposit(s.deposits, id).value;
      && r.deposits[k] == s.deposits[k].(status := DepositDecisionStatus(d))
      && forall j :: 0 <= j < |s.deposits| && j != k ==> r.deposits[j] == s.deposits[j]
    ensures FindDeposit(s.deposits, id).None? ==> r == s
    // only an approval of a stored-pending record moves money: its registered owner gains the amount
    ensures confirmed && FindDeposit(s.deposits, id).Some? ==>
      var dep := s.deposits[FindDeposit(s.deposits, id).value];
      if dep.status == DepositPending && d == Approve && FindUser(s.users, dep.userUid()).Some? then
        var j := FindUser(s.users, dep.userUid()).value;
        && |r.users| == |s.users|
        && r.users[j] == s.users[j].(balance := s.users[j].balance + dep.amount())
        && forall i :: 0 <= i < |s.users| && i != j ==> r.users[i] == s.users[i]
      else r.users == s.users
  {
    if confirmed then UpdateDepositStatus(s, id, DepositDecisionStatus(d)) else s
  }

  /** Resolving the pending row at k removes it from its badge. */
  lemma {:induction false} ResolvingLowersBadges(s: Store, k: nat, od: OrderDecision, dd: DepositDecision)
    ensures k < |s.orders| && IsPendingOrder(s.orders[k]) && FindOrder(s.orders, s.orders[k].id) == Some(k) ==>
      PendingOrders(HandleStatusUpdate(s, s.orders[k].id, od).orders) == PendingOrders(s.orders) - 1
    ensures k < |s.deposits| && IsPendingDeposit(s.deposits[k]) && FindDeposit(s.deposits, s.deposits[k].id) == Some(k) ==>
      PendingDeposits(HandleDepositUpdate(s, s.deposits[k].id, dd, true).deposits) == PendingDeposits(s.deposits) - 1
  {
    if k < |s.orders| && FindOrder(s.orders, s.orders[k].id) == Some(k) {
      var st := OrderDecisionStatus(od);
      assert HandleStatusUpdate(s, s.orders[k].id, od).orders == s.orders[k := s.orders[k].(status := st)];
      FilterLengthUpdate(s.orders, k, s.orders[k].(status := st), IsPendingOrder);
    }
    if k < |s.deposits| && FindDeposit(s.deposits, s.deposits[k].id) == Some(k) {
      var st := DepositDecisionStatus(dd);
      assert HandleDepositUpdate(s, s.deposits[k].id, dd, true).deposits == s.deposits[k := s.deposits[k].(status := st)];
      FilterLengthUpdate(s.deposits, k, s.deposits[k].(status := st), IsPendingDeposit);
    }
  }

  /** A click on a drawn deposit button is a disciplined call: the record the
      id finds is the pending row, and the target is approved or rejected.
      So the console keeps the ledger balanced. */
  lemma {:induction false} DepositClickKeepsBalanced(s: Store, k: nat, d: DepositDecision, confirmed: bool)
    requires k < |s.deposits| && IsPendingDeposit(s.deposits[k])
    requires FindDeposit(s.deposits, s.deposits[k].id) == Some(k)
    requires Balanced(s)
    ensures Balanced(HandleDepositUpdate(s, s.deposits[k].id, d, confirmed))
  {
    if confirmed {
      var op := SetDepositStatus(s.deposits[k].id, DepositDecisionStatus(d));
      assert ConsoleDiscipline(s, op);
      StepKeepsBalanced(s, op);
    }
  }

  /** With distinct deposit ids, the button of any row acts on that row. */
  lemma DistinctIdsFindTheirRow(ds: seq<DepositRequest>, k: nat)
    requires k < |ds|
    requires forall i, j :: 0 <= i < j < |ds| ==> ds[i].id != ds[j].id
    ensures FindDeposit(ds, ds[k].id) == Some(k)
  {
  }

  /** Approving a drawn row credits its registered owner by the amount, and
      the row then shows no buttons, so it cannot be approved again from the
      console. */
  lemma ApprovalCreditsOwner(s: Store, k: nat)
    requires k < |s.deposits| && IsPendingDeposit(s.deposits[k])
    requires FindDeposit(s.deposits, s.deposits[k].id) == Some(k)
    requires FindUser(s.users, s.deposits[k].userUid()).Some?
    ensures var t := HandleDepositUpdate(s, s.deposits[k].id, Approve, true);
      && BalanceOf(t.users, s.deposits[k].userUid()) == BalanceOf(s.users, s.deposits[k].userUid()) + s.deposits[k].amount()
      && !IsPendingDeposit(t.deposits[k])
  {
    var t := HandleDepositUpdate(s, s.deposits[k].id, Approve, true);
    FindUserSameUids(s.users, t.users, s.deposits[k].userUid());
  }

  /** Rejecting a drawn row moves no money. */
  lemma RejectionMovesNoMoney(s: Store, k: nat)
    requires k < |s.deposits| && IsPendingDeposit(s.deposits[k])
    requires FindDeposit(s.deposits, s.deposits[k].id) == Some(k)
    ensures HandleDepositUpdate(s, s.deposits[k].id, RejectDeposit, true).users == s.users
  {
  }

  /** `saveSettings()`: the notice text is replaced and the payment numbers
      currently in effect are kept. */
  function SaveMarquee(s: Store, text: string): (r: Store)
    ensures GetSettings(r).marqueeNotice == text
    ensures GetSettings(r).paymentNumbers == GetSettings(s).paymentNumbers
    ensures r.users == s.users && r.orders == s.orders && r.deposits == s.deposits && r.session == s.session
  {
    UpdateSettings(s, GetSettings(s).(marqueeNotice := text))
  }

  /** Saving the notice the console loaded changes nothing the pages can read. */
  lemma SaveUnchangedNoticeIsNoOp(s: Store)
    ensures GetSettings(SaveMarquee(s, GetSettings(s).marqueeNotice)) == GetSettings(s)
  {
  }
}
