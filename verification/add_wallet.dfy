/**
 The deposit form (pages/AddWallet.tsx): the collection number shown for the
 chosen channel, and the submit handler that files a pending deposit for the
 signed-in user.
 */
module AddWallet {
  import opened SeqUtil
  import opened Types
  import opened Constants
  import opened MockApi
  import opened Ledger
  import TopUp

  /** The Binance number shown when the settings hold none. */
  const BinanceFallback: string := "1210169527"

  /** `currentNumber`: the saved number of the chosen channel; only Binance
      falls back to a literal when its number is empty. */
  function CurrentNumber(settings: AppSettings, m: DepositMethod): (r: string)
    ensures m == DepositBkash ==> r == settings.paymentNumbers.bkash
    ensures m == DepositNagad ==> r == settings.paymentNumbers.nagad
    ensures m == DepositRocket ==> r == settings.paymentNumbers.rocket
    ensures m == DepositBinance ==>
      r == (if settings.paymentNumbers.binance != "" then settings.paymentNumbers.binance else BinanceFallback)
  {
    match m
    case DepositBkash => settings.paymentNumbers.bkash
    case DepositNagad => settings.paymentNumbers.nagad
    case DepositRocket => settings.paymentNumbers.rocket
    case DepositBinance => if settings.paymentNumbers.binance != "" then settings.paymentNumbers.binance else BinanceFallback
  }

  /** The deposit form and the checkout page show the same bKash and Nagad
      numbers; for Binance they agree unless the saved number is empty, when
      the checkout shows nothing and the deposit form the fallback. */
  lemma NumbersAgreeWithCheckout(s: Store)
    ensures CurrentNumber(GetSettings(s), DepositBkash) == TopUp.GetPaymentNumber(Some(GetSettings(s)), "bKash")
    ensures CurrentNumber(GetSettings(s), DepositNagad) == TopUp.GetPaymentNumber(Some(GetSettings(s)), "Nagad")
    ensures GetSettings(s).paymentNumbers.binance != "" ==>
      CurrentNumber(GetSettings(s), DepositBinance) == TopUp.GetPaymentNumber(Some(GetSettings(s)), "Binance")
    ensures GetSettings(s).paymentNumbers.binance == "" ==>
      TopUp.GetPaymentNumber(Some(GetSettings(s)), "Binance") == "" &&
      CurrentNumber(GetSettings(s), DepositBinance) == BinanceFallback
  {
    assert OrderMethodName(OrderBkash) == "bKash";
    assert OrderMethodName(OrderNagad) == "Nagad";
    assert OrderMethodName(OrderBinance) == "Binance";
  }

  /** The form's fields; `parsedAmount` is what `parseFloat` makes of the amount text. */
  datatype DepositForm = DepositForm(amountText: string, parsedAmount: int, trxId: string, channel: DepositMethod)

  /** Blocked: the browser refused the form before `handleSubmit` ran. */
  datatype SubmitOutcome = Blocked | SendToLogin | NotSent | Submitted(message: string, redirect: string)

  datatype SubmitReply = SubmitReply(store: Store, outcome: SubmitOutcome)

  /** The record the form files for user u. */
  function FormDraft(u: User, f: DepositForm): DepositDraft {
    DepositDraft(u.id, u.uid, f.parsedAmount, f.channel, f.trxId)
  }

  /** `handleSubmit`: a visitor is sent to the login page, an empty amount or
      transaction id sends nothing, otherwise a pending deposit is filed and
      the page moves on to the profile. */
  function HandleSubmit(s: Store, f: DepositForm, newId: string, date: string): (r: SubmitReply)
    ensures GetCurrentUser(s).None? ==> r == SubmitReply(s, SendToLogin)
    ensures GetCurrentUser(s).Some? && (f.amountText == "" || f.trxId == "") ==> r == SubmitReply(s, NotSent)
    ensures r.outcome.Submitted? <==> GetCurrentUser(s).Some? && f.amountText != "" && f.trxId != ""
    ensures r.outcome.Submitted? ==>
      var u := GetCurrentUser(s).value;
      && r.outcome == Submitted(DepositSubmittedMessage, "#/profile")
      && r.store.deposits == [DepositRequest(newId, DepositPending, date, FormDraft(u, f))] + s.deposits
      && r.store.users == s.users && r.store.orders == s.orders
      && r.store.settings == s.settings && r.store.session == s.session
  {
    match GetCurrentUser(s)
    case None => SubmitReply(s, SendToLogin)
    case Some(u) =>
      if f.amountText == "" || f.trxId == "" then SubmitReply(s, NotSent)
      else
        var reply := CreateDepositRequest(s, FormDraft(u, f), newId, date);
        assert reply.store.deposits == [reply.store.deposits[0]] + s.deposits;
        SubmitReply(reply.store, Submitted(reply.result.value, "#/profile"))
  }

  /** A filed deposit always names a registered owner, so the form keeps the
      ledger balanced: it is a disciplined `createDepositRequest` call. */
  lemma {:induction false} SubmitKeepsBalanced(s: Store, f: DepositForm, newId: string, date: string)
    requires Balanced(s)
    ensures Balanced(HandleSubmit(s, f, newId, date).store)
  {
    var r := HandleSubmit(s, f, newId, date);
    if r.outcome.Submitted? {
      var u := GetCurrentUser(s).value;
      var op := RequestDeposit(FormDraft(u, f), newId, date);
      assert ConsoleDiscipline(s, op);
      assert Step(s, op) == r.store;
      StepKeepsBalanced(s, op);
    }
  }

  /** The browser's constraint validation of the form. The amount input is
      `type="number"` with `min="1"` and `required`; its default step of 1,
      based at `min`, admits only whole amounts, which `parsedAmount` is.
      The transaction id input is `required`. */
  predicate PassesValidation(f: DepositForm) {
    f.amountText != "" && f.parsedAmount >= 1 && f.trxId != ""
  }

  /** Pressing the submit button: the browser validates the fields first and
      fires the submit event, and so `handleSubmit`, only when they pass. */
  function SubmitForm(s: Store, f: DepositForm, newId: string, date: string): (r: SubmitReply)
    ensures !PassesValidation(f) ==> r == SubmitReply(s, Blocked)
    ensures PassesValidation(f) ==> r == HandleSubmit(s, f, newId, date)
    ensures r.outcome.Submitted? <==> PassesValidation(f) && GetCurrentUser(s).Some?
    ensures r.outcome.Submitted? ==>
      && |r.store.deposits| == |s.deposits| + 1 && r.store.deposits[1..] == s.deposits
      && r.store.deposits[0].amount() >= 1
      && r.store.deposits[0].userUid() == GetCurrentUser(s).value.uid
    ensures !r.outcome.Submitted? ==> r.store == s
  {
    if !PassesValidation(f) then SubmitReply(s, Blocked) else HandleSubmit(s, f, newId, date)
  }

  /** The deposit the page files is never negative, so the page meets the
      proviso of the no-overdraft result and keeps every balance at or above zero. */
  lemma {:induction false} SubmitKeepsSolvent(s: Store, f: DepositForm, newId: string, date: string)
    requires Solvent(s)
    ensures Solvent(SubmitForm(s, f, newId, date).store)
  {
    var r := SubmitForm(s, f, newId, date);
    if r.outcome.Submitted? {
      var op := RequestDeposit(FormDraft(GetCurrentUser(s).value, f), newId, date);
      assert NonNegativeDeposit(op);
      assert Step(s, op) == r.store;
      StepKeepsSolvent(s, op);
    }
  }
}
