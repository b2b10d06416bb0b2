# JIO Store ledger in Dafny

This project models the browser-side store of a game top-up shop: user
accounts, wallet balances, orders, manual deposit requests and site
settings, all kept in the browser's storage by `mockApi.ts`. It also models
the page logic that calls that store:

- the checkout page (`pages/TopUp.tsx`): pricing, validation and the order it builds
- the hash router (`App.tsx`)
- the public order feed (`pages/LiveOrders.tsx`)
- the home-page ticker and slideshow (`pages/Home.tsx`)
- the deposit form (`pages/AddWallet.tsx`)
- the admin console (`pages/Admin.tsx`)

The five stored records become one immutable `Store` value:

- the user list
- the order list (newest first)
- the deposit list (newest first)
- the optional settings
- the optional session uid

Every store call is a pure function from a `Store` to the next `Store` and
a `Result`. Nondeterministic inputs become parameters:

- the `Date.now()` ids and ISO timestamps
- the `Math.random()` referral code
- the UTC "today" and "yesterday" of the daily reward
- the browser's `confirm` answer

JavaScript behaviour the code depends on is written out explicitly:

- Truthiness: `""` and a missing value are both false.
- `find`/`findIndex` return the first match.
- `slice(-n)`, and `substring` with its clamping and swapping.
- `trim` over the ECMAScript whitespace set.
- `split(sep)[1]`.
- `replace(/^#/, '')`.

Files, one module each:

| file | module | models |
|---|---|---|
| seq_util.dfy | SeqUtil | `Option`, first-match search, `filter` |
| js_string.dfy | JsString | the string built-ins listed above |
| types.dfy | Types | the records and string-literal unions of types.ts |
| constants.dfy | Constants | admin uid, seed settings, catalogue |
| mock_api.dfy | MockApi | the store operations |
| ledger.dfy | Ledger | call traces and the money invariants over them |
| topup.dfy, app_routing.dfy, live_orders.dfy, home.dfy, add_wallet.dfy, admin.dfy | one per page | the page logic |

The central results:

1. **Money conservation, for any sequence of store calls.** Each balance
   equals what the calls credited minus the wallet-paid orders in the order
   list (`Ledger.MoneyConservation`).
2. **The same, in terms of stored deposits.** Under the calling discipline
   the pages follow, a balance equals the approved deposits minus the
   wallet-paid orders (`Ledger.ConsoleConservation`). The discipline:
   - deposits are filed only for the signed-in user;
   - a deposit status is only set to approved or rejected, on a pending record.
3. **The pages keep that discipline.** The deposit form does
   (`AddWallet.SubmitKeepsBalanced`), and so do the console's deposit
   buttons (`Admin.DepositClickKeepsBalanced`).
4. **No overdraft** (`Ledger.RunKeepsSolvent`), given non-negative deposit
   amounts, which the deposit form guarantees (`AddWallet.SubmitKeepsSolvent`).
5. **Approving twice equals approving once.** A second approve changes
   nothing (`Ledger.ApproveTwiceIsApproveOnce`).
6. **Resetting to pending can credit twice.** `updateDepositStatus` accepts
   `pending`, so approve, reset to pending, approve credits the same
   deposit twice. A concrete instance is proved (`Ledger.PendingResetCreditsTwice`).

Facts about the code that shape the model:

- `getStorage` does not catch a `JSON.parse` failure, so malformed stored
  data is not modelled.
- `createDepositRequest` does not check that an amount is positive, so the
  store accepts any amount. The deposit form does constrain it: its amount
  input is `type="number"` with `min="1"` and `required`, so the browser
  submits only whole amounts of at least 1 (`AddWallet.SubmitForm`).
  No-overdraft is proved for any store calls whose deposits are
  non-negative, and the form meets that condition (`AddWallet.SubmitKeepsSolvent`).
- The admin uid is `12345678` (constants.ts:4). `Ledger.AdminRoleByUid`
  shows that other uids, such as `7382970242`, sign up as regular users.
- Ids come from `Date.now()` and can collide. The console's buttons act on
  the first record with the row's id, so the lemmas about a row's button
  assume that the row is the first record with its id; distinct ids give
  this (`Admin.DistinctIdsFindTheirRow`).

## Model

| member | source | states |
|---|---|---|
| Types.ParseOrderStatus | types.ts:34 | an order status is exactly one of pending, completed, rejected; any other text is no status |
| Types.ParseDepositStatus | types.ts:54 | a deposit status is exactly one of pending, approved, rejected |
| Types.ParseOrderMethod | types.ts:45 | an order is paid by Wallet, bKash, Nagad or Binance and nothing else |
| Types.ParseDepositMethod | types.ts:61 | a deposit comes by bKash, Nagad, Rocket or Binance and nothing else |
| Types.LiteralsRoundTrip | types.ts:34-61 | every status and method literal reads back as itself |
| Types.NoWalletDepositNoRocketOrder | types.ts:45-61 | there is no Wallet deposit and no Rocket order |
| SeqUtil.FirstIndex | mockApi.ts:30 | a lookup finds the first matching record, or reports that none matches |
| SeqUtil.Filter | mockApi.ts:157-160 | a filter keeps exactly the matching elements: each kept element matches and comes from the input, every matching element is kept, and the kept ones are a subsequence of the input in their original order |
| SeqUtil.SubsequenceMultiset | mockApi.ts:157-160 | a filtered list takes each element at most as often as the input holds it |
| SeqUtil.FilterConcat | mockApi.ts:157-160 | filtering a concatenation filters each part and concatenates the results |
| SeqUtil.FilterCount | pages/Admin.tsx:86-93 | a filter keeps one element for each matching position of the input |
| SeqUtil.FilterLengthUpdate | pages/Admin.tsx:86 | overwriting one element changes a filtered count only as that element's old and new membership say |
| JsString.TrimEmptyIffBlank | pages/TopUp.tsx:45 | a trimmed string is empty exactly when every character is JavaScript whitespace |
| JsString.SliceLast | mockApi.ts:49 | `slice(-n)` gives the last n characters, or the whole string when it is shorter |
| JsString.Substring | pages/LiveOrders.tsx:24 | `substring` clamps a negative bound to 0 and a bound past the end to the length, then takes the text between the smaller and the larger bound |
| JsString.SecondPiece | pages/TopUp.tsx:10 | `split(sep)[1]` is undefined exactly when the separator does not occur; otherwise it is the text that starts right after the first occurrence and runs, containing no occurrence, up to the next occurrence or the end |
| MockApi.FindUser | mockApi.ts:30 | the user found is the first with that uid; none found means no user has it |
| MockApi.FindOrder | mockApi.ts:164 | the order found is the first with that id; none found means no order has it |
| MockApi.FindDeposit | mockApi.ts:197 | the deposit found is the first with that id; none found means no deposit has it |
| MockApi.LoginUser | mockApi.ts:28-64 | fails exactly on a set password that differs, changing nothing; binds the password of a user who had none, changing no other user; registers an unseen uid as exactly one appended user with zero balance, tokens and streak, no claim date, name `Player_` plus the last four uid characters, and the admin role exactly for the admin uid; every success opens the session for that uid and leaves orders, deposits and settings alone |
| MockApi.GetCurrentUser | mockApi.ts:70-75 | there is a current user exactly when the session holds a non-empty uid of a registered user, and it is the first user with that uid |
| MockApi.LogoutUser | mockApi.ts:66-68 | after logout there is no current user, and no stored record changes |
| MockApi.ClaimDailyReward | mockApi.ts:77-108 | fails with no change for an unknown uid or a second claim on the same day; otherwise only that user changes: one more token, claim date set to today, streak one longer after a claim yesterday and 1 otherwise, balance untouched |
| MockApi.CreateOrder | mockApi.ts:112-151 | the failures in the code's order, each with no change: unknown uid; wallet balance below the amount; direct payment without transaction id; direct non-Binance payment without sender number; an order passing all four checks is placed; a success prepends exactly one pending order holding the draft, debits the buyer by the amount only for Wallet, changes no other user, and never leaves a wallet payer below zero |
| MockApi.GetUserOrders | mockApi.ts:157-160 | exactly the stored orders placed under that uid, in stored order, one per matching position |
| MockApi.PlacedOrderListedFirst | mockApi.ts:112-160 | a placed order heads its buyer's order list, ahead of the orders listed before, and other users' lists do not change |
| MockApi.UpdateOrderStatus | mockApi.ts:162-169 | only the status of the first order with that id changes; an unknown id changes nothing; users are never touched |
| MockApi.CreateDepositRequest | mockApi.ts:173-184 | always succeeds, prepending one pending record holding the request, and changes nothing else |
| MockApi.GetUserDeposits | mockApi.ts:190-193 | exactly the stored deposits filed under that uid, in stored order, one per matching position |
| MockApi.FiledDepositListedFirst | mockApi.ts:173-193 | a filed deposit heads its owner's deposit list, ahead of the deposits listed before, and other users' lists do not change |
| MockApi.UpdateDepositStatus | mockApi.ts:195-218 | an unknown id changes nothing; otherwise the status is always set; the owner's balance rises by the amount exactly on the stored-pending to approved edge when the owner is registered, and no other user changes |
| MockApi.GetSettings | mockApi.ts:222-227 | the saved settings, or the seed notice and payment numbers when none are saved |
| MockApi.UpdateSettings | mockApi.ts:229-231 | reading the settings back gives exactly what was saved; no other record changes |
| Ledger.ApprovedTotalUpdate | mockApi.ts:216 | changing one deposit's status moves that uid's approved total by that deposit alone |
| Ledger.WalletSpentSameDrafts | mockApi.ts:166 | order-status changes leave every uid's wallet spending alone |
| Ledger.BalanceAdjust | mockApi.ts:126 | adjusting one user's balance moves only the balance of the uid it is found under |
| Ledger.LoginMovesNoMoney | mockApi.ts:28-64 | logging in or signing up moves no balance |
| Ledger.PlaceOrderLedger | mockApi.ts:122-129 | an order moves money only from a balance into that uid's wallet spending |
| Ledger.DepositStatusLedger | mockApi.ts:203-213 | a deposit-status call moves a balance by exactly the credit it makes |
| Ledger.StepLedger | mockApi.ts:28-231 | for every store call, balance plus wallet spending of any uid rises by exactly what the call credits |
| Ledger.RunLedger | mockApi.ts:28-231 | the same along any sequence of calls |
| Ledger.MoneyConservation | mockApi.ts:112-218 | from a fresh browser, each balance is the credits received minus the wallet-paid orders stored |
| Ledger.StepKeepsRegistered | mockApi.ts:58 | no call unregisters a uid |
| Ledger.StepKeepsOwned | mockApi.ts:115-117 | under the calling discipline, every stored order and deposit keeps a registered owner |
| Ledger.StepKeepsDepositOwners | mockApi.ts:173-218 | under the calling discipline, every stored deposit keeps a registered owner |
| Ledger.StepKeepsOrderOwners | mockApi.ts:112-169 | every stored order keeps a registered owner, because an order is placed only for a registered uid |
| Ledger.DisciplinedCredit | mockApi.ts:204-216 | under the discipline, a call credits exactly what it adds to the approved deposits |
| Ledger.StepKeepsBalanced | mockApi.ts:112-218 | under the discipline, "balance = approved deposits minus wallet orders" survives every call |
| Ledger.RunKeepsBalanced | mockApi.ts:112-218 | the same along any disciplined sequence of calls |
| Ledger.ConsoleConservation | mockApi.ts:112-218 | from a fresh browser, along disciplined calls, each balance equals its approved deposits minus its wallet-paid orders |
| Ledger.StepKeepsSolvent | mockApi.ts:123 | with no negative deposit, no call drives a balance below zero |
| Ledger.RunKeepsSolvent | mockApi.ts:123 | the same along any sequence of calls |
| Ledger.StepKeepsUniqueUids | mockApi.ts:30-60 | no call creates a second user with an existing uid |
| Ledger.RunKeepsUniqueUids | mockApi.ts:30-60 | uids stay unique along any sequence of calls, in particular from a fresh browser |
| Ledger.UniqueUidBalance | mockApi.ts:30 | with unique uids, a uid resolves to the one record holding it, and its balance is that record's |
| Ledger.StepKeepsIdentities | mockApi.ts:28-231 | no call removes a user or changes its id, uid, name, role or referral code |
| Ledger.ApproveTwiceIsApproveOnce | mockApi.ts:204 | a repeated approve changes nothing, so it credits nothing |
| Ledger.ResolvedDepositMovesNoMoney | mockApi.ts:204 | on a deposit no longer pending, no status change moves money: rejecting an approved deposit does not debit |
| Ledger.PendingResetCreditsTwice | mockApi.ts:195-218 | approve, reset to pending, approve credits one deposit twice (100, then 200) |
| Ledger.LoginBindsFirstPassword | mockApi.ts:34-59 | a new uid is bound to its first password: another password then fails with no change, the first succeeds |
| Ledger.EmptyPasswordIsRebound | mockApi.ts:34-43 | an empty password counts as none, so the next login binds whatever password it brings |
| Ledger.AdminRoleByUid | mockApi.ts:53 | a new account is admin exactly when its uid is `12345678`; `7382970242` and `00000001` become regular users |
| Ledger.ClaimTwiceSameDay | mockApi.ts:85-87 | a second claim on the same day fails and changes nothing |
| Ledger.DirectOrderNeedsSender | mockApi.ts:130-138 | a bKash order without sender number fails with no change; with one it is placed pending and no balance moves |
| Ledger.WalletOrderOverBalance | mockApi.ts:122-125 | a wallet order above the balance fails and changes nothing |
| Ledger.OrderStatusMovesNoMoney | mockApi.ts:162-169 | completing or rejecting an order neither refunds nor charges anyone |
| Ledger.SettingsRoundTrip | mockApi.ts:222-231 | saved settings read back unchanged; a fresh browser reads the seed settings |
| TopUp.CalculateTotal | pages/TopUp.tsx:37-40 | the tax is the least whole amount at or above 5% of the price, and the total is price plus tax, never below the price |
| TopUp.CatalogueTotals | constants.ts:43-56 | the checkout totals of the ten catalogue packages are 90, 184, 452, 893, 1785, 168, 788, 100, 473 and 924 |
| TopUp.FindCategory | pages/TopUp.tsx:11 | the category shown is a catalogue entry whose id is the hash's text after `/topup/`; none shown means no entry has that id |
| TopUp.OfferedPackages | pages/TopUp.tsx:12 | the packages offered are exactly the catalogue packages of the category the hash names, in catalogue order |
| TopUp.CardLinkRoundTrip | pages/Home.tsx:8 | a card link `#/topup/<id>` reads back as id, for any id not containing `/topup/` |
| TopUp.CardLinksOpenTheirCategory | constants.ts:16-41 | every catalogue card's link opens its own category |
| TopUp.CheckBuy | pages/TopUp.tsx:42-57 | the order is built exactly when the user is signed in, a package is chosen, the player id is not blank, a method is chosen, a direct payment has a transaction id, and a direct non-Binance payment has a sender number; otherwise the first failing check in that order is reported; the built order has the signed-in user's id and uid, amount equal to base price plus tax, and no transaction id or sender for Wallet |
| TopUp.CheckedOrderFailsOnlyOnUserOrBalance | pages/TopUp.tsx:47-48 | an order that passed the page's checks is never refused for a missing transaction id or sender number, only for an unknown user or a short wallet |
| TopUp.HandleBuy | pages/TopUp.tsx:42-65 | the store is called only when every page check passes; a visitor is sent to login; a failure shows its message |
| TopUp.GetPaymentNumber | pages/TopUp.tsx:67-73 | bKash, Nagad and Binance show their number from the settings, or from the seed numbers before they load; any other method shows nothing |
| TopUp.WalletShowsNoNumber | pages/TopUp.tsx:67-73 | a wallet payment shows no collection number |
| AppRouting.InitialHash | App.tsx:20 | the shell starts at the browser's hash, or `#/` when there is none |
| AppRouting.RoutePath | App.tsx:56 | the route is the hash without one leading `#`, and an empty route is `/` |
| AppRouting.GetPage | App.tsx:67-81 | loading shows the loading page whatever the route; login shows for `/login` and for the profile routes without a user; profile pages only for a signed-in user; `/topup/…` shows checkout; `/recent-orders` the feed; `/admin` the console with no check here; anything else Home |
| AppRouting.Redirect | App.tsx:55-65 | the only redirects are `/login` with a user to `#/profile`, and a profile route without a user, once loading ends, to `#/login` |
| AppRouting.ProfileNeedsSignIn | App.tsx:62-75 | a profile page is never drawn for a visitor, and the login redirect fires only where the login page is already drawn |
| AppRouting.RedirectSettles | App.tsx:55-65 | following a redirect lands on a route that does not redirect again |
| AppRouting.CardLinkOpensTopUp | App.tsx:76 | a card link always opens the checkout page |
| AppRouting.EmptyHashIsHome | App.tsx:20-36 | a browser with no hash lands on Home |
| LiveOrders.LiveFeed | pages/LiveOrders.tsx:12-14 | the feed is the first min(20, n) orders of the newest-first list, in order |
| LiveOrders.PlacedOrderLeadsFeed | pages/LiveOrders.tsx:12-14 | a newly placed order heads the feed, followed by the older feed less its last entry |
| LiveOrders.MaskUid | pages/LiveOrders.tsx:22-25 | an empty uid shows as six stars; a longer uid as its first two and last two characters around four stars; a one-character uid on both sides of the stars |
| LiveOrders.MaskRevealsAtMostFour | pages/LiveOrders.tsx:22-25 | a mask is 8 characters for uids of two or more characters and 6 otherwise, and its middle is always stars |
| Home.ActivityLines | pages/Home.tsx:60 | one ticker line per order, in order |
| Home.Ticker | pages/Home.tsx:53-61 | the ticker has 5 lines when there is any order and 4 otherwise; the real lines come first, one per recent order, then the canned lines |
| Home.TickerHidesUid | pages/Home.tsx:60 | a real ticker line shows only the last two characters of the buyer's uid |
| Home.Rotate | pages/Home.tsx:64-67 | a tick moves the first line to the end and shifts the rest up one |
| Home.RotateTimesShifts | pages/Home.tsx:63-68 | after k ticks the first k lines have moved to the end |
| Home.RotationIsPermutation | pages/Home.tsx:63-68 | a tick keeps every line, and a full round of ticks restores the ticker |
| Home.NextSlide | pages/Home.tsx:109-111 | the slide index stays below the number of slides, advancing by one and wrapping to 0 |
| Home.SlidesCycle | pages/Home.tsx:109-111 | three advances visit every slide and return to the start |
| Home.GroupCards | pages/Home.tsx:115-119 | a section shows exactly the catalogue cards of its group, in catalogue order |
| Home.SectionsCoverCatalogue | pages/Home.tsx:115-119 | every catalogue card appears in one of the three sections |
| AddWallet.CurrentNumber | pages/AddWallet.tsx:55-58 | each channel shows its own saved number, and only Binance falls back to `1210169527` when its number is empty |
| AddWallet.NumbersAgreeWithCheckout | pages/AddWallet.tsx:55-58 | the deposit form and the checkout show the same bKash and Nagad numbers, and the same Binance number unless it is empty, when the checkout shows nothing and the form the fallback |
| AddWallet.HandleSubmit | pages/AddWallet.tsx:23-51 | a visitor is sent to login and nothing is filed; an empty amount or transaction id files nothing; otherwise exactly one pending deposit is filed with the user's id and uid and the chosen channel and transaction id, and the page moves to the profile |
| AddWallet.SubmitKeepsBalanced | pages/AddWallet.tsx:25-43 | a submission never breaks "balance = approved deposits minus wallet orders" |
| AddWallet.SubmitForm | pages/AddWallet.tsx:123-146 | the browser blocks a form with an empty amount or transaction id, or an amount below 1, and nothing changes; otherwise the reply is exactly the submit handler's, so a filed deposit is for the signed-in user with an amount of at least 1 |
| AddWallet.SubmitKeepsSolvent | pages/AddWallet.tsx:123-146 | submitting the form never drives a balance below zero |
| Admin.AdminGate | pages/Admin.tsx:14-19 | the console opens exactly for a signed-in user whose uid is the admin uid |
| Admin.GateIgnoresRole | pages/Admin.tsx:16 | a stored admin role under another uid does not open the console, and the admin uid opens it whatever its role |
| Admin.PendingOrders | pages/Admin.tsx:86 | the order badge is the number of pending orders, so zero exactly when none is pending |
| Admin.PendingDeposits | pages/Admin.tsx:93 | the deposit badge is the number of pending deposits, so zero exactly when none is pending |
| Admin.NewRequestsRaiseBadges | pages/Admin.tsx:86-93 | a placed order raises the order badge by one; a filed deposit raises the deposit badge by one |
| Admin.HandleStatusUpdate | pages/Admin.tsx:30-33 | completing or rejecting an order sets the status of the first order with that id and changes no other order, user or deposit; an unknown id changes nothing |
| Admin.HandleDepositUpdate | pages/Admin.tsx:35-41 | nothing changes unless the operator confirms or when the id is unknown; otherwise the first deposit with that id gets the chosen status and no other deposit, order or setting changes; only an approval of a pending record moves money, crediting its registered owner by the amount |
| Admin.DistinctIdsFindTheirRow | pages/Admin.tsx:226-242 | when deposit ids are distinct, each row's button acts on that row |
| Admin.ResolvingLowersBadges | pages/Admin.tsx:155-172 | resolving a pending row that is the first record with its id lowers its badge by exactly one |
| Admin.DepositClickKeepsBalanced | pages/Admin.tsx:226-242 | a deposit button drawn on a pending row that is the first record with its id never breaks "balance = approved deposits minus wallet orders" |
| Admin.ApprovalCreditsOwner | pages/Admin.tsx:226-242 | approving a pending row that is the first record with its id credits its registered owner by the amount, after which the row shows no buttons |
| Admin.RejectionMovesNoMoney | pages/Admin.tsx:235-241 | rejecting a pending row that is the first record with its id moves no balance |
| Admin.SaveMarquee | pages/Admin.tsx:43-46 | saving replaces the notice text and keeps the payment numbers in effect; nothing else changes |
| Admin.SaveUnchangedNoticeIsNoOp | pages/Admin.tsx:43-46 | saving the notice as loaded leaves the settings as the pages read them |

## Left out

- Browser storage and JSON (mockApi.ts:11-18): the store is an in-memory value. Parse and write failures are not modelled, because the code does not handle them.
- The `user_data_update` event (mockApi.ts:20-24, App.tsx:41-46): it only makes the shell re-read the user.
- Clocks and randomness: `Date.now()` ids, `Math.random()` referral codes and ISO timestamps are parameters. Id uniqueness is not claimed, because two calls in one millisecond give the same id.
- MockApi.ClaimDailyReward: the UTC "today" and "yesterday" strings are inputs; the `toISOString` day arithmetic is not modelled.
- MockApi.ClaimDailyReward: the exact receipt text is built but not stated in the contract, because it depends on number formatting; the streak it reports is stated.
- TopUp.CalculateTotal: it uses the integer ceiling of 5% rather than `Math.ceil` on a double. This agrees with the double arithmetic for the catalogue prices, but is not claimed for every price.
- AddWallet.HandleSubmit: `parseFloat` of the amount text is an input. The one-second delay before filing is not modelled: the filing is treated as immediate.
- Admin.HandleDepositUpdate and Admin.HandleStatusUpdate: the console acts on the store directly, not on its snapshot of the lists, and the alert and confirm texts are not modelled.
- The admin backup download (pages/Admin.tsx:48-64), clipboard copies, alerts, timers and all rendering.
- components/ChatAssistant.tsx is not part of this model, because it calls an external AI service. Nor are components/Navbar.tsx, Footer.tsx, index.tsx, pages/Profile.tsx and pages/Login.tsx, which are presentation or thin wrappers over the store calls.
- Races between browser tabs sharing the same storage.
- Ledger.MoneyConservation: amounts and balances are integers here, while the code keeps them as JavaScript doubles. `balance += amount` and `-=` round, so the identity is exact in the model and holds in the program only up to that rounding.
- Ledger.ConsoleConservation: the same integer-for-double simplification, so the program can differ from it by rounding error.
- AddWallet.SubmitForm: the browser's constraint validation is modelled only as its outcome on the amount (at least 1, a whole number) and the required fields. `parseFloat` of the amount text is an input, and the model takes it to be the integer the validated text denotes.
- JsString.SliceLast: strings are sequences of Unicode scalar values, while JavaScript's `slice`, `substring` and `length` count UTF-16 code units. For uid `12345😀`, `slice(-4)` is `45😀` in JavaScript and `345😀` in the model. The same difference affects MockApi.LoginUser's generated name and Home.ActivityLine.
- LiveOrders.MaskUid: for the same reason, the two shown characters at each end are counted in scalar values, not UTF-16 code units.
