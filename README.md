# Boutique loyalty, cart and account core in Dafny

This project models the state-changing core of the boutique's storefront
script (`script.js`). The page keeps all of its state in browser storage,
and the model holds the same state in one class, `Storage.Store`:

- loyalty records keyed by customer email;
- the cart, an ordered list of lines;
- the registered accounts;
- the logged-in session;
- the one pending cart item, kept while a visitor is not logged in;
- the list of orders.

Each method of the class is one handler or core function of the script. It
changes its fields step by step, as the page does. Its `ensures` ties the new
state to a pure transition function in one of these modules:

- `Loyalty`: tiers, earning, redeeming and referral bonuses.
- `Cart`: merge on add, `splice` removal, quantity update and the total.
- `Accounts`: registration checks and the login lookup.
- `Text`: the JavaScript `\s` class, `trim()`, `replace(/\s/g, '')` and `split('|')`.

The lemmas beside those functions prove the properties the shop relies on:

- Every stored loyalty record stays consistent. The balance always equals
  points earned minus points spent. No record lists the same referred email twice. The
  referral bonus is 50 per referral. The tier never exceeds the tier that the
  lifetime earnings would give.
- The cart never holds two lines with the same (product, size, colour) key, and every line holds at least one unit.
- Account emails are unique.
- Points earned are the amount times the tier multiplier, rounded to the
  nearest integer.
- The cart total moves by exactly price × quantity on every add, remove and
  update.
- A just-registered account can log in.
- A repeated referral is refused.

Amounts and prices are whole numbers. `Math.round(x * 1.5)` is
`(3x + 1) / 2`, and the multiplier is kept in halves (2, 3, 4).

Some behaviour of `script.js` is easy to misread, and the model keeps it as
written:

- A redemption never demotes. `redeemLoyaltyPoints` lowers the balance but
  leaves the stored tier as it was (script.js:61-64,
  `Loyalty.RedeemKeepsStaleLevel`).
- The referred customer's tier is not recomputed after the 30-point bonus
  (script.js:85-88, `Loyalty.ReferredKeepsStaleLevel`). So "tier = tier of
  the balance" is not an invariant. The weaker "tier ≤ tier of lifetime
  earnings" is, and it is proved.
- Only the referrer's own list is checked for a repeated referral
  (script.js:74). Two different referrers can therefore both credit the same
  person (`Loyalty.SameReferredTwice`).
- `completeCheckout` has no explicit session check. With nobody logged in,
  it fails at `user.email` (script.js:745), after the form and card checks
  and before anything is stored. The model returns `NotLoggedIn` at that
  point and changes nothing.

## Model

| member | source | states |
|---|---|---|
| `Loyalty.LevelOf` | script.js:32-36 | Bronze exactly below 500 points, Or exactly from 1000, Argent in between |
| `Loyalty.LevelOfMonotone` | script.js:32-36 | more points never give a lower tier |
| `Loyalty.MultiplierHalves` | script.js:38-42 | the multiplier in halves is 2 + the tier's rank: 1, 1.5, 2 |
| `Loyalty.PointsFor` | script.js:46-47 | the points earned are amount × multiplier rounded to nearest, halves up (2r ≤ a·h + 1 < 2r + 2) |
| `Loyalty.PointsForMonotone` | script.js:38-47 | a higher tier never earns fewer points for the same amount |
| `Loyalty.ReferralCode` | script.js:10-12 | a new code is "DAP", then each of the first (up to) three characters of the email upper-cased, then the random part, and nothing else |
| `Loyalty.AsciiUpper` | script.js:11 | upper-casing keeps the length and replaces each character by UpperChar of it |
| `Loyalty.UpperChar` | script.js:11 | a lower-case ASCII letter becomes its capital (32 code points lower); every other character is unchanged; the result is never a lower-case ASCII letter |
| `Loyalty.Fresh` | script.js:15-24 | the default record of script.js:15-24, which is consistent |
| `Loyalty.Load` | script.js:14-26 | a stored record is returned as it is; a missing email gives the default record (every counter 0, Bronze, no referrals, the referral code generated for that email); loading from a consistent ledger gives a consistent record |
| `Loyalty.SaveThenLoad` | script.js:14-26 | a record saved under an email is the one loaded back for it |
| `Loyalty.Earn` | script.js:44-57 | exactly PointsFor(amount, tier before the earn) is added to balance and lifetime total; the tier is recomputed from the new balance; purchases grow by 1 iff the reason is "achat"; nothing else changes; consistency is kept |
| `Loyalty.Redeem` | script.js:59-68 | refused iff n exceeds the balance; otherwise n moves from balance to spent and nothing else changes, the tier included; consistency is kept |
| `Loyalty.CreditReferrer` | script.js:73-80 | the referred email is appended; +50 to balance, lifetime total and referral bonus; the tier is recomputed; spent total, purchases and referral code unchanged; consistency is kept when the email was not yet listed |
| `Loyalty.CreditReferred` | script.js:85-88 | +30 to balance and lifetime total, every other field (the tier included) unchanged; consistency is kept |
| `Loyalty.Refer` | script.js:70-91 | refused iff the referred email is already in the referrer's list; otherwise only the two records change, as CreditReferrer then CreditReferred on the updated ledger (both credits when self-referred); ledger consistency is kept |
| `Loyalty.EarnThenRedeem` | script.js:44-68 | redeeming exactly the points just earned succeeds and restores the balance |
| `Loyalty.ReferTwiceRefused` | script.js:73-74 | after a referral succeeds, the same referral is refused |
| `Loyalty.ReferCredits` | script.js:76-87 | a successful referral credits the referrer +50 and the referred +30 exactly once (+80 when the same person) |
| `Loyalty.BalanceBounded` | script.js:49-50 | in a consistent record the balance never exceeds lifetime earnings |
| `Loyalty.RedeemKeepsStaleLevel` | script.js:61-64 | 600 Argent points less 200 leave 400 points still marked Argent |
| `Loyalty.ReferredKeepsStaleLevel` | script.js:85-88 | 480 Bronze points plus the 30 bonus leave 510 points still marked Bronze |
| `Loyalty.SameReferredTwice` | script.js:70-91 | two different referrers can both refer the same person, who is then credited twice |
| `Text.StripSpaces` | script.js:730 | the result has no whitespace, keeps every other character of the input and adds none |
| `Text.StripSpacesKeepsPlain` | script.js:730 | stripping a string without whitespace returns it unchanged |
| `Text.StripSpacesAppend` | script.js:730 | stripping distributes over concatenation |
| `Text.TrimStart` | script.js:906 | the result is the suffix left after a run of whitespace, and does not start with whitespace |
| `Text.TrimEnd` | script.js:906 | the result is the prefix left before a run of whitespace, and does not end with whitespace |
| `Text.Trim` | script.js:906-914 | the result is a slice of the input with only whitespace cut off before and after it, with no whitespace at either end, and is empty iff the input is all whitespace |
| `Text.CutTwice` | script.js:906-914 | cutting whitespace off the start and then off the end cuts only whitespace, on both sides of a slice of the input |
| `Text.CutEmpty` | script.js:906-914 | what is left between the cut-off whitespace is empty iff the input is all whitespace |
| `Text.IsJsSpace` | script.js:730 | the JavaScript whitespace class: space, tab and newline are in it; no ASCII letter or digit is |
| `Text.FirstIndex` | script.js:954-955 | the position of the first separator, or the length when there is none |
| `Text.SplitHead` | script.js:954 | `split('|')[0]` is a prefix without the separator, the whole string when there is none |
| `Text.SplitTail` | script.js:955 | the text after the first separator is shorter than the input |
| `Text.SplitRoundTrip` | script.js:954-955 | head + separator + tail rebuilds the country value |
| `Cart.FindLine` | script.js:116-118 | the first line with the (id, size, colour) key, or none iff no line has it |
| `Cart.FindAppended` | script.js:116-133 | a line appended to a cart without its key is the one found |
| `Cart.AddItem` | script.js:114-134 | the first line with the key grows by q and the length is unchanged, or exactly one new line with quantity q is appended; all other lines unchanged; afterwards the key is present; distinct keys and positive quantities (q ≥ 1) are kept |
| `Cart.AddTwiceMerges` | script.js:114-134 | adding one unit of the same key twice gives one line with quantity 2 |
| `Cart.RemoveAt` | script.js:138 | exactly line k is removed; the others keep their order |
| `Cart.SpliceOne` | script.js:136-140 | `splice(index, 1)`: index ≥ length removes nothing; 0 ≤ index < length removes that line; a negative index counts from the end, clamped to 0; distinct keys and positive quantities are kept |
| `Cart.RemoveAtKeeps` | script.js:138 | removing a line keeps keys distinct and quantities positive |
| `Cart.UpdateQuantity` | script.js:142-150 | fails iff q > 0 and there is no line at the index; q > 0 changes only that line's quantity, to q; q ≤ 0 is exactly removeFromCart |
| `Cart.LineTotal` | script.js:154 | a line holding at least one unit costs at least its price; a line costs nothing iff it is free or empty |
| `Cart.TotalLines` | script.js:152-155 | every line's total is part of the cart total, and the cart total is zero iff every line's total is |
| `Cart.Total` | script.js:152-155 | the sum of price × quantity over the lines, 0 for an empty cart; its facts are TotalLines, TotalAppend and TotalAround |
| `Cart.TotalAppend` | script.js:152-155 | the total of a concatenation is the sum of the totals |
| `Cart.TotalAround` | script.js:152-155 | the total splits into the lines before, the line itself, and the lines after |
| `Cart.TotalRemoveAt` | script.js:136-140 | removing a line lowers the total by its price × quantity |
| `Cart.TotalReplace` | script.js:152-155 | replacing a line changes the total by the difference of the two line totals |
| `Cart.TotalGrowLine` | script.js:121-123 | growing a line by q raises the total by its price × q |
| `Cart.TotalPush` | script.js:124-131 | appending a line raises the total by its price × quantity |
| `Cart.TotalAddItem` | script.js:114-134 | adding q units raises the total by q × the price of the line they land on |
| `Cart.TotalUpdateQuantity` | script.js:142-146 | setting a line's quantity to q > 0 moves the total by price × the change |
| `Accounts.FindByCredentials` | script.js:875 | the first account whose email and password both match exactly; none iff no account matches both |
| `Accounts.NewAccount` | script.js:919-970 | succeeds iff trimmed first name, last name, email and phone are non-empty, the country value has a '\|', the password has at least 6 characters and equals its confirmation, and no account has the trimmed email; each error is returned iff its check is the first to fail, in that order; a success stores the trimmed fields, the country name, phone = dialling code + trimmed phone, and the password |
| `Accounts.CountryCode` | script.js:954 | `split('\|')[0]`: a prefix of the country value without '\|', followed in the value by '\|' unless it is the whole value |
| `Accounts.CountryName` | script.js:955 | `split('\|')[1]`: the text right after the first '\|', without '\|', followed in the value by '\|' unless it reaches the end |
| `Accounts.SessionOf` | script.js:878 | the session keeps the account's email, country and phone, and its name is first name, a space, last name |
| `Accounts.SessionIdentifiesAccount` | script.js:957-961 | with unique emails, the session's email names exactly the account it was opened for |
| `Accounts.AppendKeepsUnique` | script.js:957-966 | appending an account whose email is not taken keeps emails unique |
| `Accounts.RegisteredCanLogIn` | script.js:966-975 | right after registering, logging in with the stored email and the typed password finds the new account |
| `Accounts.NoMatchThenAppended` | script.js:875 | when no account has the email, the appended account is the one found |
| `Accounts.LoginByEmail` | script.js:875 | with unique emails, login with an account's email succeeds iff its password is given, and finds that account |
| `Storage.Store.constructor` | script.js:103-107 | storage with nothing saved: no records, empty cart, no accounts, no session, no pending item, no orders |
| `Storage.Store.AddLoyaltyPoints` | script.js:44-57 | returns PointsFor(amount, tier before); only the customer's record changes, to Earn of the loaded record; store invariant kept |
| `Storage.Store.RedeemLoyaltyPoints` | script.js:59-68 | succeeds iff the balance covers n; only then is the record replaced by Redeem's; otherwise storage is unchanged |
| `Storage.Store.AddReferralBonus` | script.js:70-91 | succeeds iff Refer does, and the ledger becomes Refer's result; unchanged on refusal |
| `Storage.Store.AddToCart` | script.js:114-134 | for q ≥ 1, the cart becomes AddItem of the old cart, with keys distinct and quantities positive; the total grows by q × the landing line's price |
| `Storage.Store.RemoveFromCart` | script.js:136-140 | the cart becomes SpliceOne of the old cart; an in-range removal lowers the total by that line's total |
| `Storage.Store.UpdateCartItemQuantity` | script.js:142-150 | succeeds iff UpdateQuantity does, and the cart becomes its result; unchanged when the page would throw |
| `Storage.Store.RequestAddToCart` | script.js:833-853 | without a session the item becomes the pending item and the cart is unchanged; with one, one unit is added to the cart |
| `Storage.WithPending` | script.js:883-887 | without a pending item the cart is unchanged; with one, its key is in the cart, the cart has at most one more line, the total grows by the price of the line the unit lands on, and distinct keys and positive quantities are kept |
| `Storage.CardNumberAccepted` | script.js:730-732 | the card check: at least 13 characters once whitespace is removed, so the input has at least 13 |
| `Storage.PlainCardNumber` | script.js:730-732 | a card number without whitespace is accepted iff it has at least 13 characters |
| `Storage.CardSpacesIgnored` | script.js:730-732 | inserting a whitespace character anywhere in a card number does not change the verdict |
| `Storage.Store.ConsumePending` | script.js:883-887 | the pending item, if any, is added with quantity 1, then the pending slot is empty |
| `Storage.Store.LogIn` | script.js:869-892 | succeeds iff some account has both the email and the password; then the session is the first such account and the pending item is moved into the cart; otherwise nothing changes |
| `Storage.Store.Register` | script.js:904-994 | the outcome is NewAccount's; on success exactly that account is appended, the session is set to it and the pending item is moved into the cart; on failure nothing changes |
| `Storage.Store.Enroll` | script.js:966-991 | appends the account, opens its session and consumes the pending item |
| `Storage.Store.AddUser` | script.js:966-974 | appends one account and keeps emails unique |
| `Storage.Store.LogOut` | script.js:258-262 | the session is removed |
| `Storage.Store.CompleteCheckout` | script.js:718-761 | invalid forms, then a card shorter than 13 characters without whitespace, then a missing session are refused in that order and change nothing; otherwise exactly one order with id "DAP-"+time, the cart and its total is appended, the customer earns points for the total as "achat", the points are returned and the cart is empty |
| `Storage.TwoLineTotal` | script.js:152-155 | lines 20 × 2 and 15 × 1 total 55 |
| `Storage.BronzeCheckoutEarnsTotal` | script.js:44-57 | a Bronze customer's purchase earns exactly its total and counts one purchase |

## Left out

- DOM rendering, modals, tabs, badges, alerts, animations, the carousel, the newsletter and product filtering (`filterProducts`, `resetFilters`). These are browser effects with no state of the core.
- The remote API mode, `fetch`, `mailto` and the clipboard. These are network and browser I/O.
- JSON serialisation and the fallback to empty state when parsing fails. Storage is plain in-memory state.
- Randomness and the clock. The random suffix of a referral code, the `Date.now()` of an order id and the formatted order date are parameters (`randomPart`, `timestamp`, `date`).
- The browser's form validation (`checkValidity`). It is the `formsValid` parameter of `CompleteCheckout`.
- `parseFloat` on prices and floating-point amounts. Prices and amounts are whole numbers, so a `Math.round` of a fractional total is not modelled.
- `parseInt` on a typed quantity that is not a number (NaN). The page would then delete the line; the model takes integer quantities only.
- Loading a loyalty record at registration. That load is never saved, so it changes nothing.
- The `redeemPoints` wrapper and its messages (script.js:662-673). It only calls `redeemLoyaltyPoints` for the session's email.
- Storage.Store.AddToCart: requires a quantity of at least 1. Every call site (script.js:852, 885, 989) passes 1, so a zero or negative quantity never reaches `addToCart`.
- Loyalty.ReferralCode: upper-casing covers ASCII letters only, not the full Unicode mapping of `toUpperCase`.
- Loyalty.AsciiUpper: upper-cases ASCII letters only; `toUpperCase` also maps other letters (é to É, for instance).
- Loyalty.UpperChar: maps only the 26 lower-case ASCII letters; every other character, accented letters included, is left as it is.
- Loyalty.ReferralCode: `email.substring(0, 3)` takes three UTF-16 code units; the model takes three Unicode scalar values, so an email starting with a character outside the Basic Multilingual Plane gives a different code.
- Accounts.NewAccount: `password.length < 6` counts UTF-16 code units; the model counts Unicode scalar values. A password of three characters outside the Basic Multilingual Plane has length 6 in the page and is accepted there, but the model refuses it.
- Text.StripSpaces: lengths count Unicode scalar values, not UTF-16 code units. A card number with characters outside the Basic Multilingual Plane would be measured differently.
- Storage.CardNumberAccepted: the 13-character check counts Unicode scalar values, whereas `cardNumber.length` counts UTF-16 code units, so a card number with characters outside the Basic Multilingual Plane can be refused by the model and accepted by the page.
- Storage.Store.CompleteCheckout: the page stores the whole cart object (`{ items: [...] }`) as the order's items; the model stores the list of lines.
- Several browser tabs writing the same records at once. The model is single-threaded, like the page.
