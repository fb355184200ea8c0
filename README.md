# FlexyPe shopping dashboard — a verified model of its logic

This project models the logic of the FlexyPe customer dashboard, a React
single-page shop with an in-memory backend, and proves what that logic
promises.

- **The order ledger** of the mock backend (`MockApi`). The module-level
  `mockOrders`, `mockCart` and `mockPreferences` bindings are the fields of the
  class `MockApi.Store`. Its methods are:
  - `placeOrder`: computes the total, assigns the id and line ids, and puts
    the new order in front of the ledger;
  - `cancelOrder`: removes every order carrying the id when the first one is
    still processing;
  - `api.updatePreferences`: a shallow `Object.assign` merge.
- **The form validators** (`Validators`). Each regular expression is written
  twice and the two are proved equivalent: once as a description of the
  strings the pattern matches, once as an explicit check over characters. The
  password-strength scorer is a method that adds its nine points one by one,
  proved against the count of criteria met.
- **The decision logic of the profile components**:
  - `OrderTimeline`: the status filter, the counters, the badge, the actions
    offered per status and the cancel dialog;
  - `ProductsCatalog`: categories, search, the quantity clamp and the Buy Now
    flow;
  - `QuickReorder`: the "last ordered" buckets and the one-click reorder
    flow;
  - `PersonalizedDeals`: the savings headline and the deal flow;
  - `AuthContext`: the credential map, login, signup, logout and profile
    updates;
  - `Preferences`: the preference handlers;
  - `ProfileHeader`: initials, tier colour and rewards, and the name editor;
  - `SpendingAnalytics`: the savings milestones;
  - `Achievements` and `SmartInsights`: the selections and card decorations.

  Handlers that change component state are methods of small classes, one
  class per component's state. Handlers that compute a value are functions.
- **`Text`**: the parts of the JavaScript string library the code relies on:
  - UTF-16 code units, which `length` counts and a regex without the `u` flag
    matches, with their decoding back to code points;
  - `\s`;
  - ASCII case mapping;
  - `trim` and `includes`;
  - `String(n)` and `padStart`.

**Representation.**
- Dates are day numbers.
- Clock readings, the ids derived from them and the host's locale output are
  parameters.
- A JavaScript `null` or `undefined` result is `None`.

**The ledger's ids.** The code builds an order's id from the current ledger
length (1303 + length). Because `cancelOrder` shortens the ledger, ids are not
unique. `MockApi.IdReusedAfterCancel` shows this: place two orders, cancel the
first, place a third, and two live orders carry the same id; a cancel of that
id then removes both. The model keeps this behaviour as written.

**Deal orders.** `PersonalizedDeals` never reaches the ledger. The profile
page also wires its handler to a prop the card does not read, so a confirmed
deal reports nothing there (`PersonalizedDeals.ConfirmOnProfilePage`).

## Model

| member | source | states |
|---|---|---|
| Text.ToLower | src/components/profile/ProductsCatalog.jsx:17 | `toLowerCase` keeps the length, leaves no upper-case letter, maps each one to its lower-case partner and keeps every other character |
| Text.ToUpper | src/components/profile/ProfileHeader.jsx:95 | `toUpperCase` keeps the length, leaves no lower-case letter, maps each one to its upper-case partner and keeps every other character |
| Text.ToLowerIdempotent | src/components/profile/ProductsCatalog.jsx:17 | lower-casing an already lower-cased string changes nothing |
| Text.LowerOfUpper | src/context/AuthContext.jsx:46 | lower-casing after upper-casing gives the plain lower-cased string, so case does not matter |
| Text.Contains | src/components/profile/ProductsCatalog.jsx:17 | the empty query is found in every string, and a query longer than the string in none |
| Text.ContainsAt | src/components/profile/ProductsCatalog.jsx:17 | `includes` holds exactly when the query occurs at some index of the string |
| Text.TrimStart | src/utils/validators.js:63 | the kept part is a suffix that does not start with `\s`, and everything dropped is `\s` |
| Text.TrimEnd | src/utils/validators.js:63 | the kept part is a prefix that does not end with `\s`, and everything dropped is `\s` |
| Text.TrimSlice | src/utils/validators.js:63-64 | `trim` keeps one contiguous slice of the string and drops only `\s` on either side of it |
| Text.Trim | src/utils/validators.js:63-64 | what `trim` keeps is no longer than the string, and is empty or neither starts nor ends with `\s` |
| Text.TrimBlank | src/components/profile/ProfileHeader.jsx:141 | `trim` gives the empty string exactly when the string is all `\s`, which is what the truthiness test of a trimmed entry asks |
| Text.Decimal | src/data/mockApi.js:396 | `String(n)` of a natural number is a non-empty string of digits |
| Text.ParseDecimalOfDecimal | src/data/mockApi.js:396 | reading the decimal numeral of n gives back n |
| Text.PadStartShape | src/data/mockApi.js:396 | `padStart` keeps the string at the end, fills the front with the pad character, and reaches the width without cutting a longer string |
| Text.PaddedDecimal | src/data/mockApi.js:396 | `padStart(width, '0')` on a numeral reaches the width, keeps only digits and keeps the value |
| Text.CodeUnits | src/utils/validators.js:12 | a code point below U+10000 is one code unit equal to it; one above is a high surrogate followed by a low surrogate |
| Text.Utf16 | src/utils/validators.js:12 | a string is stored as between one and two code units per code point, each below 0x10000 |
| Text.Utf16Length | src/utils/validators.js:12 | `length` lies between the number of code points and twice that |
| Text.Utf16LengthCounts | src/utils/validators.js:12 | `length` is exactly the number of stored code units |
| Text.Utf16RoundTrip | src/utils/validators.js:12 | decoding the code units of a string gives the string back, so no code point is lost or split |
| Text.Utf16OfBmp | src/utils/validators.js:63-64 | below U+10000 `length` equals the number of code points |
| MockApi.UnitPrice | src/data/mockApi.js:401 | `item.price \|\| 0`: the given price, or 0 when missing |
| MockApi.Quantity | src/data/mockApi.js:402 | `item.quantity \|\| 1`: never 0; the given quantity when it is non-zero, and 1 otherwise |
| MockApi.RequestTotal | src/data/mockApi.js:399-403 | no lines cost 0, and the total is never negative when no price or quantity is negative |
| MockApi.Cancellable | src/data/mockApi.js:431-432 | a cancel goes ahead exactly when some order with the id is processing and no earlier order carries that id |
| MockApi.FirstIndex | src/data/mockApi.js:431 | `findIndex` gives the first index carrying the id, or -1 exactly when no order carries it |
| MockApi.WithoutId | src/data/mockApi.js:433 | the filter drops exactly as many orders as carry the id |
| MockApi.WithoutIdMembers | src/data/mockApi.js:433 | the filter keeps exactly the orders whose id differs |
| MockApi.WithoutIdAppend | src/data/mockApi.js:433 | the filter works piece by piece, so the kept orders stay in their order |
| MockApi.WithoutAbsentId | src/data/mockApi.js:433 | filtering an id no order carries leaves the ledger unchanged |
| MockApi.MergeLaws | src/data/mockApi.js:629-631 | the shallow merge changes nothing when the update is empty, is idempotent, and two merges are one merge of the later keys over the earlier ones |
| MockApi.InitialTotalsConsistent | src/data/mockApi.js:207-389 | every fixture order's total equals the sum of its lines |
| MockApi.Store.constructor | src/data/mockApi.js:116-392 | the ledger starts with the eight fixture orders, an empty cart and the fixture preferences, and every total matches its lines |
| MockApi.Store.PlaceOrder | src/data/mockApi.js:395-427 | the ledger becomes the new order followed by the old ledger; the returned order is that head; the cart is emptied; the preferences are kept; totals stay consistent |
| MockApi.Store.CancelOrder | src/data/mockApi.js:430-437 | succeeds exactly when the first order with the id is processing; on success every order with that id is removed and the success message returned; otherwise the ledger is unchanged and the refusal message returned |
| MockApi.Store.UpdatePreferences | src/data/mockApi.js:629-632 | the stored preferences become the merge of the update, nothing else changes, and it always reports success |
| MockApi.BuildLines | src/data/mockApi.js:399-412 | the loop produces one line per request, with id 200 + index + ledger length and normalised price and quantity, and a running total equal to both the charged total and the sum of the stored lines |
| MockApi.RequestTotalAppend | src/data/mockApi.js:399-403 | the charged total of two batches of lines is the sum of their totals |
| MockApi.SnapshotsTotal | src/data/mockApi.js:400-412 | the stored lines add up to the charged total |
| MockApi.NewOrderShape | src/data/mockApi.js:396-421 | a new order is processing, has one normalised line per request in order, a total equal to its lines' sum, delivery five days out and no tracking data |
| MockApi.EmptyOrder | src/data/mockApi.js:399-403 | placing no lines gives total 0 and no items, without error |
| MockApi.TotalExamples | src/data/mockApi.js:401-403 | 100 x 2 + 50 x 1 charges 250; a quantity of 0 is charged as 1; a missing price as 0 |
| MockApi.OrderIdSequence | src/data/mockApi.js:396 | an id is "ORD-2025-" followed by digits whose value is 1303 + the ledger length |
| MockApi.OrderIdInjective | src/data/mockApi.js:396 | equal ids come from equal ledger lengths |
| MockApi.OrderIdsDiffer | src/data/mockApi.js:396 | different ledger lengths give different ids |
| MockApi.PlaceAllKeeps | src/data/mockApi.js:423 | successive placements put one new order each in front of the old ledger, which stays behind them unchanged |
| MockApi.PlaceAllAt | src/data/mockApi.js:396-423 | the i-th of successive placements is the order built from the i-th batch with sequence number length + i |
| MockApi.PlaceAllFirst | src/data/mockApi.js:423 | the first of successive placements sits right in front of the old ledger |
| MockApi.PlaceAllIdAt | src/data/mockApi.js:396 | the i-th of successive placements carries the id of sequence number 1303 + length + i |
| MockApi.PlaceAllDistinct | src/data/mockApi.js:396 | placements without a cancel in between get increasing sequence numbers, so distinct ids |
| MockApi.CancelUnique | src/data/mockApi.js:430-434 | cancelling a unique id shrinks the ledger by one and leaves no order with that id |
| MockApi.CancelRefused | src/data/mockApi.js:431-436 | a cancel is refused exactly when the id is absent or its first order is not processing |
| MockApi.WithoutIdCons | src/data/mockApi.js:433 | the filter on a ledger with a given head keeps that head exactly when its id differs |
| MockApi.CancelFirstOfTwo | src/data/mockApi.js:423-433 | of two fresh placements the first can be cancelled, leaving the second in front of the old ledger |
| MockApi.IdReusedAfterCancel | src/data/mockApi.js:396-433 | place, place, cancel the first, place: two live orders share an id, and cancelling it removes both |
| MockApi.CountIdAbsent | src/data/mockApi.js:433 | no order carries an id that is absent |
| MockApi.FixtureNextIds | src/data/mockApi.js:396 | on the eight fixture orders the next ids are ORD-2025-001311 and ORD-2025-001312 |
| MockApi.FixtureIdsFree | src/data/mockApi.js:207-396 | neither of those ids is on the fixture ledger, so the id-reuse scenario applies to it |
| MockApi.FixtureCancelShipped | src/data/mockApi.js:225-227 | the shipped fixture order cannot be cancelled |
| MockApi.FixtureCancelProcessing | src/data/mockApi.js:209-211 | the processing fixture order can be cancelled |
| Validators.EmailShapeMatchesPattern | src/utils/validators.js:3-5 | the explicit check accepts exactly the strings the email regex matches: no whitespace, exactly one '@' with something before it, and a '.' in the domain that is neither its first nor its last character |
| Validators.ValidateEmail | src/utils/validators.js:2-7 | empty gives "Email is required"; otherwise valid exactly when the regex matches |
| Validators.ValidatePassword | src/utils/validators.js:10-18 | valid exactly when at least 8 UTF-16 code units long and holding an upper-case letter, a lower-case letter, a digit and a special character; the first failing rule's message otherwise |
| Validators.FindLevel | src/utils/validators.js:49 | `find` returns a row of the table whose range holds the score, or none when no row does |
| Validators.LevelOfScore | src/utils/validators.js:41-49 | every score 0..10 finds a row, and it is the row of the score's band, with that band's label and colour |
| Validators.LevelOf | src/utils/validators.js:49 | the band's row (label and colour) for scores 0..10, the first row otherwise |
| Validators.PasswordStrength | src/utils/validators.js:21-58 | blank exactly for the empty password; otherwise the score counts the criteria met, lengths in code units and the repeat rule over code units, is at most 9, has maxScore 9, the band's label and colour, and a rounded percentage in 0..100 |
| Validators.ScoreOf | src/utils/validators.js:24-39 | the step-by-step score is the number of the nine criteria the password meets, with lengths in UTF-16 code units and three equal code units in a row as the repeat |
| Validators.PercentageIsRounded | src/utils/validators.js:54 | the integer percentage is `Math.round(score / 9 * 100)` and lies in 0..100 |
| Validators.AcceptedPasswordIsMedium | src/utils/validators.js:10-39 | every password `validatePassword` accepts scores at least 6, Medium or better |
| Validators.AstralPassword | src/utils/validators.js:10-18 | two emoji and "Aa1!" make eight code units, and the password is accepted |
| Validators.AstralRepeat | src/utils/validators.js:38 | three equal emoji are six alternating surrogates, so no repeat is found; "aaa" is one |
| Validators.ValidateName | src/utils/validators.js:61-67 | valid exactly when the trimmed length in UTF-16 code units is 2..50 and every character is a letter, `\s`, `'` or `-`; empty gives "Name is required", and a non-empty name shorter than 2 units the length message |
| Validators.LetterNames | src/utils/validators.js:63-64 | a name of letters is its own trim, passes exactly with 2 to 50 letters (50 included), and longer gets the "less than 50" message |
| Validators.AstralName | src/utils/validators.js:61-65 | a single code point above U+FFFF counts 2, so it passes the length rules and gets the character message |
| Validators.ValidateConfirmPassword | src/utils/validators.js:70-74 | valid exactly when the confirmation is non-empty and equal to the password |
| Validators.PhoneShapeMatchesPattern | src/utils/validators.js:79-80 | the explicit check accepts exactly the strings the phone regex matches |
| Validators.ValidatePhone | src/utils/validators.js:77-82 | valid exactly when empty or an optional '+' followed by 10 to 20 digits, `\s`, '-', '(' or ')' |
| Validators.ValidateForm | src/utils/validators.js:85-98 | the errors hold exactly the fields whose validator reported a non-empty error, each with its message, and the form is valid exactly when there is none |
| OrderTimeline.GetStatusInfo | src/components/profile/OrderTimeline.jsx:12-25 | a known status is titled by its capitalised name in a colour of its own; any other string is its own title, in the neutral colour |
| OrderTimeline.StatusTitles | src/components/profile/OrderTimeline.jsx:14-21 | the four fixed labels are the capitalised status names |
| OrderTimeline.StatusColorsDistinct | src/components/profile/OrderTimeline.jsx:12-21 | two known statuses share a colour only when they are the same |
| OrderTimeline.WithStatus | src/components/profile/OrderTimeline.jsx:38 | the filter keeps exactly the orders with that status |
| OrderTimeline.WithStatusAppend | src/components/profile/OrderTimeline.jsx:36-39 | the filter works piece by piece, so the kept orders stay in ledger order |
| OrderTimeline.FilteredOrders | src/components/profile/OrderTimeline.jsx:36-39 | "all" shows the orders unchanged; any other filter shows exactly the orders of that status |
| OrderTimeline.StatusCounts | src/components/profile/OrderTimeline.jsx:42-47 | "all" counts every order and each status counter is the length of that status's filtered list |
| OrderTimeline.CountsBound | src/components/profile/OrderTimeline.jsx:42-47 | the three status counters add up to at most "all", and fall short exactly when some order has another status |
| OrderTimeline.ActionsFor | src/components/profile/OrderTimeline.jsx:201-221 | Cancel only for processing, Reorder only otherwise, Write Review only for delivered |
| OrderTimeline.CancelOfferedIffAccepted | src/components/profile/OrderTimeline.jsx:201 | the Cancel button of the first order with an id is shown exactly when the ledger would accept cancelling that id |
| OrderTimeline.DeliveredActions | src/components/profile/OrderTimeline.jsx:210-221 | a delivered order offers Reorder and Write Review, never Cancel |
| OrderTimeline.CancelDialog.HandleCancelClick | src/components/profile/OrderTimeline.jsx:49-52 | the id becomes pending and the dialog opens |
| OrderTimeline.CancelDialog.KeepOrder | src/components/profile/OrderTimeline.jsx:248-258 | the dialog closes and the pending id is kept |
| OrderTimeline.CancelDialog.ConfirmCancel | src/components/profile/OrderTimeline.jsx:54-63 | with a pending id the ledger performs the cancel, then the dialog closes and the id is cleared whatever the answer, and the callback runs if given; without one nothing changes |
| ProductsCatalog.Distinct | src/components/profile/ProductsCatalog.jsx:14 | `[...new Set(s)]` holds each value of s once and nothing else, in the order of first occurrence |
| ProductsCatalog.DistinctOfDistinct | src/components/profile/ProductsCatalog.jsx:14 | a list without duplicates is its own set, in its own order |
| ProductsCatalog.Categories | src/components/profile/ProductsCatalog.jsx:14 | "all" first, then each category of the products exactly once, in the order the products first show it |
| ProductsCatalog.FilteredProducts | src/components/profile/ProductsCatalog.jsx:16-20 | a product is shown exactly when its lower-cased name contains the lower-cased query and the category is "all" or its own |
| ProductsCatalog.EmptyQueryMatches | src/components/profile/ProductsCatalog.jsx:17 | the empty query is contained in every name |
| ProductsCatalog.UnfilteredCatalogue | src/components/profile/ProductsCatalog.jsx:16-20 | with no query and "all" the whole catalogue is shown, in order |
| ProductsCatalog.SearchIgnoresCase | src/components/profile/ProductsCatalog.jsx:17 | the search gives the same answer for a query and its lower-cased form |
| ProductsCatalog.CardFor | src/components/profile/ProductsCatalog.jsx:104-125 | the discount badge and the struck-out original price appear together, exactly when the original price is higher |
| ProductsCatalog.CatalogFlow.constructor | src/components/profile/ProductsCatalog.jsx:9-11 | no selection, step 0, quantity 1 |
| ProductsCatalog.CatalogFlow.BuyNow | src/components/profile/ProductsCatalog.jsx:22-26 | the product is selected, quantity resets to 1, step 1 |
| ProductsCatalog.CatalogFlow.Confirm | src/components/profile/ProductsCatalog.jsx:28-30 | step 2, selection and quantity kept |
| ProductsCatalog.CatalogFlow.Decrement | src/components/profile/ProductsCatalog.jsx:171 | `max(1, q - 1)`: the quantity drops by one but never below 1 |
| ProductsCatalog.CatalogFlow.Increment | src/components/profile/ProductsCatalog.jsx:173 | the quantity grows by one |
| ProductsCatalog.CatalogFlow.PlaceOrder | src/components/profile/ProductsCatalog.jsx:32-42 | one ledger line of the selected product with the chosen quantity is placed; its total is price x quantity, the subtotal the modal showed; the cart is emptied and the preferences kept; step 3 |
| ProductsCatalog.CatalogFlow.Close | src/components/profile/ProductsCatalog.jsx:52-56 | no selection, step 0, quantity 1 |
| ProductsCatalog.CatalogFlow.Finish | src/components/profile/ProductsCatalog.jsx:44-49 | the callback is notified when given, then the modal closes |
| QuickReorder.FormatDate | src/components/profile/QuickReorder.jsx:11-21 | whole-day difference 0 is Today, 1 Yesterday, under 7 "d days ago", under 30 "floor(d/7) weeks ago", otherwise an absolute date |
| QuickReorder.BucketsAreWholeDays | src/components/profile/QuickReorder.jsx:14-18 | each bucket covers whole days of elapsed time |
| QuickReorder.WeeksInRange | src/components/profile/QuickReorder.jsx:19 | the week count is always 1 to 4 |
| QuickReorder.FutureDate | src/components/profile/QuickReorder.jsx:14-18 | a future date lands in the "days ago" bucket with a negative count |
| QuickReorder.ReorderFlow.constructor | src/components/profile/QuickReorder.jsx:7-8 | no selection, step 0 |
| QuickReorder.ReorderFlow.OrderClick | src/components/profile/QuickReorder.jsx:23-26 | the item is selected, step 1, and the modal and its close button are shown |
| QuickReorder.ReorderFlow.Confirm | src/components/profile/QuickReorder.jsx:28-30 | step 2, selection kept |
| QuickReorder.ReorderFlow.PlaceOrder | src/components/profile/QuickReorder.jsx:32-45 | exactly one line of quantity 1 is placed, so the order costs the item's price; the cart is emptied and the preferences kept; step 3, where the close button is hidden |
| QuickReorder.ReorderFlow.Finish | src/components/profile/QuickReorder.jsx:48-54 | the callback is notified when given, then the selection and step are cleared and the modal hides |
| QuickReorder.ReorderFlow.Close | src/components/profile/QuickReorder.jsx:57-60 | selection cleared, step 0, modal hidden |
| PersonalizedDeals.TotalSavings | src/components/profile/PersonalizedDeals.jsx:129 | no deals save 0, and the headline is never negative when no deal costs more than its original price |
| PersonalizedDeals.TotalSavingsAppend | src/components/profile/PersonalizedDeals.jsx:129 | the savings fold adds up the parts of a split list separately |
| PersonalizedDeals.SavingsPositive | src/components/profile/PersonalizedDeals.jsx:129 | when every deal is discounted the headline is not negative, and positive unless there are no deals |
| PersonalizedDeals.FixtureSavings | src/components/profile/PersonalizedDeals.jsx:7-92 | the fixed deal table saves 32660 in total |
| PersonalizedDeals.DealsFlow.constructor | src/components/profile/PersonalizedDeals.jsx:96-98 | no selection, step details, nothing ordered |
| PersonalizedDeals.DealsFlow.OrderNow | src/components/profile/PersonalizedDeals.jsx:100-103 | the deal is selected at step details; the ordered set is kept |
| PersonalizedDeals.DealsFlow.Confirm | src/components/profile/PersonalizedDeals.jsx:105-122 | step confirmed; the deal's id joins the ordered set, which only grows, so its button is disabled; a report with the deal as its only item at the deal price is produced exactly when the callback exists |
| PersonalizedDeals.DealsFlow.Close | src/components/profile/PersonalizedDeals.jsx:124-127 | no selection, step details, ordered set kept |
| PersonalizedDeals.ConfirmOnProfilePage | src/pages/Profile.jsx:235 | with the handler wired to an unread prop, confirming reports nothing and the deal never becomes an order; the dialog still moves to the confirmed step with the deal selected, and the deal's id joins the ordered set |
| AuthContext.LoginDecision | src/context/AuthContext.jsx:46-64 | no entry under the lower-cased email gives the no-account message, a different password the wrong-password message; otherwise the account's record, without the password, is accepted |
| AuthContext.SignupDecision | src/context/AuthContext.jsx:95-108 | refused with the account-exists message exactly when the lower-cased email is taken; otherwise a record with the lower-cased email, tier Bronze and an empty phone |
| AuthContext.ApplyProfile | src/context/AuthContext.jsx:195 | `{...user, ...updates}`: the fields present in the update are overwritten and all others kept |
| AuthContext.ApplyProfileLaws | src/context/AuthContext.jsx:195 | applying an update twice is applying it once; an empty update changes nothing |
| AuthContext.AuthStore.constructor | src/context/AuthContext.jsx:6-35 | the demonstration account only, no user, no error, not loading |
| AuthContext.AuthStore.Login | src/context/AuthContext.jsx:38-81 | on acceptance the session holds the account's record and success is returned; on refusal the error holds the message, the session is unchanged, and the message is returned |
| AuthContext.AuthStore.Signup | src/context/AuthContext.jsx:84-123 | a new email is stored lower-cased with its password and signed in; a taken one leaves the accounts and the session unchanged and returns the message; accounts stay keyed by their lower-case email |
| AuthContext.AuthStore.Logout | src/context/AuthContext.jsx:181-186 | user and error cleared, so not authenticated; accounts kept |
| AuthContext.AuthStore.ClearError | src/context/AuthContext.jsx:222 | the error is cleared and nothing else changes |
| AuthContext.AuthStore.UpdateProfile | src/context/AuthContext.jsx:189-210 | the user becomes the old record with the update applied, and success is returned |
| AuthContext.LoginIgnoresCase | src/context/AuthContext.jsx:46 | logging in with the email upper- or lower-cased gives the same outcome |
| AuthContext.SignupThenLogin | src/context/AuthContext.jsx:100-113 | after a signup, a login with the same password and the email in any case is accepted with the new record |
| AuthContext.LoginOutcomes | src/context/AuthContext.jsx:48-54 | a login succeeds or fails with one of its two messages |
| AuthContext.DemoAccount | src/context/AuthContext.jsx:6-17 | the demonstration account accepts its password with any capitalisation of the email, refuses another password, and blocks a signup with the same email |
| Preferences.Flip | src/components/profile/Preferences.jsx:36 | the key's switch is inverted, a missing one counting as off, and every other key is kept |
| Preferences.ToggleNotification | src/components/profile/Preferences.jsx:31-39 | flips one notification switch and changes nothing else |
| Preferences.TogglePrivacy | src/components/profile/Preferences.jsx:41-49 | flips one privacy switch and changes nothing else |
| Preferences.FlipTwice | src/components/profile/Preferences.jsx:36 | flipping a present switch twice gives back the same map |
| Preferences.ToggleTwice | src/components/profile/Preferences.jsx:31-49 | toggling the same present switch twice restores the preferences |
| Preferences.ToggleTwiceMissing | src/components/profile/Preferences.jsx:31-39 | toggling a missing switch twice leaves it present and off, so the record differs |
| Preferences.SetSize | src/components/profile/Preferences.jsx:51-59 | one category's size is set; other categories and sections are kept |
| Preferences.Without | src/components/profile/Preferences.jsx:64 | the filter drops the value and keeps every other value |
| Preferences.WithoutAppend | src/components/profile/Preferences.jsx:64 | the filter works piece by piece, so the rest keep their order |
| Preferences.WithoutCounts | src/components/profile/Preferences.jsx:64 | every occurrence of the value goes and every other value keeps its count |
| Preferences.WithoutAbsent | src/components/profile/Preferences.jsx:61-73 | removing an absent value changes nothing |
| Preferences.RemoveColor | src/components/profile/Preferences.jsx:61-66 | every copy of the colour is gone, the other colours keep their order and counts, nothing changes when it was absent, and all other sections are kept |
| Preferences.RemoveBrand | src/components/profile/Preferences.jsx:68-73 | every copy of the brand is gone, the other brands keep their order and counts, nothing changes when it was absent, and all other sections are kept |
| Preferences.RecentOrders | src/components/profile/Preferences.jsx:667 | the report shows the first min(5, n) orders of the ledger, in ledger order |
| Preferences.RecentAfterPlace | src/components/profile/Preferences.jsx:199 | the report reads the live ledger: after a placement its first row is the new order |
| ProfileHeader.HeadsAreWordStarts | src/components/profile/ProfileHeader.jsx:95 | splitting on spaces and taking each piece's first character picks exactly the characters that start a word |
| ProfileHeader.Initials | src/components/profile/ProfileHeader.jsx:93-96 | "U" without a name; otherwise the upper-cased word starts, cut to at most two |
| ProfileHeader.NoWordsInSpaces | src/components/profile/ProfileHeader.jsx:95 | spaces start no word |
| ProfileHeader.AllSpaceName | src/components/profile/ProfileHeader.jsx:93-96 | a name of spaces only has empty initials, not "U" |
| ProfileHeader.DemoInitials | src/components/profile/ProfileHeader.jsx:95 | "Sarah Johnson" is shown as "SJ" |
| ProfileHeader.TierColor | src/components/profile/ProfileHeader.jsx:98-105 | gold, platinum and diamond in any case have their own colours; a missing or other tier is grey |
| ProfileHeader.TierColorIgnoresCase | src/components/profile/ProfileHeader.jsx:99 | the colour does not depend on the tier's capitalisation |
| ProfileHeader.CurrentTier | src/components/profile/ProfileHeader.jsx:165 | a missing or empty tier falls back to Gold; any other tier is kept |
| ProfileHeader.RewardsFor | src/components/profile/ProfileHeader.jsx:166 | exactly the tier "Bronze" gets the Bronze rewards; every other tier falls back to Gold |
| ProfileHeader.TierLookupsDisagree | src/components/profile/ProfileHeader.jsx:98-166 | "bronze" gets the Gold rewards yet the grey colour, while the colour lookup ignores case |
| ProfileHeader.PointsToGo | src/components/profile/ProfileHeader.jsx:275 | points to go plus the points held is the next tier's points; positive exactly while below it |
| ProfileHeader.NameOf | src/components/profile/ProfileHeader.jsx:141 | `user?.name`: present exactly when a user is, and then that user's name |
| ProfileHeader.ShouldSave | src/components/profile/ProfileHeader.jsx:141 | the name is saved exactly when the edit holds a character other than `\s` and differs from the current name |
| ProfileHeader.NameEditor.constructor | src/components/profile/ProfileHeader.jsx:68-69 | not editing; the field holds the user's name or "" |
| ProfileHeader.NameEditor.Type | src/components/profile/ProfileHeader.jsx:207-208 | typing puts the text into the field and keeps edit mode as it was |
| ProfileHeader.NameEditor.StartEdit | src/components/profile/ProfileHeader.jsx:135-138 | edit mode on, field kept |
| ProfileHeader.NameEditor.Save | src/components/profile/ProfileHeader.jsx:140-145 | the trimmed edit becomes the name exactly when it is non-empty and the raw edit differs from the current name, and loading is then off; otherwise the user and loading are kept; the field, the accounts and the error are kept and edit mode always ends |
| ProfileHeader.NameEditor.Cancel | src/components/profile/ProfileHeader.jsx:147-150 | the field goes back to the current name or "", and edit mode ends |
| ProfileHeader.NameEditor.KeyDown | src/components/profile/ProfileHeader.jsx:152-158 | Enter saves as Save does and keeps the field; Escape cancels as Cancel does; any other key keeps the field, edit mode, the user and loading; the accounts and the error are always kept |
| ProfileHeader.NameEditor.SyncName | src/components/profile/ProfileHeader.jsx:74-81 | a non-empty user name is copied into the field; otherwise the field is kept |
| SpendingAnalytics.MilestonesAscending | src/components/profile/SpendingAnalytics.jsx:50-56 | the milestone amounts strictly increase |
| SpendingAnalytics.TotalSaved | src/components/profile/SpendingAnalytics.jsx:42 | a missing or zero saved amount from the stats falls back to the computed one |
| SpendingAnalytics.Reached | src/components/profile/SpendingAnalytics.jsx:58 | the filter keeps exactly the milestones at or below the savings |
| SpendingAnalytics.CurrentMilestone | src/components/profile/SpendingAnalytics.jsx:58 | none exactly when every amount is above the savings; otherwise a milestone at or below them |
| SpendingAnalytics.NextMilestone | src/components/profile/SpendingAnalytics.jsx:59 | none exactly when every amount is at or below the savings; otherwise a milestone above them |
| SpendingAnalytics.ReachedIsPrefix | src/components/profile/SpendingAnalytics.jsx:58-59 | on an ascending table the reached milestones are a prefix, and the next milestone is the entry right after it |
| SpendingAnalytics.CurrentAndNextAdjacent | src/components/profile/SpendingAnalytics.jsx:58-59 | when both exist they are neighbours in the table, the savings lie between them, and the amount still to go is positive |
| SpendingAnalytics.MoreToUnlock | src/components/profile/SpendingAnalytics.jsx:238 | the amount "more to unlock" is positive |
| SpendingAnalytics.TableEnds | src/components/profile/SpendingAnalytics.jsx:58-59 | no badge exactly below 10000; no next milestone exactly from 200000 on |
| SpendingAnalytics.SaverExample | src/components/profile/SpendingAnalytics.jsx:58-59 | with 32660 saved the badge is Saver and the next milestone Smart Shopper |
| SpendingAnalytics.ChampionExample | src/components/profile/SpendingAnalytics.jsx:58 | from 200000 on the badge is Savings Champion |
| SpendingAnalytics.ProgressOn | src/components/profile/SpendingAnalytics.jsx:60-62 | on an ascending table of positive amounts the progress is 100 with no next milestone, otherwise in [0, 100) for non-negative savings |
| SpendingAnalytics.Progress | src/components/profile/SpendingAnalytics.jsx:60-62 | the same for the fixed table |
| Achievements.AchievementIcon | src/components/profile/Achievements.jsx:5-17 | the default icon exactly for an unknown id |
| Achievements.IconsIdentifyIds | src/components/profile/Achievements.jsx:5-17 | each known id has an icon of its own that leads back to it |
| Achievements.UnlockedOnly | src/components/profile/Achievements.jsx:20 | the filter keeps exactly the unlocked achievements |
| Achievements.UnlockedOnlyAppend | src/components/profile/Achievements.jsx:24 | the filter works piece by piece, so the unlocked ones keep their order |
| Achievements.AllUnlockedKept | src/components/profile/Achievements.jsx:24 | a list of unlocked achievements passes the filter unchanged |
| Achievements.CountBound | src/components/profile/Achievements.jsx:20-21 | the unlocked count is at most the total, and equal to it exactly when all are unlocked |
| Achievements.Displayed | src/components/profile/Achievements.jsx:23-25 | full mode shows everything; compact mode shows the first min(4, unlocked) unlocked achievements, in order |
| Achievements.CompactIdempotent | src/components/profile/Achievements.jsx:20-24 | selecting again from the compact list changes nothing, so its header counts all of it as unlocked (e.g. 4/4) |
| Achievements.CardFor | src/components/profile/Achievements.jsx:72-102 | the lock overlay exactly when locked; a locked card shows its progress, 0 when missing |
| Achievements.CompactCardsUnlocked | src/components/profile/Achievements.jsx:23-24 | no card in compact mode carries a lock |
| SmartInsights.InsightIcon | src/components/profile/SmartInsights.jsx:5-14 | the Info icon exactly for an unknown type; the flame exactly for "deal" |
| SmartInsights.PriorityClass | src/components/profile/SmartInsights.jsx:17-23 | high and medium have their own classes; anything else is styled low |
| SmartInsights.Displayed | src/components/profile/SmartInsights.jsx:25 | compact mode shows the first min(3, n) insights in order; otherwise all |
| SmartInsights.CompactIdempotent | src/components/profile/SmartInsights.jsx:25 | selecting again from the compact list changes nothing |
| SmartInsights.CardFor | src/components/profile/SmartInsights.jsx:49-70 | the Hot badge exactly for high priority, the action button exactly outside compact mode |
| SmartInsights.HotIffHighStyle | src/components/profile/SmartInsights.jsx:52-70 | the Hot badge and the high-priority style go together |

## Left out

- Rendering: JSX, CSS classes, icons as images, modal markup and animations. Icons and emoji appear only as data.
- Asynchronous flow: the simulated delays (`setTimeout`, `await`) and the `isProcessing` spinners. Each handler is one synchronous step, and the timer that runs after a placement is a separate method.
- Clocks and locale: `Date.now`, `new Date`, `toISOString`, `toLocaleDateString` and `CURRENCY.format` are not modelled. Dates are day numbers and clock readings are parameters. The absolute date text of the quick-reorder card is only named as a bucket.
- Floating point: the spending analytics savings multipliers, rates and averages (SpendingAnalytics.jsx lines 31-47), the product discount percentage, the loyalty progress bar, the achievements completion percentage and the shopping-DNA card are left out. The milestone progress is computed in exact reals.
- Browser storage (`localStorage`, `sessionStorage`), the saved-session restore on mount, avatar upload through `FileReader`, avatar selection, the dark-mode toggle and the printable stats window.
- `loginWithGoogle`: it fabricates a user from storage and the clock, with no decision logic of its own.
- The application shell, routing, the login and signup pages, and the profile page's tab switching. Only the profile page's deals wiring is modelled.
- The Preferences page's save button (it only waits and shows "Saved!"), its section navigation and the delete-account handler (a delay followed by `logout`).
- ProfileHeader.Initials: takes `n[0]` and `slice(0, 2)` per code point. JavaScript takes UTF-16 code units, so for a word starting with a code point above U+FFFF the source yields a lone surrogate, which a Dafny `char` cannot hold.
- String lengths and the repeated-character rule count UTF-16 code units, as JavaScript does. `trim`, `includes` and the character classes work on code points, which agree with code units on well-formed strings because no surrogate is `\s`, a letter, a digit or a special character.
- Case mapping covers ASCII letters only. JavaScript's full Unicode `toLowerCase`/`toUpperCase` is not modelled.
- Regular expressions are explicit character predicates, not a regex engine. `\s` is the fixed set of JavaScript WhiteSpace and LineTerminator code points.
- `Object.assign` and object spread are modelled over the known keys of each record. Unknown extra keys are not represented.
- Fixture image URLs, descriptions and other display-only fields are left out of the records.
- The "View All" handlers only forward to optional callbacks and are not modelled.
- AuthContext.AuthStore.UpdateProfile: requires a signed-in user. With none, the source spreads `null` into a record holding only the update's fields; that case is not modelled because the profile screens are shown only to signed-in users.
- ProductsCatalog.CatalogFlow.PlaceOrder: requires a selected product, because its button exists only inside the modal that a selection opens. The same holds for QuickReorder.ReorderFlow.PlaceOrder and PersonalizedDeals.DealsFlow.Confirm.
- ProfileHeader.NameEditor.Save: requires a signed-in user, for the same reason as UpdateProfile.
- PersonalizedDeals.DealsFlow.Confirm: the report's id is "FP" followed by the clock reading, which is a parameter; the brief processing step is overwritten within the same call.
