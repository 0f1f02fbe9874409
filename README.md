# Mood storefront: OTP endpoint, shop filter and sort, checkout, account and recommendations

A Dafny model of the logic of a small mood-themed storefront built with Next.js.
It covers five pieces:

- **OTP endpoint** (`Otp`): a process-wide table from email to `{otp, expires}`.
  `POST` issues a six-digit code that is valid for ten minutes. `PUT` checks a
  submitted code against the table. Its checks run in a fixed order: missing
  fields, no entry, expired, wrong code, success. An expired entry and a used
  entry are deleted; a wrong code keeps the entry. The table is the field of
  class `OtpService`. The two handlers are specified by the functions `Post` and
  `Put`, and the properties are proved about those functions. `PUT` awaits the
  user lookup between its checks and its delete, so it is modelled as two steps,
  `PutCheck` and `PutFinish`. Lemmas show what happens when another request
  runs between them. The clock, the
  random draw and the result of the user lookup are parameters.
- **Shop page** (`Products`): the sixteen-product catalog. Prices are integer
  cents. The filter is a conjunction of the mood tab, a case-insensitive search
  of the name or description, and the category. The sort is a stable insertion
  sort driven by the page's comparator. `localeCompare` is an abstract
  comparator parameter that must be a total preorder. The module also builds
  the record handed to the cart.
- **Checkout page** (`Checkout`): the seven-field form, the single-field update,
  and the check of the six required fields. The class `CheckoutPage` holds the
  page state. Each of the two `setTimeout` callbacks is an explicit step:
  payment completes, then the page redirects. The empty-cart guard and the
  order summary are modelled too.
- **Account page** (`Account`): the five state fields of the mock sign-in and
  their handlers. `Step` gives the fields after each event and `Dispatch` runs
  the handler behind an event. Used through the controls on screen, the steps
  keep an invariant: a logged-in user came through the code form with an
  email and a code typed in.
- **Recommendations page** (`Results`): the mood-to-products table, the title
  and description tables, and the effect that reads the `mood` query parameter.

`Text` holds ASCII `toLowerCase` and `String.prototype.includes`. `Cart` holds
the shapes the pages exchange with the cart store. `Wrappers` holds `Option`.

## Model

| member | source | states |
|---|---|---|
| `Otp.IssueCode` | app/api/auth/otp/route.ts:16 | for a draw in [0, 1) the code is six decimal digits whose value lies in [100000, 999999] |
| `Otp.DecimalString` | app/api/auth/otp/route.ts:16 | `toString()` of a non-negative integer, digits most significant first; proved digits-only and read back exactly in `DecimalRoundTrip`, and of length k+1 in `DecimalLength` |
| `Otp.DecimalRoundTrip` | app/api/auth/otp/route.ts:16 | `toString` of a non-negative integer gives only digits, and reading them back gives the integer |
| `Otp.DecimalLength` | app/api/auth/otp/route.ts:16 | a number between 10^k and 10^(k+1) is written with k+1 characters |
| `Otp.OtpService.constructor` | app/api/auth/otp/route.ts:5 | the table starts empty |
| `Otp.OtpService.HandlePost` | app/api/auth/otp/route.ts:7-32 | the reply and the new table are those of `Post` on the old table |
| `Otp.Truthy` | app/api/auth/otp/route.ts:11 | JavaScript truthiness of a string field, `!email` negated: present and not empty; the refusals in `PostWithoutEmail` and `PutWithoutFields` are stated with it |
| `Otp.Post` | app/api/auth/otp/route.ts:7-32 | the reference definition of `POST` on the table before the request; its properties are proved in `PostWithoutEmail`, `PostFailureKeepsStore`, `PostStoresCode`, `IssueThenVerify` and `ReissueInvalidatesEarlierCode` |
| `Otp.PutCheck` | app/api/auth/otp/route.ts:36-56 | `PUT` up to the user lookup: it reaches the lookup exactly when the body is readable, email and code are non-empty, the email has an entry, the entry has not expired and its code equals the submitted one; the pending email is the submitted one |
| `Otp.PutFinish` | app/api/auth/otp/route.ts:59-71 | `PUT` after the lookup, on the table as it is by then: a thrown lookup is a 500 with the table kept, otherwise a 200 and the email's entry deleted; its effect under overlap is proved in `ConcurrentVerifiesBothSucceed` and `PostDuringLookupIsLost` |
| `Otp.Put` | app/api/auth/otp/route.ts:34-72 | the reference definition of a `PUT` that no request overlaps: `PutCheck`, then `PutFinish` on the same table; its properties are proved in `PutWithoutFields` through `ReissueInvalidatesEarlierCode` |
| `Otp.OtpService.BeginPut` | app/api/auth/otp/route.ts:36-56 | the result is `PutCheck` of the old table; the table becomes the replied table, or stays as it was while the lookup is pending |
| `Otp.OtpService.FinishPut` | app/api/auth/otp/route.ts:59-71 | the reply and the new table are those of `PutFinish` on the table as it is when the lookup ends |
| `Otp.OtpService.HandlePut` | app/api/auth/otp/route.ts:34-72 | the two steps back to back: the reply and the new table are those of `Put` on the old table |
| `Otp.RacingPuts` | app/api/auth/otp/route.ts:43-62 | two `PUT`s with the right code, both checked before either finishes, both reply 200; the entry ends deleted |
| `Otp.ConcurrentVerifiesBothSucceed` | app/api/auth/otp/route.ts:43-62 | two requests with the right code both pass the checks on the same table, and both finishes reply 200, so one code verifies twice |
| `Otp.PostDuringLookupIsLost` | app/api/auth/otp/route.ts:19-62 | a `POST` that lands while a `PUT` awaits its lookup stores a new code, which the `PUT`'s delete then removes, so the new code finds no entry |
| `Otp.PostWithoutEmail` | app/api/auth/otp/route.ts:11-13 | for any body, whatever its other fields, a missing or empty email gives 400 "Email is required" and leaves the table unchanged |
| `Otp.PostFailureKeepsStore` | app/api/auth/otp/route.ts:8-31 | `POST` succeeds only when the body is readable and has an email; an unreadable body gives 500; a failure leaves the table unchanged |
| `Otp.PostStoresCode` | app/api/auth/otp/route.ts:19-27 | success replies 200 and stores `{IssueCode(draw), now + 600000}` under the email, replacing any earlier entry; the keys become the old keys plus the email; every other entry is unchanged |
| `Otp.PutWithoutFields` | app/api/auth/otp/route.ts:38-40 | a missing or empty email or code gives 400 "Email and OTP are required" and leaves the table unchanged |
| `Otp.PutWithoutEntry` | app/api/auth/otp/route.ts:43-47 | an email with no entry gives 400 "No OTP found for this email", whatever the code, and leaves the table unchanged |
| `Otp.PutExpired` | app/api/auth/otp/route.ts:49-52 | an entry with `expires < now` is deleted and the reply is 400 "OTP has expired", even when the code is right |
| `Otp.PutAtExpiry` | app/api/auth/otp/route.ts:49-66 | at `now == expires` the right code is still accepted |
| `Otp.WrongCodeThenRetry` | app/api/auth/otp/route.ts:54-66 | a wrong code gives 400 "Invalid OTP" and keeps the table, so the right code then succeeds |
| `Otp.SuccessIsSingleUse` | app/api/auth/otp/route.ts:43-66 | success replies 200 with `isNewUser` true exactly when the lookup found no user, and deletes the entry; replaying the code then gives "No OTP found" |
| `Otp.LookupFailureKeepsEntry` | app/api/auth/otp/route.ts:59-71 | if the user lookup throws, the reply is 500 and the entry is kept, because the delete comes after the lookup |
| `Otp.SuccessOnlyWithStoredCode` | app/api/auth/otp/route.ts:38-62 | a 200 reply implies that the body named an email whose stored code equals the submitted one and has not expired; the result is the table without that entry |
| `Otp.FailureKeepsOrExpires` | app/api/auth/otp/route.ts:38-71 | every failed check leaves the table unchanged, except that it drops an expired entry |
| `Otp.IssueThenVerify` | app/api/auth/otp/route.ts:16-66 | the code just issued for an email verifies up to ten minutes later and leaves the email without an entry |
| `Otp.IssueThenExpire` | app/api/auth/otp/route.ts:21-52 | more than ten minutes after issue the same code is rejected as expired |
| `Otp.ReissueInvalidatesEarlierCode` | app/api/auth/otp/route.ts:19-56 | after a second `POST` for the same email, a different earlier code is rejected as invalid |
| `Text.ToLower` | app/products/page.tsx:194-195 | `toLowerCase` on ASCII: same length, each character lower-cased; its idempotence is proved in `ToLowerIdempotent` |
| `Text.Includes` | app/products/page.tsx:194-195 | `includes` as a left-to-right search; proved equal to "occurs at some index" in `IncludesIff` and `OccurrenceIsFound` |
| `Text.ToLowerIdempotent` | app/products/page.tsx:194-195 | the ASCII lower-casing leaves no upper-case letter, so applying it twice changes nothing |
| `Text.IncludesIff` | app/products/page.tsx:194-195 | `includes` holds exactly when the pattern occurs at some position of the text |
| `Text.OccurrenceIsFound` | app/products/page.tsx:194-195 | an occurrence at any position is found by the left-to-right search |
| `Text.IncludesEmpty` | app/products/page.tsx:194-195 | every text includes the empty string |
| `Products.MatchesMood` | app/products/page.tsx:192 | tab "all" or the product's mood equals the tab; used by `Keep` |
| `Products.MatchesSearch` | app/products/page.tsx:193-195 | the lower-cased name or description includes the lower-cased query; `EmptyQueryMatches` proves the empty query matches all |
| `Products.MatchesCategory` | app/products/page.tsx:196 | category "all" or the product's category equals it; used by `Keep` |
| `Products.Keep` | app/products/page.tsx:198 | the conjunction of the three tests; `Filter`'s contract and `FilterCounts` are stated with it |
| `Products.Filter` | app/products/page.tsx:191-199 | no longer than the input; a product is in the result exactly when it is in the input, its mood matches the tab (or the tab is "all"), its lower-cased name or description includes the lower-cased query, and its category matches (or the category is "all") |
| `Products.FilteredProducts` | app/products/page.tsx:191 | `Filter` on the sixteen-product catalog; `DefaultViewShowsCatalog` and `Results.CatalogFilterByMood` are stated with it |
| `Products.FilterIsSubsequence` | app/products/page.tsx:191 | the result keeps input order: it is a subsequence of the input |
| `Products.FilterCounts` | app/products/page.tsx:191-199 | each kept product occurs as often as in the input; each dropped one does not occur |
| `Products.FilterUnconstrained` | app/products/page.tsx:192-196 | with tab "all", category "all" and an empty query, the result equals the input |
| `Products.DefaultViewShowsCatalog` | app/products/page.tsx:182-199 | the page's initial filter settings show the whole catalog |
| `Products.EmptyQueryMatches` | app/products/page.tsx:193-195 | every product matches the empty search |
| `Products.FilterAppend` | app/products/page.tsx:191-199 | filtering a concatenation is the concatenation of the filtered parts |
| `Products.FilterAllKept` | app/products/page.tsx:191-199 | if every product passes, the result equals the input |
| `Products.FilterNoneKept` | app/products/page.tsx:191-199 | if no product passes, the result is empty |
| `Products.Compare` | app/products/page.tsx:203-211 | the comparator: price difference, reversed price difference, `localeCompare` of names, or 0; proved a total preorder in `CompareIsTotalPreorder` |
| `Products.InOrder` | app/products/page.tsx:203-211 | `a` may precede `b`: the comparator is not positive; `Sorted`, `InsertSorted` and `SortIsSorted` are stated with it |
| `Products.SortedProducts` | app/products/page.tsx:202 | `Sort` on the filtered list; `SortPriceLow`, `SortPriceHigh`, `SortByName` and `SortFeatured` are stated on `Sort`, which it applies |
| `Products.Insert` | app/products/page.tsx:202-212 | inserting adds exactly one copy of the element, a permutation step |
| `Products.Sort` | app/products/page.tsx:202 | the sorted list is a permutation of its input |
| `Products.CompareIsTotalPreorder` | app/products/page.tsx:203-211 | the price and featured comparators, and the name comparator when `localeCompare` is one, are total and transitive |
| `Products.InsertSorted` | app/products/page.tsx:202-212 | inserting into a list in comparator order gives a list in comparator order |
| `Products.SortIsSorted` | app/products/page.tsx:202-212 | every earlier element of the result is in comparator order with every later one |
| `Products.SortPriceLow` | app/products/page.tsx:203-204 | under "price-low" the result is a permutation with prices non-decreasing |
| `Products.SortPriceHigh` | app/products/page.tsx:205-206 | under "price-high" the result is a permutation with prices non-increasing |
| `Products.SortByName` | app/products/page.tsx:207-208 | under "name" the result is a permutation in `localeCompare` order |
| `Products.SortFeatured` | app/products/page.tsx:210-211 | under "featured", or any other option, every comparison is 0 and the stable sort returns its input unchanged |
| `Products.CartItemFor` | app/products/page.tsx:214-220 | the record passed to `addToCart` holds exactly the product's id, name, price and image |
| `Products.FindById` | app/products/page.tsx:16-168 | a specification helper, not a function of the page, used to state that catalog ids identify products: the product found has the id sought and is in the list; if none is found, no product in the list has that id |
| `Products.AllProducts` | app/products/page.tsx:16-168 | the sixteen products, prices in cents, as four mood shelves in catalog order; `CatalogIds` states its ids |
| `Products.CatalogIds` | app/products/page.tsx:16-168 | the catalog has sixteen products with ids 1 to 16 in order |
| `Products.CartItemIdentifiesProduct` | app/products/page.tsx:214-220 | the id in the cart record finds, in the catalog, the very product it was made from |
| `Checkout.FieldNamed` | app/checkout/page.tsx:36-41 | an input name that is recognised is the key of the field it selects |
| `Checkout.UpdateField` | app/checkout/page.tsx:36-42 | `{...formData, [name]: value}` on the seven fields; its effect is proved in `UpdateFieldChangesOnlyThatField` and `UpdateUnknownKey` |
| `Checkout.UpdateFieldChangesOnlyThatField` | app/checkout/page.tsx:36-42 | an input change sets the field it names and leaves the other six unchanged |
| `Checkout.UpdateUnknownKey` | app/checkout/page.tsx:36-42 | a change for a name outside the seven fields changes no field |
| `Checkout.RequiredFields` | app/checkout/page.tsx:48 | the six required fields, in the order of the source; every field but the country |
| `Checkout.EmptyFields` | app/checkout/page.tsx:48-49 | a field is in the result exactly when it is in the given list and empty in the form |
| `Checkout.CanSubmit` | app/checkout/page.tsx:48-51 | `handleSubmit`'s own check, not the browser's: no required field is empty; proved equivalent to the six fields being non-empty in `CanSubmitIff` |
| `Checkout.CanSubmitIff` | app/checkout/page.tsx:48-51 | the form passes exactly when name, email, address, city, state and zip are all non-empty |
| `Checkout.CountryNotRequired` | app/checkout/page.tsx:48 | whether the form passes `handleSubmit`'s own check does not depend on the country; the browser's check does, see `BrowserCheckIsStricter` |
| `Checkout.BrowserAccepts` | app/checkout/page.tsx:116-161 | the browser's constraint check before `submit` fires: all seven inputs `required`, the email input `type="email"` with an abstract address syntax |
| `Checkout.BrowserCheckIsStricter` | app/checkout/page.tsx:116-161 | a form the browser lets through always passes `handleSubmit`'s check, and the browser refuses an empty country, which the handler would accept |
| `Checkout.InitialForm` | app/checkout/page.tsx:26-34 | six empty fields and country "United States"; `InitialFormBlocked` states that it fails the check |
| `Checkout.InitialFormBlocked` | app/checkout/page.tsx:26-34 | the form as first shown does not pass |
| `Cart.Subtotal` | app/checkout/page.tsx:20 | the cart's `subtotal`, taken as the sum of price times quantity over the lines; `Checkout.TotalIsSumOfLines` is stated with it |
| `Checkout.OrderSummary` | app/checkout/page.tsx:201-222 | one amount per line, each price times quantity; shipping is free; the shown total equals the subtotal |
| `Checkout.TotalIsSumOfLines` | app/checkout/page.tsx:201-222 | when the cart's subtotal is the sum of price times quantity, the shown total is the sum of the shown line amounts |
| `Checkout.CheckoutPage.constructor` | app/checkout/page.tsx:20-34 | the initial form (country "United States"), payment method "paypal", not processing, not complete, nothing pending |
| `Checkout.CheckoutPage.View` | app/checkout/page.tsx:83-108 | the page redirects exactly when the cart is empty and the order is not complete; when the order is complete it shows the confirmation, even though the cart is empty; otherwise it shows the form, with submit enabled exactly when not processing |
| `Checkout.CheckoutPage.Render` | app/checkout/page.tsx:83-86 | the empty-cart guard sends the router to the cart; otherwise the route is unchanged |
| `Checkout.CheckoutPage.HandleInputChange` | app/checkout/page.tsx:36-42 | the form becomes `UpdateField` of the old form |
| `Checkout.CheckoutPage.HandleSubmit` | app/checkout/page.tsx:44-64 | with a required field empty, processing is not started and nothing is scheduled; otherwise processing starts and one payment callback is scheduled; from an enabled form the page invariant is kept |
| `Checkout.CheckoutPage.OnPaymentTimer` | app/checkout/page.tsx:64-80 | processing ends, the order is complete, the cart is cleared with one more `clearCart` call, and the redirect is scheduled |
| `Checkout.CheckoutPage.OnRedirectTimer` | app/checkout/page.tsx:77-79 | the router goes to the confirmation page |
| `Checkout.PlaceOrder` | app/checkout/page.tsx:44-108 | a submit that passes `handleSubmit`'s check, from the enabled form, then both callbacks: the cart is cleared exactly once, the page is complete and not processing, the confirmation shows and the router ends on the confirmation page |
| `Checkout.RejectedSubmit` | app/checkout/page.tsx:48-58 | a submit that reaches `handleSubmit` with a required field empty changes no field of the page: form, payment method, both flags, cart, `clearCart` count, pending callbacks and route all stay as they were |
| `Account.InitialState` | app/account/page.tsx:14-18 | logged out, empty email, password and code, no code sent; `LogoutResets` returns to it |
| `Account.ViewOf` | app/account/page.tsx:90-147 | the screen a state renders: account info when logged in, the code form when a code was sent, the tabs otherwise |
| `Account.EnabledIn` | app/account/page.tsx:108-207 | the controls of each screen: logout on the account screen; the code input, login and back link on the code form; on the tab screen the controls of either tab (email, password, send and sign-up), both taken as available |
| `Account.Invariant` | app/account/page.tsx:21-88 | a code was sent only with an email entered, and a logged-in user has a code entered and came through the code form; proved kept in `StepKeepsInvariant` and `RunKeepsInvariant` |
| `Account.Step` | app/account/page.tsx:21-216 | the five fields after the handler behind an event; what it keeps and changes is proved in `StepKeepsInvariant`, `LoginOnlyThroughCode`, `LogoutResets` and `EditsKeepScreen` |
| `Account.Run` | app/account/page.tsx:90-216 | a run of events, each used only while its control is rendered; the empty run leaves the state; proved to keep the invariant in `RunKeepsInvariant` |
| `Account.StepKeepsInvariant` | app/account/page.tsx:21-216 | a rendered control used from a state that keeps the invariant leads to a state that keeps it |
| `Account.RunKeepsInvariant` | app/account/page.tsx:21-216 | every state reached from a valid one through rendered controls keeps the invariant |
| `Account.LoginOnlyThroughCode` | app/account/page.tsx:40-57 | the only event that logs in is the login button with a non-empty code, and that control is rendered exactly when a code was sent |
| `Account.LogoutResets` | app/account/page.tsx:78-88 | logging out from any state gives the initial state, which shows the tabs |
| `Account.EditsKeepScreen` | app/account/page.tsx:155-207 | typing into an input sets that input's field only, and the screen stays the same |
| `Account.MockLoginRun` | app/account/page.tsx:21-57 | from the start, an email, the send button, any code and the login button log in with that email and code |
| `Account.AccountPage.Current` | app/account/page.tsx:14-18 | the five fields read as one `State` |
| `Account.AccountPage.constructor` | app/account/page.tsx:14-18 | the five fields start logged out, with empty strings and no code sent |
| `Account.AccountPage.View` | app/account/page.tsx:90-216 | the account screen shows exactly when logged in; the code form shows exactly when not logged in and a code was sent |
| `Account.AccountPage.Enabled` | app/account/page.tsx:108-207 | `EnabledIn` of the current fields |
| `Account.AccountPage.SetEmail` | app/account/page.tsx:180 | the email input sets `email` only |
| `Account.AccountPage.SetPassword` | app/account/page.tsx:207 | the password input sets `password` only |
| `Account.AccountPage.SetOtp` | app/account/page.tsx:155 | the code input sets `otp` only |
| `Account.AccountPage.HandleSendOtp` | app/account/page.tsx:21-38 | with an empty email nothing changes and the toast is an error; otherwise only `otpSent` becomes true |
| `Account.AccountPage.HandleLogin` | app/account/page.tsx:40-57 | with an empty code nothing changes and the toast is an error; any non-empty code sets only `isLoggedIn` to true |
| `Account.AccountPage.HandleSignup` | app/account/page.tsx:59-76 | unless both email and password are non-empty, nothing changes and the toast is an error; otherwise only `otpSent` becomes true |
| `Account.AccountPage.HandleLogout` | app/account/page.tsx:78-88 | all five fields return to their initial values |
| `Account.AccountPage.HandleBackToLogin` | app/account/page.tsx:161 | only `otpSent` changes, to false |
| `Account.AccountPage.Dispatch` | app/account/page.tsx:21-216 | the five fields become `Step` of the old fields for every event; from a valid state and a control on screen, the invariant is kept |
| `Account.LoginAndLogout` | app/account/page.tsx:21-88 | email, send, any code, login, logout: the page ends in its initial state |
| `Results.MoodKeys` | app/results/page.tsx:157 | `Object.keys(moodProducts)`: happy, calm, sad and energetic; `MoodProducts` has an entry exactly for these |
| `Results.MoodProducts` | app/results/page.tsx:13-134 | the table has an entry exactly for happy, calm, sad and energetic |
| `Results.MoodTitle` | app/results/page.tsx:143-148 | the title table; `LookupsAgree` and `ConsistentHasTitle` state which moods have a title |
| `Results.MoodDescription` | app/results/page.tsx:136-141 | the description table; `LookupsAgree` and `ConsistentHasTitle` state which moods have a description |
| `Results.IsKnownMood` | app/results/page.tsx:157 | the parameter is present, non-empty and one of the four keys; both effects branch on it |
| `Results.LookupsAgree` | app/results/page.tsx:136-148 | the title and description tables cover exactly the moods of the product table |
| `Results.ApplyMoodParamAsWritten` | app/results/page.tsx:155-164 | a known mood sets the mood and its product list; otherwise the happy list is shown and the mood is left as it was |
| `Results.ApplyMoodParam` | app/results/page.tsx:155-164 | as above, except that the fallback also sets the mood to "happy" |
| `Results.AgreeOnKnownMood` | app/results/page.tsx:157-159 | the written effect and the corrected effect agree whenever the parameter is a known mood |
| `Results.FirstRunConsistent` | app/results/page.tsx:152-164 | from the initial state (mood "happy") both effects give the same state, and the mood shown matches the list shown |
| `Results.StaleMoodAfterUnknownParam` | app/results/page.tsx:155-164 | as written: after "calm" then an unknown mood, the mood is still "calm" but the happy products are shown |
| `Results.ApplyMoodParamConsistent` | app/results/page.tsx:155-164 | corrected: after any run of the effect, the mood shown is a table key and the list shown is that mood's list |
| `Results.ConsistentHasTitle` | app/results/page.tsx:169-174 | a consistent page has a title and a description to show |
| `Results.AsWrittenKeepsTitle` | app/results/page.tsx:155-174 | as written, a page whose mood is a table key keeps a key for its mood after any parameter, so the title and description lookups always succeed |
| `Results.RecommendAll` | app/results/page.tsx:13-134 | a specification helper, not a function of the page, used to state that the two product tables agree: one recommendation per shop product, each copying id, name, price, image and description |
| `Results.FilterShelf` | app/products/page.tsx:191-199 | filtering a shelf of one mood by a mood keeps the whole shelf or nothing, depending on whether the moods match |
| `Results.CatalogFilterSplit` | app/products/page.tsx:191-199 | filtering the catalog is filtering each of its four mood shelves |
| `Results.CatalogFilterByMood` | app/products/page.tsx:191-199 | the shop's filter on a mood, with an empty query and all categories, keeps exactly that mood's shelf |
| `Results.RecommendationsMatchCatalog` | app/results/page.tsx:13-134 | each mood's recommendations are exactly the shop's products of that mood, in catalog order |
| `Results.InitialState` | app/results/page.tsx:152-153 | mood "happy" and no products; `FirstRunConsistent` starts from it |
| `Results.ResultsPage.constructor` | app/results/page.tsx:152-153 | the page starts with mood "happy" and no products |
| `Results.ResultsPage.OnSearchParams` | app/results/page.tsx:155-164 | the corrected effect of the finding below, not lines 160-163 as written: the state becomes `ApplyMoodParam` of the old state, and the page is consistent afterwards |

## Left out

- Network, JSON and logging: `NextResponse`, `console.log` and `console.error` are not modelled. The request body is given already parsed, or as absent when `req.json()` throws.
- Request fields that are JSON values other than strings are not modelled. In the source such a value would be compared with `!==` and used as a property key.
- Lookups in `otpStore` of keys inherited from `Object.prototype`, such as `"constructor"` or `"__proto__"`, are not modelled. The model treats the table as a plain map.
- `Math.random` and `Date.now` are parameters. The random draw is a real number, not a double. The largest double below 1 still gives 999999, so the code range is the same.
- `getUserByEmail` and all of `lib/db.ts` are not part of this model. The lookup appears only as its outcome: found, not found, or thrown.
- The cart store in `components/cart-provider` is not part of this model. Its subtotal is taken to be the sum of price times quantity. `addToCart` and the cart's own operations are not modelled.
- Toasts, rendering and styling are left out; handlers return their toast where that says whether the step failed.
- Time and concurrency of `setTimeout`: each callback is an explicit step that the event loop runs later, not a timed event.
- Money formatting with `toFixed(2)` is left out. Prices are integer cents, not floating-point dollars.
- `toLowerCase` is modelled on ASCII letters only. `localeCompare` is an abstract comparator parameter.
- The browser's form validation (`required`, `type="email"`) is not part of the handlers' model. `CanSubmit`, `CountryNotRequired` and `RejectedSubmit` describe `handleSubmit`'s own check (app/checkout/page.tsx:48-58), not what the page lets through. `BrowserAccepts` states the checkout form's browser check, assuming the `Input` component passes its attributes through. Address syntax is an abstract parameter.
- Account.Step: the email inputs are `type="email"` (app/account/page.tsx:177, 194), so the browser refuses to submit a non-empty malformed address. `Step` applies `SendOtp` and `Signup` to any non-empty email.
- Account.AccountPage.Dispatch: the invariant is promised only for controls on screen, which is the page's own gating. A click that races a re-render is not modelled.
- Otp.OtpService.HandlePut: runs its check step and its finish step back to back, as a request that nothing overlaps. The server can run other requests during the `await` on line 59. `RacingPuts`, `ConcurrentVerifiesBothSucceed` and `PostDuringLookupIsLost` show what such overlaps do: a code verified twice, and a fresh code deleted. `SuccessIsSingleUse` and the other `Put` lemmas hold only for requests that do not overlap. Interleavings at `await req.json()` are not modelled; no table state is read before it.
- Checkout.CheckoutPage.HandleSubmit: like the source, it does not itself check `isProcessing`. The invariant covers only submits from the enabled form. The source's disabled button (app/checkout/page.tsx:180) provides that gate.
- Stability of the sort is stated only for "featured", where every comparison is 0. Ties under a price or name sort keep input order in the model, but no lemma states that.
- The PayPal flow on the cart page, the invoice and PDF rendering, the confirmation page, `app/layout.tsx`, and `app/api/products/route.ts` are not part of this model. They are SDK glue, rendering and SQL pass-through.

## Findings

| source | as written | input that shows it | evidently intended | confidence | as-written member | corrected member |
|---|---|---|---|---|---|---|
| app/results/page.tsx:160-163 | with no valid `mood` parameter, the effect shows the happy products but leaves `mood` as it was | the parameter changes while the page stays mounted, first to `calm`, then to `bogus`: the page shows the "Calm & Peaceful" title and description above the happy products | the fallback also sets the mood to "happy", as the comment on line 161 says, so the title and the products agree | medium, not executed | `Results.ApplyMoodParamAsWritten` (`Results.StaleMoodAfterUnknownParam`) | `Results.ApplyMoodParam` (`Results.ApplyMoodParamConsistent`, used by `Results.ResultsPage.OnSearchParams`) |
