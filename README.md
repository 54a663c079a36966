# Gig marketplace front end, modelled in Dafny

The application is a Next.js front end over a hosted document store and
sign-in provider. Musicians list gigs, priced in dollars and in points, and
other users buy them either with points or by arranging a cash payment. This
project models the parts of the front end that decide something:

- **The purchase engine** (`src/components/GigDetailModal.jsx`):
  - the preselected payment method and when Confirm is disabled;
  - `handleConfirmPayment`, on both the points path and the cash path;
  - the seller's contact block and the "taken" mark on one-time gigs.

  `GigDetailModal.Confirm` states the outcome of one confirmation as a
  function of the store before it. Store reads and writes that fail are
  given as flags. `GigDetailModal.PurchaseModal` is the component's state as
  a class. Its `ConfirmPayment` performs the reads and writes one at a time
  on a `Store.Firestore` object, and its contract is proved equal to
  `Confirm`. `PurchaseLaws` proves what a confirmation does to the ledger.
- **The route guard** (`src/middleware.jsx`): `Middleware.Guard`.
- **The session adapter** (`firebase/auth.js`):
  - the `authUser`/`isLoading` state and the session cookie;
  - token arrival as a separate event, so a cookie written after sign-out can be shown.
- **The profile store service** (`src/services/userService.js`) and **the auth context** (`src/context/AuthContext.js`).
- **The profile page** (`src/app/profile/page.js`):
  - the profile view merge and the gig form;
  - building the user's gig list;
  - the avatar initial and the payment badges.
- **The musician search** (`src/app/dashboard/page.js`).

Documents are `Values.Doc`, a map from field name to a small model of
JavaScript values. `Values.Or` is `||` with JavaScript truthiness. An
absent field reads as `Null`, which stands for `undefined`. The spread
`{...a, ...b}` is the map union `a + b`, where the right side wins.
`updateDoc` is `Values.Apply`, with `arrayUnion` as append-if-absent.

`handleConfirmPayment` (`src/components/GigDetailModal.jsx:60-212`) does not
check whether the buyer is the gig's own creator, and the model does not
either. `PurchaseLaws.SelfPurchaseMintsPoints` shows the consequence: the
seller's credit is computed from the balance read before the debit, so
buying one's own gig with points leaves one richer by the price.

## Model

| member | source | states |
|---|---|---|
| Values.Or | src/app/profile/page.js:83-88 | `a \|\| b` is `a` when truthy, else `b`; the result is truthy iff either operand is |
| Values.FirstTruthyPicksFirst | src/app/profile/page.js:83-85 | a `\|\|` chain yields the earliest truthy operand, the last operand when none is, and is truthy iff some operand is |
| Values.OrChain | src/app/profile/page.js:83-84 | `a \|\| b \|\| c` equals the first-truthy choice among `a, b` with fallback `c` |
| Values.OrChain4 | src/app/profile/page.js:169 | `a \|\| b \|\| c \|\| d` equals the first-truthy choice among `a, b, c` with fallback `d` |
| Values.OrFirst | src/app/profile/page.js:86-88 | `a \|\| b` equals the first-truthy choice among `a` with fallback `b` |
| Values.Get | src/components/GigDetailModal.jsx:179-181 | reading an absent field gives undefined, a present one its value |
| Values.NumOr0 | src/components/GigDetailModal.jsx:94 | `points \|\| 0` reads the stored number, and 0 when the field is absent or not a number |
| Values.ArrayUnion | src/components/GigDetailModal.jsx:110-115 | `arrayUnion` keeps the old array as a prefix, adds at most one element, always contains the item, leaves an array that already holds it unchanged and replaces a non-array by the one-element array |
| Values.Apply | src/components/GigDetailModal.jsx:108-116 | `updateDoc` sets each patched field from its old value and change, and keeps every other field |
| Values.Puts | src/context/AuthContext.js:88 | a plain-data patch writes each given field as is and nothing else |
| Values.ApplyPutsIsSpread | src/services/userService.js:50-53 | updating with plain fields is spreading them over the stored document |
| Values.WithKey | src/services/userService.js:39 | `{uid, ...data}` here and `{id, ...data}` in src/app/profile/page.js:128-131: the id is added under its key and every stored field is kept, a stored field of that name included |
| Values.FirstTruthy | src/app/profile/page.js:83-88 | the first-truthy choice is one of the candidates or the fallback, and truthy when the fallback is |
| Text.Lower | src/app/dashboard/page.js:14 | `toLowerCase` keeps the length and lower-cases each character (ASCII) |
| Text.LowerIdempotent | src/app/dashboard/page.js:14 | lower-casing twice is lower-casing once |
| Text.LowerOfLowerSlice | src/app/dashboard/page.js:18 | any slice of a lower-cased string is unchanged by lower-casing |
| Text.ContainsIff | src/app/dashboard/page.js:18-20 | `includes` holds iff the substring occurs at some position |
| Text.ContainsSlice | src/app/dashboard/page.js:18 | a string includes each of its slices |
| Text.ContainsEmpty | src/app/dashboard/page.js:18-20 | every string includes the empty string |
| Text.NatToDecimal | src/app/dashboard/page.js:20 | `toString` of a natural is a non-empty digit string without a leading zero |
| Text.IntToDecimal | src/components/GigDetailModal.jsx:97 | an integer prints as decimal digits that read back as the number, after a `-` when it is negative |
| Text.DecimalRoundTrip | src/app/dashboard/page.js:20 | reading back the printed decimal gives the number |
| Store.Firestore.constructor | src/components/GigDetailModal.jsx:70-71 | the store starts with the given user and gig collections |
| Store.Firestore.GetUser | src/components/GigDetailModal.jsx:70-73 | `getDoc` yields the document exactly when it exists |
| Store.Firestore.SetUser | src/services/userService.js:23 | `setDoc` replaces the document whole, or changes nothing when refused |
| Store.Firestore.UpdateUser | src/components/GigDetailModal.jsx:108-116 | `updateDoc` fails on a missing document or refusal and otherwise applies the patch to that document only |
| Store.Firestore.AddGig | src/app/profile/page.js:174 | `addDoc` stores the gig under a fresh id, or changes nothing when refused |
| Store.Firestore.UpdateGig | src/components/GigDetailModal.jsx:190-195 | the gig update applies the patch to an existing gig only |
| Middleware.Guard | src/middleware.jsx:6-30 | with a cookie, `/` and `/login/` redirect to `/dashboard` and nothing redirects to `/login`; without one every path but `/` and `/login/` redirects to `/login`; all else passes |
| Middleware.OnlyPresenceMatters | src/middleware.jsx:6-19 | the decision depends on whether the cookie is present, never on its value |
| Session.SessionCookie | firebase/auth.js:23 | the written cookie starts with `firebaseAuth=`, and a token without `;` is read back from it unchanged |
| Session.FirebaseAuth.constructor | firebase/auth.js:13-14 | the adapter starts with no user and not loading |
| Session.FirebaseAuth.Clear | firebase/auth.js:16-20 | `clear` drops the user, stops loading and writes the expired empty cookie |
| Session.FirebaseAuth.SaveTokenToCookie | firebase/auth.js:22-24 | the cookie string becomes `firebaseAuth=<token>; path=/; max-age=3600; SameSite=Strict`; the browser keeps the value read back from that string, which is the whole token when it holds no `;` |
| Session.FirebaseAuth.AuthStateChanged | firebase/auth.js:26-41 | no user acts as `clear`; a user is stored as `{id, email, name}` with loading ended, the cookie untouched and one token pending |
| Session.FirebaseAuth.TokenResolved | firebase/auth.js:37-39 | a pending token arrives and is written to the cookie; the browser keeps the value read back, the whole token when it holds no `;` |
| Session.FirebaseAuth.SignOut | firebase/auth.js:43-45 | the state is cleared only when the provider's sign-out succeeds |
| Session.StaleTokenAfterSignOut | firebase/auth.js:37-45 | a token requested before sign-out still lands after it, so the guard sees a session while the adapter has no user |
| Session.SignOutLocksProfile | firebase/auth.js:43-45 | after a completed sign-out the guard sends `/profile` to `/login` |
| UserService.SeedProfile | src/services/userService.js:14-21 | a new profile has exactly name, e-mail, photo, 0 points, 0 completed gigs and the creation time, with `''` for a falsy name or photo |
| UserService.GetUserProfile | src/services/userService.js:32-43 | null for an empty id or a missing document, otherwise the stored fields with `uid` |
| UserService.CreateUserProfile | src/services/userService.js:6-29 | no user: null and no write; absent document: the seed is written and returned; existing document: returned untouched; a refused write rejects |
| UserService.CreateTwice | src/services/userService.js:9-28 | a second creation returns what the first did and writes nothing: the store ends with the seed written once, or unchanged when the profile already existed |
| UserService.UpdateUserProfile | src/services/userService.js:46-57 | empty id: null and no write; otherwise the given fields and `updatedAt` are merged into the existing document and the re-read profile is returned; a missing document or refusal rejects |
| UserService.UpdateIsFieldMerge | src/services/userService.js:50-53 | after an update each given field has its new value, `updatedAt` the call time, every other field its old value |
| AuthContext.MergeProfile | src/context/AuthContext.js:91-94 | `{...prev, ...data}`: data wins on its keys, the previous profile keeps the rest, a null previous profile gives data |
| AuthContext.MergeIdempotent | src/context/AuthContext.js:91-94 | merging the same data twice is merging it once |
| AuthContext.SignUpProfile | src/context/AuthContext.js:60-68 | the sign-up document has uid, e-mail, the chosen name, 0 points and empty purchases and sales |
| AuthContext.AuthProvider.constructor | src/context/AuthContext.js:19-21 | no user, no profile, loading |
| AuthContext.AuthProvider.OnAuthStateChanged | src/context/AuthContext.js:24-46 | no user clears the profile; a found document becomes the profile; a missing document or failed read keeps the previous profile; loading ends |
| AuthContext.AuthProvider.SignUp | src/context/AuthContext.js:55-71 | once the account exists the seeded document overwrites whatever was stored |
| AuthContext.AuthProvider.SignOut | src/context/AuthContext.js:73-77 | user and profile are cleared whatever the provider answers |
| AuthContext.AuthProvider.UpdateUserProfile | src/context/AuthContext.js:83-101 | no user: nothing; success: the store and the local profile get the data merged in and true is returned; failure: false and nothing changes |
| Dashboard.Matches | src/app/dashboard/page.js:17-20 | the empty query matches everyone, and a matching query is no longer than the name, the skill or the price text |
| Dashboard.InitialView | src/app/dashboard/page.js:10-11 | the page opens with every musician listed, exactly as an empty search shows |
| Dashboard.Filter | src/app/dashboard/page.js:16-21 | the kept musicians are exactly those matching, in their original order, each as many times as in the input |
| Dashboard.HandleSearch | src/app/dashboard/page.js:13-23 | the stored search is the lower-cased input and the list is exactly the matching musicians in order |
| Dashboard.EmptyQueryKeepsAll | src/app/dashboard/page.js:16-21 | the empty query keeps every musician |
| Dashboard.CaseInsensitive | src/app/dashboard/page.js:14-16 | the view depends on the input only up to case and not on earlier searches |
| Dashboard.FilterKeepsNameSlice | src/app/dashboard/page.js:16-18 | filtering by a slice of a member's lower-cased name keeps it |
| Dashboard.FoundByName | src/app/dashboard/page.js:13-22 | searching any part of a musician's name finds that musician |
| GigDetailModal.InitialSelection | src/components/GigDetailModal.jsx:45-48 | `cash` and `points` listings preselect their method, any other listing nothing |
| GigDetailModal.InitialConfirmState | src/components/GigDetailModal.jsx:291 | a fresh modal has Confirm disabled exactly for `both` listings |
| GigDetailModal.ConfirmDisabled | src/components/GigDetailModal.jsx:291 | Confirm is disabled while processing; when idle it is disabled only with no choice made, and then exactly on a `both` listing |
| GigDetailModal.InsufficientMessage | src/components/GigDetailModal.jsx:97 | the alert starts "Not enough points. You have " and contains both the balance and the price |
| GigDetailModal.Finish | src/components/GigDetailModal.jsx:177-204 | the purchase is confirmed with the seller's contact; profiles and messages are kept; only the listing itself can change, only for a one-time gig whose mark succeeds, and the refresh runs exactly then |
| GigDetailModal.PointsPath | src/components/GigDetailModal.jsx:84-136 | one message; no document appears or disappears; nothing is written unless the buyer is read, can afford the price and the debit is accepted; a failure leaves the listings alone and shows no success |
| GigDetailModal.CashPath | src/components/GigDetailModal.jsx:137-175 | always confirms with one message; success is shown, and any profile written, only when the buyer's record is accepted |
| GigDetailModal.Confirm | src/components/GigDetailModal.jsx:60-212 | one message; no document appears or disappears; a confirmation needs a chosen method and the seller's profile read; without one the listings and refresh are untouched; cash with the seller read always confirms |
| GigDetailModal.Contact | src/components/GigDetailModal.jsx:178-183 | the contact block shows the seller's name, e-mail and phone and the gig's instructions when given, and "Gig Creator", "No phone provided" and the default instructions otherwise |
| GigDetailModal.PurchaseModal.constructor | src/components/GigDetailModal.jsx:42-48 | the modal opens unconfirmed, idle, without contact block, with the initial selection |
| GigDetailModal.PurchaseModal.SelectPayment | src/components/GigDetailModal.jsx:56-58 | choosing a method changes only the selection |
| GigDetailModal.PurchaseModal.Finalize | src/components/GigDetailModal.jsx:177-204 | contact shown, confirmed, one-time gig marked taken when that write succeeds, refresh only then |
| GigDetailModal.PurchaseModal.PayWithPoints | src/components/GigDetailModal.jsx:84-136 | the store, messages and flags end as the points path prescribes |
| GigDetailModal.PurchaseModal.PayWithCash | src/components/GigDetailModal.jsx:137-175 | the store, messages and flags end as the cash path prescribes |
| GigDetailModal.PurchaseModal.ConfirmPayment | src/components/GigDetailModal.jsx:60-212 | the store, messages, contact block, confirmation and refresh count end as `Confirm` prescribes; processing ends false once a method was chosen |
| PurchaseLaws.DebitEffect | src/components/GigDetailModal.jsx:108-116 | `DebitPatch`, the buyer's write, sets the balance to the read balance less the price, appends the purchase record to the kept history and leaves every other field alone |
| PurchaseLaws.CreditEffect | src/components/GigDetailModal.jsx:119-128 | `CreditPatch`, the seller's write, sets the balance to the snapshot balance plus the price, appends the sale record to the kept history and leaves every other field alone |
| PurchaseLaws.HistoryKeepsPoints | src/components/GigDetailModal.jsx:142-163 | a write without a points field, such as the cash history writes `CashPurchasePatch` and `CashSalePatch`, leaves the points field as it was |
| PurchaseLaws.FinishKeepsUsers | src/components/GigDetailModal.jsx:177-204 | confirming leaves the profiles and messages as the path left them and only marks the gig |
| PurchaseLaws.CashPathGigs | src/components/GigDetailModal.jsx:137-204 | the cash path always confirms, and the gig is marked and refreshed only for a one-time gig whose write succeeds |
| PurchaseLaws.PointsPathGigs | src/components/GigDetailModal.jsx:84-204 | the points path marks the gig only when it confirms |
| PurchaseLaws.ConfirmGigs | src/components/GigDetailModal.jsx:187-204 | the listing changes, and the refresh runs, only on a confirmed purchase of a one-time gig whose write succeeds |
| PurchaseLaws.CashPathKeepsPoints | src/components/GigDetailModal.jsx:137-183 | the cash path keeps every profile's points and shows the contact block |
| PurchaseLaws.PathsIgnoreGigWrite | src/components/GigDetailModal.jsx:188-204 | neither path's profiles, messages or contact block depend on the "taken" write |
| PurchaseLaws.PointsPathKeepsBalances | src/components/GigDetailModal.jsx:94-128 | the points path keeps every balance non-negative when all start so and the price is not negative |
| PurchaseLaws.NoSelectionOnlyWarns | src/components/GigDetailModal.jsx:61-64 | with no method chosen only a warning is shown and nothing is read or written |
| PurchaseLaws.MissingProfileWritesNothing | src/components/GigDetailModal.jsx:73-91 | a missing seller profile, or a missing buyer profile on the points path, gives its error and writes nothing |
| PurchaseLaws.InsufficientPointsRejected | src/components/GigDetailModal.jsx:94-100 | too few points: no write, no confirmation, an alert naming the balance and the price |
| PurchaseLaws.PointsTransfer | src/components/GigDetailModal.jsx:102-130 | between two users the buyer pays the price, the seller gains it, their sum is kept, both histories gain their record with the old history as a prefix, no other field of the two profiles changes and no other profile changes |
| PurchaseLaws.SelfPurchaseMintsPoints | src/components/GigDetailModal.jsx:84-128 | buying one's own gig succeeds and raises one's balance by the price |
| PurchaseLaws.CreditLostWhenSellerWriteFails | src/components/GigDetailModal.jsx:108-135 | when the seller's write fails after the buyer's, the buyer has paid, the seller has not gained and the price is lost |
| PurchaseLaws.PointsConfirmedIff | src/components/GigDetailModal.jsx:60-185 | a points purchase confirms iff both profiles are read, funds suffice and both writes succeed |
| PurchaseLaws.FailedDebitWritesNothing | src/components/GigDetailModal.jsx:107-135 | a refused buyer write on the points path changes nothing |
| PurchaseLaws.CashRecordsAppended | src/components/GigDetailModal.jsx:142-167 | with the buyer's record accepted, the buyer's purchases gain the cash record and the seller's sales the mirrored record with the buyer's id (or stay untouched when that write is refused); old histories stay as prefixes, no other field changes and no other profile changes |
| PurchaseLaws.CashNeverTouchesPoints | src/components/GigDetailModal.jsx:137-183 | the cash path changes no balance and confirms iff the seller profile is read |
| PurchaseLaws.OneTimeGigMarkedTaken | src/components/GigDetailModal.jsx:188-199 | a confirmed one-time gig is marked taken by the buyer through `TakenPatch`, other gigs untouched, refresh called when given |
| PurchaseLaws.TakenMarkIsNonCritical | src/components/GigDetailModal.jsx:188-204 | the confirmation, profiles and messages are the same whether the "taken" write fails or not |
| PurchaseLaws.BalancesStayNonNegative | src/components/GigDetailModal.jsx:94-128 | no confirmation drives a balance below zero when none starts below zero |
| PurchaseLaws.FortyPointsCannotBuyFifty | src/components/GigDetailModal.jsx:94-100 | 40 points cannot buy a 50-point gig, and the message shows "40" and "50" |
| PurchaseLaws.BuyBothListingWithPoints | src/components/GigDetailModal.jsx:45-185 | a 100-point buyer choosing points on a 50-point `both` listing ends with 50, the seller gains 50, the purchase is confirmed with contact shown |
| ProfilePage.Defaults | src/app/profile/page.js:65-73 | the account-only profile has exactly uid, id, email, displayName, photoURL, points and completedGigs |
| ProfilePage.Overrides | src/app/profile/page.js:79-89 | the last write of the merge sets exactly the six guarded fields |
| ProfilePage.ProfileView | src/app/profile/page.js:65-89 | the shown profile has the default fields, plus every stored field and `bio` when a document exists |
| ProfilePage.OverrideKeepsTruthy | src/app/profile/page.js:83-88 | a truthy stored guarded field survives the last write |
| ProfilePage.UnguardedFieldKept | src/app/profile/page.js:79-81 | a stored field outside the guarded ones is shown as stored |
| ProfilePage.StoredFieldsWin | src/app/profile/page.js:79-89 | stored fields override the defaults except falsy guarded ones; uid and id default to the account id |
| ProfilePage.AccountOnlyFallbacks | src/app/profile/page.js:65-73 | without a document the name and e-mail come from the account or `''`, photo is `''`, counts are 0, no bio |
| ProfilePage.StoredFallbacks | src/app/profile/page.js:83-88 | with a document each guarded field is the first truthy of stored value and account value, else 0 or `''` |
| ProfilePage.GuardedFallbacks | src/app/profile/page.js:65-89 | both cases of the guarded-field fallbacks, and `bio` exists iff a document does |
| ProfilePage.GetInitial | src/app/profile/page.js:200-205 | one character that is not an ASCII lower-case letter: the first of a non-empty string up to ASCII case, otherwise "U" |
| ProfilePage.AvatarAsWritten | src/app/profile/page.js:255 | the avatar as written is one character, and any letter other than "U" comes from the display name |
| ProfilePage.EmailInitialUnreachable | src/app/profile/page.js:255 | the avatar as written always equals the display-name initial |
| ProfilePage.AvatarIgnoresEmail | src/app/profile/page.js:255 | an empty display name with e-mail `bob@example.com` shows "U" as written and "B" as intended |
| ProfilePage.AvatarInitial | src/app/profile/page.js:255 | the intended avatar: one character, the display-name initial when there is a name, else the e-mail's initial, else "U" |
| ProfilePage.ShownBadges | src/app/profile/page.js:420-430 | both badges exactly for `both`, only the price badge for `cash`, only the points badge for `points`, none for any other method |
| ProfilePage.BadgesAgreeWithInitialSelection | src/app/profile/page.js:420-430 | a one-badge listing preselects that method, a two-badge listing disables Confirm, an unknown method shows no badge |
| ProfilePage.Username | src/app/profile/page.js:169 | the author name is always truthy |
| ProfilePage.UsernamePrefersProfileName | src/app/profile/page.js:169 | the author name is the first truthy of displayName, account name and e-mail, else "Unknown user" |
| ProfilePage.CheckGig | src/app/profile/page.js:143-171 | empty fields, then no user or id, then a missing or non-positive price reject in that order; otherwise the gig has points equal to price, the author's id, the chosen method, the author name and the time |
| ProfilePage.Listed | src/app/profile/page.js:125-132 | one listed gig per snapshot entry |
| ProfilePage.ListedGigsBelongToUser | src/app/profile/page.js:118-132 | every listed gig is a stored gig of the user, with its id added |
| ProfilePage.CollectGigs | src/app/profile/page.js:125-132 | the loop builds exactly the listed gigs in snapshot order |
| ProfilePage.ProfilePage.constructor | src/app/profile/page.js:27-36 | no profile, no gigs, loading, empty form with method "both" |
| ProfilePage.ProfilePage.EditForm | src/app/profile/page.js:33-36 | the form fields hold what was typed |
| ProfilePage.ProfilePage.FetchUserGigs | src/app/profile/page.js:111-138 | with an id and an answer the list is the snapshot's gigs; otherwise unchanged and silent |
| ProfilePage.ProfilePage.FetchUserData | src/app/profile/page.js:47-104 | no id or a failed read warns and keeps the profile; otherwise the merged profile is shown and the gigs are fetched; loading always ends |
| ProfilePage.ProfilePage.AddGig | src/app/profile/page.js:140-197 | a rejected form warns with its reason and changes nothing; otherwise the gig is published |
| ProfilePage.ProfilePage.Publish | src/app/profile/page.js:174-195 | a stored gig is listed first with its id before the previous gigs, the form resets to empty with method "both"; a refused write warns and changes nothing |
| ProfilePage.NewGigListedFirst | src/app/profile/page.js:177-183 | the new gig is first, under its new id, with points equal to price and the author's id, and the previous gigs follow in order |

## Findings

| source | as written | input that shows it | evidently intended | confidence | as-written member | corrected member |
|---|---|---|---|---|---|---|
| src/app/profile/page.js:255 | `getInitial(user?.displayName) \|\| getInitial(user?.email) \|\| "U"`; `getInitial` never returns an empty string, so the e-mail is never consulted | displayName `""`, email `"bob@example.com"`, no photo: the avatar shows "U" | fall back to the e-mail's initial when there is no display name ("B") | medium, not executed | ProfilePage.AvatarAsWritten (ProfilePage.EmailInitialUnreachable, ProfilePage.AvatarIgnoresEmail) | ProfilePage.AvatarInitial |

## Left out

- JSX rendering, animation and styling. Toasts and `alert` are kept only as a log of (level, text) notices.
- The sign-in provider and the document store SDK are foreign calls. They are replaced by:
  - `Store.Firestore`, a map-backed store whose writes take a failure flag;
  - provider answers given as parameters;
  - token resolution as a separate event.
- Concurrency is not modelled. Two buyers racing for one gig and the delay between sign-in and the cookie write appear only as orderings of sequential events.
- Prices and points are integers. JavaScript floating point is not modelled, and `parseFloat` is a parameter (`None` for `NaN`).
- Dates are not modelled. `new Date()` is one opaque `now` per handler, and date formatting (`formatDate`) is left out.
- `Values.NumOr0`: a non-number `points` value (a string, say) is read as 0. JavaScript would coerce it in the comparison and the addition.
- `Text.Lower`: lower-casing covers ASCII letters only, not Unicode case mapping.
- `Text.UpperChar`: upper-casing covers ASCII letters only. JavaScript upper-cases "é" to "É" and "ß" to the two letters "SS".
- `ProfilePage.GetInitial`: `str[0]` is one Dafny character here, while JavaScript takes one UTF-16 unit, which is half of an emoji. The one-character result holds only for the ASCII upper-casing above, and the same applies to `ProfilePage.AvatarAsWritten` and `ProfilePage.AvatarInitial`.
- Failed reads are modelled only where the code handles them: the purchase engine, the auth context and the profile page. In the user service a failed read rejects the call in the same way a failed write does, and that case is not separately modelled.
- `ProfilePage.ProfilePage.FetchUserGigs`: the query's ordering by `createdAt` and its completeness are the store's. The snapshot is a parameter, promised only to hold stored gigs of the user.
- The profile page's redirect to `/login` when no account is signed in is a router call and is not modelled. The middleware decision is modelled instead.
- `GigDetailModal.PurchaseModal.constructor` requires a buyer id. Without one the component only renders a log-in prompt.
- The middleware matcher regex (`src/middleware.jsx:35`) is not modelled. `Guard` is the decision for the paths the matcher lets through. The comparison with `/login/` comes from `trailingSlash: true` in `next.config.js`.
- `signIn` and `resetPassword` in the auth context are left out; each is a single pass-through call to the provider.
