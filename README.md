# Webinar enrollment and user profile: a Dafny model

This project models two React components of a course/webinar front end.

- **The webinar page** (`Webinar.jsx`). It fetches the catalog and keeps the last five entries. On "Enroll" it asks the backend whether the user already paid. Then it opens the webinar page, starts a payment, redirects to login or alerts. A payment creates an order, fetches the gateway key and opens the Razorpay checkout for the price in paise. The checkout's handler sends the payment proof to the backend and acts on the verdict.
- **The profile page** (`UserProfile.jsx`). It has an initial profile, normalises the profile it fetches, updates one field per input change, derives the initials shown in place of a picture, and picks the message a save leaves.

The webinar page logs every external interaction: each HTTP call with its outcome (a reply or a rejection), opening the checkout, `navigate` and `alert`. The profile page logs the requests it sends. For both pages the outcomes are method parameters. The component state (`webinars`, `loading`, `error`, `selectedWebinar`, `paymentStatus`; `userId`, `profile`, `message`) lives in the fields of the classes `Webinars.WebinarsPage` and `UserProfile.ProfilePage`. Their methods update those fields in the order the handlers do. The contracts of `HandleEnroll`, `InitiatePayment` and `HandlePaymentResponse` tie the new log to the pure functions `EnrollCalls`, `PaymentCalls` and `VerificationCalls`, and the properties are proved about those functions. `FetchWebinars` and the `ProfilePage` methods state the entry they append directly.

The page's object invariant (`WebinarsPage.Valid`) states that the log is well formed, as defined by `WellFormed`. Each handler runs to completion in the model, so these orderings hold within each handler invocation and of the model's serialised log:
- a checkout is opened only right after a successful order creation and key fetch;
- the checkout carries that order id and that key;
- its amount is the order's rupee amount times 100;
- a navigation to a webinar page directly follows a status check that found the webinar paid or free, or a confirmation the backend accepted for it;
- 'Payment successful!' is shown only once some confirmation was accepted.

Files:
- `js.dfy` (module `Js`): JavaScript truthiness, `||` with a default, one-argument `slice` and `toUpperCase`.
- `decimal.dfy` (module `Decimal`): `parseInt(s, 10)` on digit strings, and decimal formatting as its inverse.
- `webinars.dfy` (module `Webinars`): the webinar page.
- `user_profile.dfy` (module `UserProfile`): the profile page.

Behaviour of the code worth knowing:
- A failed status check redirects to login exactly when no token is stored, whatever the failure was. Otherwise it alerts.
- A free webinar is recognised by the price string being exactly `"0"`, so `"00"` takes the paid path and opens a checkout for 0 paise. There is no check for an invalid amount.
- Nothing prevents a second order for the same webinar. A second click starts a second, independent payment.
- The handler sends the order id its checkout was opened with. The order id that the gateway reports back is never compared with it (`ReportedOrderIdIgnored`).
- A rejected verification and an unreachable backend produce the same alert. Closing the checkout without paying does nothing: the handler is never called.

## Model

| member | source | states |
|---|---|---|
| `Webinars.LastFive` | Client/src/Components/Webinar.jsx:23-25 | The kept catalog is the suffix of the response of length min(5, n), in the response's order |
| `Js.SliceFrom` | Client/src/Components/Webinar.jsx:24 | `slice(start)`: a negative start takes the last min(n, -start) elements, a non-negative one drops `start` elements; element i of the result is element (n - length of the result + i) of the input |
| `Webinars.WebinarsPage.constructor` | Client/src/Components/Webinar.jsx:7-11 | The page starts with no webinars, loading, no error, nothing selected, an empty payment status, an empty log and no open checkout |
| `Webinars.WebinarsPage.FetchWebinars` | Client/src/Components/Webinar.jsx:17-31 | On success `webinars` is `LastFive` of the response. On failure the error is 'Error fetching webinars.' and `webinars` is left as it was (empty on mount). `loading` is false either way, and the invariant holds |
| `Webinars.Enroll` | Client/src/Components/Webinar.jsx:50-69 | Already paid means the webinar page, whatever the price. Not paid means the webinar page exactly when the price string is "0", and payment otherwise. A thrown check means login exactly when no token is stored, and an alert otherwise. Payment starts only after a check that said "not paid" |
| `Webinars.Reaction` | Client/src/Components/Webinar.jsx:50-68 | The action for a decision other than payment: the webinar page (lines 52 and 56), the login page exactly on the login decision (line 64), and otherwise the status-check alert (line 67) |
| `Webinars.EnrollCalls` | Client/src/Components/Webinar.jsx:40-69 | The calls one enroll makes start with the status check. When the webinar is already paid, or unpaid and free, they are the check and the navigation to its page and nothing else. On the paid path they are the check followed by exactly `PaymentCalls`. A thrown check leads to exactly one more entry, login or an alert. Exactly one order is created on the paid path and none on any other. No checkout opens without an order. The calls form a well-formed log |
| `Webinars.InfoPathInjective` | Client/src/Components/Webinar.jsx:52-64 | Two webinar pages are the same path exactly when the ids are equal, and no webinar page is the login page |
| `Webinars.WebinarPageReached` | Client/src/Components/Webinar.jsx:50-56 | In a well-formed log, every visit to a webinar's page comes right after either a status check of that same webinar that found it paid or free, or a confirmation for that webinar that the backend accepted (lines 127-130) |
| `Webinars.WebinarsPage.HandleEnroll` | Client/src/Components/Webinar.jsx:36-70 | Selects the webinar, appends exactly `EnrollCalls` to the log, and changes the payment status and open checkouts only on the paid path, as `InitiatePayment` does. The invariant is kept |
| `Webinars.PaymentCalls` | Client/src/Components/Webinar.jsx:78-147 | Exactly one order creation, carrying the rupee price and the webinar id. The key is fetched exactly when the order creation succeeded, and it is logged with its actual outcome. Nothing besides the order, the key fetch and the checkout is called. The checkout opens exactly when order creation and key fetch both succeed. It is opened with `CheckoutOptions` of the webinar, the fetched key and the created order id. No navigation and no confirmation happen. The log is well formed |
| `Webinars.WebinarsPage.InitiatePayment` | Client/src/Components/Webinar.jsx:72-152 | No webinar means no call and no change. Otherwise the log grows by `PaymentCalls`. A failed order or key fetch sets 'Error initiating payment.' and opens nothing. Success records the open checkout with the webinar its handler captured |
| `Webinars.ToPaise` | Client/src/Components/Webinar.jsx:96 | The amount in paise is a whole number of rupees and is below 100·10^k for a price of k digits. Its exact value is given by `PaiseOfRupees` |
| `Webinars.CheckoutOptions` | Client/src/Components/Webinar.jsx:99-105 | The checkout carries the fetched key and the created order id, the price in paise, currency "INR", the webinar's title as name and the description "Enrollment for Webinar" |
| `Decimal.ParseInt` | Client/src/Components/Webinar.jsx:96 | `parseInt(s, 10)` of a digit string is below 10 to the power of its length |
| `Decimal.FormatDecimal` | Client/src/Components/Webinar.jsx:96 | The inverse used to state the conversion: a digit string with no leading zero unless it is "0" |
| `Decimal.ParseFormat` | Client/src/Components/Webinar.jsx:96 | Parsing the decimal spelling of n gives n back |
| `Decimal.LeadingZero` | Client/src/Components/Webinar.jsx:96 | A leading zero does not change the parsed value |
| `Webinars.PaiseOfRupees` | Client/src/Components/Webinar.jsx:96 | The conversion is applied once: a price of n rupees is 100·n paise (so "499" is 49900) |
| `Webinars.ZeroWithTwoDigitsIsPaid` | Client/src/Components/Webinar.jsx:54-96 | "00" is not free (line 54 compares strings): it takes the paid path, and its checkout amount is 0 |
| `Webinars.WellFormedConcat` | Client/src/Components/Webinar.jsx:89-105 | The ordering invariant of the log is compositional: two well-formed logs concatenate to a well-formed one |
| `Webinars.VerificationCalls` | Client/src/Components/Webinar.jsx:106-138 | The confirmation carries the session's webinar id and the order id the checkout was opened with, plus the gateway's payment id and signature. Navigation to the webinar page follows exactly when the backend answered success. Otherwise, for a false answer or a thrown call, only the alert follows |
| `Webinars.WebinarsPage.HandlePaymentResponse` | Client/src/Components/Webinar.jsx:106-138 | Appends `VerificationCalls` for the open checkout. 'Payment successful!' is set exactly when the backend confirmed, and the status is unchanged otherwise |
| `Webinars.ReportedOrderIdIgnored` | Client/src/Components/Webinar.jsx:113-119 | The order id the gateway reports does not influence the handler's calls |
| `Webinars.PriceLabel` | Client/src/Components/Webinar.jsx:172 | The label is "Free" exactly for the price "0", and "₹" followed by the price otherwise |
| `Webinars.EnrollButtonLabel` | Client/src/Components/Webinar.jsx:174 | The button reads "Enroll Now" exactly for the price "0", and "Pay & Enroll" otherwise |
| `UserProfile.ProfilePage.constructor` | Client/src/Components/UserProfile.jsx:7-15 | The profile starts empty with language 'English (US)', with no user id, no message and no request sent |
| `UserProfile.InitialProfileIsDefaults` | Client/src/Components/UserProfile.jsx:9-15 | Every field of the initial profile is its default |
| `UserProfile.ProfilePage.LoadUserDetails` | Client/src/Components/UserProfile.jsx:17-35 | The user-details request is sent only when a token is stored. Its id becomes `userId` on success, and a failure changes nothing else |
| `UserProfile.ProfilePage.LoadProfile` | Client/src/Components/UserProfile.jsx:37-62 | No read while `userId` is falsy. Otherwise the user's profile is read and, on a reply, normalised into `profile`. A rejection leaves the profile unchanged |
| `Js.OrElse` | Client/src/Components/UserProfile.jsx:50-54 | `v` or a default, as the logical or does it: the value itself when it is truthy, and the default otherwise |
| `UserProfile.Normalize` | Client/src/Components/UserProfile.jsx:49-55 | Each field keeps a truthy fetched value and takes its default otherwise: '' for names, email and hobby, 'English (US)' for language. The language is never empty |
| `UserProfile.Export` | Client/src/Components/UserProfile.jsx:90 | `JSON.stringify(profile)` carries every field as a string with the profile's value |
| `UserProfile.NormalizeExport` | Client/src/Components/UserProfile.jsx:49-55 | A profile saved as JSON and normalised again is unchanged, provided its language is not empty |
| `UserProfile.NormalizeEmpty` | Client/src/Components/UserProfile.jsx:49-55 | A reply with every field missing normalises to the initial profile |
| `UserProfile.Updated` | Client/src/Components/UserProfile.jsx:64-70 | The named field takes the new value and every other field is unchanged |
| `UserProfile.UpdatedLaws` | Client/src/Components/UserProfile.jsx:64-70 | Writing a field's current value changes nothing. Of two writes to one field, the last wins |
| `UserProfile.ProfilePage.HandleChange` | Client/src/Components/UserProfile.jsx:64-70 | The profile becomes `Updated(old profile, field, value)`, and nothing else changes |
| `UserProfile.Initial` | Client/src/Components/UserProfile.jsx:74-75 | `charAt(0)`: at most one character, empty exactly for an empty name, and otherwise the name's first character |
| `UserProfile.GetInitials` | Client/src/Components/UserProfile.jsx:72-77 | One upper-cased character per non-empty name, first name first. The result is at most 2 long and is '' exactly when both names are empty |
| `Js.ToUpperCase` | Client/src/Components/UserProfile.jsx:76 | Same length, and each character is upper-cased |
| `UserProfile.SaveMessage` | Client/src/Components/UserProfile.jsx:93-109 | 'Profile updated successfully!' exactly for a successful save with a user id. 'Profile saved successfully!' exactly for one without. 'Error in saving profile' exactly for a non-ok response or a failure |
| `UserProfile.ProfilePage.HandleSave` | Client/src/Components/UserProfile.jsx:79-111 | Sends the profile as JSON to the current user id's write endpoint (even a null one), and leaves `SaveMessage` of the outcome |

## Left out

- HTTP transport, request headers, `localStorage`, `console` logging, React hooks and rendering are not modelled. Each call's outcome is a parameter, and the token is a constructor or method argument. The order-creation request at Client/src/Components/Webinar.jsx:85 names its header `' Authorization'`, with a leading space; headers are not part of this model.
- The Razorpay object is not modelled. Opening the checkout is a logged effect, and the `handler` is a method the gateway may call for any opened session. The model does not capture the gateway itself: payment, dismissal, and an exception from `new window.Razorpay` or `open()`.
- Asynchrony is not modelled. Each `await` is collapsed and each handler runs to completion as one method call, including `initiatePayment`, which line 59 does not even await. The interleavings of concurrent handlers are not captured: a second click, the catalog fetch or a gateway handler resuming between two awaits (at Client/src/Components/Webinar.jsx:42, 80, 92 and 113). For example, two clicks on two paid webinars can issue both order creations before either key fetch. The adjacency in `WellFormed` (a checkout right after its order and key, a navigation right after what allows it) therefore holds per handler invocation, not of the real program's interleaved request stream.
- `setTimeout` clearing the save message after three seconds is left out because it is timer-driven.
- Date formatting with `toLocaleDateString` is left out because it is locale-dependent. So are the card layout, the CSS, and the checkout's `theme` option (`color: "#F37254"` at Client/src/Components/Webinar.jsx:140-142), which only styles the gateway's window.
- Webinars.ToPaise: `parseInt` is modelled only on non-empty strings of decimal digits, and the paid path requires such a price. `parseInt` itself skips leading whitespace, accepts a sign and stops at the first character that is not a digit. So the program turns "4.99" into 4 and "499.00" into 499, " 12" and "+12" into 12, "-5" into -5 and "12abc" into 12. Only strings without a leading integer, such as "abc" or "", give NaN. For a price such as "4.99", the order is created with the amount "4.99" (Client/src/Components/Webinar.jsx:81), but the checkout opens for 400 paise (line 96). None of these prices is modelled.
- Decimal.ParseInt: `ParseInt("")` is 0 only as the base of the recursion, whereas `parseInt("", 10)` is NaN. `ToPaise` and the paid path require a non-empty digit string, so the empty string never reaches the modelled conversion.
- Webinars.PaiseOfRupees: `parseInt` and `* 100` compute with IEEE doubles, which are exact only while 100·n is at most 2^53. The model uses unbounded integers and states 100·n for every n; larger prices would be rounded by the program.
- UserProfile.GetInitials: `charAt(0)` returns one UTF-16 code unit, for example half of a surrogate pair for an emoji. The model's strings are sequences of Unicode characters, so `Initial` returns the whole first character.
- Js.ToUpperCase: only ASCII letters are upper-cased. JavaScript's full Unicode mapping can lengthen a string (`'ß'` becomes `"SS"`), so `GetInitials`' bound of two characters holds for the modelled mapping only.
- Values other than strings and null/undefined in fetched JSON (numbers, booleans, objects) are not modelled. The model keeps only what the code distinguishes: truthy string or falsy.
- Client/src/App.jsx is not part of this model: it is a route table without logic.
