# Caffiend front-end rules, modelled in Dafny

Caffiend is a caffeine tracker. A signed-in user logs coffees into a log
keyed by the time of consumption. The page shows how much caffeine is still
active, with a warning tier, plus a history strip of past entries. This
project models the sequential rules in the React components and the session
provider around that numeric engine:

- **Entry form** (`CoffeeForm`): picking a coffee, the cost, and how many
  hours and minutes ago it was drunk. On submit the form checks that the user
  is signed in and has picked a coffee. It back-dates the timestamp key, then
  copies the log and inserts or overwrites the one entry. It then issues a
  one-entry merge write and, once that write succeeds, resets the form.
  `CoffeeForm.Form` is a class with the component's state fields.
- **Warning tier** (`Stats`): the three-way threshold rule over the active
  level, and the tier-table lookup for the badge.
- **History strip** (`History`): the log's keys most recent first. For each
  entry the model covers the one-entry query argument and the hover summary
  `name | elapsed | $cost | remainingmg / originalmg`.
- **Sign-in form** (`Authentication`): the credential pre-check, the attempt
  (in-flight flag, error text, signup or login, close on success, flag lowered
  in every case) and the mode toggle. `Authentication.AuthenticationForm` is a
  class.
- **Session provider** (`AuthContext`): `logout`, the auth-state listener
  (user, data and loading flag, with the document read's outcome as a
  parameter) and the `useAuth` check for a missing provider.
  `AuthContext.Session` is a class.
- **Page gating** (`App`): when the loading message and the Stats/History
  block appear, and a proof that History is only rendered over a log that
  exists.

Some inputs are not computed inside the model, so they are parameters:
`Date.now()` (`now`), every service outcome (document read, document write,
signup/login) and the stats library's functions (`History.Utils`, the
`level` and `StatusLevels` of `Stats`).

Timestamps are unbounded integers. Costs and levels are `real`; JavaScript
numbers are doubles, and their special values are not modelled.

Three points about what the code does:

- The form has no way to edit an entry, but a second entry with the same millisecond key
  replaces the first, because the code assigns that key in a copy of the log
  (`CoffeeForm.WithEntry`).
- The decay, statistics and ranking functions of `src/utils` are not modelled;
  their results are parameters.
- The tier thresholds come from the library's `statusLevels` table and are
  parameters. `Stats.ModerateUnreachableWhenBoundsInverted` shows what an
  out-of-order table does.

## Model

| member | source | states |
|---|---|---|
| Types.OrEmpty | src/components/CoffeeForm.tsx:33 | a null log reads as the empty log; a present log is itself |
| CoffeeForm.HourOptionsAre | src/components/CoffeeForm.tsx:155-159 | the hours picker offers exactly the integers 0 to 23 |
| CoffeeForm.MinuteOptionsAre | src/components/CoffeeForm.tsx:172-176 | the minutes picker offers exactly the multiples of 5 from 0 to 55 |
| CoffeeForm.Timestamp | src/components/CoffeeForm.tsx:36-38 | the key plus the chosen hours and minutes in milliseconds is `now`; for non-negative pickers the key is not after `now` |
| CoffeeForm.TimestampWithinDay | src/components/CoffeeForm.tsx:36-38 | the key is now minus hour·3,600,000 minus min·60,000; for picker values it is at most now and at most 86,100,000 ms earlier |
| CoffeeForm.TimestampDeterminesPickers | src/components/CoffeeForm.tsx:36-38 | for one `now`, two picker settings giving the same key are the same setting |
| CoffeeForm.WithEntry | src/components/CoffeeForm.tsx:32-44 | the new log has the old keys (null as empty) plus the new key, maps the key to the new entry (replacing any old one) and keeps every other entry |
| CoffeeForm.Merged | src/components/CoffeeForm.tsx:50-57 | a merge write of one key adds or replaces that key in the stored document and keeps every other key |
| CoffeeForm.MergeKeepsStoreInStep | src/components/CoffeeForm.tsx:44-57 | if the stored document equalled the in-memory log, the one-entry merge leaves it equal to the new in-memory log |
| CoffeeForm.HasSelection | src/components/CoffeeForm.tsx:26 | a submit goes on exactly when the selection is neither null nor the empty string |
| CoffeeForm.Form.constructor | src/components/CoffeeForm.tsx:10-15 | initial state: nothing selected, modal and list hidden, cost, hour and minute 0 |
| CoffeeForm.Form.PickQuick | src/components/CoffeeForm.tsx:90-93 | a quick pick selects that coffee and hides the full list, nothing else changes |
| CoffeeForm.Form.PickOther | src/components/CoffeeForm.tsx:105-108 | "Other" shows the full list and clears the selection, nothing else changes |
| CoffeeForm.Form.PickFromList | src/components/CoffeeForm.tsx:119-121 | choosing from the list selects that value, nothing else changes |
| CoffeeForm.Form.SetCost | src/components/CoffeeForm.tsx:139-141 | the cost field takes the typed number, nothing else changes |
| CoffeeForm.Form.SetHour | src/components/CoffeeForm.tsx:148-150 | the hour takes one of the picker's values, nothing else changes |
| CoffeeForm.Form.SetMin | src/components/CoffeeForm.tsx:165-167 | the minute takes one of the picker's values, nothing else changes |
| CoffeeForm.Form.CloseModal | src/components/CoffeeForm.tsx:71-73 | closing hides the modal, nothing else changes |
| CoffeeForm.Form.Submit | src/components/CoffeeForm.tsx:19-69 | signed out: only the modal opens. Nothing selected (null or empty): nothing changes. Otherwise the log gets the entry at the back-dated key. The write carries that one pair and is issued exactly when a user is present. The form resets only after a successful write; otherwise it keeps its fields |
| Stats.WarningLevel | src/components/Stats.tsx:32-37 | low exactly when level < low.maxLevel; moderate exactly when low.maxLevel ≤ level < moderate.maxLevel; high exactly when level is at or above both bounds |
| Stats.Label | src/components/Stats.tsx:33-37 | the tier text is one of "low", "moderate", "high" |
| Stats.LabelInjective | src/components/Stats.tsx:53-60 | distinct tiers have distinct texts, so each text names one table row |
| Stats.Record | src/components/Stats.tsx:53-60 | the row looked up is the one whose key is the tier's text: "low", "moderate" or "high" |
| Stats.ActiveLevelBadge | src/components/Stats.tsx:32-60 | below the low bound the badge is "low" with the low row's colour, background and description; from the low bound to below the moderate bound it is "moderate" with the moderate row's; at or above both bounds it is "high" with the high row's. Whatever the text, colour, background and description are those of the row it names, and the text is "low" exactly when the level is below the low bound |
| Stats.Boundaries | src/components/Stats.tsx:33-37 | a level equal to low.maxLevel is never low (moderate when low < moderate); a level equal to moderate.maxLevel is high when the bounds are ordered |
| Stats.Monotone | src/components/Stats.tsx:32-37 | a higher level never gets a lower tier |
| Stats.ModerateUnreachableWhenBoundsInverted | src/components/Stats.tsx:32-37 | with moderate.maxLevel ≤ low.maxLevel the moderate tier is never chosen |
| History.MaxKey | src/components/History.tsx:20-21 | the chosen key is in the log and no key is larger |
| History.Descending | src/components/History.tsx:20-21 | the listing holds every key of the log once and nothing else, in strictly decreasing order |
| History.DescendingUnique | src/components/History.tsx:21 | two strictly decreasing listings of the same keys are equal, so the listing does not depend on the sort algorithm |
| History.Singleton | src/components/History.tsx:26-28 | the query argument has exactly the entry's key, with the log's value for it |
| History.Summary | src/components/History.tsx:30 | the summary starts with the coffee's name, ends in "mg", and is as long as its five texts plus the three separators, the "$" and the two "mg" units with the " / " between them |
| History.SummaryFields | src/components/History.tsx:30 | cutting the summary at each separator ("space, bar, space") gives back name, elapsed text, "$"+cost and "remainingmg / originalmg", when those texts contain no bar |
| History.Row | src/components/History.tsx:23-30 | an entry's summary is built from its name, the elapsed time of its key, its cost, the remaining amount of that entry alone and its original amount; when none of these texts contains a bar, cutting the summary at the separators gives them back |
| History.View | src/components/History.tsx:20-37 | a null log throws; otherwise one summary per entry, the i-th for the i-th key most recent first |
| Authentication.MayAttempt | src/components/Authentication.tsx:18-26 | an attempt proceeds exactly when the email contains '@', the password has at least 6 characters and no attempt is in flight |
| Authentication.CallFor | src/components/Authentication.tsx:31-37 | registration mode calls signup, otherwise login, with the typed email and password |
| Authentication.ErrorAfter | src/components/Authentication.tsx:39-45 | only a rejection with an Error leaves an error text, and it is that Error's message |
| Authentication.AuthenticationForm.constructor | src/components/Authentication.tsx:9-13 | initial state: login mode, empty fields, not in flight, no error |
| Authentication.AuthenticationForm.SetEmail | src/components/Authentication.tsx:60 | typing the email changes only the email |
| Authentication.AuthenticationForm.SetPassword | src/components/Authentication.tsx:66 | typing the password changes only the password |
| Authentication.AuthenticationForm.ToggleRegistration | src/components/Authentication.tsx:80 | the toggle flips the mode and nothing else |
| Authentication.AuthenticationForm.BeginAttempt | src/components/Authentication.tsx:18-37 | a rejected attempt changes nothing and calls nothing; an accepted one sets the in-flight flag and clears the error before naming the call |
| Authentication.AuthenticationForm.FinishAttempt | src/components/Authentication.tsx:38-48 | success closes the modal; an Error stores its message; the in-flight flag is lowered in every case |
| Authentication.AuthenticationForm.HandleAuthenticate | src/components/Authentication.tsx:17-49 | the whole handler: the call happens exactly when the guard holds; after any call the flag is down, the modal closes only on success and the error is as left by the outcome |
| AuthContext.UseAuth | src/context/AuthContext.tsx:33-41 | no provider value is an error with the provider message; otherwise the value itself |
| AuthContext.FetchedData | src/context/AuthContext.tsx:93-98 | an existing document gives its contents, a missing one the empty log, a throwing read nothing |
| AuthContext.Session.constructor | src/context/AuthContext.tsx:44-46 | initial state: no user, no data, not loading |
| AuthContext.Session.SetData | src/context/AuthContext.tsx:45 | setting the data changes only the data |
| AuthContext.Session.Logout | src/context/AuthContext.tsx:56-60 | user and data become null; the loading flag is untouched |
| AuthContext.Session.BeginAuthChange | src/context/AuthContext.tsx:78-87 | the user is recorded; for a signed-in user the loading flag is up while the read is pending; data is untouched |
| AuthContext.Session.FinishAuthChange | src/context/AuthContext.tsx:90-103 | data becomes what was read unless the read threw; loading is false afterwards in every case |
| AuthContext.Session.OnAuthStateChanged | src/context/AuthContext.tsx:78-104 | no user: only the user changes. Signed in: data is the document, the empty log when there is no document, or unchanged when the read throws; loading ends false |
| App.IsData | src/App.tsx:11 | data is present exactly for a non-null log with at least one key |
| App.IsAuthenticated | src/App.tsx:10 | signed in exactly when there is a user |
| App.Render | src/App.tsx:10-25 | the loading message shows exactly when signed in and loading; Stats and History show exactly when signed in with a non-empty log |
| App.ContentGateProtectsHistory | src/App.tsx:24-25 | whenever Stats and History are rendered, History's listing succeeds and has at least one row |
| App.FirstEntryShowsContent | src/App.tsx:11 | a signed-in user with an empty document sees no Stats or History; after one inserted entry both appear |

## Left out

- The stats library (`calculateCurrentCaffeineLevel`, `calculateCoffeeStats`, `getTopThreeCoffees`, `statusLevels`, `coffeeOptions`, `timeSinceConsumption`, `getCaffeineAmount`): its definitions are not part of this model. Its results are parameters, so nothing about decay, daily statistics or ranking is stated.
- The Stats daily-statistics cards and the top-three table: they only display that library's results.
- Firebase (`doc`, `getDoc`, `setDoc`, `onAuthStateChanged` subscription and unsubscribe, `signOut`, sign-in and sign-up): network I/O. Only their outcomes are parameters (read found / missing / threw, write succeeded or not, call resolved or rejected).
- `signup`, `login`, `resetPassword`: pass-through wrappers of those calls.
- Asynchrony and React's batched re-rendering: each handler is one atomic step, or two steps around its awaited call. Interleavings of two pending handlers are not modelled, and neither are stale closure values.
- `Date.now()`: the parameter `now`.
- JSX, CSS classes, the modal component and console logging; `src/components/Layout.tsx` (its header, footer and modal toggle).
- Number semantics: costs and levels are `real`, so NaN, infinities and the decimal text of a JavaScript number (`History.Utils.numberText`) are not modelled. Timestamps are unbounded integers; doubles hold them exactly only up to 2^53.
- Authentication.MayAttempt: counts the password's length in Unicode scalar values, where JavaScript counts UTF-16 code units; the two differ for characters outside the Basic Multilingual Plane.
- CoffeeForm.Merged: takes Firestore's merge of a nested map as a replacement of the whole entry. The two agree because every write carries both fields of an entry.
- CoffeeForm.Form.PickFromList: takes the string the list reports as given. What the browser reports for the "Select type" placeholder option is not modelled.
- The App props and the children each component renders are not modelled as objects: `Submit` takes `isAuthenticated` as a parameter, and `AuthenticationForm`'s close request is returned as a flag.
