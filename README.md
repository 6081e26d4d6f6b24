# Tribute wall: a verified model of its client-side core

The tribute wall is a memorial page built with Next.js. A visitor signs
in on a mock login page with a name, a password and their relationship to
the deceased. They then read and post tributes, which are kept in the
browser's `localStorage`. The site also offers an emulated card payment
for a flower tribute and a request for a callback from a funeral home.

This project models the logic under that markup in Dafny and proves
properties of it:

- **Tribute persistence** (`tribute_store.dfy`, module `TributeStore`).
  - `getStorageKey` derives a storage key from a name: it lower-cases the
    name, turns each whitespace run into `_`, drops characters outside
    `[\w-]`, and adds a prefix.
  - `loadTributesFromLocalStorage` and `saveTributesToLocalStorage` move
    the tribute list in and out of that slot, always ordered newest first.
- **The tribute page** (`tribute_wall.dfy`, module `TributeWall`, class
  `TributePage`). The page's React state is a class. Its members are:
  - the mount-time session check, which either signs the visitor in or
    redirects to `/login`;
  - the effect that saves the list;
  - `handleAddTribute`;
  - the tab switch and the success toast;
  - which parts of the page render.
- **The mock login** (`login.dfy`, module `Login`, class `LoginPage`).
  - the mount-time redirect rule;
  - the trim-based field check;
  - what a successful login stores.
- **The payment modal** (`payment.dfy`, module `Payment`).
  - the card-number, `MM/YY` expiry and CVV formatters;
  - the `form -> processing -> success | failed -> form` step machine
    (class `PaymentModal`).
- **The callback request** (`callback.dfy`, module `FuneralHomeCallback`).
  - the ordered name-then-phone check;
  - the thank-you message;
  - `showForm`;
  - the open-reset effect (class `CallbackForm`).

Two supporting modules hold shared definitions:

- `text.dfy` (module `Text`) holds the JavaScript string operations the
  code relies on:
  - the `\s`, `\d` and `\w` classes;
  - `trim`, `toLowerCase`, `slice`, `includes`;
  - a global `replace` with `""`, modelled as a filter.
- `browser.dfy` (module `Browser`) holds the shared records
  (`TributeCardData`, `NewTributeDataFromInput`), the `localStorage`
  class, what a slot holds once `JSON.parse` has read it, and router
  navigations.

How the browser is modelled:

- `localStorage` is a class holding a `map<string, StoredValue>`.
- A `StoredValue` is one of:
  - the empty string;
  - text `JSON.parse` rejects;
  - a parsed array of tribute records;
  - any other parsed JSON value, of which only the two string fields
    the session check reads are kept.
- A write the browser refuses (`setItem` throwing) is passed in as a
  boolean.
- Random and foreign values are parameters: `Math.random()`, `uuidv4()`,
  `Date.now()`, and whether `onPaymentSuccess` resolves or throws.
- Router calls are recorded in a `navigation` field.
- Each `async` handler is split in two at its `await` of a timer:
  - `HandleX` runs up to the pause;
  - `ResumeX` runs after it, using the values the closure captured.

  A pending submission is therefore part of the state.

## Model

| member | source | states |
|---|---|---|
| Text.Lower | lib/localStorageUtils.ts:8 | `toLowerCase` keeps the length, leaves no upper-case ASCII letter, and maps each character on its own |
| Text.Keep | lib/localStorageUtils.ts:10 | a global `replace` of a character class with `""` keeps only characters of the complement class, and never lengthens the string |
| Text.Take | components/PaymentEmulationModal.tsx:203 | `slice(0, n)` is the prefix of length `min(|s|, n)` |
| Text.Trim | app/login/page.tsx:54 | `trim()` never lengthens the string (when it is empty is stated by `TrimEmptyIff`) |
| Text.Contains | components/FuneralHomeCTAComponent.tsx:71 | `includes(t)`: `t` occurs at some position of `s` |
| Browser.LocalStorage.GetItem | lib/localStorageUtils.ts:20 | `getItem` gives the slot's value for a key that is set, and nothing otherwise |
| Browser.LocalStorage.SetItem | lib/localStorageUtils.ts:49 | `setItem` overwrites exactly its key when the browser accepts the write, and changes nothing when it throws |
| Browser.LocalStorage.RemoveItem | app/page.tsx:273 | `removeItem` drops exactly its key |
| Text.TrimEmptyIff | app/login/page.tsx:54 | `trim()` gives `""` exactly when the string is whitespace only; otherwise the result neither starts nor ends with whitespace |
| TributeStore.CollapseWhitespace | lib/localStorageUtils.ts:9 | after `.replace(/\s+/g, "_")` no whitespace is left |
| TributeStore.NormalizedName | lib/localStorageUtils.ts:7-10 | the normalised suffix contains only `[a-z0-9_-]` |
| TributeStore.KeySuffix | lib/localStorageUtils.ts:11 | the suffix is never empty: it is the normalised name, or `default` when that is empty |
| TributeStore.StorageKey | lib/localStorageUtils.ts:6-12 | the key always begins with `tributeWall_tributes_`, is longer than that prefix, and its suffix uses only `[a-z0-9_-]` |
| TributeStore.KeySuffixIdempotent | lib/localStorageUtils.ts:7-11 | feeding a suffix (including `default`) back through the same steps returns it unchanged |
| TributeStore.CollapseWithoutWhitespace | lib/localStorageUtils.ts:9 | a string without whitespace passes the run replacement unchanged |
| TributeStore.CollapseWordThenRun | lib/localStorageUtils.ts:9 | a whitespace run of any length, between a word and a rest that does not start with whitespace, becomes exactly one `_` |
| TributeStore.LongerWhitespaceRunSameKey | lib/localStorageUtils.ts:9 | lengthening a whitespace run in a name does not change its key |
| TributeStore.CaseInsensitiveKey | lib/localStorageUtils.ts:8 | a name and its lower-cased form have the same key |
| TributeStore.InsertNewestFirst | lib/localStorageUtils.ts:28 | one insertion step of the stable sort adds exactly the inserted record to the multiset |
| TributeStore.SortNewestFirst | lib/localStorageUtils.ts:28 | the sorted list has non-increasing timestamps and is a permutation of its input |
| TributeStore.SortKeepsTies | lib/localStorageUtils.ts:28 | records with the same timestamp keep their relative order, because `Array.prototype.sort` is stable |
| TributeStore.SortOfSorted | lib/localStorageUtils.ts:46-48 | a list already ordered newest first is left exactly as it is |
| TributeStore.SortIdempotent | lib/localStorageUtils.ts:46-48 | sorting twice is sorting once |
| TributeStore.LoadTributes | lib/localStorageUtils.ts:14-37 | `load` gives `[]` when the slot is absent, empty, unparsable or not an array; otherwise it gives the stored records newest first, as a permutation with ties in stored order |
| TributeStore.ItemsAfterSave | lib/localStorageUtils.ts:39-54 | a successful save writes only the derived key, with the list sorted newest first as a permutation; every other key is untouched; a failed write changes nothing |
| TributeStore.SaveTributes | lib/localStorageUtils.ts:43-53 | the store after `save` is `ItemsAfterSave` of the store before |
| TributeStore.SaveThenLoad | lib/localStorageUtils.ts:22-28 | `load(n)` right after `save(n, L)` returns exactly the stably sorted `L` |
| TributeStore.SaveLeavesOtherSlots | lib/localStorageUtils.ts:43-49 | saving under one name does not change what a name with a different key loads |
| Login.ValidationError | app/login/page.tsx:54-61 | there is no error exactly when none of the three fields is whitespace only; any error is "Please complete all fields to continue.", so the `password.length < 1` branch never fires |
| Login.Serialized | app/login/page.tsx:68-72 | the stored session record holds only the name and the relationship, never the password |
| Login.LoginPage.constructor | app/login/page.tsx:23-29 | the initial state: empty fields, checking auth, not submitting, no error |
| Login.LoginPage.Mount | app/login/page.tsx:32-48 | a stored record that parses redirects to `/` and leaves the loader up; an unparsable one is removed and the form shown; an absent or empty one just shows the form |
| Login.LoginPage.EditFullName | app/login/page.tsx:134 | typing sets the field; fields are disabled while submitting |
| Login.LoginPage.EditPassword | app/login/page.tsx:150 | typing sets the field; fields are disabled while submitting |
| Login.LoginPage.EditRelationship | app/login/page.tsx:166 | typing sets the field; fields are disabled while submitting |
| Login.LoginPage.HandleMockLogin | app/login/page.tsx:50-64 | the error is cleared and then set from the field check; a rejected login stores nothing and leaves submitting false; an accepted one is submitting, with the trimmed name and relationship captured |
| Login.LoginPage.ResumeLogin | app/login/page.tsx:66-78 | after the pause only the trimmed name and relationship are stored, never the password, and the visitor goes to `/`; a refused write sets the unexpected-error message and ends submitting |
| TributeWall.CheckSession | app/page.tsx:259-289 | nothing stored means no session; a record with non-empty `fullName` and `relationship` signs in with exactly those fields; anything else is a bad session |
| TributeWall.LoginRecordSignsIn | app/login/page.tsx:68-72 | the record a successful login writes is one the wall's session check accepts |
| TributeWall.SaveEnabled | app/page.tsx:296 | the save effect writes only once the initial load is complete and a signed-in user is present |
| TributeWall.PersistedItems | app/page.tsx:295-299 | the save effect writes only the deceased's slot, whoever is signed in; it writes only once the initial load is complete and a user is signed in; a successful write loads back as the sorted list |
| TributeWall.PersistAfterMountKeepsWall | app/page.tsx:267-270 | the save that follows a successful mount writes back exactly the list just loaded |
| TributeWall.PersistAfterAddKeepsOrder | app/page.tsx:321-331 | a tribute no older than the others, prepended and saved, loads back first with the rest unchanged behind it |
| TributeWall.TributePage.constructor | app/page.tsx:244-249 | the initial state: Tributes tab, empty list, load not complete, no user, loader up, no toast |
| TributeWall.TributePage.Mount | app/page.tsx:258-293 | a signed-in visitor gets `isSignedIn`, the deceased's tributes loaded, then load complete and loader off; no session redirects to `/login` with nothing loaded; a bad record is also removed |
| TributeWall.TributePage.PersistEffect | app/page.tsx:295-299 | the store after the save effect is `PersistedItems` of the state |
| TributeWall.TributePage.HandleTabClick | app/page.tsx:301-303 | the clicked tab becomes active |
| TributeWall.TributePage.HandleAddTribute | app/page.tsx:306-336 | without a signed-in user with both fields: an alert, a push to `/login`, and the list unchanged; otherwise the list becomes `[t] + old`, with `t`'s name and relationship from the user, message and attachment from the input, id and timestamp fresh, and the toast shown |
| TributeWall.TributePage.ToastTimerElapsed | app/page.tsx:333 | a toast timer hides the toast |
| TributeWall.TributePage.CurrentScreen | app/page.tsx:370-387 | in a reachable state the "Redirecting to login..." screen never renders; the wall renders exactly once the initial load is complete |
| TributeWall.TributePage.EmptyFeedHintInMarkup | app/page.tsx:442-444 | the empty-feed hint is in the wall's markup when the load is complete, the Tributes tab is active and the list is empty |
| TributeWall.TributePage.EmptyFeedHintShown | app/page.tsx:442-448 | "Be the first to share a memory." is seen exactly when the load is complete, the Tributes tab is active and the list is empty |
| TributeWall.TributePage.RenderedPanels | app/page.tsx:370-463 | at most the active tab's panel renders its content; on a reachable page none renders while the loader is up, and exactly the active one once the load is complete |
| TributeWall.TributePage.FeedContents | app/page.tsx:370-467 | the feed renders only on the wall screen, and with the page's list; on a reachable page it renders exactly when the load is complete and the Tributes tab is active |
| TributeWall.TributePage.TributeInputShown | app/page.tsx:370-488 | the tribute input renders only on the wall screen on the Tributes tab; in a reachable state exactly when the load is complete and that tab is active |
| TributeWall.FeedAgreesWithHintAndInput | app/page.tsx:442-488 | on a reachable page the empty-feed hint shows exactly when the feed renders an empty list, and the tribute input exactly when the feed renders |
| TributeWall.OpenWall | app/page.tsx:258-299 | a signed-in visitor opening the wall sees the stored list newest first, and the save that follows leaves the slot loading as exactly that list; the tab, the toast, the alert and the navigation are left as they were |
| TributeWall.PostAndSave | app/page.tsx:295-331 | posting a tribute no older than those shown, then saving, leaves both the page and the slot holding it in front of the previous list; the tab, the alert and the navigation are left as they were, and the toast is up with one more timer |
| TributeWall.VisitAndPost | app/page.tsx:258-336 | mount, save, post and save again: the slot then loads as the new tribute in front of what was stored before; the tab, the alert and the navigation are left as they were, and the toast is up with one more timer |
| Payment.GroupDigits | components/PaymentEmulationModal.tsx:202 | grouping `n > 0` digits adds `(n - 1) / 4` spaces |
| Payment.GroupAt | components/PaymentEmulationModal.tsx:202 | position `i` of a grouping is a space when `i % 5 == 4` and otherwise digit `i - i / 5` |
| Payment.GroupDigitsKeepsDigits | components/PaymentEmulationModal.tsx:202 | removing the inserted spaces gives back the digits |
| Payment.GroupThenTake | components/PaymentEmulationModal.tsx:202-203 | the first 19 characters of a grouping are the grouping of the first 16 digits |
| Payment.DigitsIgnoreWhitespaceStrip | components/PaymentEmulationModal.tsx:200-201 | stripping `\s` and then `\D` keeps the same characters as stripping `\D` alone |
| Payment.GroupedShape | components/PaymentEmulationModal.tsx:202-203 | a grouping of at most 16 digits is at most 19 digits and spaces, with spaces exactly at `i % 5 == 4`, no trailing space, and the digits once the spaces go |
| Payment.FormatCardNumber | components/PaymentEmulationModal.tsx:197-204 | the card formatter outputs at most 19 digits and spaces; without spaces it is the input's first `min(n, 16)` digits in order; spaces sit exactly at `i % 5 == 4`, so never at the end |
| Payment.CardNumberIdempotent | components/PaymentEmulationModal.tsx:197-204 | reformatting a formatted card number changes nothing |
| Payment.FormatExpiry | components/PaymentEmulationModal.tsx:224-230 | the expiry keeps at most 4 digits, with `/` exactly at position 2 when more than 2 digits remain; it is at most 5 characters long |
| Payment.ExpiryIdempotent | components/PaymentEmulationModal.tsx:224-230 | reformatting a formatted expiry changes nothing |
| Payment.FormatCvv | components/PaymentEmulationModal.tsx:249-251 | the CVV is only digits, the first `min(n, 3)` of the input |
| Payment.CvvIdempotent | components/PaymentEmulationModal.tsx:249-251 | reformatting a formatted CVV changes nothing |
| Payment.SenderPrefill | components/PaymentEmulationModal.tsx:44 | `tributeData.senderName || ""`: the sender's name, or empty when there is none |
| Payment.PaymentOutcome | components/PaymentEmulationModal.tsx:73-95 | success exactly on emulated success with a resolving callback; otherwise failure with the "finalizing" message (callback throws) or the "could not be processed" message (emulated decline) |
| Payment.PaymentModal.constructor | components/PaymentEmulationModal.tsx:37-45 | the initial state: form step, no error, dummy card `1812 3456 7890 1234`, `12/25`, CVV `871`, name prefilled from the sender |
| Payment.PaymentModal.Mount | components/PaymentEmulationModal.tsx:47-58 | the effect's first run: an open modal is reset to the form with no error, the dummy card, CVV `158` and the sender's name; a closed one is left alone |
| Payment.PaymentModal.PropsChanged | components/PaymentEmulationModal.tsx:47-58 | new props reset an open modal as on mount only when `isOpen` or the sender's name changed; otherwise the props are swapped and the card fields, step and error are kept |
| Payment.PaymentModal.ChangeCardNumber | components/PaymentEmulationModal.tsx:197-204 | the field holds the formatted input |
| Payment.PaymentModal.ChangeExpiry | components/PaymentEmulationModal.tsx:224-230 | the field holds the formatted input |
| Payment.PaymentModal.ChangeCvv | components/PaymentEmulationModal.tsx:249-251 | the field holds the formatted input |
| Payment.PaymentModal.ChangeCardholderName | components/PaymentEmulationModal.tsx:180 | the field holds the input |
| Payment.PaymentModal.HandleDummyPayment | components/PaymentEmulationModal.tsx:64-69 | a no-op while processing; otherwise processing with the error cleared |
| Payment.PaymentModal.ResumePayment | components/PaymentEmulationModal.tsx:71-95 | the step and the error follow `PaymentOutcome`, and a success leaves the error as it was; the oldest pending submission finishes, and on emulated success the callback gets the tribute data that submission captured; a success starts the auto-close timer; a "failed" step always has an error |
| Payment.PaymentModal.CloseTimerElapsed | components/PaymentEmulationModal.tsx:80-82 | the auto-close timer calls `onClose` |
| Payment.PaymentModal.TryAgain | components/PaymentEmulationModal.tsx:144 | "Try Again" returns to the form without clearing the error, which the form then shows |
| Payment.PaymentModal.Cancel | components/PaymentEmulationModal.tsx:149-150 | "Cancel" calls `onClose` |
| Payment.PaymentModal.CloseEnabled | components/PaymentEmulationModal.tsx:282-285 | the close button is enabled unless a payment is processing |
| Payment.PaymentModal.CloseClicked | components/PaymentEmulationModal.tsx:282-285 | the close button calls `onClose` unless a payment is processing |
| Payment.PaymentModal.FormShowsError | components/PaymentEmulationModal.tsx:264 | in a reachable state the form repeats the error exactly when it is open on the form step with an error set, and that error is one of the two failure messages |
| Payment.PaymentModal.FailedMessage | components/PaymentEmulationModal.tsx:139-141 | in a reachable state the failed screen shows the set error, one of the two failure messages |
| FuneralHomeCallback.ValidationMessage | components/FuneralHomeCTAComponent.tsx:42-51 | a whitespace-only name gives "Please enter your name." whatever the phone; with a name, a whitespace-only phone gives the phone message; with both, no message |
| FuneralHomeCallback.ThankYouMessage | components/FuneralHomeCTAComponent.tsx:58-62 | the message begins "Thank you, <name>!" and contains "Thank you", the funeral home's name and the phone |
| FuneralHomeCallback.ShowForm | components/FuneralHomeCTAComponent.tsx:70-71 | `showForm`: any message that begins with "Thank you" hides the form |
| FuneralHomeCallback.ErrorShown | components/FuneralHomeCTAComponent.tsx:136-137 | the red message appears only with the form |
| FuneralHomeCallback.SuccessShown | components/FuneralHomeCTAComponent.tsx:189 | the success panel shows exactly when the form does not |
| FuneralHomeCallback.ValidationMessagesKeepForm | components/FuneralHomeCTAComponent.tsx:136-141 | both validation messages keep the form visible and are shown as errors |
| FuneralHomeCallback.ThankYouHidesForm | components/FuneralHomeCTAComponent.tsx:189 | the thank-you message hides the form and shows the success panel |
| FuneralHomeCallback.CallbackForm.constructor | components/FuneralHomeCTAComponent.tsx:15-27 | props default to "Our Partner Funeral Services" and `""`; the phone is empty, the name is the default, there is no message, and nothing is submitting |
| FuneralHomeCallback.CallbackForm.PropsChanged | components/FuneralHomeCTAComponent.tsx:15-36 | new props take the funeral home's name as given; an open form's name, phone, message and submitting flag are reset only when `isOpen` or `defaultUserName` changed, and are kept otherwise |
| FuneralHomeCallback.CallbackForm.EditName | components/FuneralHomeCTAComponent.tsx:112 | the field holds the input |
| FuneralHomeCallback.CallbackForm.EditPhone | components/FuneralHomeCTAComponent.tsx:128 | the field holds the input |
| FuneralHomeCallback.CallbackForm.HandleRequestCallback | components/FuneralHomeCTAComponent.tsx:38-53 | the old message is cleared and replaced by the check's message; a rejected request starts nothing; an accepted one is submitting, with the entries captured |
| FuneralHomeCallback.CallbackForm.ResumeCallback | components/FuneralHomeCTAComponent.tsx:54-63 | after the pause the thank-you message for the captured entries replaces the form, and submitting ends |

## Left out

- All markup, styling and static content. This covers the `AboutContent`
  text, the favourites data, the header, and the tribute card, feed, input
  and confirmation components. This model keeps only the record shapes of
  the card and the input.
- Time. Every `setTimeout` pause and timer is an atomic step (`ResumeX`,
  `ToastTimerElapsed`, `CloseTimerElapsed`). Nothing is said about when a
  step happens.
- The server-side branches guarded by `typeof window !== "undefined"`.
  Effects and handlers run only in the browser. On the server, `load`
  returns `[]`, `save` does nothing, and the login's resume shows the
  "check your connection" error. None of these are modelled.
- `JSON.parse` and `JSON.stringify` as text. A slot holds an
  already-decoded value. This model does not parse text, and has no
  record whose fields have other JSON types.
- Browser I/O beyond the storage map. The texts of `console.error`,
  `console.log` and `alert` are not modelled (only the fact that an alert
  was shown), and neither is the `router` beyond the navigation requested.
- Text.Lower: lower-cases ASCII only; `toLowerCase` on other letters is not
  modelled.
- Tributes' timestamps are integers. `Number(tribute.timestamp)` is
  then the identity. Non-numeric timestamps, `NaN` comparisons and
  floating point are not modelled.
- TributeWall.TributePage.deceasedFullName: the page holds the deceased's
  name as a constant fixed to "Lerato Nomvula Mnguni" when the page is
  built. The proofs hold for any name. This model does not derive the
  concrete key string `tributeWall_tributes_lerato_nomvula_mnguni`.
- The commented-out sign-out and clear-all handlers of app/page.tsx. They
  are dead code.
- Seed-record merging, de-duplication by id, and saving only
  user-created records. app/page.tsx sets the loaded list as it is
  (line 270) and saves the whole list (line 297); nothing merges seed
  records or de-duplicates by id.
- The HTML `required` attribute on the login, callback and payment
  inputs. The browser refuses to submit an empty field before any
  handler runs. The handlers are modelled as if called directly, so their
  own checks are what the model states.
- `maxLength` on the payment inputs, a limit the browser applies before
  the formatters run. The formatters' own bounds already hold without it.
- The payment modal's rendering of nothing while closed, and its item
  and amount labels.
