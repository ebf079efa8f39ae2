# ParentGlue front end: client-side decision logic in Dafny

This project models the decision code of the ParentGlue web client. That
code runs inside React event handlers, one event at a time, over small
finite state. Network calls are opaque outcomes passed to the handlers.

- **`Autocomplete`** (`autocomplete.dfy`) models the city autocomplete
  `LocationInput`. It is the main part of the model. Class `LocationInput`
  has the component's state cells (`query`, `suggestions`, `isOpen`,
  `isLoading`, `highlightedIndex`). It also has:
  - the pending debounce timer, with the query it will fetch;
  - every issued fetch, each with an `aborted` and a `settled` flag;
  - the host-owned `value`;
  - a log of `onChange` calls.

  Each event is one method: `Type`, `TimerFires`, `Complete`, `KeyDown`,
  `ClickOutside`, `Focus`, `Hover`, `PointerSelect`, `ValuePropChanged` and
  `Unmount`. `Valid()` is the invariant that every event preserves:
  - the highlight is never below -1 and, while the list is non-empty, is -1
    or an index of it;
  - the list is open only when it has entries;
  - a query shorter than 2 UTF-16 code units (JavaScript's `length`) never
    reaches the timer or the network;
  - every fetch asks for 8 results;
  - every fetch except the newest is aborted;
  - while a timer is pending, every fetch is aborted;
  - after unmount, no timer is pending and no fetch can still apply.
- **`Onboarding`** models the three-step wizard: the form, `updateForm`,
  Continue/Back, the disabled predicate, the button label, the payload
  split and submit state.
- **`Resources`** models the resources page: the category filter, badge
  styles and text, contact links, the single-expanded toggle, the detail
  sections and the outcome of the initial load.
- **`Contact`** models `ContactButton`: the lead type, the action taken
  once the lead is recorded, URL normalisation, the reveal flag and the
  labels.
- **`ProviderSearch`** models the provider-search page: its initial
  criteria from the URL, the mount-time search, `handleSearch`, the heading
  and which result panel is shown.
- **`ProviderCard`** models the provider card as a value: the type label,
  at most three specialties plus "+N more", the conditional badges and
  buttons, and the profile link.
- **`Text`** and **`Options`** are shared helpers: `startsWith`, digit
  tests, the two `replace` calls, decimal rendering of numbers, URL
  normalisation, JavaScript's string `length` in UTF-16 code units
  (`JsLength`), and an option type.

Methods with names such as `BurstFetchesLastQuery`, `LateAnswerIsInert`,
`EnterWithoutHighlightIsIgnored`, `ArrowDownThenEnterCommits`,
`AstralCharacterIsSearched`, `PhoneRevealScenario`,
`FailedLoadShowsEmptyPage` and `OnePanelAfterFailedSearch` are client
scenarios. Each one drives a
component through a sequence of events and asserts the outcome, using only
the method contracts.

### Where the code differs from a textbook autocomplete (the model follows the code)

- **Staleness.** A textbook autocomplete uses a generation counter. The
  code has none. It aborts the previous `AbortController` on every keystroke
  (components/LocationInput.tsx:50) and on unmount
  (components/LocationInput.tsx:156). An aborted completion takes the
  `AbortError` branch. In the model, staleness is the `aborted` flag of a
  request. `Valid()` proves that only the newest request can be un-aborted.
  `Complete` proves that an aborted completion never changes `suggestions`,
  `isOpen` or `highlightedIndex`.
- **Loading flag.** An aborted completion still clears `isLoading`. This
  holds even while a newer debounce timer is pending, so the spinner can
  disappear during the debounce window.
- **Null value.** A `null` value does not clear the text. The sync effect
  only copies a non-empty `display` (components/LocationInput.tsx:161-166).
- **Highlight after a commit.** The highlight is not reset whenever the
  list is replaced. A commit or a failed fetch empties the
  list but leaves `highlightedIndex` as it was. The invariant still holds,
  because it only constrains the highlight while the list is non-empty.

## Model

| member | source | states |
|---|---|---|
| `Autocomplete.DisplayLabel` | components/LocationInput.tsx:102 | the committed text is the city, then ", ", then the state code, and nothing else |
| `Autocomplete.Selection` | components/LocationInput.tsx:97-103 | the selection sent to the host copies city, state and state name from the suggestion, and its display is "city, state" |
| `Autocomplete.ArrowDownIndex` | components/LocationInput.tsx:115-120 | ArrowDown never moves the highlight up; from any index in [-1, len-1] it goes to min(index+1, len-1), so it holds at the end and does not wrap |
| `Autocomplete.ArrowUpIndex` | components/LocationInput.tsx:121-124 | ArrowUp never moves the highlight down; from index ≥ 0 it goes to max(index-1, 0); it leaves the highlight unchanged exactly when it is 0 or -1 |
| `Autocomplete.NavigateStaysInRange` | components/LocationInput.tsx:112-124 | after any sequence of keys on an open list, a highlight that started in [-1, len-1] is still in [-1, len-1] |
| `Autocomplete.ArrowDownHoldsAtEnd` | components/LocationInput.tsx:117-119 | n presses of ArrowDown from i give min(i+n, len-1) |
| `Autocomplete.ArrowUpHoldsAtTop` | components/LocationInput.tsx:123 | n presses of ArrowUp from i ≥ 0 give max(i-n, 0); from -1 the highlight stays -1 |
| `Autocomplete.AbortLatest` | components/LocationInput.tsx:50 | aborting the current controller marks the newest request aborted, keeps every earlier abort, and changes no query |
| `Autocomplete.AbortLatestQuiets` | components/LocationInput.tsx:50 | after the abort of a well-formed fetch log (`WellFormedLog`) the log is still well formed and no fetch can still apply its answer (`AllAborted`) |
| `Autocomplete.LocationInput.constructor` | components/LocationInput.tsx:36-44 | the text starts as the value's non-empty display, else ""; the list is empty and closed, nothing is loading or pending, and the highlight is -1 |
| `Autocomplete.LocationInput.Search` | components/LocationInput.tsx:47-82 | the pending timer is dropped and the current fetch is aborted; a query under 2 UTF-16 code units (JavaScript's `length`) empties and closes the list, stops loading and schedules nothing; a longer query sets loading and becomes the only pending timer; nothing else changes (the whole new state is `AfterSearch` of the old one) |
| `Autocomplete.LocationInput.Type` | components/LocationInput.tsx:85-94 | the text becomes the typed text; `onChange(null)` is logged exactly when a value is held and the text differs from its display; then the search effects follow (`AfterSearch`, with the 2-code-unit threshold); nothing else changes |
| `Autocomplete.LocationInput.TimerFires` | components/LocationInput.tsx:61-67 | the fired timer's query (at least 2 UTF-16 code units) is fetched with limit 8 and a fresh, un-aborted controller; nothing else changes |
| `Autocomplete.LocationInput.Complete` | components/LocationInput.tsx:63-80 | only the newest fetch can complete un-aborted; an aborted completion only clears loading; a list becomes `suggestions` in received order, opens iff non-empty and sets the highlight to -1; an HTTP or network error empties and closes the list; loading stops on every path |
| `Autocomplete.LocationInput.Commit` | components/LocationInput.tsx:97-108 | the text becomes "city, state", the host is sent the full selection, the list closes and empties, and the highlight is left unchanged |
| `Autocomplete.LocationInput.KeyDown` | components/LocationInput.tsx:111-135 | keys do nothing unless the list is open and non-empty (`ListVisible`); the arrows only move the highlight; Enter commits iff 0 ≤ highlight < len and is a no-op at -1; Escape only closes |
| `Autocomplete.LocationInput.ClickOutside` | components/LocationInput.tsx:139-146 | an outside mousedown sets only `isOpen` to false |
| `Autocomplete.LocationInput.Focus` | components/LocationInput.tsx:179-181 | after focus the list is open iff there are suggestions; nothing else changes |
| `Autocomplete.LocationInput.Hover` | components/LocationInput.tsx:199 | hovering an entry of the visible list (`ListVisible`) makes it the highlight and changes nothing else |
| `Autocomplete.LocationInput.PointerSelect` | components/LocationInput.tsx:198 | clicking an entry of the visible list (`ListVisible`) commits it, whatever the highlight |
| `Autocomplete.LocationInput.ValuePropChanged` | components/LocationInput.tsx:161-166 | when `value?.display` changed and the new display is non-empty, it becomes the text; otherwise the text stays; a null value never changes the text |
| `Autocomplete.LocationInput.Unmount` | components/LocationInput.tsx:153-158 | unmount leaves no pending timer and every request aborted, so no later completion can change the list |
| `Onboarding.WithField` | app/onboarding/page.tsx:56-57 | exactly the named field takes the new value; every other field keeps its value |
| `Onboarding.PayloadOf` | app/onboarding/page.tsx:80-95 | the three groups together hold the whole form (the form can be read back from them); the diagnosis date is sent as absent exactly when it is empty |
| `Onboarding.ContinueDisabled` | app/onboarding/page.tsx:359-364 | Continue is always disabled while loading; on step 1 it is also disabled while the name or the date of birth is empty; on steps 2 and 3, or once both are filled in, it is disabled exactly while loading |
| `Onboarding.ButtonLabel` | app/onboarding/page.tsx:367 | the label is "Loading..." iff loading, "See My Timeline" iff not loading at step 3, and "Continue" iff not loading at steps 1 or 2 |
| `Onboarding.Wizard.constructor` | app/onboarding/page.tsx:41-54 | the wizard starts at step 1 with the initial form, not loading and with no error |
| `Onboarding.Wizard.UpdateForm` | app/onboarding/page.tsx:56-59 | the named field changes, all other fields stay, the error is cleared, and the step and loading flag are unchanged |
| `Onboarding.Wizard.Submit` | app/onboarding/page.tsx:75-95 | loading becomes true, the error clears, and the payload of the current form is sent |
| `Onboarding.Wizard.Next` | app/onboarding/page.tsx:61-67 | from steps 1 and 2 the step increases by one and nothing is sent; at step 3 the form is submitted and the step stays 3 |
| `Onboarding.Wizard.Back` | app/onboarding/page.tsx:69-73 | the step decreases by one when above 1 and is unchanged at 1 |
| `Onboarding.Wizard.SubmitFinished` | app/onboarding/page.tsx:97-110 | the answer belongs to a submission that was sent (`Valid()`: loading only after a submission); success redirects to /timeline; failure sets "Something went wrong. Please try again."; loading is false in both outcomes |
| `Resources.WithCategory` | app/resources/page.tsx:36 | the result holds exactly the resources of the category, and no more entries than the input |
| `Resources.WithCategoryConcat` | app/resources/page.tsx:36 | filtering distributes over concatenation, so the kept resources stay in their original order |
| `Resources.Visible` | app/resources/page.tsx:35-37 | with no active category (null or "") every resource is shown; otherwise exactly those of that category, in their original order and with their multiplicity (the `WithCategory` filter) |
| `Resources.CategoryStyle` | app/resources/page.tsx:39-51 | for each badge style, the exact set of categories that get it; every unknown category gets "badge-rc" |
| `Resources.CategoryLabel` | app/resources/page.tsx:139 | the badge text is the category with every underscore replaced by a space: the same length, a space wherever the category has an underscore, no underscore left, and every other character kept |
| `Resources.ContactHref` | app/resources/page.tsx:206-212 | every contact link is an http(s) or `tel:` link; a `tel:` link carries only digits; a contact starting with a digit becomes `tel:` plus its digits, and any other contact gets the same normalisation as a website link |
| `Resources.Toggle` | app/resources/page.tsx:130-134 | a click expands the resource iff it was not the expanded one; at most that one resource is expanded afterwards |
| `Resources.DetailSections` | app/resources/page.tsx:146-247 | each detail section appears iff its field is present and non-empty, and the sections come in page order (quick facts, tips, key contacts, timeline), none twice |
| `Resources.ResourcesPage.constructor` | app/resources/page.tsx:8-14 | the page starts loading with empty lists, no active category and nothing expanded; the lists stay empty while loading |
| `Resources.ResourcesPage.LoadFinished` | app/resources/page.tsx:20-33 | both lists are stored only when both loads succeed; a failure leaves them empty, because the lists are empty while loading; loading becomes false in both cases |
| `Resources.ResourcesPage.SelectCategory` | app/resources/page.tsx:79-100 | a chip sets the active category (or none for "All"), changes nothing else and keeps the lists-empty-while-loading invariant |
| `Resources.ResourcesPage.ClickResource` | app/resources/page.tsx:130-134 | the clicked resource is expanded iff it was not expanded before |
| `Contact.LeadType` | components/providers/ContactButton.tsx:18 | phone ↔ "phone_reveal", website ↔ "website_click", booking ↔ "booking_click", email ↔ "contact_click", each in both directions |
| `Contact.ActionFor` | components/providers/ContactButton.tsx:24-31 | a tracked click always acts: phone reveals; website and booking open the normalised URL, which is the value itself if it starts with "http" and "https://" plus the value otherwise; email navigates to "mailto:" plus the value |
| `Contact.Label` | components/providers/ContactButton.tsx:40-45 | a phone button reads "Show Phone" until revealed and then the number; email reads "Email", website "Website" and booking "Book Consult" |
| `Contact.ContactButton.constructor` | components/providers/ContactButton.tsx:14-15 | a new button is not revealed and has recorded no lead |
| `Contact.ContactButton.Rendered` | components/providers/ContactButton.tsx:49-72 | a `tel:` link showing the number is rendered iff a phone button is revealed; otherwise the button with its label |
| `Contact.ContactButton.Click` | components/providers/ContactButton.tsx:17-31 | the lead is recorded on every click; the action happens only if tracking resolves; `revealed` becomes true only for a tracked phone click |
| `ProviderCard.TypeLabel` | components/providers/ProviderCard.tsx:22-44 | a known provider type shows its display name; any other type shows the raw type |
| `ProviderCard.ShownSpecialties` | components/providers/ProviderCard.tsx:68 | at most 3 specialties are shown: the first min(len, 3), in order |
| `ProviderCard.HiddenCount` | components/providers/ProviderCard.tsx:78 | the shown and hidden specialties together make up the whole list; some are hidden iff there are more than 3 |
| `ProviderCard.MoreNote` | components/providers/ProviderCard.tsx:76-80 | "+N more" is present iff there are more than 3 specialties, with N the number hidden |
| `ProviderCard.ProfileHref` | components/providers/ProviderCard.tsx:37 | the profile link is "/provider/" followed by the id's decimal text (no leading zero); those digits read back as the id, so different providers get different links |
| `ProviderCard.View` | components/providers/ProviderCard.tsx:33-108 | the Verified and Accepting Clients badges appear iff their flags are true; the specialties block appears iff the list is present and non-empty; the phone and website buttons appear iff those fields are non-empty; both links go to the profile |
| `Text.DigitsOnly` | app/resources/page.tsx:210 | the result holds only digits and is no longer than the input; an all-digit input is kept whole; an input without digits gives "" |
| `Text.DigitsOnlyConcat` | app/resources/page.tsx:210 | removing non-digits distributes over concatenation, so every digit is kept, in order |
| `Text.ReplaceChar` | app/resources/page.tsx:139 | every occurrence of the character is replaced, and every other character and the length are unchanged |
| `Text.JsLength` | components/LocationInput.tsx:52 | `q.length` counts UTF-16 code units: at least one and at most two per character |
| `Text.JsLengthBmp` | components/LocationInput.tsx:52 | the code-unit length equals the character count exactly when every character lies in the Basic Multilingual Plane |
| `Text.JsLengthConcat` | components/LocationInput.tsx:52 | code-unit lengths add up over concatenation |
| `Text.NatToString` | app/search/page.tsx:138 | a number is rendered as a non-empty string of digits with no leading zero |
| `Text.ParseNatToString` | components/providers/ProviderCard.tsx:37 | reading a rendered number back gives the number |
| `Text.NormalizeUrl` | components/providers/ContactButton.tsx:27 | the link always starts with "http"; a value that already starts with "http" is kept as it is; any other value is prefixed with "https://" |
| `Text.NormalizeUrlIdempotent` | components/providers/ContactButton.tsx:27 | normalising an already normalised link changes nothing |
| `ProviderSearch.Param` | app/search/page.tsx:12-14 | a missing URL parameter reads as "" and a present one as its value |
| `ProviderSearch.AutoSearchIffSearchable` | app/search/page.tsx:19-23 | the mount-time search (`AutoSearch`) runs iff the criteria taken from the URL would pass `handleSearch`'s own check (`Searchable`) |
| `ProviderSearch.Heading` | app/search/page.tsx:138 | the heading is the count, then " provider found" when the count is 1 and " providers found" otherwise |
| `ProviderSearch.ExactlyOnePanel` | app/search/page.tsx:113-149 | in every reachable state exactly one panel (`Panels`) is shown; the spinner shows iff loading and the intro iff no search has started |
| `ProviderSearch.SearchPage.constructor` | app/search/page.tsx:11-23 | the criteria come from the URL parameters ("" if absent); the search starts at mount iff all three parameters are present and non-empty (`AutoSearch`) |
| `ProviderSearch.SearchPage.EditCity` | app/search/page.tsx:70 | only the city changes |
| `ProviderSearch.SearchPage.EditState` | app/search/page.tsx:78 | only the state changes |
| `ProviderSearch.SearchPage.EditProviderType` | app/search/page.tsx:90 | only the provider type changes |
| `ProviderSearch.SearchPage.Search` | app/search/page.tsx:25-30 | a search starts iff all three criteria are non-empty (`Searchable`); if it starts, loading and searched are set and the current criteria are sent; otherwise nothing changes |
| `ProviderSearch.SearchPage.SearchFinished` | app/search/page.tsx:29-36 | an answer replaces the list (a missing list reads as empty); a failure keeps the list; loading is false afterwards |

## Left out

- Network I/O is not modelled: `fetch`, `res.json()`, the URL built with
  `encodeURIComponent`, and the `ApiClient` in lib/api.ts with the
  implementations of `searchProviders`, `trackLead`, `completeOnboarding`,
  `getResources` and `getResourceCategories`. Some calls are logged:
  - the autocomplete fetches in `LocationInput.requests`;
  - `completeOnboarding` in `Wizard.submissions`;
  - `searchProviders` in `SearchPage.calls`;
  - `trackLead` in `ContactButton.leads`.

  The end of each logged call is an outcome parameter of a later event.
  The resources load keeps no call log. It is only the outcome parameter
  of `ResourcesPage.LoadFinished`.
- Real time and real cancellation are not modelled. `setTimeout` and
  `clearTimeout` become the pending-timer slot. `AbortController` becomes
  the request's `aborted` flag, which an aborted fetch always honours.
- Autocomplete.LocationInput.Complete: the model treats a fetch's completion
  as one event. An abort between the response and the end of `res.json()`
  is the same as an abort before the response.
- React's handling of writes after unmount is not modelled. After
  `Unmount`, `Complete` still clears the `isLoading` field of the model,
  where React would drop the write.
- Floating-point display is not modelled: the population "x.xM" badge
  (`toFixed`) and the onboarding progress-bar width.
- Browser side effects are not modelled: `localStorage`, `console`,
  `window.open`, `window.location` and document listener registration.
  What remains of them is the decision: the redirect path, the URL opened
  or navigated to, and whether an action happens at all.
- Contact.ContactButton.Click: the model treats the click and the
  resolution of `trackLead` as one event. Two clicks that interleave while
  tracking is pending are not modelled.
- `styles[category] || "badge-rc"` and `typeLabels[t] || t` are modelled
  as map lookups with a fallback. Keys inherited from `Object.prototype`
  (such as "constructor") would return a function in JavaScript. The model
  does not cover that case.
- The onboarding form's enumerated fields (diagnosis, regional-center,
  school and insurance status) are carried as plain strings.
- The key contacts of a resource are a map, so their on-screen order (the
  insertion order of `Object.entries`) is not modelled. Each contact's link
  is modelled by `ContactHref`.
- Provider ids are natural numbers.
- Static and presentational code is not part of this model: app/page.tsx,
  app/layout.tsx, components/providers/ClaimBanner.tsx, the county, state
  and provider-type option lists, CSS, SVG and markup.
