# a-consent: the consent state machine

This project models the `AConsent` custom element (`<a-consent>`), a cookie-consent
form that reports the user's choices to Google's gtag consent API and keeps them in
`localStorage`. It covers:

- the eight private consent fields, two of which are derived from the others
  (`#userDataStorage`, behind `ad_user_data`, is set iff ad tracking or ad
  personalization is; `#securityStorage` iff `functional` is not false);
- the property setters with their input coercion: strings are lower-cased, then `false`
  and "false" clear a flag and anything else sets it; `functional` also accepts
  "required"; `force` compares case-sensitively; `expire` applies unary plus;
- the `choices()` projection, which is both the gtag `consent update` payload and the
  persisted record;
- the persistence adapter `#localDataGet` / `#localDataSet` / `#localDataRemove`,
  including expiry;
- `connectedCallback`'s decision to render the form, `init`'s seeding of the checkboxes,
  the `processInput` change handler, `submitChoices` with `#updateConsent`, and
  `resetConsent`.

Modules:

- `Wrappers`: `Option` and `Result`.
- `Coercion`: JavaScript values reaching a setter, lower-casing, and unary plus.
- `ConsentState`: the flags, the form inputs, the `choices()` projection and each flag
  setter as a function on a `Widget` (flags plus the optional form).
- `ConsentStore`: what `localStorage` holds under a key, and `Store`, a class whose
  methods are the three adapter operations. Each method is proved against the functions
  `Lookup`, `AfterLookup` and `Put`.
- `ConsentController`:
  - `AConsent`, a class with the element's fields. Its setter methods are each proved
    equal to the matching `ConsentState` function.
  - The pure specifications of `processInput` (`ProcessEvent`) and `init` (`InitFrom`).
  - `Run`, which applies any sequence of attribute changes and change events. Lemmas
    over `Run` prove invariants of the whole state machine.

The clock (`Date.now()`) is a parameter `now` in epoch milliseconds. The gtag function is
a `Reporter` object that either throws or records its calls. A `setItem` that throws
(quota exceeded) is the `full` flag of a `Store`. Where the element sits in the document
(outside any dialog, in a dialog of the main document, or in a dialog inside an
`a-consent-edit` shadow root) is the `Dialog` parameter of the submit path.
A change event carries its input's id, `type` and `checked` state as a `Target`, and
`checked` is a free parameter there. The browser's own toggling of an input and the
mutual exclusion of the two radios are not modelled, so in a `Run` the radio inputs
are never checked.

Where the code and its documentation or tests disagree, the model follows the code:

- `#debug` is hard-coded to `true` in `src/a-consent.js:54`, so untrusted events are
  accepted. The model makes it a constructor parameter so that the `SecurityError` path
  can be stated; with the value the source ships, that path is never taken.
- The `functional` setter is not sticky. Any value replaces "required", and no value
  clears the checkbox's `disabled` (`FunctionalSetterIsNotSticky`).
  `tests/unit-tests.js:438-441` expects `disabled` to become false again.
- Only trusted events uncheck the two radios (`UntrustedChangeKeepsRadios`).
  `tests/unit-tests.js:589-596` dispatches untrusted events and expects the radios to be
  cleared.
- `init` copies a saved record into the checkboxes only. The flags keep their defaults,
  so a forced redisplay followed by an unchanged submit reports the defaults, not what
  the form showed (`ForcedRedisplayShowsRecordNotFlags`).
- `init` disables the functionality checkbox whenever `functional` is "required", which
  is its default. `tests/unit-tests.js:344-361` redisplays a saved record with
  functionality denied and expects the checkbox enabled (line 361). `InitFrom` disables
  it, because the flags, not the record, decide.
- The `grantAll` and `denyAll` setters write only private fields. Unlike the doc comment
  before them, they do not update the checkboxes.

## Model

| member | source | states |
|---|---|---|
| Coercion.ToLower | src/a-consent.js:1065 | lower-casing keeps the length and lowers each character |
| Coercion.ToLowerIdempotent | src/a-consent.js:1065 | lower-casing twice is lower-casing once |
| Coercion.LowerCaseUnchanged | src/a-consent.js:1065 | a string without upper-case letters is its own lower case |
| Coercion.SwitchesOffIff | src/a-consent.js:991-1003 | a flag setter clears its flag exactly for `false` or a five-letter string spelling "false" in any case |
| Coercion.SwitchesOffExamples | src/a-consent.js:991-1003 | null (a removed attribute), "", 0, `true` and "no" set a flag; "FALSE", "False" and `false` clear it |
| Coercion.ForceIsCaseSensitive | src/a-consent.js:1046-1055 | "FALSE" sets `force` but clears a consent flag |
| Coercion.ToNumber | src/a-consent.js:1022 | unary plus: numbers unchanged; null, `false` and "" give 0; `true` gives 1; a string without a leading minus never gives a negative number |
| Coercion.DigitsValueOfDecimal | src/a-consent.js:1022 | the digit value of a decimal rendering is the number rendered |
| Coercion.ToNumberOfDecimal | src/a-consent.js:1022 | unary plus reads every decimal numeral as its value and a minus sign before one as its negation |
| Coercion.ToNumberExamples | src/a-consent.js:1022 | "180" is 180, "-2" is -2, "abc" and "-" are NaN |
| ConsentState.Choices | src/a-consent.js:523-532 | the projection has exactly the six gtag keys, each "granted" or "denied" |
| ConsentState.GrantedReadsChoices | src/a-consent.js:523-532 | reading "granted" back from the projection recovers each flag, with `functional` read as "not false" |
| ConsentState.ChoicesDetermineConsent | src/a-consent.js:523-532 | on consistent flags, two projections are equal iff the four optional flags agree and `functional` agrees on "not false" |
| ConsentState.Defaults | src/a-consent.js:63-133 | the initial fields are consistent, `functional` is "required", and the projection denies the four optional types and grants functionality and security |
| ConsentState.SetAnalytics | src/a-consent.js:990-1004 | only the analytics flag changes, to the coerced value; the checkbox follows; consistency is kept |
| ConsentState.SetAdTracking | src/a-consent.js:967-983 | the ad tracking flag becomes the coerced value; only it and the user-data flag change; consistency is kept; the checkbox follows |
| ConsentState.SetAdPersonalization | src/a-consent.js:944-959 | the mirror image of the ad tracking setter |
| ConsentState.FunctionalOf | src/a-consent.js:1065-1086 | the `functional` setter gives false exactly for `false` and any spelling of "false" |
| ConsentState.FunctionalOfIff | src/a-consent.js:1065-1086 | the `functional` setter gives "required" exactly for an eight-letter string spelling "required" in any case, and `true` for every other value that is not false |
| ConsentState.FunctionalOfUpperCase | src/a-consent.js:1065-1073 | "REQUIRED" gives "required" |
| ConsentState.FunctionalOfOtherValues | src/a-consent.js:1081-1085 | `true`, "yes" and null give `true`, not "required" |
| ConsentState.SetFunctional | src/a-consent.js:1063-1087 | `functional` becomes the coerced value; only it and the security flag change; consistency is kept; the checkbox is checked iff not false and is disabled once "required" is set |
| ConsentState.AdTrackingChoices | src/a-consent.js:967-983 | on consistent flags, the ad tracking setter changes only `ad_storage`, to the coerced value, and `ad_user_data`, to "it or ad personalization" |
| ConsentState.AdPersonalizationChoices | src/a-consent.js:944-959 | on consistent flags, the ad personalization setter changes only `ad_personalization` and `ad_user_data`, symmetrically |
| ConsentState.FunctionalChoices | src/a-consent.js:1063-1087 | the `functional` setter changes only `functionality_storage` and `security_storage`, both to the coerced value |
| ConsentState.SetGrantAll | src/a-consent.js:889-908 | a non-false value grants every type, clears `denyAll` and keeps a required `functional`; `false` clears only `grantAll`; the checkboxes are untouched |
| ConsentState.SetDenyAll | src/a-consent.js:916-936 | a non-false value denies the four optional types, clears `grantAll` and keeps a required `functional`; `false` clears only `denyAll`; the checkboxes are untouched |
| ConsentState.GrantAllGrantsEverything | src/a-consent.js:897-906 | after a non-false `grantAll`, all six types are granted |
| ConsentState.DenyAllChoices | src/a-consent.js:925-934 | after a non-false `denyAll`, the projection denies five types, and grants functionality and security exactly when `functional` was "required" |
| ConsentState.RequiredSurvivesDenyAll | src/a-consent.js:931-934 | "required" followed by deny-all keeps functionality and security granted |
| ConsentState.FunctionalSetterIsNotSticky | src/a-consent.js:1064-1072 | the `functional` setter itself turns "required" off, and the checkbox stays disabled |
| ConsentState.UserDataTruthTable | src/a-consent.js:944-983 | in either order, the two ad setters leave `ad_user_data` equal to "tracking or personalization" |
| ConsentStore.Lookup | src/a-consent.js:680-702 | a read returns a record iff the key holds parseable JSON that has not expired, and returns that record |
| ConsentStore.AfterLookup | src/a-consent.js:680-702 | a read removes a corrupt or expired entry and changes nothing else |
| ConsentStore.Stamp | src/a-consent.js:733-735 | a truthy `expiry` is kept; a missing or zero one becomes `now + days` days |
| ConsentStore.Put | src/a-consent.js:728-742 | a write without `analytics_storage`, or one that throws, leaves storage unchanged; otherwise only the named key changes, to the stamped record |
| ConsentStore.Store.LocalDataGet | src/a-consent.js:680-702 | returns `Lookup` and leaves `AfterLookup` in storage |
| ConsentStore.Store.LocalDataSet | src/a-consent.js:728-742 | leaves `Put` in storage |
| ConsentStore.Store.LocalDataRemove | src/a-consent.js:711-717 | removes exactly the named key |
| ConsentStore.LookupIdempotent | src/a-consent.js:680-702 | reading twice is reading once, for both the result and the storage |
| ConsentStore.ExpiredStaysInvisible | src/a-consent.js:688-692 | once a read finds the record expired or corrupt, every later read is null and the key stays absent |
| ConsentStore.AbsentStaysAbsent | src/a-consent.js:680-682 | reads never create an entry |
| ConsentStore.SetThenGet | src/a-consent.js:728-742 | a consent record written without an expiry reads back, stamped, at any time up to `now + days` days, and reads null after that |
| ConsentStore.SetKeepsExpiry | src/a-consent.js:735 | a record that already has a truthy expiry keeps it when written |
| ConsentStore.RemoveThenGet | src/a-consent.js:711-717 | after a remove a read finds nothing; removing twice is removing once |
| ConsentController.AttributeOf | src/a-consent.js:190-200 | exactly the nine observed attributes are forwarded |
| ConsentController.ApplyAttribute | src/a-consent.js:501-505 | a forwarded attribute keeps the flags consistent, and only `functional` can move a required `functional` |
| ConsentController.InitFrom | src/a-consent.js:655-671 | the checkboxes show the saved record when there is one and otherwise mirror the flags; "required" disables functionality; the radios are untouched |
| ConsentController.Dispatch | src/a-consent.js:764-809 | per input id: a checked consent-all radio sets the three optional flags and user data, and turns a non-required `functional` on; a checked deny-all radio clears them and turns a non-required `functional` off; each checkbox sets exactly its flag (and user data or security) to `checked`; the functionality checkbox is ignored while "required"; an unchecked radio or any other id changes nothing; consistency and a required `functional` are kept; the radios are untouched |
| ConsentController.ProcessEvent | src/a-consent.js:754-812 | a non-event is a TypeError; an untrusted event outside debug mode is a SecurityError; no other failure exists except a trusted change before rendering; a trusted change on a checkbox unchecks both radios; consistency and a required `functional` are kept |
| ConsentController.RunKeepsConsistent | src/a-consent.js:890-1087 | any sequence of attribute changes and change events keeps the derived flags correct |
| ConsentController.FreshElementStaysConsistent | src/a-consent.js:63-133 | a new element is consistent after anything that happens to it |
| ConsentController.RequiredIsSticky | src/a-consent.js:804-808 | without a `functional` attribute change, no sequence of events or other attributes moves "required", and security stays granted |
| ConsentController.UncheckOneAdKeepsUserData | src/a-consent.js:786-803 | unchecking one ad checkbox while the other is checked keeps `ad_user_data` granted |
| ConsentController.AdScenario | tests/unit-tests.js:573-581 | check tracking, check personalization, uncheck tracking: `ad_user_data` is granted after each step |
| ConsentController.ConsentAllRadioGrantsEverything | src/a-consent.js:765-773 | on consistent flags, the consent-all radio grants all six types |
| ConsentController.DenyAllRadioDeniesEverything | src/a-consent.js:774-782 | the deny-all radio denies all six types when `functional` is not "required" |
| ConsentController.UntrustedChangeKeepsRadios | src/a-consent.js:758-762 | an untrusted change, accepted in debug mode, leaves both radios as they were |
| ConsentController.ExpireRefreshesRecord | src/a-consent.js:1020-1039 | setting `expire` on a live record moves its expiry to `now + days` days and keeps its fields |
| ConsentController.ExpireKeepsRecordWithoutConsentData | src/a-consent.js:729-731 | a live record without consent data is refused by the write, so storage is unchanged |
| ConsentController.ExpireAsWritten | src/a-consent.js:1027-1028 | the setter as written removes a corrupt or expired record, as every read does |
| ConsentController.ExpireAsWrittenNeverRefreshes | src/a-consent.js:1027-1028 | with a live record, the setter as written throws and keeps the old expiry, where the intended setter moves it |
| ConsentController.ExpireAsWrittenThrowsOnLiveRecord | src/a-consent.js:1026-1028 | whenever a live record is stored, the setter as written throws and storage stays exactly as it was |
| ConsentController.NullExpiryIsForgotten | src/a-consent.js:688-692 | a record whose expiry was stored as `null` is expired at any positive time, so the next read removes it and returns null |
| ConsentController.ExpireAsWrittenAcceptsNaN | src/a-consent.js:1022-1025 | with no record, the setter as written stores NaN as the number of days |
| ConsentController.RenderIff | src/a-consent.js:469-472 | the form is rendered iff `force` is set or no live record is stored |
| ConsentController.SubmitThenReconnect | src/a-consent.js:857-862 | after a submit, reconnecting before expiry reads back the submitted choices and renders only if forced; after a reset it renders again |
| ConsentController.ForcedRedisplayShowsRecordNotFlags | src/a-consent.js:655-661 | a forced redisplay shows the saved record in the checkboxes, while the flags still project the defaults |
| ConsentController.ChoicesAreConsentData | src/a-consent.js:729 | every `choices()` projection passes the write's consent-data check |
| ConsentController.AConsent.constructor | src/a-consent.js:63-133 | the fields start at their declared defaults and no form exists |
| ConsentController.AConsent.SetAnalytics | src/a-consent.js:990-1004 | the element's new state is `ConsentState.SetAnalytics` of the old one; the other settings are unchanged |
| ConsentController.AConsent.SetAdTracking | src/a-consent.js:967-983 | the new state is `ConsentState.SetAdTracking` of the old one |
| ConsentController.AConsent.SetAdPersonalization | src/a-consent.js:944-959 | the new state is `ConsentState.SetAdPersonalization` of the old one |
| ConsentController.AConsent.SetFunctional | src/a-consent.js:1063-1087 | the new state is `ConsentState.SetFunctional` of the old one |
| ConsentController.AConsent.SetGrantAll | src/a-consent.js:889-908 | the new state is `ConsentState.SetGrantAll` of the old one |
| ConsentController.AConsent.SetDenyAll | src/a-consent.js:916-936 | the new state is `ConsentState.SetDenyAll` of the old one |
| ConsentController.AConsent.SetForce | src/a-consent.js:1045-1055 | `force` is cleared exactly by `false` and the exact string "false" |
| ConsentController.AConsent.SetEffect | src/a-consent.js:1010-1013 | `effect` is stored as given |
| ConsentController.AConsent.SetExpire | src/a-consent.js:1020-1039 | NaN changes nothing; a number re-stamps a live record with that many days and becomes `expire` |
| ConsentController.AConsent.AttributeChanged | src/a-consent.js:501-505 | an observed attribute reaches its setter; a flag attribute leaves the other settings and storage alone; `force` and `effect` change only themselves; `expire` with a number sets it and refreshes the record, and with NaN changes nothing; any other attribute changes nothing |
| ConsentController.AConsent.Init | src/a-consent.js:655-671 | before rendering, `init` throws a TypeError; otherwise the form becomes `InitFrom` of the saved record and the flags |
| ConsentController.AConsent.ConnectedCallback | src/a-consent.js:469-492 | reads the store; renders a fresh form seeded by `init` iff no live record or `force`; never changes the flags |
| ConsentController.AConsent.ProcessInput | src/a-consent.js:754-812 | the new state and the result are those of `ProcessEvent`; a success returns the new projection |
| ConsentController.AConsent.UpdateConsent | src/a-consent.js:857-877 | gtag is called once with the projection, then the record is written; a throwing gtag skips the write; a dialog in the main document fails after the write; any failure hides the element and yields false; an `a-consent-edit` host is told to hide its form |
| ConsentController.AConsent.SubmitChoices | src/a-consent.js:835-846 | a non-event is a TypeError and an untrusted event outside debug mode a SecurityError, each with nothing written; otherwise the projection is reported and stored, the element is hidden iff gtag throws or the dialog has no host, the host's form is hidden only inside an `a-consent-edit` dialog, and the removal is a fade iff `effect` is exactly "fade"; a throwing gtag records no call |
| ConsentController.AConsent.ResetConsent | src/a-consent.js:820-823 | exactly the consent record is removed |

## Left out

- The gtag bootstrap, the `explodeElement` / `fadeElement` animations and the final `remove()`: presentation only. `SubmitChoices` returns which removal would run.
- `AConsentEdit` and the rest of `extra/scripts.js`: not part of this model. `UpdateConsent` only reports whether the host's `hideForm` is called.
- Custom-element registration, the shadow root, the template markup and the listener wiring with its `AbortController`: browser machinery. `disconnectedCallback` only aborts those listeners.
- The kebab-to-camel name conversion in `attributeChangedCallback`: replaced by the table in `AttributeOf`, which gives the same nine names the same properties.
- `window.location.reload()` after `resetConsent`: a page reload is outside the model.
- `console.error` logging: it has no effect on state.
- The public expando `userDataStorage` that `processInput` writes: nothing reads it.
- JSON texts that parse to a non-object (a number, a string), and record fields that are not strings: the model's `Stored` is blank, corrupt or a record with string fields.
- A `localStorage.getItem` or `removeItem` that throws (storage disabled): only a throwing `setItem` is modelled.
- The mutation of the caller's object by `#localDataSet` (it writes `expiry` into it): the model returns the stamped record instead of changing its argument.
- Coercion.ToLower: lower-cases ASCII letters only. This decides equality with "false" and "required" exactly as the full Unicode mapping does, because no other character lowers into an ASCII letter except the Kelvin sign (to "k") and a dotted capital I that lowers to two characters.
- Coercion.ToNumber: reads a string only as an optional minus sign followed by decimal digits. Whitespace, decimals, exponents, hexadecimal and "Infinity" are outside the model, as are non-integral numbers.
- ConsentStore.Stamp: days and times are unbounded integers. The double-precision rounding of `now + days * 86400000` beyond 2^53 is not modelled.
- ConsentController.AConsent.SetExpire: models the setter as evidently intended, not as written. See the findings below.

## Findings

| source | as written | input that shows it | evidently intended | confidence | as-written member | corrected member |
|---|---|---|---|---|---|---|
| src/a-consent.js:1027-1028 | `JSON.parse` is applied to the object that `#localDataGet` already parsed; it parses "[object Object]" and throws outside the `try`, so a live record's expiry is never refreshed and `#expire` is not assigned | a live record `{analytics_storage: "granted", expiry: now + 100000}`, then `expire = 180` | re-stamp the live record with `now + 180` days and assign `#expire` | high (not executed) | ConsentController.ExpireAsWrittenNeverRefreshes | ConsentController.AConsent.SetExpire |
| src/a-consent.js:1022-1025 | after reporting that the value is NaN, the setter goes on and assigns NaN to `#expire`. The next submit stores `now + NaN`, which `JSON.stringify` writes as a `null` expiry; the next read compares `now > null`, removes the record and returns null, so the consent is forgotten on the next load (`NullExpiryIsForgotten`) | no stored record, then `expire = "abc"` | stop at NaN and keep the previous number of days | medium (not executed) | ConsentController.ExpireAsWrittenAcceptsNaN | ConsentController.AConsent.SetExpire |
