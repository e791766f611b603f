# Lead-intake wizard: a Dafny model

This project models the core of a three-step lead-intake wizard written in
TypeScript (Next.js and React). A page steps through three forms:

1. business details,
2. website preferences,
3. marketing preferences.

Each form checks its input against a declarative schema and hands the accepted
values to the page. The page merges them into one flat record. After step 3 it
posts that record to an endpoint, which writes it to a timestamped JSON file.
An ok response moves the page to a thank-you screen (step 4). A failed one
leaves it on step 3 with an error notice.

Modules:

- `Values` (`values.dfy`): the property names (`Key`), field paths, the JSON-like value, the record type `map<Key, Value>`, `Option`, a form's submit outcome and the readers that take a record apart again.
- `Toggle` (`toggle.dfy`): the checkbox handler that the website and marketing forms repeat four times.
- `BusinessForm`, `WebsiteForm`, `MarketingForm`: each form's values as a datatype, its schema as a predicate, the failing field paths as a set, the submit contract, the payload object, the defaults and the checkbox toggles.
- `Wizard` (`wizard.dfy`): the page. Class `Home` holds `step` and `formData`, and `Submit` models `handleFormSubmit`. Pure functions cover the progress value, the screen shown per step, the merge and the next step.
- `SubmitRoute` (`submit_route.dfy`): timestamp sanitising, file naming, and the `POST` handler as a method that takes the body-read and write outcomes as inputs.
- `EndToEnd` (`end_to_end.dfy`): the forms, the page and the endpoint run together.

Inputs that come from outside the program are parameters:

- the POST outcome seen by the page: `Wizard.PostOutcome`, one of `Ok`, `NotOk` or `Threw`;
- the parsed request body: `SubmitRoute.RequestBody`;
- the write result: `SubmitRoute.WriteOutcome`;
- the clock's ISO string: the `timestamp` parameter.

Some rules in the code are looser than one might expect; the model follows the code:

- The record is flat. Its keys are the forms' own field names (`businessName`, `targetAudience`, `socialMedia`, …), because `{ ...formData, ...data }` spreads each flat payload. It is not keyed by step name (`business`, `website`, `marketing`).
- A failed POST never advances the step. Both `!response.ok` and a thrown fetch end in the `catch` block, which returns before `setStep`.
- `blogging.frequency` is never required, even when `blogging.needed` is true.
- Select and radio values are any non-empty strings, not enums. The exceptions are `logo` and `budget.type`.
- `budget.amount` is not checked to be numeric, and `currentWebsite` is not checked to be a URL.
- Checking a box appends its id without first checking whether it is already there.

## Model

| member | source | states |
|---|---|---|
| `Wizard.Home.constructor` | app/page.tsx:13-14 | The page starts at step 1 with an empty record. |
| `Wizard.Home.Submit` | app/page.tsx:19-52 | The record becomes the old record merged with the payload, stored before any POST and kept when the POST fails. At steps 1 and 2 nothing is posted, no notice is shown and the step grows by one. At step 3 the posted body is exactly the merged record. An ok response shows the success toast and moves to step 4. A not-ok response or a thrown error shows the destructive error toast and stays on step 3. The step never decreases and stays within 1..4. Only steps 1..3, whose screens hold a form, accept a submit. |
| `Wizard.Merge` | app/page.tsx:20 | The merged record has the union of both key sets. Payload values win on a shared key, and the other keys keep their old values. |
| `Wizard.MergeIdempotent` | app/page.tsx:41-48 | Re-submitting the same payload after a failed POST gives the same record again. |
| `Wizard.NextStep` | app/page.tsx:23-51 | The step after a submit is the same or one more. It stays the same exactly when the step is 3 and the POST outcome is not ok. |
| `Wizard.Progress` | app/page.tsx:17 | The progress value `p` satisfies `2·p = 100·(step−1)`, which is `((step - 1) / 2) * 100` in exact arithmetic. |
| `Wizard.ProgressAtEachStep` | app/page.tsx:17 | Progress is 0, 50 and 100 on the three forms and 150 on step 4, so it is not clamped. It is monotone in the step. |
| `Wizard.ScreenOf` | app/page.tsx:99-109 | Step i shows form i for i in 1..3. Step 4 shows the thank-you screen. Any other value shows nothing. |
| `Wizard.NoSubmitAfterThanks` | app/page.tsx:102-109 | Step 4 shows no form, so no submit follows it. A submit from a form screen never passes step 4. |
| `BusinessForm.Valid` | components/forms/BusinessForm.tsx:11-18 | The schema: business name, primary service and location of at least two characters, domain and primary language non-empty; secondary languages unconstrained. |
| `BusinessForm.Errors` | components/forms/BusinessForm.tsx:11-18 | Only the five checked fields can fail. No field fails exactly when the schema predicate holds. |
| `BusinessForm.FieldRules` | components/forms/BusinessForm.tsx:12-16 | `businessName`, `primaryService` and `location` fail exactly below 2 characters. `businessDomain` and `primaryLanguage` fail exactly when empty. |
| `BusinessForm.SelectsAcceptAnyText` | components/forms/BusinessForm.tsx:63-67 | A domain or language outside the select's options still passes. |
| `BusinessForm.SecondaryLanguagesNeverFail` | components/forms/BusinessForm.tsx:17 | Any value of `secondaryLanguages`, including absent, leaves the failing fields unchanged. |
| `BusinessForm.DefaultsRejected` | components/forms/BusinessForm.tsx:23-30 | The all-empty defaults fail on all five checked fields and are rejected. |
| `Values.Accept` | components/forms/BusinessForm.tsx:35 | A submit handler passes the input on, unchanged, exactly when no field fails. Otherwise it reports the failing fields, which are never empty. |
| `BusinessForm.Submit` | components/forms/BusinessForm.tsx:35 | The callback gets the values, unchanged, exactly when the schema holds. Otherwise the failing fields, which are never empty, are reported. |
| `BusinessForm.Payload` | components/forms/BusinessForm.tsx:11-18 | The object handed on has exactly the five checked keys, plus `secondaryLanguages` when it is defined. |
| `BusinessForm.PayloadRoundTrip` | components/forms/BusinessForm.tsx:11-18 | Reading the payload back field by field gives exactly the form values, the absent or present secondary languages included. |
| `BusinessForm.PayloadInjective` | components/forms/BusinessForm.tsx:11-18 | Distinct form values give distinct payloads. |
| `WebsiteForm.Valid` | components/forms/WebsiteForm.tsx:13-30 | The schema: the three audience strings, the two theme strings and the font non-empty, the logo "existing" or "new", at least one feature; current website and other features unconstrained. |
| `WebsiteForm.AudienceErrors` | components/forms/WebsiteForm.tsx:14-18 | Only the three `targetAudience` paths can fail, each exactly when its string is empty, and none does exactly when all three are non-empty. |
| `WebsiteForm.ThemeErrors` | components/forms/WebsiteForm.tsx:20-23 | Only the two `themePreferences` paths can fail, each exactly when its string is empty, and none does exactly when both are non-empty. |
| `WebsiteForm.Errors` | components/forms/WebsiteForm.tsx:13-30 | Only the eight checked paths can fail. No path fails exactly when the schema predicate holds. |
| `WebsiteForm.FieldRules` | components/forms/WebsiteForm.tsx:24-28 | `logo` fails exactly when it is neither "existing" nor "new". `features` and `fontPreference` each fail exactly when empty. |
| `WebsiteForm.NestedFieldRules` | components/forms/WebsiteForm.tsx:14-23 | Each of `targetAudience.age`, `.location`, `.interests`, `themePreferences.colorScheme` and `.mood` fails exactly when its string is empty. |
| `WebsiteForm.ChoicesNotRestricted` | components/forms/WebsiteForm.tsx:20-40 | Radio values and feature entries outside the drawn options still pass. |
| `WebsiteForm.OptionalFieldsNeverFail` | components/forms/WebsiteForm.tsx:19-29 | `currentWebsite` and `otherFeatures` never change the failing paths, and there is no URL check. |
| `WebsiteForm.DefaultsRejected` | components/forms/WebsiteForm.tsx:45-60 | The defaults fail on every checked path except `logo`, whose default "existing" is valid. |
| `WebsiteForm.Submit` | components/forms/WebsiteForm.tsx:63-70 | The form's `handleSubmit` gets the values, and so does `onSubmit`, once and unchanged, exactly when the schema holds. Otherwise the failing paths are reported. |
| `WebsiteForm.AudienceObject` | components/forms/WebsiteForm.tsx:14-18 | The nested `targetAudience` object has exactly the keys `age`, `location` and `interests`. |
| `WebsiteForm.ThemeObject` | components/forms/WebsiteForm.tsx:20-23 | The nested `themePreferences` object has exactly the keys `colorScheme` and `mood`. |
| `WebsiteForm.Payload` | components/forms/WebsiteForm.tsx:13-30 | The object handed on has the five always-defined keys, plus `currentWebsite` and `otherFeatures` each exactly when defined. |
| `WebsiteForm.PayloadRoundTrip` | components/forms/WebsiteForm.tsx:13-30 | Reading the payload back, nested objects included, gives exactly the form values. |
| `WebsiteForm.PayloadInjective` | components/forms/WebsiteForm.tsx:13-30 | Distinct form values give distinct payloads. |
| `WebsiteForm.ToggleFeature` | components/forms/WebsiteForm.tsx:274-280 | After a toggle the feature box shows the new checked state, and only `features` changed. |
| `WebsiteForm.FeatureToggleAndValidity` | components/forms/WebsiteForm.tsx:274-280 | Checking any feature clears exactly the `features` error. Unchecking the only feature brings the error back. |
| `MarketingForm.Valid` | components/forms/MarketingForm.tsx:14-34 | The schema: at least one platform and one KPI, preferred platform, target locations and tone non-empty, budget type "monthly" or "project", amount non-empty; blogging, materials and the four notes unconstrained. |
| `MarketingForm.BudgetErrors` | components/forms/MarketingForm.tsx:24-27 | Only `budget.type` and `budget.amount` can fail, and neither does exactly when the type is "monthly" or "project" and the amount is non-empty. |
| `MarketingForm.Errors` | components/forms/MarketingForm.tsx:14-34 | Only the seven checked paths can fail. No path fails exactly when the schema predicate holds. |
| `MarketingForm.FieldRules` | components/forms/MarketingForm.tsx:15-29 | `socialMedia` and `kpis` each fail exactly when empty, and so do `preferredMarketing`, `targetLocations` and `contentTone`. |
| `MarketingForm.BudgetRules` | components/forms/MarketingForm.tsx:24-27 | `budget.type` fails exactly outside "monthly" and "project". `budget.amount` fails exactly when empty. |
| `MarketingForm.BloggingNeverFails` | components/forms/MarketingForm.tsx:19-23 | The blogging block never changes the failing paths. Valid values stay valid with blogging needed and no frequency. |
| `MarketingForm.OptionalFieldsNeverFail` | components/forms/MarketingForm.tsx:28-33 | `marketingMaterials`, which may be empty, and the four optional texts never change the failing paths. |
| `MarketingForm.ChoicesNotRestricted` | components/forms/MarketingForm.tsx:24-29 | A non-numeric budget amount, a tone outside the drawn options, and list entries outside the drawn ids all pass. |
| `MarketingForm.DefaultsRejected` | components/forms/MarketingForm.tsx:60-80 | The defaults fail on every checked path except `budget.type`, whose default "monthly" is valid. |
| `MarketingForm.Submit` | components/forms/MarketingForm.tsx:85 | The callback gets the values, unchanged, exactly when the schema holds. Otherwise the failing paths are reported. |
| `MarketingForm.BloggingObject` | components/forms/MarketingForm.tsx:19-23 | The nested `blogging` object always holds the `needed` flag, and has no keys besides `needed`, `frequency` and `topics`. |
| `MarketingForm.BudgetObject` | components/forms/MarketingForm.tsx:24-27 | The nested `budget` object has exactly the keys `type` and `amount`. |
| `MarketingForm.Notes` | components/forms/MarketingForm.tsx:30-33 | The entries of the four optional texts use no keys but theirs. |
| `MarketingForm.Payload` | components/forms/MarketingForm.tsx:14-34 | The object handed on has the eight always-defined keys and otherwise only schema keys. |
| `MarketingForm.OptionalKeysAsDefined` | components/forms/MarketingForm.tsx:30-33 | Each of the four optional keys is in the payload exactly when its field is defined. |
| `MarketingForm.NotesRoundTrip` | components/forms/MarketingForm.tsx:30-33 | Each optional text reads back as itself, absent when undefined, and has a key exactly when defined. |
| `MarketingForm.BloggingRoundTrip` | components/forms/MarketingForm.tsx:19-23 | The `blogging` object reads back as the flag and the two optional texts. |
| `MarketingForm.WithFixedReadsBack` | components/forms/MarketingForm.tsx:15-29 | Entered over any record, the eight always-defined fields read back as the form values, the nested objects as built. |
| `MarketingForm.WithFixedReadsThrough` | components/forms/MarketingForm.tsx:14-34 | Entering the always-defined fields leaves every other key, and its text, as it was. |
| `MarketingForm.WithFixedRoundTrip` | components/forms/MarketingForm.tsx:14-34 | Over any record holding the four optional texts, the always-defined fields complete a payload that reads back as the form values. |
| `MarketingForm.PayloadRoundTrip` | components/forms/MarketingForm.tsx:14-34 | Reading the payload back, nested blogging and budget objects included, gives exactly the form values. |
| `MarketingForm.PayloadInjective` | components/forms/MarketingForm.tsx:14-34 | Distinct form values give distinct payloads. |
| `MarketingForm.ToggleSocialMedia` | components/forms/MarketingForm.tsx:108-114 | After a toggle the platform box shows the new checked state, and only `socialMedia` changed. |
| `MarketingForm.ToggleMaterial` | components/forms/MarketingForm.tsx:331-337 | After a toggle the material box shows the new checked state, and only `marketingMaterials` changed. |
| `MarketingForm.ToggleKpi` | components/forms/MarketingForm.tsx:377-383 | After a toggle the KPI box shows the new checked state, and only `kpis` changed. |
| `MarketingForm.SocialMediaToggleAndValidity` | components/forms/MarketingForm.tsx:108-114 | Checking a platform clears exactly the `socialMedia` error. Unchecking the only one brings it back. |
| `MarketingForm.KpiToggleAndValidity` | components/forms/MarketingForm.tsx:377-383 | Checking a KPI clears exactly the `kpis` error. Unchecking the only one brings it back. |
| `Values.WithTextReadsBack` | components/forms/BusinessForm.tsx:17 | An optional text entered under a new key reads back as itself, has a key exactly when defined, and leaves every other entry as it was. |
| `Values.UnionOfDisjoint` | app/page.tsx:20 | Merging records with pairwise disjoint keys gives the union of their keys and keeps every entry of each. |
| `Toggle.IsChecked` | components/forms/WebsiteForm.tsx:274 | A box shows as checked exactly when its id occurs in the list. |
| `Toggle.Check` | components/forms/WebsiteForm.tsx:277 | Checking appends the id at the end. The length grows by one, and the earlier entries are unchanged and in order. |
| `Toggle.Uncheck` | components/forms/WebsiteForm.tsx:278-280 | Unchecking keeps exactly the entries other than the id, and the list does not grow. |
| `Toggle.OnCheckedChange` | components/forms/WebsiteForm.tsx:274-281 | The box shows checked afterwards exactly when it was checked. Every other box keeps its state. |
| `Toggle.UncheckCount` | components/forms/MarketingForm.tsx:112-114 | Unchecking removes every occurrence of the id and keeps every occurrence of every other id. |
| `Toggle.UncheckConcat` | components/forms/MarketingForm.tsx:112-114 | Unchecking distributes over concatenation, so the remaining entries keep their order. |
| `Toggle.UncheckAbsent` | components/forms/MarketingForm.tsx:112-114 | Unchecking a box that is not checked leaves the list unchanged. |
| `Toggle.UncheckIdempotent` | components/forms/MarketingForm.tsx:112-114 | Unchecking twice equals unchecking once. |
| `Toggle.UncheckAfterCheck` | components/forms/MarketingForm.tsx:110-114 | Check then uncheck equals uncheck alone. If the id was absent, it restores the original list. |
| `Toggle.CheckTwice` | components/forms/MarketingForm.tsx:110-111 | Checking twice appends the id twice, but every box shows the same state as after one check. |
| `SubmitRoute.Sanitize` | app/api/submit-form/route.ts:8 | Every ':' and '.' becomes '-' and every other character is unchanged. Length is preserved, and no ':' or '.' remains. |
| `SubmitRoute.SanitizeIdempotent` | app/api/submit-form/route.ts:8 | Sanitising an already sanitised timestamp changes nothing. |
| `SubmitRoute.FileName` | app/api/submit-form/route.ts:9 | The name is 21 characters longer than the timestamp. Its shape parses back to exactly the sanitised timestamp between `form-submission-` and `.json`. |
| `SubmitRoute.SameFileIffSameTimestamp` | app/api/submit-form/route.ts:8-9 | Two requests write the same file exactly when their sanitised timestamps agree. |
| `SubmitRoute.SafeCharFits` | app/api/submit-form/route.ts:8 | A sanitised character falls in the sanitised class of its original class. |
| `SubmitRoute.SafeTimestampIsSanitizedIso` | app/api/submit-form/route.ts:8 | The stored-name timestamp shape is the ISO shape with each class sanitised. |
| `SubmitRoute.MatchesConcat` | app/api/submit-form/route.ts:9 | Strings matching two patterns concatenate to a string matching the concatenated pattern. |
| `SubmitRoute.SanitizeIso` | app/api/submit-form/route.ts:8 | An ISO `YYYY-MM-DDTHH:mm:ss.sssZ` string sanitises to the shape `\d{4}-\d{2}-\d{2}T\d{2}-\d{2}-\d{2}-\d{3}Z`. |
| `SubmitRoute.IsoFileName` | app/api/submit-form/route.ts:8-9 | For an ISO timestamp the name matches `form-submission-\d{4}-\d{2}-\d{2}T\d{2}-\d{2}-\d{2}-\d{3}Z\.json` and is 45 characters long. Only positions 13, 16 and 19 of the timestamp change, each to '-'. |
| `SubmitRoute.Post` | app/api/submit-form/route.ts:5-22 | A malformed body attempts no write and answers 500. A parsed body is written under `FileName(timestamp)` unchanged. A successful write answers 200 with `{ success: true }`. A failed write answers 500 with the fixed message "Failed to save form data", whatever the cause. |
| `EndToEnd.FetchOutcome` | app/page.tsx:33-35 | A response counts as ok exactly when its status is 2xx. |
| `EndToEnd.StepsDoNotOverlap` | app/page.tsx:20 | The three forms' payload key sets are pairwise disjoint. |
| `EndToEnd.NoStepLost` | app/page.tsx:20-30 | The posted record's keys are exactly the union of the three payloads' keys, and each payload's entries survive unchanged. |
| `EndToEnd.FirstTwoSteps` | app/page.tsx:19-51 | Two accepted steps leave the page on step 3, holding the business payload merged with the website payload. |
| `EndToEnd.FinalStep` | app/page.tsx:19-52 | At step 3 the page posts its record merged with the payload, the endpoint writes exactly that record to the timestamped file, and the page reaches step 4 with the success toast when the write succeeds, or stays on step 3 with the error toast. |
| `EndToEnd.CompleteIntake` | app/page.tsx:19-52 | With accepted values on all three forms, the endpoint writes exactly the merged record to the timestamped file. The page ends on step 4 with the success toast when the write succeeds, and stays on step 3 with the error toast otherwise. |
| `EndToEnd.RetryAfterFailedSave` | app/page.tsx:41-51 | After a failed save, resubmitting step 3 writes the same record that a first-time success would have written, and reaches step 4. |
| `EndToEnd.AcmeExample` | app/page.tsx:20-51 | An example business step with no secondary languages moves the page to step 2. The record is then exactly the five given fields with their given texts. |

## Left out

- Rendering is not modelled: JSX, labels, CSS classes, icons, the animation, the progress bar widget, and toast styling. Of each toast, only its title, description and destructive flag are kept.
- react-hook-form and zod internals are not modelled: resolver plumbing, field registration, and error-message texts. `Errors` gives the failing field paths, not their messages.
- zod's runtime type checks are not modelled, for example a number where a string is expected. Form values are typed datatypes, so every field already has its schema type.
- zod's stripping of unknown keys is not modelled, because the typed values have none.
- Optional chaining on an undefined list (`field.value?.filter`) is not modelled. The defaults make every list an array.
- `fetch`, `request.json`, `writeFile`, `path.join` and `process.cwd` are I/O. Their outcomes are inputs, and the written file is a file name paired with a value.
- The `app/data` directory is not modelled, and neither is the 2-space-indented text of `JSON.stringify`.
- Property names are the `Values.Key` enumeration of the names the three schemas use, not arbitrary strings. Request bodies with other property names are not represented.
- String lengths count characters. zod counts UTF-16 code units, so a single character outside the Basic Multilingual Plane passes `min(2)` in the form and fails `BusinessForm.Valid` here. This affects `businessName`, `primaryService` and `location`. The `min(1)` checks agree either way.
- `Values.Value` covers what the forms produce: strings, booleans, string lists and objects. Request bodies of other JSON shapes, such as numbers, null or nested arrays, are not represented.
- `new Date().toISOString()` reads the clock, which is outside the program, so the timestamp is a parameter. Nothing states that two requests get different timestamps.
- File-name collisions between near-simultaneous requests are not modelled. That is a concurrency concern; `SameFileIffSameTimestamp` only says when two names coincide.
- React's state batching and stale closures across the `await` are not modelled. `Submit` runs to completion as one sequential step.
- `console.log` and `console.error` are left out.
- `Progress` uses the exact integer form of the floating-point expression. The two agree for every integer step.
- The HTTP status of a success is 200, the default of `NextResponse.json`. That library is not part of this model.
