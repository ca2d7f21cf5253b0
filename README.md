# Lead-form pipeline of the two university sites

The repository holds two near-identical page scripts. One is the
`GlobalInnovationUniversity` controller in `global-innovation/script.js`. The
other is the `TechNovaUniversity` controller in `technova-university/script.js`.
Each controller does three things:

- It loads a programme list and a fee schedule and renders them into the page.
  When a load throws, it renders a fixed fallback list instead.
- It checks the lead form: first the Indian mobile number, then the consent box.
- It posts the lead record to a webhook and drives the submit button and the
  message banner around that request.

This project models that pipeline and proves what it promises. One controller
class serves both sites. The site is a constructor argument. The literals in
which the sites differ live in one module per site.

| module | file | contents |
|---|---|---|
| `Wrappers` | `wrappers.dfy` | `Option` |
| `Html` | `html.dfy` | `innerHTML` as a tree of text and elements, the text a reader sees, the emphasised (`<strong>`) text |
| `Catalog` | `catalog.dfy` | courses and fees, the grid, select and fee-card renderers, the load outcome |
| `Lead` | `lead.dfy` | the phone regular expression, `validateForm`'s rule, the lead record and its JSON keys |
| `GlobalInnovation`, `TechNova` | `global_innovation.dfy`, `technova.dfy` | each site's messages, labels, constants, success message and fallback lists |
| `Sites` | `sites.dfy` | the choice of site and the per-site profile |
| `Page` | `page.dfy` | class `LeadPage`: the page state the controller writes, and its methods |

The state of `LeadPage` is the following:
- the form values and the submit button (label and `disabled`);
- the message banner (content, class, display, and whether the 7-second hide is pending);
- the two modals and the body's `overflow`;
- the three rendered containers;
- every record posted, and the record whose POST is still waiting for a response.

A page element that the markup may lack is an `Option`: the submit button, the
banner, the programme grid and the fee container. Every method that the script
guards with `if (!x) return` does nothing when that element is missing. The
`#course` select is both the target of `populateCourseSelect` and a form control
that `collectFormData` reads, so like the other form controls it is always
present.

The invariant `LeadPage.Valid` has two parts. First, the button is disabled
exactly while a POST is waiting, and it shows the spinner label then. Second,
every record ever posted has a valid phone number, a ticked consent box and the
site's constants. Every submit method keeps this invariant.

These are inputs, not computed:
- The visitor's typing is the method `Fill`.
- The outcome of each load is a `Catalog.Load`.
- The outcome of the POST is a `Page.PostOutcome`: a response whose `ok` is
  true or false, or an exception.
- The ISO timestamp is a `string` parameter.

`handleFormSubmit` is split at its `await fetch`. `StartSubmit` runs up to the
request and `FinishSubmit` runs from the response on, so the in-flight state can
be seen. `HandleFormSubmit` is the two together.

The two sites' sources differ from each other as follows:
- The GlobalInnovation record has an eleventh property, `type: 'admission_inquiry'`.
  The TechNova record has ten.
- The GlobalInnovation success message repeats the phone number. The TechNova
  one does not.
- The TechNova failure message names `admissions@technova.edu.in`.
- The resting labels of the submit button differ; the spinner label shown
  while a request is out is the same on both sites. The select placeholder, the
  fee-card captions and the amount class (`fee-amount` vs `fee-range`) differ.
- The fallback programmes and fees differ.

The TechNova file stores its non-ASCII characters mis-decoded, for example
"‚Çπ" where the Global Innovation file has "₹". The model keeps the characters
that each file holds.

Two details of the loads and the timers:
- `loadCourses` and `loadFeeData` never read `response.ok`, so a body that
  parses is rendered whatever the HTTP status (`Catalog.Load.Fetched`). Only an
  exception from `fetch`, `json()` or the renderer leads to the fallback list.
- Both files close the modal 3000 ms after a successful submission; the model
  records only that the close is scheduled.

## Model

| member | source | states |
|---|---|---|
| Lead.Repeat | global-innovation/script.js:319 | `\d{9}` is nine copies of the digit class, and nothing else |
| Lead.PhonePattern | global-innovation/script.js:319 | the literal `/^[6-9]\d{9}$/` as one character class per position (no contract of its own; described by `Lead.PhonePatternAcceptsValidPhones`) |
| Lead.Matches | global-innovation/script.js:321 | `phoneRegex.test(phone)` for a pattern anchored at both ends (no contract of its own; described by `Lead.MatchesPositionwise`) |
| Lead.MatchesPositionwise | global-innovation/script.js:319-321 | a pattern anchored by `^…$` with one class per character matches a string iff the string has the pattern's length and each character lies in its class |
| Lead.PhonePatternAcceptsValidPhones | global-innovation/script.js:319-321 | `/^[6-9]\d{9}$/.test(s)` holds iff `s` is exactly ten ASCII digits and the first is 6, 7, 8 or 9 |
| Lead.PhoneExamples | technova-university/script.js:316-318 | "9876543210" and "6000000000" pass; a leading 1 or 5, eleven or nine digits, a trailing newline, an inner space and Devanagari digits fail |
| Lead.Validate | global-innovation/script.js:317-332 | accepted iff the phone is valid and the box is ticked; the phone error iff the phone is invalid, whatever the box says; the consent error iff the phone is valid and the box is not ticked |
| Lead.ValidateExamples | technova-university/script.js:314-335 | a good number with the box passes; "1234567890" gives the phone error with or without the box; a good number without the box gives the consent error |
| Lead.Collect | global-innovation/script.js:301-315 | the record carries the seven form values unchanged (`FormOf(r) == f`), the site's university, source and optional type, and the given timestamp |
| Lead.JsonKeys | technova-university/script.js:299-312 | the body has 11 properties with `type` and 10 without; `type` is present iff the site sets one; `phone`, `consent`, `university` and `source` are always present |
| Lead.CollectedIsAdmissible | global-innovation/script.js:244-249 | a record collected after validation passed has `consent` true and a phone that satisfies the phone rule |
| Catalog.CourseCards | global-innovation/script.js:105-119 | the grid has one card per course, the i-th card rendering the i-th course |
| Catalog.CourseCardShows | global-innovation/script.js:110-117 | a card shows the course's name, description, duration and type, in that order |
| Catalog.CourseCardsShow | technova-university/script.js:82-100 | the grid's text is every course's facts, course after course, in input order, with nothing dropped, merged or sorted |
| Catalog.CourseOptions | global-innovation/script.js:126-128 | one option per course, in order, whose value and text are both the course name |
| Catalog.CourseSelectOffers | global-innovation/script.js:121-129 | the select holds the placeholder option with empty value, then exactly one option per course in input order, offering and submitting the course's name |
| Catalog.FeeItems | global-innovation/script.js:142-159 | the fee list has one card per entry, the i-th card rendering the i-th entry |
| Catalog.FeeItemBreakdownExactly | global-innovation/script.js:150-156 | a fee card holds a `fee-breakdown` block iff the entry has a breakdown |
| Catalog.BreakdownRowShows | global-innovation/script.js:152-154 | a breakdown row shows its caption and then its amount |
| Catalog.FeeItemShows | technova-university/script.js:132-148 | a fee card shows course, range and, only with a breakdown, each caption followed by its amount |
| Catalog.FeeItemsShow | global-innovation/script.js:146-158 | the fee list's text is every entry's facts, entry after entry, in input order |
| Catalog.CourseCard | global-innovation/script.js:109-118 | the `program-card` template (no contract of its own; described by `Catalog.CourseCardShows`) |
| Catalog.CourseSelect | global-innovation/script.js:125-128 | the select template: placeholder option, then the course options (no contract of its own; described by `Catalog.CourseSelectOffers`) |
| Catalog.SelectOption | global-innovation/script.js:127 | the `<option value="…">…</option>` template (no contract of its own; described by `Catalog.CourseSelectOffers`) |
| Catalog.BreakdownBlock | global-innovation/script.js:150-156 | the `fee-breakdown` template with the three caption rows (no contract of its own) |
| Catalog.BreakdownRow | global-innovation/script.js:152-154 | one caption/amount row of the breakdown (no contract of its own; described by `Catalog.BreakdownRowShows`) |
| Catalog.FeeItem | global-innovation/script.js:146-158 | the `fee-item` template, with the breakdown block only for an entry that has one (no contract of its own; described by `Catalog.FeeItemShows` and `Catalog.FeeItemBreakdownExactly`) |
| GlobalInnovation.SuccessMessage | global-innovation/script.js:335-339 | the success banner template (no contract of its own; described by `GlobalInnovation.SuccessMessageEmphasises`) |
| TechNova.SuccessMessage | technova-university/script.js:338-342 | the success banner template (no contract of its own; described by `TechNova.SuccessMessageEmphasises`) |
| GlobalInnovation.FallbackCourses | global-innovation/script.js:162-199 | the six fallback programmes, as literals |
| GlobalInnovation.FallbackFees | global-innovation/script.js:206-234 | the three fallback fee entries, as literals |
| TechNova.FallbackCourses | technova-university/script.js:154-197 | the six fallback programmes, as literals |
| TechNova.FallbackFees | technova-university/script.js:204-232 | the three fallback fee entries, as literals |
| GlobalInnovation.Stamp | global-innovation/script.js:310-313 | the constants of the record: university 'Global Innovation University', source 'website_inquiry', type 'admission_inquiry' (a literal, no contract of its own) |
| GlobalInnovation.SelectPlaceholder | global-innovation/script.js:125 | the select's placeholder text 'Select program' (a literal, no contract of its own) |
| GlobalInnovation.FeeCaptions | global-innovation/script.js:149-154 | the amount class `fee-amount` and the captions 'Tuition Fee:', 'Hostel & Mess:', 'Other Charges:' (a literal, no contract of its own) |
| GlobalInnovation.PhoneError | global-innovation/script.js:322 | the phone message (a literal, no contract of its own) |
| GlobalInnovation.ConsentError | global-innovation/script.js:327 | the consent message (a literal, no contract of its own) |
| GlobalInnovation.SubmitError | global-innovation/script.js:344 | the failure message (a literal, no contract of its own) |
| GlobalInnovation.SubmittingLabel | global-innovation/script.js:257 | the spinner label of the button while the request is out (a literal, no contract of its own) |
| GlobalInnovation.SubmitLabel | global-innovation/script.js:295 | the resting label the `finally` block restores (a literal, no contract of its own) |
| TechNova.Stamp | technova-university/script.js:308-310 | the constants of the record: university 'TechNova University', source 'website_lead', no type (a literal, no contract of its own) |
| TechNova.SelectPlaceholder | technova-university/script.js:107 | the select's placeholder text 'Choose program' (a literal, no contract of its own) |
| TechNova.FeeCaptions | technova-university/script.js:135-142 | the amount class `fee-range` and the captions 'Tuition Fee:', 'Hostel Fee:', 'Other Charges:' (a literal, no contract of its own) |
| TechNova.PhoneError | technova-university/script.js:320 | the phone message (a literal, no contract of its own) |
| TechNova.ConsentError | technova-university/script.js:328 | the consent message (a literal, no contract of its own) |
| TechNova.SupportAddress | technova-university/script.js:348 | the admissions mailbox the failure message names (a literal, no contract of its own) |
| TechNova.SubmitError | technova-university/script.js:348 | the failure message, ending with the admissions mailbox (described by `TechNova.SubmitErrorNamesSupportAddress`) (a literal, no contract of its own) |
| TechNova.SubmittingLabel | technova-university/script.js:255 | the spinner label of the button while the request is out (a literal, no contract of its own) |
| TechNova.SubmitLabel | technova-university/script.js:293 | the resting label 'Submit Application' the `finally` block restores (a literal, no contract of its own) |
| GlobalInnovation.SuccessMessageEmphasises | global-innovation/script.js:334-341 | the success banner emphasises the name, the programme, the e-mail and the phone, in that order |
| TechNova.SuccessMessageEmphasises | technova-university/script.js:337-344 | the success banner emphasises the name, the programme and the e-mail, in that order |
| TechNova.SuccessMessageIgnoresPhone | technova-university/script.js:338-342 | the success banner does not depend on the phone number |
| TechNova.SubmitErrorNamesSupportAddress | technova-university/script.js:346-351 | the failure banner contains `admissions@technova.edu.in` |
| Sites.MessagesAreDistinct | technova-university/script.js:318-351 | on each site the phone message, the consent message and the failure message are three different texts |
| Sites.RecordShape | global-innovation/script.js:301-315 | Global Innovation records carry `type: 'admission_inquiry'` and 11 properties; TechNova records have no `type` and 10 properties |
| Sites.FallbackListsAgree | global-innovation/script.js:161-237 | the fallback lists hold six programmes and three fee entries; the fee entries name the first three programmes in order and each has a breakdown |
| Sites.FallbackFeeCardsShowBreakdowns | technova-university/script.js:203-235 | every card of the rendered fallback fee list shows a breakdown block |
| Page.LeadPage.constructor | global-innovation/script.js:3-32 | the page as the markup leaves it (button, banner, select options and containers as given): its literals are its site's (`OfSite`), the invariant holds, no POST was made and none is waiting, no close is scheduled, and the form holds its defaults |
| Page.LeadPage.Valid | global-innovation/script.js:255-297 | the in-flight invariant: the button is disabled exactly while a POST is waiting and shows the spinner label then, and every record posted is admissible and carries the site's constants (kept by `StartSubmit`, `FinishSubmit` and `HandleFormSubmit`) |
| Page.OfSiteFixesLiterals | technova-university/script.js:253-296 | on a page the constructor built, the resting label, the failure message and the two fallback lists the contracts refer to are the literals of the page's own site, so the lists hold six programmes and three fee entries |
| Page.LeadPage.DisplayCourses | global-innovation/script.js:105-119 | an existing grid is replaced by the cards of the given courses; a missing grid stays missing |
| Page.LeadPage.PopulateCourseSelect | technova-university/script.js:102-113 | the select's options become the placeholder followed by the course options |
| Page.LeadPage.DisplayFeeData | global-innovation/script.js:142-159 | an existing fee container is replaced by the fee cards; a missing one stays missing |
| Page.LeadPage.LoadFallbackCourses | global-innovation/script.js:161-203 | the grid and the select render exactly the site's fallback programmes |
| Page.LeadPage.LoadFallbackFees | technova-university/script.js:203-235 | the fee container renders exactly the site's fallback fees |
| Page.LeadPage.LoadCourses | global-innovation/script.js:93-103 | a body that parsed is rendered into the grid and the select; a failed load renders the fallback programmes into both; the status is not consulted |
| Page.LeadPage.LoadFeeData | technova-university/script.js:115-124 | a body that parsed is rendered into the fee container; a failed load renders the fallback fees |
| Page.LeadPage.LoadInitialData | global-innovation/script.js:86-91 | each of the two loads renders its own containers by the same rule, independently of the other |
| Page.LeadPage.ShowFormMessage | global-innovation/script.js:347-359 | an existing banner gets the content, class `form-message <type>`, display `block` and a pending hide; a missing banner stays missing |
| Page.LeadPage.ShowSuccessMessage | global-innovation/script.js:334-341 | the banner shows the site's success message for the record, as a success |
| Page.LeadPage.ShowErrorMessage | technova-university/script.js:346-351 | the banner shows the site's failure message, as an error |
| Page.LeadPage.ValidateForm | technova-university/script.js:314-335 | the verdict is `Validate` of the form's phone and consent box; an invalid phone shows the phone message whatever the box says, a valid phone without the tick shows the consent message, and an acceptance leaves the banner alone |
| Page.LeadPage.CollectFormData | global-innovation/script.js:301-315 | the record holds the current form values, the site's constants and the given time |
| Page.LeadPage.ResetForm | global-innovation/script.js:361-365 | the form holds its defaults again |
| Page.LeadPage.StartSubmit | global-innovation/script.js:239-267 | a rejected form changes only the banner, which shows the phone message for an invalid phone and otherwise the consent message: no POST, the button as it was. Without a button the failure message shows and nothing is posted. Otherwise the exact collected record, which is admissible, is posted and waiting, and the button is disabled with the spinner label. The invariant is kept |
| Page.LeadPage.FinishSubmit | global-innovation/script.js:269-298 | the submission succeeded iff the response is ok. In every case the button ends enabled with its resting label and nothing is waiting. Only success shows the success message, resets the form and schedules the close. A non-ok status or an exception shows the failure message and leaves the form and the close as they were |
| Page.LeadPage.HandleFormSubmit | technova-university/script.js:237-297 | one submit event end to end. A rejection carries the verdict `Validate` gives for the submitted phone and box. A POST is made iff the form passes and the button exists, and then it carries the collected record. Success requires that POST and an ok response. The form is reset only on success. The button is untouched on rejection and otherwise ends enabled. The banner shows the phone message for an invalid phone, the consent message for a valid phone without the tick, and otherwise the success or failure message |
| Page.LeadPage.OpenModal | global-innovation/script.js:368-371 | the lead modal is shown and page scroll is locked, whatever the state was (so a second call changes nothing) |
| Page.LeadPage.CloseModal | global-innovation/script.js:373-376 | the lead modal is hidden and page scroll is unlocked, whatever the state was |
| Page.LeadPage.OpenFeeModal | technova-university/script.js:383-386 | the fee modal is shown and page scroll is locked, whatever the state was |
| Page.LeadPage.CloseFeeModal | technova-university/script.js:388-391 | the fee modal is hidden and page scroll is unlocked, whatever the state was |

## Left out

- DOM wiring: the nav toggle, outside-click and link handlers, smooth scrolling, the IntersectionObserver animations and the injected style sheet. They are browser effects with no logic to state.
- `console.log` and `console.error` calls.
- `fetch`, `JSON.stringify` and `response.json()`. A load outcome and a POST outcome are abstract inputs, and the JSON body is reduced to its property names (`Lead.JsonKeys`).
- The `Promise.all` join in `loadInitialData`. The two loads write disjoint containers, so they are modelled one after the other.
- Timers. The 7-second hide and the 3-second modal close are recorded as scheduled and never fire. So the model does not show an earlier hide cutting a later message short.
- The clock. `new Date().toISOString()` is the `timestamp` parameter.
- The global `openModal`, `closeModal`, `openFeeModal` and `closeFeeModal` functions. Each builds a fresh controller, which re-registers listeners and reloads the data, and then calls the method of the same name. That is a DOM side effect.
- Escaping. Interpolated values become text nodes, while the script pastes them into `innerHTML` unescaped, so markup inside a course name or a visitor's name is not modelled.
- Whitespace in the templates: whitespace-only text between tags is dropped, and so is the line break and indentation at the ends of text runs that hold words (the Global Innovation success message starts with "✅ Thank you ", not with a newline and twelve spaces).
- A missing property in a loaded JSON item, which the script renders as "undefined". Loaded items are well-formed records.
- A missing form control (the `#course` select included), a missing `leadModal` or a missing `feeModal`. Those make the script throw, and the model assumes they exist; only the button, the banner, the programme grid and the fee container may be absent.
- The select's own value after it is repopulated, and how it relates to `form.course`. The form value is whatever the visitor chose (`Fill`).
- `originalText`, which the script reads and never uses.
- Page.LeadPage.StartSubmit, Page.LeadPage.HandleFormSubmit: both require that no POST is waiting, so a second run of the handler while one is waiting is not modelled. With a single controller the disabled button blocks a second submission. But each call of the global `openModal`, `closeModal`, `openFeeModal` or `closeFeeModal` builds another controller, which adds another `submit` listener to the same form. After such a call one submit event runs `handleFormSubmit` once per controller. Each run validates and POSTs without looking at `disabled`, and the first `finally` re-enables the button while another POST is still waiting. The model has one controller and one listener, so it does not show these duplicate POSTs.
- Page.LeadPage.constructor: covers `new` and the markup only. The loads that `init` starts settle after the constructor returns, and they are the separate call `LoadInitialData` with their outcomes.
- Page.LeadPage.CloseModal: sets `overflow` to `auto` even when the fee modal is still open, as the script does. The model does not relate the two modals.
