# NINA enrollment platform — a Dafny model

NINA (branded "TecaiKids") is an education site with a FastAPI backend and a React front page. This project models its core:

- **Backend** (`backend/server.py`), module `Server`:
  - the three string enums;
  - the five-entry `PROGRAMS_DATA` catalogue;
  - the endpoints `get_programs`, `get_program`, `create_enrollment`, `create_consultation_request` and `get_platform_stats`.
  The loops of `get_programs`, `get_program` and `create_enrollment` are `method`s with loop invariants. `GetPrograms` is proved to return the whole catalogue `ProgramsData()` in order. The search loops of the other two, `GetProgramFrom` and `CreateEnrollmentFrom`, run over any table and are proved against the pure first-match function `FirstIndexOf`; the endpoints `GetProgram` and `CreateEnrollment` run them over the catalogue.
- **Enrollment wizard** (`EnrollmentSection.jsx`), module `EnrollmentUi`. The component's React state is the record `Wizard`:
  - every button and handler is an `Event`;
  - `Available` says when its control is on screen and enabled;
  - `Apply` is what the handler does.
  The class `EnrollmentSection` keeps the same state in fields, with one method per handler. Each method is proved to change its fields exactly as `Apply` says. An invariant holds in every reachable state: it is proved for `Apply` and, by induction, for any feasible run of events.
- **Consultation form** (`ConsultationSection.jsx`), module `ConsultationUi`. It has the same shape: a draft, the submit button's enabled condition, and reset on success / keep on failure.
- **Program cards** (`ProgramsSection.jsx`), module `ProgramsUi`:
  - icon and emoji lookup with a fallback;
  - signed savings;
  - `Math.round` of the savings percentage, computed exactly in integers;
  - the "MOST POPULAR" marker.
- **Stats cards and hero banner** (`StatsSection.jsx`, `HeroSection.jsx`), modules `StatsUi` and `HeroUi`: the JavaScript `||` fallbacks.
- **The HTTP boundary**, module `Api`:
  - how the backend's programs and stats look as the JSON the page receives (module `JsValues`, which also holds the JavaScript value rules the display code relies on);
  - how the posted bodies are validated into the backend's request models;
  - cross-component agreements: the wizard's displayed price equals the backend's charge, and every enrollment the wizard can post passes the backend's enum validation.

What the code does where the page itself suggests otherwise, or where a case is easy to overlook:

- The catalogue's quarterly price is 3.5 times the monthly price. So every card's "Save LKR …" badge shows a negative saving of half a month, rounded to -17%, while step 2 of the wizard advertises "Save 25%" on the quarterly plan (`Api.CatalogueCardsShowALoss`).
- The savings percentage has no guard for a monthly price of 0. JavaScript would divide by zero; the model returns `None` in that case.
- A successful enrollment resets `step`, `selectedProgram` and `formData`, but not `paymentPlan` or `paymentMethod` (`EnrollmentUi.QuarterlyPlanSurvivesSuccess`).
- `setPaymentMethod` is never called, so every enrollment is posted with `payment_method: "card"`.
- The hero banner's educators fallback is `'25+'` followed by another `+`, so it shows "25++" (`HeroUi.MissingEducatorsShowsDoublePlus`).

JavaScript values are modelled as follows:

- A field that is absent or `null` is `None`.
- `||` on strings and numbers follows JavaScript truthiness: an empty string and the number 0 are falsy.
- `String(n)` for integer-valued numbers is `JsValues.NumberToString`, with a round-trip lemma for its digits.
- `toLocaleString` depends on the locale, so it is a parameter `localeString: int -> string`.

## Model

| member | source | states |
|---|---|---|
| Server.ParseProgramType | backend/server.py:30-35 | a string parses to the member whose value it is, and to None exactly when no member has that value |
| Server.ParsePaymentPlan | backend/server.py:37-39 | the same for the payment plan enum |
| Server.ParsePaymentMethod | backend/server.py:41-44 | the same for the payment method enum |
| Server.AllProgramTypesIsTheEnum | backend/server.py:30-35 | the list of program types holds the five enum members, each once, at its ordinal |
| Server.ProgramsData | backend/server.py:99-185 | the catalogue has one entry per program type in enum order, each with a positive monthly price and a quarterly price of 3.5 months |
| Server.FirstIndexOf | backend/server.py:204-206 | None exactly when no entry has the type; otherwise the first index holding it |
| Server.Charge | backend/server.py:222-223 | the quarterly price on the quarterly plan and the monthly price on any other; `Api.PriceAgreesWithBackend` ties it to the wizard's price |
| Server.CatalogueListsEveryType | backend/server.py:99-185 | in the catalogue, every program type is first found at its enum position |
| Server.QuarterCostsMoreThanThreeMonths | backend/server.py:104-105 | every catalogue entry's quarterly price exceeds three monthly prices |
| Server.GetPrograms | backend/server.py:192-199 | the loop returns the whole catalogue in order |
| Server.GetProgramFrom | backend/server.py:204-207 | the early-return loop yields the table's first entry of the type, or the 404 "Program not found" error when there is none |
| Server.GetProgram | backend/server.py:201-207 | returns the first catalogue entry of the type, or a 404 "Program not found" error when there is none |
| Server.CreateEnrollmentFrom | backend/server.py:213-229 | the break loop finds the table's first entry of the type; 404 when there is none, otherwise a pending enrollment echoing the request and charged `Charge` of that entry and the plan |
| Server.CreateEnrollment | backend/server.py:209-234 | 404 when no program has the type; otherwise a pending enrollment echoing the request, charged `Charge` of the first matching entry and the plan: the quarterly price on the quarterly plan, the monthly price otherwise |
| Server.SmartKidsMonthlyIsCharged1500 | backend_test.py:143-152 | the backend test's smart_kids monthly enrollment finds the third entry and is charged 1500 |
| Server.CreateConsultationRequest | backend/server.py:242-250 | the stored request echoes every field of the create model and has status "pending" |
| Server.PlatformStats | backend/server.py:258-271 | total students is 10000 plus the enrollment count; both counts are echoed; rate "99%", 25 educators and "24/7" are fixed |
| JsValues.Digits | frontend/src/components/StatsSection.jsx:23 | decimal digits of a natural number: non-empty, digits only, no leading zero |
| JsValues.DigitsRoundTrip | frontend/src/components/StatsSection.jsx:23 | reading the digits back yields the number |
| JsValues.NumberToString | frontend/src/components/StatsSection.jsx:23 | the string form of a safe integer: an optional '-' exactly for negatives, then decimal digits with no leading zero that denote its magnitude |
| JsValues.OccurrencesOfConcat | frontend/src/components/StatsSection.jsx:23 | counting a character distributes over concatenation |
| JsValues.OccurrencesOfAbsent | frontend/src/components/StatsSection.jsx:23 | a character that does not occur is counted zero times |
| EnrollmentUi.SetField | frontend/src/components/EnrollmentSection.jsx:75-77 | sets the named field of the contact draft and keeps the other four |
| EnrollmentUi.SelectedProgramDetails | frontend/src/components/EnrollmentSection.jsx:65-67 | None exactly when no program has the selected type; otherwise the first one that has it |
| EnrollmentUi.FirstMatchIsUnique | frontend/src/components/EnrollmentSection.jsx:65-67 | the first match is a single position |
| EnrollmentUi.CalculateAmount | frontend/src/components/EnrollmentSection.jsx:69-73 | 0 when no program matches; otherwise the first match's quarterly price for "quarterly" and its monthly price for any other plan |
| EnrollmentUi.EnrollmentSection.DisplayedAmount | frontend/src/components/EnrollmentSection.jsx:244-246 | the step-2 price is `CalculateAmount` over the programs prop, 0 with no selection |
| EnrollmentUi.PriceFollowsPlan | frontend/src/components/EnrollmentSection.jsx:69-73 | a 5000/12000 program shows 12000 on the quarterly plan and 5000 on the monthly one; an empty program list shows 0 |
| EnrollmentUi.Payload | frontend/src/components/EnrollmentSection.jsx:84-89 | the posted body spreads the draft and adds the selection, plan and method unchanged |
| EnrollmentUi.Available | frontend/src/components/EnrollmentSection.jsx:161-353 | which controls each step renders: program radios and Continue at step 1, plan radios, Back and Continue at step 2, inputs, Back and submit at step 3; the POST outcomes only while loading (used by `ApplyPreservesInv`, `RunPreservesInv`) |
| EnrollmentUi.CanContinueToPlan | frontend/src/components/EnrollmentSection.jsx:196-198 | `!selectedProgram` disables the button; in a state satisfying the invariant it is enabled exactly when a program is selected (`ContinueToPlanNeedsSelection`) |
| EnrollmentUi.CanSubmit | frontend/src/components/EnrollmentSection.jsx:344-346 | the submit button is disabled while loading; after a submit it is disabled (`SubmitOnlyWhenIdle`) |
| EnrollmentUi.Apply | frontend/src/components/EnrollmentSection.jsx:75-120 | only `ChoosePlan` changes the plan, nothing changes the method, only navigation and success change the step, only a radio and success change the selection, only an input and success change the draft, only submit and its outcomes change loading (more in `NavigationChangesOnlyStep`, `EditSetsOneField`, `SubmitOnlyWhenIdle`, `SuccessResetsAllButPlan`, `FailureKeepsDraft`) |
| EnrollmentUi.InitialSatisfiesInv | frontend/src/components/EnrollmentSection.jsx:20-31 | the mount state (step 1, no program, monthly, card, empty draft, idle) satisfies the invariant |
| EnrollmentUi.ApplyPreservesInv | frontend/src/components/EnrollmentSection.jsx:161-353 | each available handler keeps the step in 1..3, a selection past step 1, a selection among the radio values, a plan among the two plan values, and the method "card" |
| EnrollmentUi.RunPreservesInv | frontend/src/components/EnrollmentSection.jsx:161-353 | the invariant holds after every feasible sequence of events |
| EnrollmentUi.ReachableStates | frontend/src/components/EnrollmentSection.jsx:23 | in every reachable state the payment method is "card" and the step is 1, 2 or 3 |
| EnrollmentUi.ContinueToPlanNeedsSelection | frontend/src/components/EnrollmentSection.jsx:196-198 | step 1 moves to step 2 exactly when a program is selected and stays otherwise |
| EnrollmentUi.NavigationChangesOnlyStep | frontend/src/components/EnrollmentSection.jsx:196-341 | the four navigation buttons change only the step |
| EnrollmentUi.ForwardBackForward | frontend/src/components/EnrollmentSection.jsx:196-341 | each Back button exactly undoes the preceding Continue |
| EnrollmentUi.EditSetsOneField | frontend/src/components/EnrollmentSection.jsx:75-77 | an input event sets one draft field and changes nothing else in the state |
| EnrollmentUi.HandlersSetWhatTheyName | frontend/src/components/EnrollmentSection.jsx:170-254 | a program radio selects its value, a plan radio sets its plan, "Continue to Details" always moves step 2 to step 3, and the Back buttons move to steps 1 and 2 |
| EnrollmentUi.PlanRadiosSwitchPrice | frontend/src/components/EnrollmentSection.jsx:212-246 | in step 2 with a 5000/12000 program selected, choosing quarterly shows 12000 and then choosing monthly shows 5000 |
| EnrollmentUi.SubmitOnlyWhenIdle | frontend/src/components/EnrollmentSection.jsx:79-81 | the submit button is enabled exactly when idle; submitting sets loading, and a second submit while loading does nothing |
| EnrollmentUi.SuccessResetsAllButPlan | frontend/src/components/EnrollmentSection.jsx:99-120 | success returns to step 1 with no program, an empty draft and loading off, keeping plan and method |
| EnrollmentUi.FailureKeepsDraft | frontend/src/components/EnrollmentSection.jsx:110-120 | failure only clears loading |
| EnrollmentUi.QuarterlyPlanSurvivesSuccess | frontend/src/components/EnrollmentSection.jsx:99-108 | a feasible run (select, continue, quarterly, continue, submit, success) ends in the mount state except for the quarterly plan |
| EnrollmentUi.EnrollmentSection.constructor | frontend/src/components/EnrollmentSection.jsx:18-31 | the component mounts in the initial state with its programs prop |
| EnrollmentUi.EnrollmentSection.SelectProgram | frontend/src/components/EnrollmentSection.jsx:170-176 | a step-1 radio sets the selection, as Apply says |
| EnrollmentUi.EnrollmentSection.ContinueToPlan | frontend/src/components/EnrollmentSection.jsx:196-198 | moves to step 2 only with a selection, as Apply says |
| EnrollmentUi.EnrollmentSection.ChoosePlan | frontend/src/components/EnrollmentSection.jsx:212 | sets the plan, as Apply says |
| EnrollmentUi.EnrollmentSection.BackToProgram | frontend/src/components/EnrollmentSection.jsx:251 | returns to step 1, as Apply says |
| EnrollmentUi.EnrollmentSection.ContinueToDetails | frontend/src/components/EnrollmentSection.jsx:254 | moves to step 3, as Apply says |
| EnrollmentUi.EnrollmentSection.BackToPlan | frontend/src/components/EnrollmentSection.jsx:341 | returns to step 2, as Apply says |
| EnrollmentUi.EnrollmentSection.HandleInputChange | frontend/src/components/EnrollmentSection.jsx:75-77 | updates one draft field, as Apply says |
| EnrollmentUi.EnrollmentSection.HandleSubmit | frontend/src/components/EnrollmentSection.jsx:79-91 | when idle, posts the payload of the current state and sets loading; while loading, posts nothing and changes nothing |
| EnrollmentUi.EnrollmentSection.SubmitSucceeded | frontend/src/components/EnrollmentSection.jsx:99-120 | the try branch and finally: reset as Apply says |
| EnrollmentUi.EnrollmentSection.SubmitFailed | frontend/src/components/EnrollmentSection.jsx:110-120 | the catch branch and finally: only loading is cleared |
| ConsultationUi.SetField | frontend/src/components/ConsultationSection.jsx:36-38 | sets the named field and keeps the other four |
| ConsultationUi.EditSetsOneField | frontend/src/components/ConsultationSection.jsx:36-38 | an input event sets its field of the form's draft, keeps the other four and leaves loading unchanged |
| ConsultationUi.SubmitEnabled | frontend/src/components/ConsultationSection.jsx:198 | enabled exactly when not loading and every field but the phone is non-empty (`EmptyRequiredFieldDisables`, `RequiredFieldsEnable`, `PhoneNeverMatters`) |
| ConsultationUi.Available | frontend/src/components/ConsultationSection.jsx:142-150 | the age-group select offers only its five values; the POST outcomes happen only while loading (used by `ApplyPreservesInv`) |
| ConsultationUi.Apply | frontend/src/components/ConsultationSection.jsx:36-72 | only an input and success change the draft, an input never changes loading, a submit keeps the draft and leaves loading set exactly when it was set or the button was enabled, and both outcomes clear loading (more in `SubmitOutcomes`, `FailedSubmitCanBeRetried`) |
| ConsultationUi.ApplyPreservesInv | frontend/src/components/ConsultationSection.jsx:142-150 | the age group stays empty or one of the select's values |
| ConsultationUi.RunPreservesInv | frontend/src/components/ConsultationSection.jsx:142-150 | the same after any feasible sequence of events |
| ConsultationUi.InitialIsEmpty | frontend/src/components/ConsultationSection.jsx:19-26 | all five fields start empty and not loading, so the button starts disabled |
| ConsultationUi.EmptyRequiredFieldDisables | frontend/src/components/ConsultationSection.jsx:198 | any empty required field disables submission |
| ConsultationUi.RequiredFieldsEnable | frontend/src/components/ConsultationSection.jsx:198 | four filled required fields and no request in flight enable submission, whatever the phone |
| ConsultationUi.PhoneNeverMatters | frontend/src/components/ConsultationSection.jsx:131-198 | editing the phone never changes whether submission is enabled |
| ConsultationUi.SubmitOutcomes | frontend/src/components/ConsultationSection.jsx:53-72 | success empties all five fields, failure keeps the draft, and both clear loading |
| ConsultationUi.FailedSubmitCanBeRetried | frontend/src/components/ConsultationSection.jsx:40-72 | submit then failure returns to the same enabled state |
| ConsultationUi.ConsultationSection.constructor | frontend/src/components/ConsultationSection.jsx:19-26 | mounts with an empty draft, not loading |
| ConsultationUi.ConsultationSection.HandleInputChange | frontend/src/components/ConsultationSection.jsx:36-38 | updates one field, as Apply says |
| ConsultationUi.ConsultationSection.HandleSubmit | frontend/src/components/ConsultationSection.jsx:40-45 | when the button is enabled, posts the draft verbatim and sets loading; otherwise posts nothing and changes nothing |
| ConsultationUi.ConsultationSection.SubmitSucceeded | frontend/src/components/ConsultationSection.jsx:53-72 | empties the draft and clears loading |
| ConsultationUi.ConsultationSection.SubmitFailed | frontend/src/components/ConsultationSection.jsx:62-72 | only clears loading |
| ProgramsUi.IconFor | frontend/src/components/ProgramsSection.jsx:8-49 | the table's icon for a known type, Star otherwise |
| ProgramsUi.EmojiFor | frontend/src/components/ProgramsSection.jsx:16-50 | the table's emoji for a known type, the star emoji otherwise |
| ProgramsUi.Savings | frontend/src/components/ProgramsSection.jsx:51 | savings plus the quarterly price is three monthly prices; it is negative exactly when a quarter costs more than three months (`HalfMonthLoss`) |
| ProgramsUi.LookupTables | frontend/src/components/ProgramsSection.jsx:8-50 | distinct known types get distinct icons and emojis; an unknown type looks like little_learners |
| ProgramsUi.RoundedQuotientIsUnique | frontend/src/components/ProgramsSection.jsx:52 | the `Math.round` of a quotient is a single integer |
| ProgramsUi.FloorDiv | frontend/src/components/ProgramsSection.jsx:52 | division rounds toward negative infinity for either sign of divisor |
| ProgramsUi.SavingsPercent | frontend/src/components/ProgramsSection.jsx:51-52 | None exactly when the monthly price is 0; otherwise the rounded value of 100 × savings / (3 × monthly), halves rounded up |
| ProgramsUi.HalfMonthLoss | frontend/src/components/ProgramsSection.jsx:51-52 | a quarter at 3.5 months gives savings of minus half a month, shown as -17% |
| ProgramsUi.Cards | frontend/src/components/ProgramsSection.jsx:48-105 | one card per program in order, with its icon, emoji, signed savings, percentage and features, marked popular exactly at index 2 |
| ProgramsUi.MostPopularIsTheThirdCard | frontend/src/components/ProgramsSection.jsx:56-62 | no card is marked with fewer than three programs; otherwise exactly the third one is |
| StatsUi.StudentsValue | frontend/src/components/StatsSection.jsx:9 | the locale string of total students when present and non-empty, "10,000+" otherwise |
| StatsUi.SuccessValue | frontend/src/components/StatsSection.jsx:16 | the fetched success rate when truthy, "99%" otherwise |
| StatsUi.EducatorsValue | frontend/src/components/StatsSection.jsx:23 | the fetched number's string when truthy, else "25", followed by "+" |
| StatsUi.SupportValue | frontend/src/components/StatsSection.jsx:30 | the fetched support hours when truthy, "24/7" otherwise |
| StatsUi.StatItems | frontend/src/components/StatsSection.jsx:6-35 | four cards titled Students Enrolled, Success Rate, Expert Educators, Learning Support, whose values are the students, success, educators and support values in that order |
| StatsUi.EducatorsHaveOnePlus | frontend/src/components/StatsSection.jsx:23 | the educators card always ends in exactly one "+" |
| StatsUi.EmptyStatsShowFallbacks | frontend/src/components/StatsSection.jsx:9-30 | with `{}` the cards show "10,000+", "99%", "25+" and "24/7" |
| StatsUi.MissingSupportHoursFallsBack | frontend/src/components/StatsSection.jsx:9-30 | a stats object missing only support hours shows the fetched values and "24/7" |
| HeroUi.HeroFigures | frontend/src/components/HeroSection.jsx:63-84 | four figures, each the fetched value when truthy (for students: present with a non-empty locale string) and otherwise "10,000+", "99%", "25++" and "24/7"; the educators figure always ends in "+" |
| HeroUi.MissingEducatorsShowsDoublePlus | frontend/src/components/HeroSection.jsx:77 | without a truthy educators count the banner shows "25++", with two plus signs |
| HeroUi.HeroAgreesWithStats | frontend/src/components/HeroSection.jsx:63-84 | banner and cards agree on students, rate and support, and on educators exactly when the count is truthy |
| Api.ProgramsToJson | backend/server.py:192-199 | the serialised list has one JSON object per program, in order |
| Api.ProgramTypeValueIsInjective | backend/server.py:30-35 | distinct program types have distinct string values |
| Api.ProgramToJson | backend/server.py:47-55 | a program serialises with every field unchanged, and its `program_type` string parses back to its enum member |
| Api.StatsToJson | backend/server.py:264-271 | the stats object arrives with every field present and unchanged; each of its fields is truthy exactly when the backend's value is non-empty or non-zero |
| Api.DecodeEnrollment | backend/server.py:57-65 | a body passes enum validation exactly when its program type, plan and method are enum values, and the request model carries its fields unchanged |
| Api.DecodeConsultation | backend/server.py:91-96 | a body passes enum validation exactly when its age group is a program type; the phone string is always present |
| Api.FindAgreesWithBackend | frontend/src/components/EnrollmentSection.jsx:65-67 | on the serialised table, the frontend's `find` picks the entry the backend's loop picks |
| Api.PriceAgreesWithBackend | backend/server.py:213-223 | the wizard's displayed price equals the backend's charge, and is 0 exactly where the backend answers 404 |
| Api.FrontendChoicesFollowTheEnum | frontend/src/components/EnrollmentSection.jsx:33-39 | both frontend pick lists list the enum's values in enum order |
| Api.SubmittedEnrollmentIsAccepted | frontend/src/components/EnrollmentSection.jsx:84-91 | every body the wizard can post passes the backend's enum validation, pays by card, names the catalogue entry at its enum position and is charged the price step 2 showed |
| Api.SubmittedConsultationIsAccepted | frontend/src/components/ConsultationSection.jsx:45 | every body the enabled form posts passes the backend's enum validation and is stored pending, with its phone string present |
| Api.CatalogueCardsShowALoss | frontend/src/components/ProgramsSection.jsx:51-60 | all five catalogue cards show a negative saving of -17%, and the popular card is Smart Kids Mastery |
| Api.ServerStatsShowFetchedValues | backend/server.py:264-271 | with the backend's stats every card and banner figure takes the fetched branch: the locale total, "99%", "25+", "24/7" |

## Left out

- HTTP transport, axios, toasts and `console.error` are not modelled. The outcome of each POST is an event (`SubmitSucceeded` / `SubmitFailed`).
- MongoDB is not modelled, and neither are database failures (a failing `insert_one` raises and the endpoint answers 500). `count_documents` results are parameters of `Server.PlatformStats`.
- `get_enrollments` and `get_consultation_requests` are left out: they only read the database.
- The root endpoint, CORS, logging and the startup and shutdown hooks are left out: they hold no logic.
- uuid ids and timestamps are left out: they come from randomness and the clock.
- `EmailStr` validation and the browser's own form checks (the `required` attribute and the `type="email"` format check) are left out. Only the enum validation of the request models is modelled (`Api.DecodeEnrollment`, `Api.DecodeConsultation`).
- HomePage's two fetches and loading spinner are left out. Only its initial `[]` and `{}` props are used (`EnrollmentUi.PriceFollowsPlan`, `StatsUi.EmptyStatsShowFallbacks`).
- `scrollIntoView` is left out; it is a DOM call.
- `toLocaleString` is a parameter, because its output depends on the locale.
- FeaturesSection and App.js are left out: they are static layout.
- The option labels and emojis of the wizard, the consultation select, and the unused `paymentMethods` list are left out. Only their values are modelled.
- ProgramsUi.SavingsPercent: JavaScript's floating point division is modelled exactly in integers. The rounding of the IEEE 754 quotient may differ at exact halves. A monthly price of 0 is `None`, not NaN or Infinity.
- JsValues.NumberToString: covers safe integers only (at most 2^53 - 1 in magnitude, the range of `JsValues.JsInteger`). Larger numbers are rounded to a float and printed with the shortest round-trip digits, and non-integers are not modelled.
- ProgramsUi.IconFor: keys inherited from `Object.prototype` (such as `"constructor"`) are treated as unknown types.
- ProgramsUi.EmojiFor: the same for the emoji lookup; a prototype key would yield a function, which is truthy, rather than the fallback.
- Api.StatsToJson: requires the educators count to be a safe integer, the range where `JsValues.NumberToString` is JavaScript's `String`.
- EnrollmentUi.Available: a control counts as usable only while its step renders it. Events on controls that are not rendered cannot happen, so this is a precondition of the class's methods.
- EnrollmentUi.EnrollmentSection.HandleSubmit: it only starts a submission while the submit button is enabled. The source's handler sets `loading` unconditionally, but the disabled button prevents it from running while a request is in flight.
- ConsultationUi.ConsultationSection.HandleSubmit: it only starts a submission while the submit button is enabled. The source's handler sets `loading` unconditionally, but the button's `disabled` condition prevents it from running while loading or with a required field empty.
