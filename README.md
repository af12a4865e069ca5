# AffordaCity in Dafny

AffordaCity answers one question: can a salary afford a city? This project models the parts of the application that decide things, and proves what they promise.

- **City-cost cache (backend/server.js).** GET /api/cost/:city serves a stored `CityCost` record while it is at most seven days old. Otherwise it asks the pricing source and upserts the answer by city. GET /api/cities lists the store sorted by city.
- **Calculators.** POST /api/calculate derives monthly salary, rent, living cost and disposable income from two indices, with a strict `> 0` verdict. A validated variant (frontend/src/api/calculations.js) adds 400/404/500 answers and capitalised labels. The client-side estimate (frontend/src/components/lib/api.ts) gives a 0–100 score, which the result screen (step-three.tsx) bands at 60 and 80.
- **Bearer-token gate.** The `Bearer` middleware (backend/middleware/auth.js) and the looser middleware exported by backend/auth.js decide 401, 403 or `next`. The client interceptor (frontend/src/client.js) builds the header `Bearer <token>`. The axios client (frontend/src/api/client.js) prefixes URLs and normalises errors.
- **User registry.** Three register handlers share one user store with unique emails. They differ in field checks, status codes and hashing.
- **Calculation ledger.** Covers the `Calculation` schema, the owner-scoped read (backend/userCalc.js), and the client history in App.js: token expiry, the calculate guards, edit, delete, and the newest-first sort.
- **Calculator wizard.** The page (calculator.tsx) is a class over step, form and result. Its invariant says that from step two on, the form has passed step one. At step three, the result shown was computed for the form shown.

Some conventions hold throughout:

- Money and indices are `real`. JavaScript's NaN is modelled where it can arise, as `JsNum` in js_values.dfy. Time is `int` milliseconds.
- These external effects become parameters:
  - `jwt.verify` and `jwtDecode` become `string -> Option<Payload>`.
  - `bcrypt.hash` becomes `string -> string`.
  - Each remote answer, each failed store write and each failed request becomes an `Option`, a `bool` or a `Settled` value.
- Stateful code is modelled as classes with `modifies` clauses: the stores, the request/response pair, the axios config, the App page and the wizard. Computations are functions.

Some behaviour of the code is easy to misread, and the model states it as the code has it:

- **Refresh timestamp.** A refresh of an existing record keeps that record's `lastUpdated`. The upsert body omits the field, and the schema default applies only on insert. So a stale record that is refreshed stays stale (`CityCostCache.StaleRefreshStaysStale`).
- **City list shape.** GET /api/cities returns the bare sorted array of records, not `{cities, countries}`.
- **Worked example.** A salary of 60000 against rent index 95 and cost-of-living index 100 gives 5000 − 1900 − 3000 = 100, "affordable" (`CityCostCache.WorkedExample`).
- **Registration order.** backend/auth.js checks no fields before the lookup. When the password is absent, its `bcrypt.hash(undefined)` throws, which gives 500.
- **As-wired user calculations.** The middleware backend/userCalc.js imports never sets `req.user`. Its `./server` import exports no model. So every authenticated request gets 500 (`UserCalculations.AsWiredNeverLists`).

## Model

| member | source | states |
|---|---|---|
| CityCostCache.CityCostStore.ListCities | backend/server.js:32-39 | the list is sorted ascending by city and is a permutation of the stored records |
| CityCostCache.SortByCity | backend/server.js:34 | the result is sorted by city under the lexicographic order and has the same multiset of records |
| CityCostCache.InsertByCity | backend/server.js:34 | inserting into a city-sorted list keeps it sorted and adds exactly that record |
| CityCostCache.CityLeTotal | backend/server.js:34 | the ascending string order is total |
| CityCostCache.CityLeTransitive | backend/server.js:34 | the ascending string order is transitive |
| CityCostCache.FindFresh | backend/server.js:44-47 | a hit is a stored record of that city with `lastUpdated >= now - 7 days`; a miss means no such record exists |
| CityCostCache.IndexOfCity | backend/server.js:72-73 | the position of the first record with that city key, or none when no record has it |
| CityCostCache.FindCity | backend/server.js:89 | a hit is a stored record of the requested city; an absent city or an unknown city finds nothing |
| CityCostCache.CostDataOf | backend/server.js:62-69 | the six stored fields are the city asked for and the five index fields of the answer, with `restaurant_price_index` renamed |
| CityCostCache.CityCostStore.GetCost | backend/server.js:41-83 | on a fresh hit, the record is returned and the store is unchanged, with no fetch; otherwise the source is consulted; when the request to it fails or the upsert is rejected, 500 "Error fetching cost data" and the store is unchanged; otherwise the fetched fields are returned and upserted |
| CityCostCache.IsFresh | backend/server.js:46 | a record is fresh exactly while its age is at most seven days, in milliseconds |
| CityCostCache.Upsert | backend/server.js:72-76 | existing positions keep their city; the store grows by one exactly when no record of the city exists, and the new record holds the fetched fields stamped with the current time |
| CityCostCache.UpsertStoresExactlyOne | backend/server.js:72-76 | after the upsert the keys stay unique and exactly one record has the city, holding the six fetched fields |
| CityCostCache.UpsertKeepsOtherCities | backend/server.js:72-76 | records of other cities are untouched; the store grows by one only on insert |
| CityCostCache.UpsertTimestamp | backend/server.js:28 | an update keeps `lastUpdated`; an insert stamps the current time |
| CityCostCache.FindFreshUnique | backend/server.js:44-51 | under unique keys, the fresh lookup hits exactly when the city's only record is fresh, and returns that record |
| CityCostCache.StaleRefreshStaysStale | backend/server.js:28-76 | refreshing a stale existing record leaves it stale, so the next request fetches again |
| CityCostCache.InsertedRecordServedWhileFresh | backend/server.js:28-51 | a record first inserted at `now` is served from the store, with the fetched fields, for the next seven days, boundary included |
| CityCostCache.MonthlySalary | backend/server.js:95 | NaN exactly when the salary is; otherwise twelve times it is the salary |
| CityCostCache.EstimatedMonthlyRent | backend/server.js:96 | NaN exactly when the rent index is; otherwise a hundred times it is the index times the 2000 baseline |
| CityCostCache.EstimatedMonthlyLivingCost | backend/server.js:97 | NaN exactly when the cost-of-living index is; otherwise a hundred times it is the index times the 3000 baseline |
| CityCostCache.DisposableIncome | backend/server.js:99 | NaN exactly when an input is; otherwise disposable plus rent plus living cost is the monthly salary |
| CityCostCache.Verdict | backend/server.js:100 | "affordable" exactly when disposable income is a number greater than 0, else "not affordable" |
| CityCostCache.ComputeBreakdown | backend/server.js:95-110 | the response echoes the stored city and country; salary/12, rentIndex/100·2000 and costOfLivingIndex/100·3000; disposable is their difference; NaN exactly when an input is NaN; "affordable" exactly when salary/12 exceeds rent plus living cost, and otherwise "not affordable", the verdict of the disposable income |
| CityCostCache.ZeroDisposableIsNotAffordable | backend/server.js:99-100 | a disposable income of exactly 0 is "not affordable" |
| CityCostCache.WorkedExample | backend/server.js:95-100 | 60000 against indices 95 and 100 gives 5000, 1900, 3000, 100 and "affordable" |
| CityCostCache.CityCostStore.Calculate | backend/server.js:85-114 | no freshness check; 404 "City data not found" exactly when the city is not stored; otherwise the breakdown of the stored record; the store is only read |
| ValidatedCalculation.CapitalisedVerdict | frontend/src/api/calculations.js:28 | "Affordable" exactly when disposable income is greater than 0, else "Not Affordable" |
| ValidatedCalculation.AnyNaN | frontend/src/api/calculations.js:31-34 | when the guard lets a breakdown through, all four derived values are numbers |
| ValidatedCalculation.HandleCalculate | frontend/src/api/calculations.js:10-61 | 400 exactly when the city is empty or absent, or the salary is not a number; 404 exactly when both are given and the city is not stored; 500 exactly when the salary or a used index is NaN; a stored city with a numeric salary and indices always answers, with the stored city and country, salary/12, rent, living cost, disposable income as their difference, and "Affordable" when that is above 0, otherwise "Not Affordable" |
| ValidatedCalculation.AgreesWithServer | frontend/src/api/calculations.js:24-28 | where it answers, it gives the same numbers as the server route, and its label is the capitalised form of the server's |
| ValidatedCalculation.NaNSalaryIsServerError | frontend/src/api/calculations.js:14-36 | a NaN salary passes the type check and is refused 500 by the NaN guard |
| AffordabilityScore.Round | frontend/src/components/lib/api.ts:57 | `Math.round` returns the integer within half a unit, halves rounded up |
| AffordabilityScore.Clamp | frontend/src/components/lib/api.ts:57 | the result lies in 0..100 and equals its input inside that range |
| AffordabilityScore.MonthlyIncome | frontend/src/components/lib/api.ts:54 | sixteen times the income is the yearly salary; the income is positive exactly when the salary is |
| AffordabilityScore.TotalCost | frontend/src/components/lib/api.ts:55 | with non-negative category costs, the total is at least each of them |
| AffordabilityScore.Score | frontend/src/components/lib/api.ts:57 | the score lies in 0..100, and a zero surplus scores 60 |
| AffordabilityScore.Compute | frontend/src/components/lib/api.ts:53-70 | copies every form field and category cost; income·16 = salary; total is the sum of the five costs; surplus + total = income; score in [0, 100]; a zero surplus scores 60 |
| AffordabilityScore.CalculateAffordability | frontend/src/components/lib/api.ts:49-71 | a result exactly when the cost data was fetched, and then the computed one |
| AffordabilityScore.RoundAtLeast | frontend/src/components/lib/api.ts:57 | `Math.round(x) >= n` exactly when `x >= n - 0.5` |
| AffordabilityScore.ScoreThresholds | frontend/src/components/lib/api.ts:57 | score ≥ 60 iff surplus% ≥ −0.5; ≥ 80 iff ≥ 19.5; = 100 iff ≥ 39.5; = 0 iff < −59.5 |
| AffordabilityScore.ScoreMonotone | frontend/src/components/lib/api.ts:57 | a larger surplus against the same income never lowers the score |
| AffordabilityScore.ScoreAtLeast60InMoney | frontend/src/components/lib/api.ts:54-57 | the score reaches 60 exactly when 200·surplus ≥ −income |
| ResultView.AffordabilityColor | frontend/src/components/calculator/step-three.tsx:16-20 | emerald iff score ≥ 80, yellow iff 60 ≤ score < 80, red iff score < 60 |
| ResultView.AffordabilityIcon | frontend/src/components/calculator/step-three.tsx:22-25 | upright and emerald iff score ≥ 60, else upside down and red |
| ResultView.AffordabilityMessage | frontend/src/components/calculator/step-three.tsx:27-31 | the three messages, each exactly on its band |
| ResultView.LifestyleText | frontend/src/components/calculator/step-three.tsx:50 | the comfortable-lifestyle text iff score ≥ 60 |
| ResultView.BadgeClass | frontend/src/components/calculator/step-three.tsx:52 | the green badge iff score ≥ 60 |
| ResultView.SurplusPercentage | frontend/src/components/calculator/step-three.tsx:33 | the percentage times the income is a hundred times the surplus; against a positive income it is positive exactly when the surplus is |
| ResultView.SurplusLabel | frontend/src/components/calculator/step-three.tsx:142 | "Surplus" iff surplus > 0, else "Deficit" |
| ResultView.CurrentCityExpenses | frontend/src/components/calculator/step-three.tsx:166 | "4,200" iff totalCost > 3000, else "2,800" |
| ResultView.BandsAgree | frontend/src/components/calculator/step-three.tsx:16-52 | colour, message, icon, sentence and badge switch at the same thresholds |
| ResultView.MessageBySurplusPercentage | frontend/src/components/calculator/step-three.tsx:27-33 | for a computed result, the message is fixed by the surplus percentage: from 19.5 %, from −0.5 % and below −0.5 % |
| ResultView.SurplusIsNeverRed | frontend/src/components/calculator/step-three.tsx:16-142 | a surplus always gets the upright icon; the red colour always comes with "Deficit" |
| ResultView.SmallDeficitStillModerate | frontend/src/components/calculator/step-three.tsx:27-142 | a 0.4 % deficit reads "You can moderately afford" beside "Deficit" |
| Credentials.TokenField | backend/middleware/auth.js:11 | `split(' ')[1]`, used by both middlewares, is defined exactly when the header holds a space, and is itself space-free |
| Credentials.BearerHeaderHasToken | backend/middleware/auth.js:6-11 | a header starting with "Bearer " always has a second field, the text after the prefix up to the next space |
| BearerMiddleware.Decide | backend/middleware/auth.js:4-23 | 401 "No token provided" iff the header is missing, empty or not "Bearer "-prefixed; 403 "Invalid token" iff the second field fails verification; accept with the verified payload otherwise |
| BearerMiddleware.Authenticate | backend/middleware/auth.js:4-23 | on 401/403 `next` is not called and `req.user`/`req.userId` are unchanged; on success `req.user` is the payload, `req.userId` its `userId`, and `next` is called once; a fresh request gets exactly one outcome |
| BackendAuth.Decide | backend/auth.js:26-38 | 401 "No token" iff the header is missing or empty, with no scheme check; accept iff the second field exists and verifies; 403 "Invalid token" otherwise |
| BackendAuth.VerifyToken | backend/auth.js:26-38 | on success only `req.userId` is set, and `next` is called once; `req.user` is never touched; 401/403 call no `next` |
| BackendAuth.Register | backend/auth.js:8-24 | no field check; a taken email gives 400 "Email already registered" with the store unchanged; an absent password or a failed save gives 500 "Registration failed"; otherwise one user is added with the hashed password, and 201; emails stay unique |
| BackendAuth.AgreeOnBearerHeaders | backend/auth.js:28-37 | on a "Bearer "-prefixed header both middlewares accept or refuse together, with the same payload |
| BackendAuth.AcceptsAnyScheme | backend/auth.js:28-30 | a header with another scheme word and a valid token passes here and is refused 401 by the bearer middleware |
| BackendAuth.BareBearer | backend/auth.js:28-36 | the header "Bearer": 401 from the bearer middleware, 403 here |
| Users.EmailTaken | frontend/src/api/register.js:18 | `findOne({ email })` finds a user exactly when that email is among the stored users' emails |
| Users.AppendFreshEmail | frontend/src/api/register.js:18-34 | adding a user whose email is free keeps emails unique and makes that email taken |
| Users.UserCollection.Save | frontend/src/api/register.js:34 | the store gains exactly that user and keeps unique emails |
| RegisterRoute.MissingField | frontend/src/api/register.js:13 | no field is missing exactly when all three are given and non-empty |
| RegisterRoute.Register | frontend/src/api/register.js:8-41 | a missing field gives 400 "All fields are required" with no change; a taken email gives 409 "Email already in use"; a failed save gives 500 "Server error during registration"; otherwise exactly one user is added with the hashed password, and 201; emails stay unique |
| AuthRoutes.Register | backend/routes/authRoutes.js:10-32 | a missing field gives 400 "All fields required"; a taken email gives 400 "Email already registered" and no insert; a failed save gives 500 "Registration failed"; otherwise the user is added with the password as given, and 201; emails stay unique |
| TokenClient.BearerHeader | frontend/src/client.js:12 | the header starts with "Bearer " followed by exactly the token |
| TokenClient.AttachToken | frontend/src/client.js:8-18 | with a truthy stored token only `headers.Authorization` is set, to `Bearer <token>`; otherwise the config is unchanged |
| TokenClient.BearerRoundTrip | frontend/src/client.js:12 | for a non-empty space-free token, the bearer middleware extracts exactly the token, never answers 401, and follows the verifier |
| TokenClient.TokenCutAtSpace | frontend/src/client.js:12 | a token holding a space reaches the middleware cut at the first space |
| ApiClient.PrefixedUrl | frontend/src/api/client.js:16-18 | URLs starting with /api or /auth are unchanged; any other gets "/api" in front |
| ApiClient.PrefixedUrlIsRouted | frontend/src/api/client.js:16-18 | every URL leaves the interceptor under /api or /auth |
| ApiClient.PrefixIdempotent | frontend/src/api/client.js:16-18 | two passes of the interceptor equal one |
| ApiClient.PrefixUrl | frontend/src/api/client.js:14-22 | only the URL changes, to its prefixed form |
| ApiClient.OnFulfilled | frontend/src/api/client.js:26-35 | rejects exactly when the body's `error` is truthy, with its message or "API Error", the body and the status; otherwise resolves to the body |
| ApiClient.OnRejected | frontend/src/api/client.js:36-49 | always rejects, with the normalised message, the request URL, and the response status and body when there was a response |
| ApiClient.ErrorMessage | frontend/src/api/client.js:37-39 | never empty, and one of the body's message, the error's message or "Network Error" |
| ApiClient.ErrorMessagePriority | frontend/src/api/client.js:37-39 | the message is the body's message if truthy, else `error.message` if truthy, else "Network Error"; it is never empty |
| ApiClient.RejectionsHaveMessage | frontend/src/api/client.js:26-49 | every rejection either handler produces has a non-empty message |
| CalculationSchema.Create | backend/models/Calculations.js:3-13 | rejected on path "userId" exactly when `userId` is absent; otherwise every given field is kept, and the timestamp defaults to now |
| CalculationSchema.CreateAsInput | backend/models/Calculations.js:3-13 | a stored record re-created from its own fields is itself |
| CalculationSchema.OnlyOwnerRequired | backend/models/Calculations.js:5-12 | a document with only a `userId` is accepted, every other field absent and the timestamp now |
| CalculationSchema.AnyAffordabilityLabel | backend/models/Calculations.js:11 | any string is kept as `affordability` |
| UserCalculations.OwnedBy | backend/userCalc.js:10 | exactly the ledger records whose `userId` equals the caller's id |
| UserCalculations.OwnedByAppend | backend/userCalc.js:10 | the filter keeps ledger order: it distributes over concatenation |
| UserCalculations.OwnersDisjoint | backend/userCalc.js:9-10 | different callers see disjoint records |
| UserCalculations.HandleList | backend/userCalc.js:7-16 | 500 "Server error" exactly when `req.user` or the model is missing; otherwise the caller's records; the ledger is only read |
| UserCalculations.HandlerScopesToCaller | backend/userCalc.js:9-11 | a ledger record is listed exactly when it belongs to the caller |
| UserCalculations.Route | backend/userCalc.js:3-7 | a refusal exactly when the middleware refuses, with 401 and its error when it answers 401 and 403 and its error when it answers 403; on acceptance the handler's answer with no `req.user` |
| UserCalculations.AsWiredNeverLists | backend/userCalc.js:3-15 | as wired no request is answered with records: passing the middleware means 500 |
| AppHistory.Expired | frontend/src/App.js:51 | a token that does not decode counts as expired; one without `exp` never expires |
| AppHistory.ExpiryIsPermanent | frontend/src/App.js:50-51 | once the expiry check fails it fails at every later time |
| AppHistory.ExpiryBoundary | frontend/src/App.js:51 | a token with `exp` is live until `exp·1000 − 1` ms and expired from `exp·1000` on |
| AppHistory.AppState.CheckStoredToken | frontend/src/App.js:45-62 | no token changes nothing; an expired or undecodable token is removed and logs out; a live one logs in |
| AppHistory.AppState.Logout | frontend/src/App.js:110-113 | the token is removed and the page is logged out; nothing else changes |
| AppHistory.Complete | frontend/src/App.js:137-141 | no body is incomplete; a body is complete exactly when its rent and disposable income are numbers, whatever its other fields |
| AppHistory.SaveRequestOf | frontend/src/App.js:147-156 | the save body carries the answer's fields, the entered salary and the request time |
| AppHistory.AppState.HandleCalculate | frontend/src/App.js:122-172 | an empty city or salary does nothing; a rejection shows its message; an answer without numeric rent and disposable shows "Incomplete data from the server." and saves nothing; a complete one becomes the result and is saved |
| AppHistory.SuccessColour | frontend/src/App.js:373 | any verdict containing "affordable" or "Affordable" is shown in the success colour, since lower-casing keeps the word |
| AppHistory.EveryVerdictLooksSuccessful | frontend/src/App.js:373-473 | both calculate handlers' verdicts are all shown in the success colour, the negative ones included |
| AppHistory.AppState.EditCalculation | frontend/src/App.js:175-178 | the item becomes the one being edited, and its salary the edited value |
| AppHistory.AppState.SaveEditedCalculation | frontend/src/App.js:181-205 | no edit in progress, or a salary that is blank, 0 or negative, changes nothing; otherwise only that item's salary changes, the edit ends, and the update with its timestamp is returned |
| AppHistory.AppState.DeleteCalculation | frontend/src/App.js:209-226 | exactly the item at the index is removed, and its timestamp is sent; past the end nothing changes |
| AppHistory.InsertNewestFirst | frontend/src/App.js:443 | inserting into a newest-first list keeps it newest first and adds exactly that record |
| AppHistory.SortNewestFirst | frontend/src/App.js:443 | the list is ordered by timestamp descending and has the same records |
| AppHistory.SortKeepsSorted | frontend/src/App.js:443 | an already newest-first list is left as it is |
| AppHistory.SortIdempotent | frontend/src/App.js:443 | sorting on every render is the same as sorting once |
| AppHistory.AppState.SortHistory | frontend/src/App.js:442-443 | the in-place sort leaves the records newest first and a permutation of the old ones |
| StepOne.NumberOf | frontend/src/pages/calculator.tsx:47 | `Number("")` is 0; an entered number is itself |
| StepOne.CheckStepOne | frontend/src/components/calculator/step-one.tsx:16-27 | missing fields iff the salary or current city is empty; invalid salary iff it is NaN or ≤ 0; next otherwise |
| StepOne.Alert | frontend/src/components/calculator/step-one.tsx:19-23 | a refused submission gets a non-empty alert, the missing-fields one exactly when fields are missing |
| StepOne.PassingFormHasPositiveSalary | frontend/src/components/calculator/step-one.tsx:22-26 | a form that passes step one has a positive numeric salary |
| StepOne.CheckIgnoresTargetAndCurrency | frontend/src/components/calculator/step-one.tsx:18-25 | the target city and the currency do not affect the step-one check |
| StepTwo.PopularCitiesWellFormed | frontend/src/components/calculator/step-two.tsx:22-29 | six popular cities with distinct, non-empty names |
| StepTwo.CheckStepTwo | frontend/src/components/calculator/step-two.tsx:58-64 | moves on iff a target city is set, else the alert "Please select a city to compare" |
| StepTwo.CitySearch.SetQuery | frontend/src/components/calculator/step-two.tsx:85 | only the query changes |
| StepTwo.CitySearch.RunSearch | frontend/src/components/calculator/step-two.tsx:31-48 | queries shorter than 2 clear the results without searching; otherwise the results are what the search returned, or empty on failure, and searching ends |
| CalculatorPage.ScoreRequest | frontend/src/pages/calculator.tsx:46-51 | the request carries the form's currency and cities and the numeric salary |
| CalculatorPage.Wizard.constructor | frontend/src/pages/calculator.tsx:14-22 | step 1, the empty form in USD, no result |
| CalculatorPage.Wizard.EnterSalary | frontend/src/components/calculator/step-one.tsx:51 | only the salary field changes |
| CalculatorPage.Wizard.ChooseCurrency | frontend/src/components/calculator/step-one.tsx:64 | only the currency changes, to one of the five offered |
| CalculatorPage.Wizard.EnterCurrentCity | frontend/src/components/calculator/step-one.tsx:88 | only the current city changes |
| CalculatorPage.Wizard.SubmitStepOne | frontend/src/components/calculator/step-one.tsx:16-27 | step 2 exactly when the check passes; otherwise the matching alert and no change |
| CalculatorPage.Wizard.SelectCity | frontend/src/components/calculator/step-two.tsx:54-56 | only the target city changes |
| CalculatorPage.Wizard.StepTwoPrevious | frontend/src/pages/calculator.tsx:114 | back to step 1 with the form and result kept |
| CalculatorPage.Wizard.HandleCalculate | frontend/src/pages/calculator.tsx:43-64 | the form is unchanged and calculation ends; fetched cost data gives step 3 with the computed result; a failure changes nothing |
| CalculatorPage.Wizard.SubmitStepTwo | frontend/src/components/calculator/step-two.tsx:58-64 | no target city gives the alert and no change; otherwise it calculates |
| CalculatorPage.Wizard.HandleSave | frontend/src/pages/calculator.tsx:66-70 | the current result is what is saved; at step 3 it exists and matches the form |
| CalculatorPage.Wizard.HandleStartNew | frontend/src/pages/calculator.tsx:72-81 | step 1, the initial form, no result |
| CalculatorPage.Wizard.HandleCompareMore | frontend/src/pages/calculator.tsx:83-86 | step 2 with only the target city cleared; the result is kept |

## Left out

- Network, database and timer I/O. Remote answers and failures are parameters. Exceptions from the store's reads, and the catch blocks they reach (500 `err.message` in both calculate routes and in /api/cities), are not modelled.
- Infinity and JavaScript's rounding of `real` arithmetic to 64-bit floats; numbers are exact reals, with NaN only where a missing stored index or a non-numeric salary produces it.
- Mongoose casting: a filter value that is undefined is taken to match only records without that field, and ObjectId/Date casting of `userId` and `timestamp` is not modelled.
- backend/User.js and frontend/src/models/User.js are not part of this model; users are records of three optional strings, and no unique index of the database is assumed.
- The pricing source's answer with fields missing: it is a `Quote` of five `JsNum` values, and a field it omits is not distinguished from NaN.
- The debounce of the city search (step-two.tsx line 50) and its cancellation: `RunSearch` runs the search for the current query.
- Rendering, toasts, snackbars, console logging and loading spinners, except the `isCalculating` flag of the wizard.
- `fetchUserCalculations` and the city fetch in App.js, which replace the list from the server after each change, are not modelled; the history's local edits are.
- AppHistory.AppState.SaveEditedCalculation: an editing index past the end of the list (possible after a delete) leaves the list unchanged in the model, whereas the code writes a new element holding only the salary.
- AppHistory.AppState.SaveEditedCalculation: a non-empty edited salary that reads as NaN is refused and changes nothing in the model, whereas the code's guard (`NaN <= 0` is false) lets it through and sends `parseFloat`'s NaN. The salary input is of type number, so a browser does not produce such text; stored salaries are modelled as reals, which cannot hold NaN.
- AppHistory.SortNewestFirst: the stability of `Array.prototype.sort` among equal timestamps is not stated, and timestamps are integers rather than date strings.
- AppHistory.AppState.HandleCalculate: the loading flag and the re-fetch after saving are not modelled.
- StepTwo.CitySearch.RunSearch: `length` counts characters, not UTF-16 code units.
- CityCostCache.Upsert: an upsert that inserts is taken to apply the schema default, so the new record's `lastUpdated` is the current time. Mongoose does this by default from version 6 on. Version 5, which the connection options in backend/server.js lines 13-16 suggest, does it only with `setDefaultsOnInsert`. The package manifest is not part of this model, so the version cannot be settled.
- `toLowerCase` is modelled on ASCII letters only (`JsValues.ToLower`); for the verdicts, which are ASCII, this is exact.
- The password comparison, login and token issuing routes are not part of the core and are not modelled.
