# Consulting-request intake: a Dafny model

This project models the core of a small consulting-request intake app and proves
properties of that model. The app has five parts:

- a public form that posts a request;
- an Express router that validates the request, normalises it, stores it in a DynamoDB table, and lists, reads and updates stored requests;
- three serverless handlers:
  - `lambda-updated` covers the same routes over the same table;
  - `lambda-standalone` keeps the requests in a JSON file;
  - `lambda-simple` answers only stubs;
- an admin dashboard that filters the list, changes a request's status and adds communications;
- a project showcase with its own filter.

## Modules

- `Values`: the JavaScript values the code works on:
  - string-valued JSON objects as `map<string, string>`;
  - truthiness, `x || d`;
  - `trim` over the ECMAScript white-space set;
  - ASCII `toLowerCase`, `includes`, `startsWith`;
  - `split('/').pop()`;
  - an order-keeping `filter`.
- `Email`: the pattern `^[^\s@]+@[^\s@]+\.[^\s@]+$`, together with a plain reading of it. The two are proved equivalent.
- `Validation`: shared by the router and `lambda-updated`:
  - the required-field check, then the email check;
  - the stored item;
  - the PUT handler's `params`;
  - the attributes an update writes.
- `RequestTable`: the table as a class holding a `map` from id to item, with `put`, `get`, `update` and `scan`.
- `ConsultingRouter`: the four Express routes, each as a method over the table.
- `Http`: the gateway event, the parsed body, the payload shapes, and the mock `res` object as a class with `status` and `json`.
- `UpdatedLambda`, `StandaloneLambda`, `SimpleLambda`: each handler as a method. One or two reference definitions state what it answers and what it leaves in its store.
- `Dashboard`, `Form`: the React components' state as classes, one method per asynchronous or state-changing handler that is modelled. The setters of the filter inputs are not methods; their values are the inputs of the filter functions. `Dashboard` also holds the pure filter and colour map.
- `Showcase`: the pure project filter and colour map.

## What the environment supplies

Values from outside the code are parameters:

- Outcomes of foreign calls:
  - `fault` is the message of a rejected DynamoDB call;
  - `writeFails` says whether `fs.writeFileSync` throws;
  - `FileState` is the state of the request file;
  - `Fetched`, `posted` and `SubmitAnswer` are what a browser `fetch` answered.
- Drawn values: `id` and `stamp` are the uuid and the `Date.now()` id, and `now` is the ISO timestamp.

## Model

| member | source | states |
|---|---|---|
| Values.TrimStart | backend/routes/consulting.js:63 | the leading half of `trim`; what it keeps and cuts is stated by TrimStartCuts |
| Values.TrimEnd | backend/routes/consulting.js:63 | the trailing half of `trim`; what it keeps and cuts is stated by TrimEndCuts |
| Values.Trim | backend/routes/consulting.js:63-70 | `String.prototype.trim`, both ends; TrimNoSpace and TrimAllSpace state its two edge cases |
| Values.Includes | frontend/src/components/consulting/ConsultingDashboard.tsx:152-154 | `String.prototype.includes`; IncludesAt and IncludesWitness state that it holds exactly when the needle occurs at some offset |
| Values.TrimStartCuts | backend/routes/consulting.js:63 | `trim` removes only leading white space, and all of it: what is kept is a suffix that does not start with white space, and what is removed is all white space |
| Values.TrimEndCuts | backend/routes/consulting.js:63 | the same for trailing white space: what is kept is a prefix that does not end with white space |
| Values.TrimNoSpace | backend/routes/consulting.js:64 | a string without white space is its own trim |
| Values.TrimAllSpace | backend/routes/consulting.js:63-70 | a string made only of white space trims to "" |
| Values.Lower | backend/routes/consulting.js:64 | `toLowerCase` keeps the length and lower-cases each ASCII letter in place |
| Values.LowerKeepsNoSpace | backend/routes/consulting.js:64 | lower-casing introduces no white space |
| Values.IncludesAt | frontend/src/components/consulting/ConsultingDashboard.tsx:152-154 | `includes` finds the needle at any offset where it occurs |
| Values.IncludesWitness | frontend/src/components/consulting/ConsultingDashboard.tsx:152-154 | conversely, when `includes` holds there is an offset where the needle occurs |
| Values.LastSegment | backend/lambda-updated.js:275 | `split('/').pop()` is a '/'-free suffix of the path, and it is either the whole path or preceded by a '/' |
| Values.LastSegmentAfterSlash | backend/lambda-updated.js:306-307 | after a '/', a '/'-free segment is the last segment |
| Values.Filter | frontend/src/components/consulting/ConsultingDashboard.tsx:149 | `filter` yields a subsequence of its input whose elements all pass, and it keeps every element that passes |
| Values.FilterCount | frontend/src/components/consulting/ConsultingDashboard.tsx:149 | `filter` keeps every occurrence of a passing value and none of a failing one |
| Values.FilterKeepsAll | frontend/src/components/consulting/ConsultingDashboard.tsx:149 | a filter that passes everything returns its input |
| Email.EmailRegexTest | backend/routes/consulting.js:50-51 | a match of `^[^\s@]+@[^\s@]+\.[^\s@]+$`, split at its '@' and its literal '.'; EmailRegexIff equates it with the plain shape |
| Email.RegexImpliesShape | backend/routes/consulting.js:50-51 | a match of the pattern has no white space, exactly one '@' with something before it, and a '.' inside the domain that is neither its first nor its last character |
| Email.ShapeImpliesRegex | backend/routes/consulting.js:50-51 | every string of that shape matches the pattern |
| Email.EmailRegexIff | backend/routes/consulting.js:50-51 | the pattern accepts exactly the strings of that shape |
| Email.LowerKeepsAt | backend/routes/consulting.js:64 | lower-casing keeps the number of '@' and the position of the first one |
| Email.LowerShape | backend/routes/consulting.js:64 | the lower-cased form of an accepted email is accepted |
| Validation.CheckCreate | backend/routes/consulting.js:42-56 | the missing-field error is returned exactly when name, email or description is falsy. The format error is returned exactly when all three are truthy and the email does not match. The fields are checked first |
| Validation.StoredItem | backend/routes/consulting.js:61-77 | the stored item has exactly the fifteen attributes of the object literal, carries the drawn id and status 'pending', and has createdAt equal to updatedAt, both the drawn timestamp |
| Validation.NewRequest | backend/routes/consulting.js:42-77 | the create handler fails exactly when the check fails, and with the check's error. On success, its three required fields are truthy, its email matches and its item is the stored item |
| Validation.StoredEmailIsLowered | backend/routes/consulting.js:50-64 | the stored email is exactly the lower-case of an accepted input, and it is trimmed of nothing; it still has the accepted shape |
| Validation.OmittedFieldsGetDefaults | backend/routes/consulting.js:65-73 | each optional field that is falsy is stored with its default, field by field: company, phone, preferredDate and preferredTime as '', projectType as 'General Consulting', budget as 'Not specified', timeline as 'Flexible', communicationPreference as 'email' |
| Validation.SuppliedFieldsKept | backend/routes/consulting.js:67-73 | supplied engagement fields are stored verbatim, without trimming |
| Validation.ContactFieldsTrimmed | backend/routes/consulting.js:63-70 | name, description, company and phone are stored trimmed (company and phone are '' when absent); email is stored trimmed and lower-cased |
| Validation.BlankNamePassesAndIsStoredEmpty | backend/routes/consulting.js:42-70 | validation looks at the untrimmed values, so a white-space name and description pass and are stored as '' |
| Validation.UpdateParamsFor | backend/routes/consulting.js:196-215 | the update is keyed by the path id. Its expression is the base SET expression, followed by `, notes = :notes` exactly when notes is truthy. It always binds `:status` to the status and `:updatedAt` to the timestamp, and binds `:notes`, to the notes, exactly when the notes clause is present. So the parameters are well formed |
| Validation.BuildUpdateParams | backend/routes/consulting.js:196-215 | the in-place construction (`+=` on the expression, then adding `:notes`) ends with those parameters |
| Validation.WellFormedUpdate | backend/routes/consulting.js:201-214 | what the store demands of the parameters, for the two expressions the handlers build: each value the expression names is bound, and each bound value is named by it (a definition; UpdateParamsFor ensures it) |
| Validation.Assignments | backend/routes/consulting.js:201-214 | for well-formed parameters, the attributes written are read off the expression: `status` and `updatedAt` always, `notes` exactly when the notes clause is present. Each gets the value its placeholder is bound to |
| Validation.UpdateRejection | backend/routes/consulting.js:205-230 | a PUT is refused exactly when the store fails or the body has no status. The store's own error comes first |
| RequestTable.Merged | backend/routes/consulting.js:209-217 | for well-formed parameters, the `ALL_NEW` attributes are the item's attributes plus those the SET expression writes: status, updatedAt and any notes hold their bound values, and every other attribute of an existing item is unchanged. A missing key yields an item holding its id |
| RequestTable.Table.constructor | backend/routes/consulting.js:12-13 | a modelling device standing for the table handle these lines open: a fresh table that is empty and Valid() (every item under its own id) |
| RequestTable.Table.Put | backend/routes/consulting.js:80-85 | `put` stores the item under its id, replacing any item there, and keeps every item under its own id |
| RequestTable.Table.Get | backend/routes/consulting.js:160-167 | `get` finds an item exactly when one is stored under the key, and returns it unchanged |
| RequestTable.Table.Update | backend/routes/consulting.js:217 | `update` stores the merged item under the key and returns it; every item stays under its own id |
| RequestTable.Table.ListKeys | backend/routes/consulting.js:140 | the loop over the stored keys yields each key exactly once |
| RequestTable.Table.Scan | backend/routes/consulting.js:140-145 | `scan` returns every stored item exactly once, unchanged, in some order, as if the whole table fit in one page |
| RequestTable.UpdateTouchesOnlyItsAttributes | backend/routes/consulting.js:196-217 | the item after an update has the attributes it had plus status, updatedAt and (when notes is truthy) notes, which hold the new status, the timestamp and the notes. Every other attribute keeps its value |
| RequestTable.MergedKeepsId | backend/routes/consulting.js:198-217 | the updated item keeps the id it is stored under |
| ConsultingRouter.Create | backend/routes/consulting.js:25-131 | 400 with the check's message and nothing stored; 500 with the store's message and nothing stored; otherwise the item is stored under the new id and the answer is 201 with only the id |
| ConsultingRouter.List | backend/routes/consulting.js:134-155 | 500 with the store's message, or 200 with the scan's listing |
| ConsultingRouter.GetById | backend/routes/consulting.js:158-188 | 500 with the store's message; 404 'Consulting request not found' when no item has the id; otherwise 200 with the stored item unchanged |
| ConsultingRouter.UpdateById | backend/routes/consulting.js:191-232 | 500 with the rejection's message and the table unchanged. Otherwise 200 with the merged item, which is also what the table now holds under the id. There is no existence check |
| ConsultingRouter.CreatedIsFound | backend/routes/consulting.js:25-188 | a create that passes validation and meets no store fault answers 201 with the new id. A get of that id then answers 200 with the item built from the body, which carries that id and status 'pending' |
| ConsultingRouter.UpdateIdempotent | backend/routes/consulting.js:191-217 | repeating an update with the same parameters changes nothing more |
| Http.MethodOf | backend/lambda-updated.js:27 | the method is the event's method, else the request context's method, else 'GET' |
| Http.PathOf | backend/lambda-updated.js:28 | the path is the event's path, else its raw path, else '/' |
| Http.ResponseRecorder.constructor | backend/lambda-simple.js:105-113 | `res` starts with status 200 and an empty body |
| Http.ResponseRecorder.Status | backend/lambda-simple.js:114-117 | `status(c)` sets the status to c, keeps the body and returns the same object |
| Http.ResponseRecorder.WriteJson | backend/lambda-simple.js:118-121 | `json(d)` sets the body to d and keeps the status |
| Http.ResponseRecorder.Snapshot | backend/lambda-simple.js:191-195 | the returned `{statusCode, headers, body}`: the status and body `res` holds, with the CORS header set (a definition; SimpleLambda.Handler states that the triple is the expected one) |
| UpdatedLambda.CreateWithoutBodyRefused | backend/lambda-updated.js:143-168 | a create with no body sees `{}`: it gets 400 with the missing-fields message, and nothing is stored |
| UpdatedLambda.UpdateWithoutBodyRefused | backend/lambda-updated.js:306-330 | an update with no body has an undefined status: it gets 500 with the store's refusal, and the table is unchanged |
| UpdatedLambda.RouteOf | backend/lambda-updated.js:42-121 | the handler's dispatch: OPTIONS, then the fixed paths, then the consulting prefix, else no route; DispatchOrder states the order |
| UpdatedLambda.IdRoute | backend/lambda-updated.js:274 | the test `/^\/api\/consulting\/[^\/]+$/`; IdRouteIff states what it accepts |
| UpdatedLambda.ActionOf | backend/lambda-updated.js:143-351 | the branch of the consulting routes a method and path take, the unknown route last |
| UpdatedLambda.ConsultingWritesAtMostOne | backend/lambda-updated.js:143-351 | the consulting routes change the table at most at one key, and only for a POST or a PUT |
| UpdatedLambda.BodyFields | backend/lambda-updated.js:30 | the parsed body as an object: an absent body is `{}`; an unparsable one never reaches it (a definition; CreateWithoutBodyRefused and UpdateWithoutBodyRefused state what an absent body leads to) |
| UpdatedLambda.ConsultingAnswers | backend/lambda-updated.js:140-365 | the reference definition of the consulting routes: a create gets 400 with the check's message, 500 with the store's message, or 201 with the id and the item stored under the drawn id; a listing gets 500 or 200 with every item once, in any order; a get of an id gets 500, 404 when absent, or 200 with the item; an update gets 500 with the rejection or 200 with the merged item stored under the id; any other action gets the 404 'Consulting route not found'. Only a create and an update change the table |
| UpdatedLambda.Answers | backend/lambda-updated.js:23-137 | the reference definition of the handler: an unparsable body gets 500 with the short header set; otherwise OPTIONS gets 200 with an empty body, '/', '', '/health', '/api/projects' and '/api/analytics' get their fixed answers, a path under `/api/consulting` is answered by ConsultingAnswers, and any other path gets the 404 'Route not found'. Only the consulting routes change the table |
| UpdatedLambda.HandleConsultingRoutes | backend/lambda-updated.js:140-365 | the response and the table after it are among those UpdatedLambda.ConsultingAnswers allows (only the order of a listing is left open) |
| UpdatedLambda.Handler | backend/lambda-updated.js:23-137 | the response and the table after it are among those UpdatedLambda.Answers allows |
| UpdatedLambda.IdRouteId | backend/lambda-updated.js:274-275 | on an id route the id is the non-empty segment after `/api/consulting/` |
| UpdatedLambda.IdRouteIff | backend/lambda-updated.js:274 | `/api/consulting/` followed by a segment is an id route exactly when the segment is non-empty and contains no '/' |
| UpdatedLambda.CommunicationRouteUnknown | backend/lambda-updated.js:343-351 | the dashboard's `/api/consulting/<id>/communication` reaches the consulting routes and matches none of them |
| UpdatedLambda.MalformedBodyFirst | backend/lambda-updated.js:26-48 | an unparsable body gets 500 with the short header set, preflight included, and the table is unchanged |
| UpdatedLambda.DispatchOrder | backend/lambda-updated.js:51-121 | the fixed paths are matched before the consulting prefix. The 404 is given exactly to paths that are neither fixed nor under the prefix |
| UpdatedLambda.WritesAtMostOneItem | backend/lambda-updated.js:143-341 | the table is unchanged, or changed at one key, and only by a POST or a PUT |
| UpdatedLambda.MissingItemIs404 | backend/lambda-updated.js:274-293 | a GET of an id that has no item gets 404 and leaves the table unchanged |
| StandaloneLambda.StripStage | backend/lambda-standalone.js:89-92 | the removal of the '/prod' stage prefix; StripStageCases states its cases |
| StandaloneLambda.Stamped | backend/lambda-standalone.js:199-202 | the posted body with the handler's id, createdAt and status; StampedOverwrites states what is kept |
| StandaloneLambda.StripStageCases | backend/lambda-standalone.js:89-92 | '/prod' is removed once and an empty remainder becomes '/'. A path without the prefix is unchanged, and a non-empty path never becomes empty |
| StandaloneLambda.DataFile.constructor | backend/lambda-standalone.js:182 | the file starts in the given state |
| StandaloneLambda.DataFile.Write | backend/lambda-standalone.js:211-217 | after a write, the file holds exactly the records written |
| StandaloneLambda.PostedFields | backend/lambda-standalone.js:199 | the body parsed as JSON, with `'{}'` parsed in place of an absent body: an absent body is `{}` (a definition; PostAppendsOne states what it leads to) |
| StandaloneLambda.StampedOverwrites | backend/lambda-standalone.js:199-202 | the saved record is the body with id, createdAt and status 'pending' written over any client values; every other client field is kept |
| StandaloneLambda.Expected | backend/lambda-standalone.js:84-243 | the reference definition of the handler, on the path with '/prod' stripped: OPTIONS gets 200 with an empty body; '/', '', '/health', '/api/projects' and '/api/analytics' get their fixed answers; a GET or POST under `/api/consulting` is answered by ConsultingOutcome; anything else gets the 404 `Cannot <method> <url>`. Only a successful POST changes the file |
| StandaloneLambda.ConsultingOutcome | backend/lambda-standalone.js:177-222 | the reference definition of the consulting branches: a GET answers 200 with the stored array, `[]` without a file, or 500 'Failed to read consulting data'; a POST answers 500 'Failed to save consulting request' for an unparsable body, an unreadable file or a failed write, and otherwise 201 with the stamped record, which is appended to the file |
| StandaloneLambda.ServeConsulting | backend/lambda-standalone.js:177-222 | the status and body written into `res`, and the file after it, are those StandaloneLambda.ConsultingOutcome gives |
| StandaloneLambda.Handler | backend/lambda-standalone.js:84-243 | the response and the file after it are those StandaloneLambda.Expected gives |
| StandaloneLambda.PreflightFirst | backend/lambda-standalone.js:126-132 | OPTIONS resolves 200 with an empty body before any routing, and does not touch the file |
| StandaloneLambda.PostAppendsOne | backend/lambda-standalone.js:197-218 | a successful POST, with or without an existing file and with or without a body, appends exactly the stamped record after the earlier ones (none when there was no file) and answers 201 with it. It does no validation |
| StandaloneLambda.GetReturnsAll | backend/lambda-standalone.js:184-195 | a GET answers with the whole stored array, `[]` without a file, or 500 'Failed to read consulting data', and leaves the file unchanged |
| StandaloneLambda.PostThenGet | backend/lambda-standalone.js:184-218 | a record saved by POST is returned by the next GET, after the earlier ones, whether or not the file existed |
| StandaloneLambda.FailedPostKeepsFile | backend/lambda-standalone.js:199-221 | an unparsable body, an unreadable file or a failed write gives 500 'Failed to save consulting request', and the file is unchanged |
| StandaloneLambda.OtherMethodsNotFound | backend/lambda-standalone.js:177-229 | under the prefix, a method other than GET and POST gets the 404 `Cannot <method> <url>`, and so does every method but OPTIONS on a path that is neither fixed nor under the prefix |
| SimpleLambda.Expected | backend/lambda-simple.js:86-211 | the reference definition of the stub handler: an unparsable body gets 500 with the short header set; OPTIONS gets 200 with an empty body; '/', '', '/health', '/api/projects' and '/api/analytics' get their fixed answers; a GET of exactly `/api/consulting` gets the consulting stub; every other path gets the 404 'Route not found' with `Cannot <method> <path>` |
| SimpleLambda.Handler | backend/lambda-simple.js:86-211 | the returned triple is the final status and body of `res`, which are those SimpleLambda.Expected gives |
| SimpleLambda.ParseBeforePreflight | backend/lambda-simple.js:101-135 | an unparsable body gets 500 even for OPTIONS; otherwise OPTIONS gets 200 with an empty body |
| SimpleLambda.StubOnlyForExactGet | backend/lambda-simple.js:171-177 | the consulting stub is answered exactly to a GET of `/api/consulting` |
| SimpleLambda.OthersNotFound | backend/lambda-simple.js:178-189 | every other path, under the prefix or unknown, gets 404 `Cannot <method> <path>` |
| SimpleLambda.StatusesAnswered | backend/lambda-simple.js:191-209 | only 200, 404 and 500 are answered, and 500 exactly for an unparsable body |
| Dashboard.FilteredRequests | frontend/src/components/consulting/ConsultingDashboard.tsx:149-157 | the dashboard's filtered list; FilteredIsOrderedSelection states what it holds |
| Dashboard.FilteredIsOrderedSelection | frontend/src/components/consulting/ConsultingDashboard.tsx:149-157 | the filtered list keeps the fetched order. A request is in it exactly when it matches both the status and the search, and then as often as it was fetched |
| Dashboard.NoFilterShowsAll | frontend/src/components/consulting/ConsultingDashboard.tsx:150-151 | status 'all' with an empty search shows the whole list |
| Dashboard.ShownMatch | frontend/src/components/consulting/ConsultingDashboard.tsx:150-154 | a shown request has the chosen status unless it is 'all'. For a non-empty search, its lower-cased name, company or email contains the lower-cased term |
| Dashboard.SetStatusWhere | frontend/src/components/consulting/ConsultingDashboard.tsx:88-90 | the list keeps its length, and only the entries with the id get the new status |
| Dashboard.ReplaceWhere | frontend/src/components/consulting/ConsultingDashboard.tsx:117-119 | the list keeps its length, and only the entries with the id are replaced |
| Dashboard.SetStatusIdempotent | frontend/src/components/consulting/ConsultingDashboard.tsx:88-90 | setting the same status twice is setting it once |
| Dashboard.SetStatusShownUnderNewStatus | frontend/src/components/consulting/ConsultingDashboard.tsx:88-90 | a changed entry is shown when the list is filtered by its new status |
| Dashboard.StatusColor | frontend/src/components/consulting/ConsultingDashboard.tsx:138-147 | the badge classes of the five statuses and the gray fallback; StatusColorsDistinct states that they differ |
| Dashboard.StatusColorsDistinct | frontend/src/components/consulting/ConsultingDashboard.tsx:138-147 | the five statuses get five different classes, and any other status gets the gray |
| Dashboard.DashboardState.constructor | frontend/src/components/consulting/ConsultingDashboard.tsx:36-52 | the initial state of the component |
| Dashboard.DashboardState.FetchRequests | frontend/src/components/consulting/ConsultingDashboard.tsx:58-74 | the list on success, otherwise one of the two error messages; loading ends in every case, and nothing else changes |
| Dashboard.DashboardState.UpdateRequestStatus | frontend/src/components/consulting/ConsultingDashboard.tsx:76-95 | a successful PUT sets the status of the entries with the id; a failed one changes nothing. The selection is never touched |
| Dashboard.DashboardState.AddCommunication | frontend/src/components/consulting/ConsultingDashboard.tsx:97-136 | nothing changes without a selection, with blank content, or when the POST fails. A successful refresh replaces the selection and the entries with its id. The form is reset unless the refresh throws |
| Dashboard.DashboardState.SelectRequest | frontend/src/components/consulting/ConsultingDashboard.tsx:233 | clicking a card selects its request and changes nothing else |
| Form.FormState.constructor | frontend/src/components/consulting/ConsultingForm.tsx:20-36 | the initial form data, not submitting, not submitted, no error |
| Form.FormState.HandleInputChange | frontend/src/components/consulting/ConsultingForm.tsx:67-73 | exactly the named field takes the value |
| Form.FormState.SubmitStart | frontend/src/components/consulting/ConsultingForm.tsx:77-78 | submitting starts and the error is cleared |
| Form.FormState.SubmitSettle | frontend/src/components/consulting/ConsultingForm.tsx:93-119 | on success the form is submitted and reset. A server failure shows its error or 'Failed to submit consulting request'; a network failure shows the network message. The form data are kept on failure, and submitting ends in every case |
| Form.FormState.HandleSubmit | frontend/src/components/consulting/ConsultingForm.tsx:75-120 | the whole submission, from start to settle |
| Form.FormState.SubmitAnother | frontend/src/components/consulting/ConsultingForm.tsx:131-132 | only `isSubmitted` becomes false |
| Form.InitialFormDefaults | frontend/src/components/consulting/ConsultingForm.tsx:20-32 | the initial and reset form has the eleven fields, the four defaults, and '' everywhere else |
| Form.UntouchedFormRefused | frontend/src/components/consulting/ConsultingForm.tsx:20-32 | an untouched form is refused by the server's check for its missing fields |
| Form.FilledFormAccepted | frontend/src/components/consulting/ConsultingForm.tsx:20-32 | a non-empty name and description plus an accepted email pass the server's check |
| Showcase.Kept | frontend/src/components/home/ProjectsShowcase.tsx:76-94 | the showcase's three selections; ShownMatch states what a kept project has |
| Showcase.FilteredProjects | frontend/src/components/home/ProjectsShowcase.tsx:76-94 | the showcase's filtered list; FilteredIsOrderedSelection states what it holds |
| Showcase.FilteredIsOrderedSelection | frontend/src/components/home/ProjectsShowcase.tsx:76-94 | the filtered projects keep their order. A project is in them exactly when the three selections let it through, and then as often as it is listed |
| Showcase.InitialSelectionShowsAll | frontend/src/components/home/ProjectsShowcase.tsx:72-94 | 'All Industries', 'All Statuses' and an empty query show every project |
| Showcase.ShownMatch | frontend/src/components/home/ProjectsShowcase.tsx:78-91 | a shown project has the selected industry and status unless 'All' is selected. For a non-empty query, its lower-cased name or description contains the lower-cased query |
| Showcase.StatusColor | frontend/src/components/home/ProjectsShowcase.tsx:7-18 | the badge classes of the three statuses and the navy fallback; StatusColorCases states its cases |
| Showcase.StatusColorCases | frontend/src/components/home/ProjectsShowcase.tsx:7-18 | the three statuses get three different classes, and 'bg-navy-300' is given exactly to other statuses |

## Left out

- The notification email (backend/routes/consulting.js:87-116, backend/lambda-updated.js:212-241) is not modelled: its HTML text, and its sending over the network. A failed send is caught and the reply is the same, so each create answers as if the send had been attempted.
- backend/lambda-updated.js:14 calls `nodemailer.createTransporter`, which nodemailer does not provide; the router calls the factory `createTransport` at backend/routes/consulting.js:16. Loading the module would then throw before any handler runs. The model assumes the transport was created.
- DynamoDB, `fs` and nodemailer are foreign calls. A failure is a parameter: `fault`, `writeFails`, `FileState.Unreadable`. Only one form of failure is modelled: each route makes one storage call, and a rejection anywhere in it is a 500 with the rejection's message.
- RequestTable.Table.Scan: the listing ignores scan paging. One DocumentClient `scan` returns at most one 1 MB page, and neither backend/routes/consulting.js:140 nor backend/lambda-updated.js:260 follows `LastEvaluatedKey`. A large table is then listed only in part; the model's scan returns the whole table.
- RequestTable.Merged: the code makes no existence check before an update. The model takes the store's documented behaviour on a missing key: an item holding only the id, with the written attributes. The code itself promises nothing here beyond "no 404".
- Validation.UpdateRejection: a PUT whose body has no `status` sends an undefined `:status` value. The model takes it that the store refuses the update, which the handler answers with 500 and the store's message. The message text (`UndefinedStatusMessage`) is assumed.
- `uuidv4`, `Date.now()`, `new Date().toISOString()` and `process.uptime()` are parameters or are left out. Timestamps and uptime are not part of the payload datatypes. Id uniqueness is not claimed; the code does not ensure it.
- JSON values other than strings are not modelled. Request bodies, stored items and file records are string-valued objects, and `null` is read as absent. So are a body that parses to a non-object, a file holding something other than an array, and a `.trim()` on a non-string value (which would throw).
- Lower-casing is ASCII only, where `toLowerCase` covers Unicode.
- Express wiring is not modelled: `backend/server.js`; the middleware and Express app at the top of `backend/lambda-standalone.js` and `backend/lambda-simple.js`; helmet, cors, morgan and `app.listen`.
- Header contents are not modelled beyond naming the two header sets.
- Promise ordering is not modelled. That includes the "first resolve wins" of the standalone mock `res`, whose `json` resolves the promise, and the fetch timing in the React components.
- `res.send` is never called by any modelled branch.
- The outer 500 of `lambda-standalone` (backend/lambda-standalone.js:231-240) is not modelled. No modelled branch throws outside the inner try blocks.
- The server has no route for communications or deletes. The dashboard's call to `/api/consulting/<id>/communication` is modelled only by what it answered (`posted`). The lambda's answer to that path is proved to be the unknown-route 404.
- JSX rendering, `handleCardClick`'s `window.open`, the static project data and the other pages are not modelled.
