# Insurance documentation assistant: verified model of the inventory core

This project models the part of the contents-inventory application that
deals with inventory items. It covers:

- the `analyze-items` edge function. The function authenticates the caller
  and sends each uploaded image URL to the AI gateway. Every structured
  answer is stored as an `inventory_items` row owned by the caller, and the
  stored rows are returned.
- the Inventory page: loading, searching and deleting items, plus the
  "Total Value" and "Categories" statistics.
- the Settings page: validating company details against the schema, saving
  them, and loading them back.
- the Home page: the manual-entry insert and the photo-upload handler.
- the Reports page: item count, total value and the report buttons.
- the database row shapes of the generated Supabase types.

Anything outside the code is a parameter:

- the API key;
- the identity provider;
- the gateway, indexed by call number;
- the database insert, indexed by insert number;
- the signed-in user the pages read;
- the database selects and updates;
- the outcome of the database delete (`Inventory.InventoryPage.HandleDelete`);
- `parseFloat`.

What the edge function does to the outside world is returned as a log of
effects. The handler is the specification function `AnalyzeItems.Handle`,
built on the loop function `AnalyzeItems.Run`. The imperative `AnalyzeItems.Serve`
is proved to compute exactly `Handle`. Each page is a class whose fields are the
React state that page updates.

Modules:

| module | file | models |
|---|---|---|
| `Wrappers` | wrappers.dfy | `Option` and `Result` |
| `Types` | types.dfy | `src/integrations/supabase/types.ts` |
| `Strings` | strings.dfy | `indexOf`, `includes`, `replace`, `toLowerCase`, `trim`, UTF-16 `length`, truthiness |
| `Lists` | lists.dfy | `filter`, the `reduce` sums, subsequences |
| `Toasts` | toasts.dfy | the notifications the pages raise |
| `AnalyzeItems` | analyze_items.dfy | `supabase/functions/analyze-items/index.ts` |
| `Inventory` | inventory.dfy | `src/pages/Inventory.tsx` |
| `Settings` | settings.dfy | `src/pages/Settings.tsx` |
| `Home` | home.dfy | `src/pages/Home.tsx` |
| `Reports` | reports.dfy | `src/pages/Reports.tsx` |

Behaviour of the code that a reader might not expect, modelled as written:

- A gateway reply without a tool call is skipped. It does not fail the
  request, and the loop goes on (`AnalyzeItems.NoToolCallIsSkipped`).
- The edge function is not all-or-nothing. Rows inserted before a later
  failure stay stored (`AnalyzeItems.RunNoRollback`), and the error
  response carries only the failure's message (`AnalyzeItems.LoopFailureGives500`).
- The manual-entry form does not validate the name length or cap the value.
  The page sends the typed text as it is (`Home.ManualInsertFields`).
- The photo upload on the Home page uploads nothing and calls no function.
  It only shows a notice (`Home.HomePage.HandleFileUpload`).

## Model

| member | source | states |
|---|---|---|
| `Types.ItemRowNullable` | src/integrations/supabase/types.ts:18-36 | id, name, user_id, created_at and updated_at are never null; every other item column can be null, and all of them are null at once in the row `AllNullItemRow` builds |
| `Types.ItemInsertRequiredColumns` | src/integrations/supabase/types.ts:37-55 | an item insert always has name and user_id; every other column may be omitted, and all of them are in the insert `MinimalItemInsert` builds |
| `Types.ItemUpdateAllOptional` | src/integrations/supabase/types.ts:56-74 | every column of an item update may be omitted |
| `Types.JobInsertRequiredColumns` | src/integrations/supabase/types.ts:95-111 | a job insert always has client_name, created_by and job_name; every other column may be omitted, and all of them are in the insert `MinimalJobInsert` builds |
| `Types.AppRoleConstantsExact` | src/integrations/supabase/types.ts:324-330 | the role constants list each role once, "user" then "admin", and the role names are distinct |
| `Strings.IndexOf` | src/pages/Inventory.tsx:80-82 | `indexOf` finds the first occurrence of the pattern, and finds none exactly when the pattern occurs nowhere |
| `Strings.Includes` | src/pages/Inventory.tsx:80-82 | defines `includes` as `indexOf` finding an occurrence; `Strings.IncludesIff` proves it holds exactly when the pattern occurs |
| `Strings.ReplaceFirst` | supabase/functions/analyze-items/index.ts:34 | `replace` with a string pattern leaves a string without the pattern unchanged; otherwise it splices the replacement over the first occurrence only |
| `Strings.IncludesIff` | src/pages/Inventory.tsx:79-83 | `includes` holds exactly when the pattern occurs somewhere; the empty pattern is always included |
| `Strings.Lower` | src/pages/Inventory.tsx:80-82 | lower-casing keeps the length and leaves no ASCII capital; each capital becomes its lower-case letter (32 code points above it), and every other character is unchanged |
| `Strings.LowerIgnoresCase` | src/pages/Inventory.tsx:80-82 | two strings that differ only in the case of ASCII letters lower-case to the same string |
| `Strings.LowerIdempotent` | src/pages/Inventory.tsx:80-82 | lower-casing a lower-cased string changes nothing |
| `Strings.Trim` | src/pages/Settings.tsx:12-17 | `trim` returns a contiguous part of the string, cutting only white space from the ends; the result neither starts nor ends with white space |
| `Strings.TrimIdempotent` | src/pages/Settings.tsx:12-17 | trimming twice is the same as trimming once |
| `Strings.TrimEmptyIff` | src/pages/Settings.tsx:12-17 | a value trims to the empty string exactly when it is all white space |
| `Strings.Utf16Length` | src/pages/Settings.tsx:12-17 | the length the `max` limits count lies between the number of characters and twice that number |
| `Strings.Utf16LengthBmp` | src/pages/Settings.tsx:12-17 | without supplementary-plane characters, that length is the number of characters |
| `Strings.NullIfEmpty` | supabase/functions/analyze-items/index.ts:126-128 | `v \|\| null` is null exactly when v is missing or empty, and is v otherwise |
| `AnalyzeItems.ResponseShape` | supabase/functions/analyze-items/index.ts:143-152 | every response carries the CORS headers; a pre-flight gets an empty body; otherwise status 200 comes exactly with the rows and status 500 exactly with an error message |
| `AnalyzeItems.BearerToken` | supabase/functions/analyze-items/index.ts:34 | defines the token as the header with its first `"Bearer "` removed; its meaning is proved by `BearerTokenOfStandardHeader` and `BearerTokenRemovesFirst` |
| `AnalyzeItems.BearerTokenOfStandardHeader` | supabase/functions/analyze-items/index.ts:33-35 | the header `Bearer <token>` hands exactly `<token>` to the identity provider |
| `AnalyzeItems.BearerTokenRemovesFirst` | supabase/functions/analyze-items/index.ts:33-35 | only the first `"Bearer "` is removed, wherever it stands; a header without one is passed on unchanged |
| `AnalyzeItems.DetailsToInsert` | supabase/functions/analyze-items/index.ts:119-130 | defines the insert built from one extraction; its field-by-field meaning is proved by `DetailsToInsertFields` |
| `AnalyzeItems.DetailsToInsertFields` | supabase/functions/analyze-items/index.ts:117-132 | the owner is the caller and the image is the URL processed, never a gateway value; brand, model and colour are null exactly when missing or empty; the other extracted fields are copied |
| `AnalyzeItems.Step` | supabase/functions/analyze-items/index.ts:44-140 | defines one iteration: gateway call, skip, throw or insert-and-push; its shape is proved by `StepShape` |
| `AnalyzeItems.Run` | supabase/functions/analyze-items/index.ts:41-141 | defines the loop over `imageUrls`; its properties are proved by the `Run…` lemmas, `FailureIsFinal`, `FailureAtStops`, `NoToolCallIsSkipped` and `AllSkippedRun` |
| `AnalyzeItems.FailureIsFinal` | supabase/functions/analyze-items/index.ts:104-107 | once an iteration has thrown, the remaining URLs change nothing |
| `AnalyzeItems.StepShape` | supabase/functions/analyze-items/index.ts:44-140 | an iteration asks the gateway once, about its own URL, and sends at most one insert, built from that reply |
| `AnalyzeItems.RunAsksInOrder` | supabase/functions/analyze-items/index.ts:44-141 | the gateway is asked about a prefix of the URLs, in order and once each; about all of them when the loop completes |
| `AnalyzeItems.RunInsertsAnswered` | supabase/functions/analyze-items/index.ts:117-139 | one insert per stored row, plus at most the failed one; no more inserts than gateway calls; each stored row is the one the database returned for its insert |
| `AnalyzeItems.RunInsertsTagged` | supabase/functions/analyze-items/index.ts:117-130 | every insert is owned by the caller and names the URL of the gateway call just before it |
| `AnalyzeItems.RunNoRollback` | supabase/functions/analyze-items/index.ts:134-139 | the effects and rows of any prefix of the loop are a prefix of those of the whole loop, so rows stored before a failure stay stored |
| `AnalyzeItems.NoToolCallIsSkipped` | supabase/functions/analyze-items/index.ts:110-112 | a reply without a tool call adds no row, sends no insert and does not stop the loop |
| `AnalyzeItems.FailureAtStops` | supabase/functions/analyze-items/index.ts:104-113 | a non-ok or unreadable reply, or an insert error, ends the loop at that URL with an error, "AI analysis failed" for a non-ok reply; no later URL is sent |
| `AnalyzeItems.AllSkippedRun` | supabase/functions/analyze-items/index.ts:41-141 | when no reply has a tool call, the loop succeeds with no rows after exactly one gateway call per URL |
| `AnalyzeItems.Handle` | supabase/functions/analyze-items/index.ts:9-153 | defines the whole handler: pre-flight, body, key, header, identity, then the loop; `Serve` is proved equal to it, and `ResponseShape`, `AuthGatesFailFast`, `LoopFailureGives500`, `InsertsBelongToCaller` and `SuccessListsInsertedRows` state its properties |
| `AnalyzeItems.Serve` | supabase/functions/analyze-items/index.ts:9-154 | the imperative handler returns exactly the response and effects of `Handle` |
| `AnalyzeItems.PreflightTouchesNothing` | supabase/functions/analyze-items/index.ts:10-12 | an OPTIONS request gets an empty 200 with CORS headers, and nothing is read or called |
| `AnalyzeItems.AuthGatesFailFast` | supabase/functions/analyze-items/index.ts:18-39 | a missing key, a missing header or a failed or empty identity lookup gives 500 with that gate's message before the gateway or the database is used |
| `AnalyzeItems.InsertsBelongToCaller` | supabase/functions/analyze-items/index.ts:117-130 | every inserted row belongs to the caller authenticated at lines 33-39 and names the image just analysed, whatever the gateway answered |
| `AnalyzeItems.LoopFailureGives500` | supabase/functions/analyze-items/index.ts:104-152 | a non-ok reply, a malformed reply or an insert error inside the loop makes the request a 500 with CORS headers and only that failure's message; the gateway calls and inserts already made stay in the log |
| `AnalyzeItems.SuccessListsInsertedRows` | supabase/functions/analyze-items/index.ts:139-146 | a success response comes from an authenticated request whose loop did not fail and asked about every URL in order; it lists the stored rows in insert order, at most one per URL |
| `Inventory.MatchesQuery` | src/pages/Inventory.tsx:79-83 | defines the search test: the lower-cased query occurs in the lower-cased name, category or description, and a null category or description does not match |
| `Inventory.Filtered` | src/pages/Inventory.tsx:79-83 | the search shows only matching items, as a subsequence of the list, with every copy of each matching item and no copy of any other |
| `Inventory.EmptyQueryKeepsAll` | src/pages/Inventory.tsx:79-83 | the empty search shows every item |
| `Inventory.SearchIgnoresQueryCase` | src/pages/Inventory.tsx:79-83 | searching for the lower-cased query gives the same list as searching for the query |
| `Inventory.SearchCaseInsensitive` | src/pages/Inventory.tsx:79-83 | two queries that differ only in the case of ASCII letters show the same items |
| `Inventory.WithoutId` | src/pages/Inventory.tsx:65 | defines the list after a delete; `DeleteRemovesExactly` and `DeleteLowersTotal` state what it keeps |
| `Inventory.DeleteRemovesExactly` | src/pages/Inventory.tsx:65 | after a delete, no item of that id is left; every other item keeps all its copies, and their order is kept |
| `Inventory.DeleteLowersTotal` | src/pages/Inventory.tsx:65 | the total value drops by exactly the value of the deleted items |
| `Inventory.TotalValue` | src/pages/Inventory.tsx:144 | defines the total as the left fold of the values with null as 0; `TotalValueNonNegative`, `DeleteLowersTotal` and `Reports.ReportTotalMatchesInventory` state its properties |
| `Inventory.TotalValueNonNegative` | src/pages/Inventory.tsx:144 | the total, with null values counted as 0, is never negative when no value is |
| `Inventory.Categories` | src/pages/Inventory.tsx:152 | the category set holds exactly the non-empty categories some item has; it has no more members than there are items |
| `Inventory.CategoryCount` | src/pages/Inventory.tsx:152 | defines the card as the size of `Categories`; `CategoryCountBounds` states its bounds |
| `Inventory.CategoryCountBounds` | src/pages/Inventory.tsx:152 | the card never counts more categories than items, and counts none exactly when no item has a non-empty category |
| `Inventory.InventoryPage.constructor` | src/pages/Inventory.tsx:23-25 | the first render has no items, is loading, and has an empty search |
| `Inventory.InventoryPage.FilteredItems` | src/pages/Inventory.tsx:79-83 | the list shown is a subsequence of the items, shows only items matching the current query, and shows every copy of each matching item |
| `Inventory.InventoryPage.FetchItems` | src/pages/Inventory.tsx:32-54 | with no user or a select error the list is kept and the message is shown; otherwise the list becomes the data, or empty when it is null; loading ends in every case |
| `Inventory.InventoryPage.HandleDelete` | src/pages/Inventory.tsx:56-77 | a successful delete drops the items of that id and shows a plain notice; a failed one keeps the list and shows the error |
| `Settings.CheckField` | src/pages/Settings.tsx:12-17 | defines one schema key: undefined passes, a string is trimmed and then measured; `CheckFieldIff` states when it fails |
| `Settings.SafeParse` | src/pages/Settings.tsx:74-79 | defines `safeParse`: the issues of the four keys in order, or the trimmed values; `IssuesEmptyIff` and `FirstIssue` state its properties |
| `Settings.ProfilePatch` | src/pages/Settings.tsx:92-100 | defines the update sent, with `\|\| null` on each value; `SavedValuesTrimmed` and `EmptyFormSavesNulls` state what it writes |
| `Settings.Submission` | src/pages/Settings.tsx:74-100 | defines what a submit leads to, the update or the first issue; `RejectedIff` and `OnlyFirstErrorShown` state its properties |
| `Settings.LoadForm` | src/pages/Settings.tsx:47-53 | defines the form a loaded profile shows, with `\|\| ""` on each column; `NullRoundTrips` and `LoadSaveRoundTrip` state the round trip |
| `Settings.UndefinedIfEmpty` | src/pages/Settings.tsx:74-79 | `v \|\| undefined` is undefined exactly for the empty string, and is v otherwise |
| `Settings.InputValue` | src/pages/Settings.tsx:74-79 | the schema sees each form field with the empty string turned into undefined |
| `Settings.CheckFieldIff` | src/pages/Settings.tsx:12-17 | a field is rejected exactly when it is present and too long after trimming, and the issue is that field's message |
| `Settings.IssuesEmptyIff` | src/pages/Settings.tsx:12-17 | there are no issues exactly when no field is too long |
| `Settings.FirstIssue` | src/pages/Settings.tsx:12-17 | the first issue belongs to the first field, in schema order, that is too long |
| `Settings.RejectedIff` | src/pages/Settings.tsx:74-88 | a form is rejected exactly when one of its fields, trimmed, is longer than its limit of 200, 500, 100 or 100 |
| `Settings.OnlyFirstErrorShown` | src/pages/Settings.tsx:81-88 | on rejection the one message shown is that of the first too-long field in schema order |
| `Settings.EmptyFormSavesNulls` | src/pages/Settings.tsx:92-100 | the empty form always validates, and every column is saved as null |
| `Settings.SavedValuesTrimmed` | src/pages/Settings.tsx:92-100 | an accepted form saves each field trimmed and within its limit, as null when it trims to empty, and touches no other column |
| `Settings.NullRoundTrips` | src/pages/Settings.tsx:47-54 | a column the database holds as null comes back as null after load then save |
| `Settings.LoadSaveRoundTrip` | src/pages/Settings.tsx:47-54 | loading then saving a profile whose values are trimmed and within limits validates, and writes the same four values back, with the empty string as null |
| `Settings.SettingsPage.constructor` | src/pages/Settings.tsx:21-28 | the first render shows the empty form, is loading and is not saving |
| `Settings.SettingsPage.FetchProfile` | src/pages/Settings.tsx:34-64 | with no user or a select error the form is kept and the message is shown; a returned row fills the form with empty strings for nulls; loading ends in every case |
| `Settings.SettingsPage.HandleSubmit` | src/pages/Settings.tsx:66-118 | no user or an invalid form sends nothing ("Validation Error" with the first issue); a valid form sends one update for the caller's row, and its outcome picks the notice; saving ends false |
| `Home.EstimatedValue` | src/pages/Home.tsx:59 | defines the value sent: null for an empty field, else the parsed number; `ManualInsertFields` states it |
| `Home.ManualInsert` | src/pages/Home.tsx:54-62 | defines the manual insert object; `ManualInsertFields` states its fields |
| `Home.ManualInsertFields` | src/pages/Home.tsx:54-62 | the manual insert is owned by the signed-in user and copies the typed text as it is; the value is null exactly for an empty field or an unparsable number; no AI-only column is set |
| `Home.HomePage.constructor` | src/pages/Home.tsx:15-23 | the first render shows the blank form, with condition "good", and is not loading |
| `Home.HomePage.HandleManualSubmit` | src/pages/Home.tsx:46-88 | with no user nothing is inserted; otherwise one insert is sent; the form resets only after a successful insert; loading is on while waiting and off afterwards |
| `Home.HomePage.HandleFileUpload` | src/pages/Home.tsx:25-44 | an empty selection changes nothing; otherwise only the notice is shown; nothing is uploaded |
| `Reports.ReportTotal` | src/pages/Reports.tsx:32 | defines the report total as the null-as-0 left fold; `ReportTotalMatchesInventory` relates it to the inventory total |
| `Reports.ReportTotalMatchesInventory` | src/pages/Reports.tsx:32 | the report total equals the inventory page's total for the same values |
| `Reports.ReportsPage.constructor` | src/pages/Reports.tsx:10-13 | the first render has no items, a zero total, is loading and is not generating |
| `Reports.ReportsPage.GenerateDisabled` | src/pages/Reports.tsx:104 | defines when Generate is disabled; `ButtonsNeedItems` states what it means |
| `Reports.ReportsPage.EmailDisabled` | src/pages/Reports.tsx:122 | defines when Email is disabled; `ButtonsNeedItems` states what it means |
| `Reports.ReportsPage.ButtonsNeedItems` | src/pages/Reports.tsx:101-123 | Generate is enabled exactly with items and no report in progress; Email is enabled exactly with items |
| `Reports.ReportsPage.FetchStats` | src/pages/Reports.tsx:19-42 | with no user or a select error the statistics are kept and the message is shown; otherwise the count is the number of rows and the total their null-as-0 sum; loading ends in every case |
| `Reports.ReportsPage.HandleGenerateReport` | src/pages/Reports.tsx:44-60 | `generating` is on while the notice is raised and off afterwards; no report is produced |
| `Reports.ReportsPage.HandleEmailReport` | src/pages/Reports.tsx:62-67 | only the notice is shown, and nothing changes |

## Left out

- Gateway request: the prompt, the tool schema, the model name and the HTTP
  request to the gateway are not modelled. The gateway is an oracle that
  returns a non-ok reply, an unreadable reply, no tool call, or the tool's
  arguments.
- AnalyzeItems.ItemDetails: the tool arguments are assumed to have the types
  the tool schema declares. A gateway returning other JSON types is not
  modelled.
- AnalyzeItems.GatewayReply: missing `choices` and invalid `arguments` JSON
  both become one `Malformed` reply. That reply carries the runtime error's
  message as a parameter, since the exact TypeError or SyntaxError text
  comes from the runtime.
- AnalyzeItems.InsertOutcome: the message of an insert error is a parameter.
  Whether the thrown database error counts as an `Error`, which decides
  between its own message and "Unknown error", is a property of the client
  library. That library is not part of this model.
- AnalyzeItems.Request: a body `req.json()` rejects or that cannot be
  destructured, and an `imageUrls` that cannot be iterated, carry the
  runtime's message as a parameter.
- AnalyzeItems.ImageUrls: elements of `imageUrls` that are not strings are
  not modelled. Each visited value is taken to be a URL string.
- Environment access other than the API key is not modelled: the service
  URL and the service-role key, and creating the client.
- Console logging is not modelled.
- The CORS header values are not modelled; the model records only that the
  headers are present.
- Concurrency between requests is not modelled.
- `estimated_value` is a `real`. Floating-point rounding of the sums, and
  `toLocaleString` formatting, are not modelled.
- Home.EstimatedValue: `parseFloat` is a parameter. A non-finite result is
  `None`, which the JSON insert body carries as null.
- Strings.Lower: only ASCII letters are lower-cased. The Unicode case
  mapping of `toLowerCase` is not modelled.
- Strings.ReplaceFirst: replacement patterns with `$` are not modelled,
  because the only replacement used is the empty string.
- zod internals beyond `trim`, `max` and `optional`, and its issue objects
  other than the message, are not modelled.
- Inventory ordering: the `order("created_at")` of the item select is done
  by the database. The model takes the order the select returns.
- Reports.ReportsPage.FetchStats: a select with no error and null data
  (which would throw on `data.length`) is not modelled. The data of a
  successful array select is taken to be a list.
- Rendering is not modelled: the JSX, loading spinners, dialogs, icons,
  navigation and how notifications are drawn.
- The HTML `required` and `type="number"` attributes of the manual-entry
  form are not modelled. These are browser checks outside the page's code.
- Layout, Dashboard and Jobs pages: not modelled. The job and role row
  shapes are modelled only in `Types`.
- The generated `has_role` database function is not modelled. Only its
  signature appears in the types, and its body is in the database.
- Stale React closures, and events that overlap while a handler is
  awaiting, are not modelled. Each handler runs to completion on the state
  it starts with.
