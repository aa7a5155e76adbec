# Clinic laboratory and service configuration screens

This project models three screens of the clinic administration front end and proves properties of the model:

- **Laboratory** (`components/Laboratory.tsx`). This is the per-visit lab order screen. A patient is selected from the room queue, and their stored results become the working set (`requestedTests`). Adding a configured test appends one provisional entry per component, or a single fallback entry when the test has no components. The trash button removes one entry. "Submit & Bill" does three things in order:
  - inserts a result row for every new entry;
  - inserts one billing row per distinct test name, priced from the first entry with that name;
  - re-reads the stored results.

  The summary line is kept in step with every change. The screen also shows the patient's age.
- **Lab tests** (`components/LabTests.tsx`). This screen configures the lab-test catalogue:
  - search over tests, categories and specimens;
  - the test form, with its guard, payload, insert-or-update choice and reset;
  - the component form;
  - the double-click that loads a row into a form;
  - the name shown in the component and panel dialogs, and the tests offered as panel members.
- **Services** (`components/Services.tsx`). This screen configures the billable service catalogue:
  - the query conditions behind the filter box, and the client-side search;
  - the service form, with its save and notifications;
  - the double-click load;
  - the context-menu delete;
  - the input-items button.

The modules are:

- `Wrappers`: `Option` (nullable fields).
- `Seqs`: filtering, first-match search, and de-duplication in first-seen order (`Array.from(new Set(…))`).
- `Store`: the outcomes of the hosted store's reads and writes, the toast notice, and JavaScript truthiness of ids.
- `Text`: ASCII lower-casing, substring search, `trim`, `join`, decimal rendering, and the whole-number part of `parseFloat`.
- `Laboratory`, `LabTests` and `Services`: one module per screen. Each screen's mutable React state is a class whose fields its handlers update.

Store answers, user confirmations and the current date are parameters of the operations that use them. The rows or writes each operation hands to the store are its outputs.

Some functions are plain definitions that the contracts below are written in, with no contract of their own:

- `Store.RowsOrEmpty` is `data || []` (`components/Laboratory.tsx:140-142`).
- `Store.Refreshed` is a fetcher that catches its own error (`components/LabTests.tsx:77-91`): an error keeps the current list, and otherwise the list becomes `data || []`.
- `Text.OrText` is `x || fallback` on text: null and "" fall back.

The table also lists the definitions of the summaries, forms and payloads, each naming the lemmas that state its properties.

## Model

| member | source | states |
|---|---|---|
| Seqs.Filter | components/Laboratory.tsx:198 | The kept elements are exactly those satisfying the predicate; the result is no longer than the input |
| Seqs.FilterCounts | components/Laboratory.tsx:198 | Every copy of a kept element survives and no copy of a dropped one |
| Seqs.FilterIsSubsequence | components/Laboratory.tsx:198 | Filtering keeps the input's order |
| Seqs.Find | components/Laboratory.tsx:163 | None exactly when nothing matches; otherwise the match at the first matching index |
| Seqs.Distinct | components/Laboratory.tsx:185-186 | Set de-duplication: no repeats, same members, never longer |
| Seqs.DistinctFirstSeenOrder | components/Laboratory.tsx:185-186 | De-duplicated values appear in the order of their first occurrence |
| Seqs.DistinctLength | components/Laboratory.tsx:215 | De-duplication keeps the length exactly when there are no repeats |
| Seqs.DistinctSnoc | components/Laboratory.tsx:184-186 | Appending a value adds it to the distinct list exactly when it is new |
| Seqs.DistinctAppendSame | components/Laboratory.tsx:184-186 | Appending a run of one value adds that value at the end of the distinct list, unless it is already present |
| Text.Lower | components/LabTests.tsx:449 | Lower-casing keeps the length and leaves no capital letter: each capital becomes the small letter at the same place in the alphabet, and every other character stays in place |
| Text.LowerIdempotent | components/LabTests.tsx:449 | Lower-casing twice is lower-casing once |
| Text.EmptyTermMatchesEverything | components/LabTests.tsx:448-451 | The empty search term is contained in every text |
| Text.Trim | components/LabTests.tsx:177-183 | The result is a slice of the input with only whitespace cut on both sides, and it neither starts nor ends with whitespace |
| Text.TrimIdempotent | components/LabTests.tsx:177-183 | Trimming twice is trimming once |
| Text.TrimAllWhitespace | components/LabTests.tsx:177 | Text that is whitespace throughout trims to "" |
| Text.TrimEmptyIff | components/LabTests.tsx:177 | Text trims to "" exactly when it is whitespace throughout |
| Text.Join | components/Laboratory.tsx:186 | The joined text is as long as the parts plus one separator between each pair of neighbours; no parts give "" |
| Text.JoinSnoc | components/Laboratory.tsx:186 | Joining one more part appends the separator and that part, or gives the part alone when there were none |
| Text.NatToDecimal | components/LabTests.tsx:394 | A price renders as a non-empty string of digits with no leading zero; 0 renders as "0" |
| Text.ParsePrice | components/LabTests.tsx:182 | Definition of `parseFloat(text) \|\| 0` on whole numbers; its properties are stated by Text.ParsePriceRoundTrip, Text.ReloadKeepsPrice and Text.ParsePriceNoDigits |
| Text.ParsePriceRoundTrip | components/LabTests.tsx:182 | Parsing a rendered price gives the price back |
| Text.ReloadKeepsPrice | components/LabTests.tsx:182 | A parsed price, rendered into a form and parsed again, keeps its value |
| Text.ParsePriceNoDigits | components/LabTests.tsx:182 | In the model's whole-number reading of `parseFloat` (see Text.ParsePrice under "Left out"), text with no digit right after its leading whitespace is worth 0 |
| Laboratory.TestNamesAppend | components/Laboratory.tsx:184-185 | The names of a concatenation are the concatenated names |
| Laboratory.Summary | components/Laboratory.tsx:185-186 | Definition of the de-duplicated summary (also set at `Laboratory.tsx:242-243` and `552-553`); Laboratory.AddSummary, Laboratory.AddSummaryText and Laboratory.SummariesAgreeWhenNamesDistinct state its properties |
| Laboratory.PlainSummary | components/Laboratory.tsx:142 | Definition of the duplicate-keeping summary; Laboratory.SummariesAgreeWhenNamesDistinct relates it to Laboratory.Summary |
| Laboratory.SummariesAgreeWhenNamesDistinct | components/Laboratory.tsx:142 | De-duplication changes the name list exactly when a name repeats, and the duplicate-keeping summary set on selection equals the de-duplicated one exactly when no test name repeats |
| Laboratory.DistinctSumLengths | components/Laboratory.tsx:185-186 | Dropping repeated names never lengthens the total text |
| Laboratory.StoredItemsUnique | components/Laboratory.tsx:140-141 | Rows read back carry no provisional id |
| Laboratory.StoredItems | components/Laboratory.tsx:140-141 | One working-set entry per stored row, in order |
| Laboratory.FindCatalogTest | components/Laboratory.tsx:163-164 | The catalogue entry found is the first with the selected id; none is found exactly when no entry has it |
| Laboratory.NewEntries | components/Laboratory.tsx:166-181 | One entry per loaded component, or one fallback entry named after the test; each is new, "Ordered", priced as the test, and has provisional ids drawn in order |
| Laboratory.NewEntriesFresh | components/Laboratory.tsx:171-172 | The new ids are pairwise distinct and differ from every id in the working set, and the id supply stays ahead |
| Laboratory.AppendFreshUnique | components/Laboratory.tsx:171-184 | Appending such entries keeps the provisional ids of the working set pairwise distinct |
| Laboratory.AddSummary | components/Laboratory.tsx:183-188 | After an add, the summary's de-duplicated name list gains the test's name at the end exactly when the name was not already listed, and is unchanged otherwise |
| Laboratory.AddSummaryText | components/Laboratory.tsx:183-186 | After an add, the summary text is unchanged when the test's name was already listed; otherwise it becomes the name alone (empty working set) or the old summary, ", " and the name |
| Laboratory.RemoveById | components/Laboratory.tsx:550-555 | Exactly the entries with a different id remain, in their order, and an absent id changes nothing |
| Laboratory.RemoveByIdCounts | components/Laboratory.tsx:551 | Every copy of an entry with that id is dropped, every copy of the others kept |
| Laboratory.RemoveByIdUnique | components/Laboratory.tsx:550-555 | With provisional ids distinct, removing a provisional id drops exactly one entry when it is present and none otherwise, and the ids left stay distinct |
| Laboratory.FilterUnique | components/Laboratory.tsx:551 | The same for any filter that keeps exactly the entries with a different id |
| Laboratory.NewTests | components/Laboratory.tsx:198 | Exactly the new entries, in order |
| Laboratory.NewTestsCounts | components/Laboratory.tsx:198 | Every copy of a new entry is submitted, and no copy of a stored one |
| Laboratory.StoredItemsAreNotNew | components/Laboratory.tsx:240-241 | Rows read back after a submit are not new, so a second submit sends nothing |
| Laboratory.ResultRows | components/Laboratory.tsx:201-209 | One result row per new entry, in order, for the visit |
| Laboratory.ResultRowsCoverNewEntries | components/Laboratory.tsx:198-209 | Every result row comes from a new entry, and every new entry has its row |
| Laboratory.BillingRows | components/Laboratory.tsx:214-227 | One billing row per distinct test name among the new entries, each for the visit and patient, quantity 1 and "Unpaid" |
| Laboratory.BillingOnePerName | components/Laboratory.tsx:214-227 | No two billing rows share a name; a name is billed exactly when some new entry has it; the cost is that of the first such entry, 0 when unpriced |
| Laboratory.BillingCount | components/Laboratory.tsx:214-215 | There are never more billing rows than result rows, and the counts are equal exactly when no test name repeats |
| Laboratory.BillingFirstSeenOrder | components/Laboratory.tsx:215-216 | Billing rows follow the order in which names first appear |
| Laboratory.SingleTestBillsOnce | components/Laboratory.tsx:166-227 | One test added to an empty working set and submitted gives a result row per entry, a summary naming the test, and a single billing row at the test's price, whatever its number of components |
| Laboratory.BillingDedupScenario | components/Laboratory.tsx:198-227 | Entries named x, x, y give three result rows and billing rows for x then y |
| Laboratory.DistinctTwoThenOne | components/Laboratory.tsx:215 | De-duplicating x, x, y gives x, y |
| Laboratory.CalculateAge | components/Laboratory.tsx:271-280 | An age exists exactly when the date of birth is a date; it is the number of birthdays reached by today |
| Laboratory.AgeLabel | components/Laboratory.tsx:272-281 | "-" exactly when there is no age, otherwise the years followed by " yrs" |
| Laboratory.LabOrderScreen.constructor | components/Laboratory.tsx:17-28 | The catalogue is loaded (empty on error); nothing is selected and the working set is empty |
| Laboratory.LabOrderScreen.SelectTest | components/Laboratory.tsx:470-471 | The drop-down sets the selected test |
| Laboratory.LabOrderScreen.SelectPatient | components/Laboratory.tsx:116-151 | The visit's stored rows (empty on error) become the working set; the summary lists their names with duplicates |
| Laboratory.LabOrderScreen.AddTest | components/Laboratory.tsx:153-191 | Both alerts and the unknown-test case change nothing; with a visit, a selected test and its catalogue entry the add always succeeds: the new entries are appended, the summary is recomputed and the selection is cleared. Provisional ids stay distinct and below the supply |
| Laboratory.LabOrderScreen.RemoveEntry | components/Laboratory.tsx:550-555 | The entries with that id are removed and the summary is recomputed; a provisional id that is present removes exactly one entry |
| Laboratory.LabOrderScreen.Submit | components/Laboratory.tsx:193-251 | Nothing happens without a visit or entries. Results are sent only when there are new entries, and billing only after the results insert succeeded. A failure alerts and keeps the state. Success re-reads the working set, recomputes the summary and shows the notice |
| LabTests.FilteredTests | components/LabTests.tsx:448-451 | Exactly the tests whose name or service contains the query ignoring case, in order, with multiplicities |
| LabTests.EmptyQueryKeepsAllTests | components/LabTests.tsx:448-451 | The empty query lists every test |
| LabTests.FilterByName | components/LabTests.tsx:453-459 | Exactly the categories or specimens whose name contains the query ignoring case, in order |
| LabTests.EmptyQueryKeepsAllNamed | components/LabTests.tsx:453-459 | The empty query lists every category or specimen |
| LabTests.SelectedTestName | components/LabTests.tsx:461 | The name of the first test with the edited id, or "Unknown" when there is none or its name is empty |
| LabTests.PanelCandidates | components/LabTests.tsx:811 | Every test except the one being edited, in order; all tests when none is edited |
| LabTests.FormOf | components/LabTests.tsx:388-398 | Definition of the test double-click load; LabTests.EditRoundTrip and LabTests.TestResaveUnchanged state its properties |
| LabTests.ComponentFormOf | components/LabTests.tsx:420-426 | Definition of the component double-click load; LabTests.ComponentEditRoundTrip and LabTests.ComponentResaveUnchanged state its properties |
| LabTests.TestPayloadOf | components/LabTests.tsx:176-187 | Definition of the test payload; LabTests.EditRoundTrip, LabTests.TestResaveUnchanged and LabTests.BlankNamePassesGuard state its properties |
| LabTests.ComponentPayloadOf | components/LabTests.tsx:301-309 | Definition of the component payload; LabTests.ComponentEditRoundTrip, LabTests.ComponentResaveUnchanged and LabTests.BlankComponentNamePassesGuard state its properties |
| LabTests.EditRoundTrip | components/LabTests.tsx:176-187 | Loading a test and saving it unchanged writes its name, description and code trimmed, its price, its machine (default "None") and its flag (default false) |
| LabTests.StoredTest | components/LabTests.tsx:176-187 | Definition of the row the store holds after a test write; LabTests.ReloadTestForm and LabTests.TestResaveUnchanged state its properties |
| LabTests.ReloadTestForm | components/LabTests.tsx:387-401 | Double-clicking a stored test loads every written value back, the price rendered as text and an empty machine shown as "None" |
| LabTests.ResaveTestForm | components/LabTests.tsx:176-187 | Saving a form holding the values of a payload, with any machine, writes that payload with only the machine replaced |
| LabTests.TestResaveUnchanged | components/LabTests.tsx:387-401 | A saved test read back and saved again unchanged is written as before, except that an empty machine comes back as "None" |
| LabTests.ComponentEditRoundTrip | components/LabTests.tsx:419-428 | Loading a component and saving it unchanged writes every field trimmed (missing ones as "") under the edited test |
| LabTests.ReloadKeepsTrimmed | components/LabTests.tsx:301-307 | A trimmed text read back and trimmed again is unchanged |
| LabTests.StoredComponent | components/LabTests.tsx:301-309 | Definition of the row the store holds after a component write; LabTests.ComponentResaveUnchanged states its properties |
| LabTests.ComponentResaveUnchanged | components/LabTests.tsx:301-309 | A saved component read back and saved again unchanged is written exactly as before |
| LabTests.BlankNamePassesGuard | components/LabTests.tsx:169-177 | The required-name guard tests the untrimmed name: a name passes it and is saved empty exactly when it is non-empty whitespace |
| LabTests.BlankComponentNamePassesGuard | components/LabTests.tsx:294-303 | The component guard has the same gap: a name passes it and is saved empty exactly when it is non-empty whitespace |
| LabTests.LabTestsScreen.constructor | components/LabTests.tsx:69-117 | The three lists are loaded (empty on error) and the form is initial |
| LabTests.LabTestsScreen.Save | components/LabTests.tsx:168-212 | An empty name alerts with no write. A truthy edited id updates, otherwise the form is inserted. A failure alerts and keeps the state. Success resets the form and the edited id and refreshes the list |
| LabTests.LabTestsScreen.SaveComponent | components/LabTests.tsx:292-334 | Nothing happens without an edited test; an empty name alerts; otherwise the insert or update follows the component id; success resets the component form and refreshes the components |
| LabTests.LabTestsScreen.DoubleClick | components/LabTests.tsx:387-401 | The row is loaded into the form and becomes the edited test |
| LabTests.LabTestsScreen.DoubleClickComponent | components/LabTests.tsx:419-428 | The component is loaded into its form and becomes the edited component |
| Services.QueryConditions | components/Services.tsx:89-94 | At most one condition, and none for an unknown filter type |
| Services.FilterTypeMeaning | components/Services.tsx:89-94 | What each filter option admits: the active or inactive flag, "lab" in the category ignoring case, or one type flag set; unknown options admit everything |
| Services.FilteredServices | components/Services.tsx:191-194 | Exactly the services whose present name or item code contains the term ignoring case, in order |
| Services.EmptyTermShowsNamedOrCoded | components/Services.tsx:191-194 | With an empty term, exactly the services having a name or an item code are listed |
| Services.PayloadOf | components/Services.tsx:115-118 | Every text field and flag of the payload is the form's, untrimmed, and the rate is parsed |
| Services.FormOf | components/Services.tsx:153-167 | Definition of the double-click load; Services.EditRoundTrip and Services.ResaveUnchanged state its properties |
| Services.EditRoundTrip | components/Services.tsx:153-167 | Loading a row and saving it unchanged writes each of its values, with "" for missing text, rate 0, type flags false and active true as defaults |
| Services.StoredService | components/Services.tsx:115-118 | Definition of the row the store holds after a service write; Services.ReloadServiceForm and Services.ResaveUnchanged state its properties |
| Services.ReloadServiceForm | components/Services.tsx:153-167 | Double-clicking a stored service loads every written value back, the rate rendered as text |
| Services.ResaveUnchanged | components/Services.tsx:115-118 | A saved service read back and saved again unchanged is written exactly as before |
| Services.WithoutId | components/Services.tsx:184 | Exactly the rows with a different id are kept, in order; an absent id changes nothing |
| Services.ServicesScreen.constructor | components/Services.tsx:14-49 | No rows until the filter button; "All Services"; initial form |
| Services.ServicesScreen.ChooseFilter | components/Services.tsx:441 | The filter box sets the filter type |
| Services.ServicesScreen.Refresh | components/Services.tsx:84-104 | The conditions of the current filter type are sent; the list is replaced unless the query fails |
| Services.ServicesScreen.Save | components/Services.tsx:106-145 | An empty name warns with no write. A truthy edited id updates and re-queries, otherwise the form is inserted with no re-query. A failure shows an error and keeps the form. Success resets the form and the edited id |
| Services.ServicesScreen.DoubleClick | components/Services.tsx:147-171 | A row without a truthy id raises an error notice and changes nothing else; any other is loaded into the form and its id becomes the edited one |
| Services.ServicesScreen.OpenContextMenu | components/Services.tsx:173-176 | The menu targets the row's id |
| Services.ServicesScreen.CloseContextMenu | components/Services.tsx:70 | A mouse press anywhere clears the menu's target |
| Services.ServicesScreen.MouseDown | components/Services.tsx:70 | The intended listener: a press outside the menu clears its target, a press on the menu keeps it |
| Services.ServicesScreen.Delete | components/Services.tsx:178-189 | Nothing happens without a truthy target or confirmation. A failure alerts and keeps the list. Success drops the rows with that id and shows the notice |
| Services.ServicesScreen.ClickMenuDeleteAsWritten | components/Services.tsx:70-213 | A mouse click on the menu's delete, as written: the press closes the menu first, so nothing is deleted and nothing is sent, whatever is confirmed |
| Services.ServicesScreen.ClickMenuDelete | components/Services.tsx:178-213 | The same click with the intended listener deletes the row the menu was opened on, with the outcomes of Delete |
| Services.ServicesScreen.OpenInputItems | components/Services.tsx:196-202 | Without an edited service it warns; otherwise it opens the dialog |

## Left out

- Store calls, and their asynchrony, are not modelled as such. Each read or write is an input value (`StoreResult`, `Fetch`); the rows handed to it are an output. Ordering by id and the store's evaluation of the query conditions are taken as given.
- Interleavings of concurrent handlers, the `isMounted` guards, the loading and saving flags, and timers are left out. Timers cover the 4-second dismissal of notices and the queue polling.
- Laboratory component lookup on test change (`Laboratory.tsx:87-114`) is left out, including its specimen lookup. The components it loads are the `loaded` parameter of `AddTest`, so a stale or racing lookup is not modelled.
- Laboratory.NewEntries: the `temp-<Date.now()>-<random>` ids are replaced by a counter (`Provisional`), so the model's ids are unique by construction.
- Laboratory: the `created_at` timestamps of result and billing rows are not modelled, because they are clock reads.
- LabTests: the `updated_at` timestamp of the test and component payloads (`components/LabTests.tsx:186`, `components/LabTests.tsx:308`) is not modelled, because it is a clock read.
- Laboratory: `selectedTestId` is a drop-down string compared via `toString()`; it is modelled as an optional integer, with None for the empty choice.
- Laboratory: the units and limits of components and entries are opaque text that the screen only copies. A null unit or limit from the store is not told apart from text and passes through unchanged, and the `|| '-'` display fallback (`Laboratory.tsx:541-543`) is layout.
- Laboratory: the queue-success handler, the room sign-in dialog and the patient-scheme display are not part of this model.
- Laboratory.CalculateAge: the date of birth arrives parsed (`Dob`) and today is a parameter. Date parsing, time zones and invalid calendar dates are left out.
- Text.ParsePrice: models only the leading whole-number part of `parseFloat`. Fractions, signs, exponents and `Infinity` are not modelled, and prices and rates are natural numbers. So "-5", ".5", "+2" and "Infinity" read as 0 in the model, where `parseFloat` gives -5, 0.5, 2 and Infinity. `toLocaleString` formatting is display only.
- Text.Lower: lower-cases ASCII letters only. Unicode case mapping is not modelled.
- Text is indexed by `char`, with no surrogate pairs.
- LabTests: category and specimen saves and double-clicks are left out, as are panel-member save and delete and the component and panel dialogs' open and close. They follow the same guard, write and refresh shape as the test save, which is modelled.
- ItemClassModal.tsx, RoomSignInModal.tsx and the service input-items, class and category dialogs are not part of this model. Neither are the JSX layout, context-menu coordinates or scrolling.
- Services: the drop-down data for item classes and categories is left out, because it is display only.
- Services: browser event dispatch is not modelled. A mouse click on the menu is its mouse-down followed by the delete; see "Findings".
- Alerts (`alert`) are returned as values, and `confirm` is the `confirmed` parameter of the delete.

## Findings

| source | as written | input that shows it | evidently intended | confidence | as-written member | corrected member |
|---|---|---|---|---|---|---|
| components/Services.tsx:70-213 | The document `mousedown` listener clears the context menu on every press, including a press on the menu's own "Delete Service" button. The menu is rendered only while its id is set, so it is gone before the click. | Right-click a row, then click "Delete Service" with the mouse: the press clears the id, and the delete never runs | A press on the menu keeps it open, so the click deletes the row the menu was opened on | likely; not executed (keyboard activation of the button skips the press) | Services.ServicesScreen.ClickMenuDeleteAsWritten | Services.ServicesScreen.ClickMenuDelete |
