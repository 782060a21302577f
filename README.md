# Global Law CRM — a verified model of the store and its views' logic

This project models the core of a small CRM for a company-formation law
firm. Clients move through a six-stage funnel, from "Nuevo Lead" to
"Completado". Each client is assigned to an existing user; a client
imported from a lead is assigned to an advisor. New clients also arrive
as leads from Meta Ads lead forms.

The centre is the in-memory store `crmService`, modelled as the class
`CrmService.CrmStore`. It has three fields, each a `seq` that the methods
reassign:
- `users`;
- `clients`;
- `importedLeadIds`, the ledger of imported lead ids that the application keeps in `localStorage`.

Every store method preserves the invariant `Valid()`:
- the main administrator `user-1` is present with role Admin;
- every client's `assignedTo` names an existing user.

Around the store, the project models:
- the lead-field extraction of the ads adapter (`MetaApiService`), as pure functions;
- the drag-and-drop status change of the funnel board (`KanbanBoard.Board`), with its optimistic update and rollback;
- the lead synchronisation loop of the integrations page (`Integrations`);
- the dashboard counts (`Dashboard`);
- the client table's sort, search and sort indicator (`ClientTable`);
- the relative-time text of a client card (`ClientCard`);
- the user form (`UserFormModal.UserForm`);
- the notification list (`NotificationContext.NotificationCenter`).

The seed data and the types are modelled in `Constants` and `Types`.

Three helper modules give the JavaScript built-ins the code relies on a meaning in Dafny:
- `Seqs`: `filter`, `findIndex`, `some`, and `Array.from(new Set(...))`;
- `Strings`: `toLowerCase`, `includes`, `trim`, `<` on strings, `join`, and number-to-string conversion;
- `Wrappers`: `Option`, `Result` and `Outcome`, which stand for `null` and for a thrown `Error`.

Modelling conventions:
- Timestamps are integers (milliseconds since the epoch), passed in by the caller.
- Ids built from `Date.now()` are modelled as `StampedId(prefix, now)`, for example `"note-" + decimal(now)`.
- The advisor that `Math.random` picks is a nondeterministic choice (`:|`) among the advisors.
- The store's exceptions are `Err` values whose `Message` is the exact error text.

The store does not skip a status change to the status a client already has. `updateClientStatus` always appends an audit note (src/services/crmService.ts:108-117). Only the board checks for an unchanged status (src/components/KanbanBoard.tsx:41). The model follows the code.

## Model

| member | source | states |
|---|---|---|
| Types.StageValueInjective | types.ts:2-9 | the six funnel stages have pairwise distinct string values |
| Constants.StageOrderIsComplete | src/constants.ts:104-111 | the stage order lists all six stages once each, NewLead first and Completed last |
| Constants.StageCountsSum | src/constants.ts:104-111 | every client is in exactly one stage, so the six per-stage lists together are as long as the client list |
| Constants.InitialUsersShape | src/constants.ts:5-9 | the seed users contain `user-1` with role Admin, and `user-2` and `user-3` are Advisors |
| Constants.InitialAssignmentsResolve | src/constants.ts:11-102 | every seed client is assigned to the id of a seed user |
| Constants.InitialIdsDistinct | src/constants.ts:5-102 | seed user ids are pairwise distinct, seed client ids are pairwise distinct, and each seed client has exactly one note |
| CrmService.WithoutUser | src/services/crmService.ts:86 | removing a user drops every entry with that id and keeps every other entry, each with all its copies, in their order |
| CrmService.Advisors | src/services/crmService.ts:130 | the advisors are exactly the users whose role is Advisor |
| CrmService.VisibleClients | src/services/crmService.ts:89-95 | an Admin sees every client; any other user sees exactly the clients assigned to them, each with all its copies, in store order |
| CrmService.Message | src/services/crmService.ts:127 | the duplicate-lead message is "Lead with ID " followed by the lead id and the fixed rest, so it names the refused id |
| CrmService.LeadMessageNamesLead | src/services/crmService.ts:127 | two duplicate-lead messages are equal exactly when they name the same lead id |
| CrmService.StatusChanged | src/services/crmService.ts:108-117 | a status change sets the status and `lastUpdate` and appends exactly one note `Status changed to "<stage>"` by the author; nothing else about the client changes |
| CrmService.NoteAdded | src/services/crmService.ts:173-181 | adding a note appends it at the end and sets `lastUpdate` to its date; nothing else changes |
| CrmService.ImportedClient | src/services/crmService.ts:137-151 | an imported client keeps the lead's name, email and phone, is a NewLead tagged "Meta Lead", is assigned to the chosen advisor, has `contactDate == lastUpdate`, and has one System note naming the lead id |
| CrmService.WithImportedIds | src/services/crmService.ts:40-44 | the ledger after recording ids is duplicate-free and holds exactly the old ids and the new ones |
| CrmService.ReplaceUserKeepsAssignments | src/services/crmService.ts:63-75 | replacing a user by one with the same id keeps every client's assignment resolvable |
| CrmService.ReplaceUserKeepsMainAdmin | src/services/crmService.ts:69-73 | the role guard keeps the main administrator an Admin across an update |
| CrmService.RemoveUnassignedKeepsAssignments | src/services/crmService.ts:82-86 | deleting a user that no client is assigned to keeps every assignment resolvable |
| CrmService.RemoveOtherKeepsMainAdmin | src/services/crmService.ts:79-86 | deleting any user other than `user-1` keeps the main administrator |
| CrmService.ReplaceClientKeepsAssignments | src/services/crmService.ts:108-117 | rewriting a client without touching `assignedTo` keeps the assignments resolvable |
| CrmService.PrependClientKeepsAssignments | src/services/crmService.ts:146-161 | putting first a client assigned to an existing user keeps every assignment resolvable |
| CrmService.RecordedLeadIsRefused | src/services/crmService.ts:125-128 | once a lead id is recorded in the ledger, it is in the ledger, so a later import of that id is refused |
| CrmService.CrmStore.constructor | src/services/crmService.ts:16-17 | the store starts from the seed users and clients and from the persisted ledger, and satisfies the invariant |
| CrmService.CrmStore.GetUsers | src/services/crmService.ts:48-51 | returns the user list |
| CrmService.CrmStore.AddUser | src/services/crmService.ts:53-61 | appends one user built from the data with id `user-<now>`, changes nothing else, and keeps the invariant |
| CrmService.CrmStore.UpdateUser | src/services/crmService.ts:63-75 | an unknown id gives "User not found"; giving `user-1` any role but Admin is refused; otherwise only the entry at the first matching index is replaced; on error nothing changes |
| CrmService.CrmStore.DeleteUser | src/services/crmService.ts:77-87 | `user-1` is never deleted; a user with assigned clients is not deleted; otherwise every user with the id is removed and the rest keep their order |
| CrmService.CrmStore.GetClients | src/services/crmService.ts:89-95 | returns the clients the requesting user may see |
| CrmService.CrmStore.GetAllClients | src/services/crmService.ts:97-100 | returns every client |
| CrmService.CrmStore.UpdateClientStatus | src/services/crmService.ts:102-119 | an unknown client id gives "Client not found" and changes nothing; otherwise only the first client with the id becomes its status-changed version, even when the status is unchanged |
| CrmService.CrmStore.AddClientFromMeta | src/services/crmService.ts:121-165 | a recorded lead id, or the absence of advisors, gives an error and changes neither the clients nor the ledger; otherwise the client that `ImportedClient` makes from the lead data, assigned to one of the advisors, is put first and the lead id is recorded |
| CrmService.CrmStore.AddNote | src/services/crmService.ts:167-184 | an unknown client id gives "Client not found"; otherwise one note `note-<now>` by the author is appended to the first client with the id and its `lastUpdate` becomes the note's date |
| CrmService.CrmStore.GetImportedLeadIds | src/services/crmService.ts:35-38 | returns the ledger |
| CrmService.CrmStore.AddImportedLeadIds | src/services/crmService.ts:40-44 | the ledger becomes the duplicate-free union of the old ids and the new ones |
| CrmService.ImportTwice | src/services/crmService.ts:124-162 | importing the same lead twice never succeeds the second time; after a successful first import the second is refused as already imported and exactly one client was added |
| MetaApiService.GetFieldValue | src/services/metaApiService.ts:42-45 | the value is the first value of the first field whose lower-cased name contains the lower-cased key, or "" when no field matches |
| MetaApiService.LaterFieldsIgnored | src/services/metaApiService.ts:43 | once a field matches, fields after it never change the value |
| MetaApiService.ExtractLeadInfo | src/services/metaApiService.ts:41-61 | the name is the full name, else first and last name joined by one space with empty parts skipped, else "N/A"; the email falls back to `no-email-<id>@example.com`; the phone falls back to "N/A"; the lead id is kept; name, email and phone are never empty |
| KanbanBoard.Optimistic | src/components/KanbanBoard.tsx:43-47 | the optimistic step sets status and `lastUpdate` on the entries with the dragged id and leaves every other entry unchanged |
| KanbanBoard.Rollback | src/components/KanbanBoard.tsx:55-57 | the rollback puts the snapshot in place of the entries with the dragged id and leaves the others unchanged |
| KanbanBoard.RollbackRestores | src/components/KanbanBoard.tsx:40-57 | rolling back an optimistic update with the snapshot restores the list when the dragged id is held by one client only |
| KanbanBoard.Columns | src/components/KanbanBoard.tsx:72-76 | there is one column per stage, in funnel order, and a client is in a column exactly when its status is that column's stage |
| KanbanBoard.ColumnsPartitionClients | src/components/KanbanBoard.tsx:72-76 | the column sizes add up to the number of clients on the board |
| KanbanBoard.Board.constructor | src/components/KanbanBoard.tsx:11-13 | the board starts with no clients and nothing dragged |
| KanbanBoard.Board.FetchClients | src/components/KanbanBoard.tsx:16-27 | the board shows the clients the current user may see |
| KanbanBoard.Board.HandleDragStart | src/components/KanbanBoard.tsx:33-35 | the dragged client id is recorded |
| KanbanBoard.Board.HandleDrop | src/components/KanbanBoard.tsx:37-62 | with nothing dragged, nothing changes; a client that is missing or already in the stage is left alone and the store is not called; otherwise the optimistic list is kept if the store succeeds, or the snapshot is restored if it fails; the drag is cleared |
| Integrations.NewLeads | src/components/Integrations.tsx:36-37 | the new leads are exactly the fetched leads whose id is not in the ledger, each with all its copies, in fetched order (a subsequence of the fetched list) |
| Integrations.LeadIdsBound | src/components/Integrations.tsx:44-49 | a batch has no more distinct ids than leads |
| Integrations.FirstIndicesInOrder | src/components/Integrations.tsx:44-53 | the positions of the first occurrences increase, and the id at each is not seen before it |
| Integrations.FirstIndicesDistinct | src/components/Integrations.tsx:44-53 | no two first occurrences share an id |
| Integrations.FirstIndicesCount | src/components/Integrations.tsx:44-53 | there are as many first occurrences as distinct ids |
| Integrations.FirstIndicesCover | src/components/Integrations.tsx:44-53 | the first occurrences carry every id of the batch |
| Integrations.ImportOne | src/components/Integrations.tsx:48-52 | one import succeeds exactly when the lead id is not recorded and an advisor exists; it then puts first the client `ImportedClient` makes from the lead data, assigned to an advisor, and records the id; otherwise nothing changes |
| Integrations.ImportTurn | src/components/Integrations.tsx:46-52 | one turn extracts the lead's data with `ExtractLeadInfo`, imports it, and carries the loop's progress over to the next lead |
| Integrations.ImportLeads | src/components/Integrations.tsx:44-53 | importing the new leads one by one skips failures; the success count is the number of distinct ids when advisors exist and zero otherwise; with advisors the new first clients, read from the last back, are the clients made from the extracted data of the first occurrence of each id, in batch order, each stamped with its turn's clock reading |
| Integrations.ImportsOfFirstOccurrences | src/components/Integrations.tsx:44-53 | read in lead terms, the imports are one client per first occurrence, made from `ExtractLeadInfo` of that lead, in batch order, covering every id once |
| Integrations.HandleSyncLeads | src/components/Integrations.tsx:29-63 | without a selected form, after a failed fetch, or with no new leads, nothing is imported; otherwise each distinct new lead id is recorded, the count reported is the number imported, at most the number of new leads, and with advisors the new clients are made from the first occurrences of the ids in batch order |
| Dashboard.ChartData | components/Dashboard.tsx:36-41 | one chart entry per stage, in funnel order, whose count is the number of clients in that stage |
| Dashboard.TotalClients | components/Dashboard.tsx:43 | the total equals the sum of the chart's bars |
| Dashboard.NewLeadsCount | components/Dashboard.tsx:44 | the "Nuevo Lead" card, which compares status strings, counts the clients in stage NewLead and equals the chart's first bar |
| Dashboard.CompletedCount | components/Dashboard.tsx:45 | the "Completado" card, which compares status strings, counts the clients in stage Completed and equals the chart's last bar |
| Dashboard.ChartSumsToTotal | components/Dashboard.tsx:36-43 | the chart counts add up to the number of clients |
| ClientTable.NextSortConfig | components/ClientTable.tsx:50-56 | a sort request keeps the key and gives descending exactly when the current sort is that key ascending |
| ClientTable.RequestSortToggles | components/ClientTable.tsx:50-56 | requesting the same column twice gives opposite directions |
| ClientTable.Compare | components/ClientTable.tsx:29-37 | the comparator is -1, 0 or 1; ascending, it is negative exactly when the first client's value is below the second's and positive exactly when it is above; descending, the other way round |
| ClientTable.CompareAntisymmetric | components/ClientTable.tsx:29-37 | swapping the two clients negates the comparator |
| ClientTable.CompareZeroIffSameValue | components/ClientTable.tsx:29-37 | the comparator is zero exactly when both clients hold the same value in the sorted column |
| ClientTable.CompareTransitive | components/ClientTable.tsx:29-37 | the comparator's order is transitive |
| ClientTable.SortOrdered | components/ClientTable.tsx:29-37 | the sort's result is ordered by the comparator for every pair of positions |
| ClientTable.SortOfOrdered | components/ClientTable.tsx:29-37 | a list that is already ordered comes back unchanged, so tied rows keep their order |
| ClientTable.SortedClients | components/ClientTable.tsx:26-40 | the sorted rows are a permutation of the clients; with no sort they are the clients in their original order; with a sort they are ordered ascending or descending by the key |
| ClientTable.FilteredClients | components/ClientTable.tsx:42-48 | a row is kept exactly when the lower-cased term occurs in its lower-cased name, email or status, with all its copies, and the kept rows are in sorted order |
| ClientTable.EmptySearchKeepsAll | components/ClientTable.tsx:42-48 | an empty search term keeps every row |
| ClientTable.SortIndicator | components/ClientTable.tsx:58-61 | no arrow unless the column is the sorted one; ▲ for ascending and ▼ for descending |
| ClientTable.Table.constructor | components/ClientTable.tsx:8-11 | the table starts with no clients, an empty search term and no sort |
| ClientTable.Table.FetchClients | components/ClientTable.tsx:15-20 | the table loads the clients the current user may see |
| ClientTable.Table.SetSearchTerm | components/ClientTable.tsx:71 | the search term becomes the typed text |
| ClientTable.Table.RequestSort | components/ClientTable.tsx:50-56 | the sort becomes the requested key with the toggled direction |
| ClientTable.Table.Rows | components/ClientTable.tsx:26-48 | the rows shown are a subsequence of the sorted clients, and hold exactly the loaded clients that match the search term, each with all its copies |
| ClientCard.ChosenUnit | components/ClientCard.tsx:20-30 | the unit is the first of year, month, day, hour and minute that the elapsed seconds strictly exceed, or seconds when there is none |
| ClientCard.ElapsedSeconds | components/ClientCard.tsx:19 | the elapsed seconds are the elapsed milliseconds divided by 1000, rounded down |
| ClientCard.TimeSinceUpdateShowsChosenUnit | components/ClientCard.tsx:18-31 | the text is the elapsed seconds divided by the chosen unit, rounded down, followed by that unit's suffix |
| ClientCard.TimeAgo | components/ClientCard.tsx:18-31 | read at a given instant, the text is the elapsed whole seconds divided by the chosen unit, rounded down, followed by that unit's suffix |
| ClientCard.AmountAtLeastOne | components/ClientCard.tsx:20-29 | the number shown for a unit other than seconds is at least 1 |
| ClientCard.SecondsUpToAMinute | components/ClientCard.tsx:28-30 | the text counts seconds exactly when at most 60 seconds have passed |
| ClientCard.ExactlyAMinute | components/ClientCard.tsx:28-30 | 60 seconds read "60s ago" |
| ClientCard.JustOverAMinute | components/ClientCard.tsx:28-29 | 61 seconds read "1m ago" |
| UserFormModal.Loaded | components/UserFormModal.tsx:18-33 | opening the form on a user copies its fields, with number "" and the switch off when there is no contact; opening it for a new user gives empty fields, role Advisor and the switch off |
| UserFormModal.SubmittedData | components/UserFormModal.tsx:35-51 | nothing is saved when the trimmed name or email is empty; otherwise name, email and role are saved as typed, and a contact is saved exactly when the trimmed number is not empty, holding the trimmed number and the switch |
| UserFormModal.EditWithoutChangesRoundTrip | components/UserFormModal.tsx:18-51 | opening a user and saving it unchanged gives back its data, when its name and email are not blank and its number, if any, is trimmed and not empty |
| UserFormModal.BlankNumberDropsContact | components/UserFormModal.tsx:23-51 | reopening a user whose stored number is blank and saving it submits a payload that carries no contact |
| UserFormModal.ResubmitIsStable | components/UserFormModal.tsx:18-51 | reopening a saved payload and saving it again gives the same payload |
| UserFormModal.CanEnableWhatsapp | components/UserFormModal.tsx:59 | the switch may be used exactly when the number holds a character that is not white space, and a form with such a number submits a contact |
| UserFormModal.IsMainAdmin | components/UserFormModal.tsx:57 | the form edits the main administrator exactly when it edits a user with the id of the first seed user, `user-1` |
| UserFormModal.UserForm.constructor | components/UserFormModal.tsx:11-15 | the form starts empty, with role Advisor and the switch off |
| UserFormModal.UserForm.Load | components/UserFormModal.tsx:18-33 | the opening effect puts the loaded values in the form |
| UserFormModal.UserForm.SetName | components/UserFormModal.tsx:85 | the name becomes the typed text |
| UserFormModal.UserForm.SetEmail | components/UserFormModal.tsx:97 | the email becomes the typed text |
| UserFormModal.UserForm.SetWhatsappNumber | components/UserFormModal.tsx:126 | the number becomes the typed text |
| UserFormModal.UserForm.SelectRole | components/UserFormModal.tsx:105-109 | the role changes to the selected one except when the form edits `user-1`, whose selector is disabled |
| UserFormModal.UserForm.ToggleWhatsapp | components/UserFormModal.tsx:136 | the switch flips only while the trimmed number is not empty |
| UserFormModal.UserForm.HandleSubmit | components/UserFormModal.tsx:35-55 | the payload handed to `onSave` is the submitted data of the current fields, or none |
| NotificationContext.WithoutNotification | contexts/NotificationContext.tsx:16-18 | removing an id drops every entry with it and keeps the other entries in their order |
| NotificationContext.RemoveAbsentIsNoop | contexts/NotificationContext.tsx:17 | removing an id that is not present leaves the list unchanged |
| NotificationContext.RemoveAfterAddRestores | contexts/NotificationContext.tsx:20-25 | adding a notification with a fresh id and removing that id restores the previous list |
| NotificationContext.NotificationCenter.constructor | contexts/NotificationContext.tsx:14 | the list starts empty |
| NotificationContext.NotificationCenter.AddNotification | contexts/NotificationContext.tsx:20-22 | exactly one entry with id `now`, the message and the type is appended, and earlier entries are unchanged |
| NotificationContext.NotificationCenter.RemoveNotification | contexts/NotificationContext.tsx:16-18 | the list loses every entry with the id |

## Left out

- The Graph API calls (`validateToken`, `getPages`, `getForms`, `getLeads`, `handleApiResponse`) are network I/O. The sync takes the result of `getLeads` as an input, either the leads or an error message.
- The integration context (src/contexts/MetaIntegrationContext.tsx) is not part of this model. It only connects to the network and stores settings in `localStorage`. The selected form id is an input of the sync.
- `localStorage` is the store's `importedLeadIds` field. The constructor takes its persisted value, because the ledger survives a reload while the lists do not.
- The artificial latency and the `async`/`await` structure are collapsed into synchronous methods.
- The conversion of dates to ISO strings and back (`hydrateClient`, `dehydrateNote`, the JSON copies) is the identity on integer timestamps.
- Ids built from `Date.now()` can collide. The model builds them from the `now` parameter and claims no uniqueness.
- CrmService.CrmStore.AddClientFromMeta: the advisor is any advisor (`:|`). The uniform distribution of `Math.random` is not modelled.
- CrmService.CrmStore.UpdateClientStatus: the source reads the clock twice, for `lastUpdate` (line 110) and for the note (lines 112-113). The model uses one `now` for both, so the two timestamps are equal in the model.
- KanbanBoard.Board.HandleDrop: the store call fails only for an unknown client id, so the rollback is exercised exactly when the board's copy holds a client that the store does not. The failure notification and `console.error` are not modelled. When the dragged id is the empty string, the drop returns early and leaves the id as it was, because `!draggedClientId` is true for "".
- Integrations.HandleSyncLeads: the notifications and the delayed `window.location.reload` are left out. The outcome names which notification would be shown. `clock(k)` is the time of the k-th import. A form id that is the empty string counts as no selected form.
- MetaApiService.GetFieldValue: a matching field with no values gives "" (JavaScript `undefined`, which every caller treats as "").
- MetaApiService.GetFieldValue: `toLowerCase` is modelled for ASCII letters only. Other letters are compared as written.
- ClientTable.FilteredClients: `toLowerCase` is modelled for ASCII letters only.
- ClientTable.SortedClients: `Array.prototype.sort` on a copied array is modelled by its result, a stable insertion sort on a sequence, not by an in-place array algorithm. Stability is shown for input that is already ordered (`SortOfOrdered`), not for every input.
- ClientTable.Compare: string `<` compares characters by code point. JavaScript compares UTF-16 code units, which differs only for characters outside the Basic Multilingual Plane.
- ClientCard.TimeSinceUpdateShowsChosenUnit: `seconds / unit > 1` on floating point is modelled as `seconds > unit` on integers. The two agree for every elapsed time below about 2^53 seconds. Dates in the future (a negative elapsed time) are out of scope.
- UserFormModal.BlankNumberDropsContact: speaks of the submitted payload only. The settings page saves `{ ...userToEdit, ...userData }` (src/components/UserSettings.tsx:52), so a payload without a contact leaves the stored contact in place; that page is not part of this model.
- UserFormModal.UserForm.HandleSubmit: the `isSubmitting` flag, the disabled submit button and the asynchronous `onSave` are not modelled. The method returns the payload.
- The 5-second auto-dismiss timer of a notification is not modelled. Removal is the separate method `RemoveNotification`.
- The rendering in src/App.tsx, src/components/Sidebar.tsx, src/components/Header.tsx, src/components/KanbanColumn.tsx, src/components/NotificationManager.tsx, src/components/ui/Logo.tsx and index.tsx is not part of this model. Neither is the chart drawing of components/Dashboard.tsx.
- src/components/UserSettings.tsx and components/ClientDetailModal.tsx are not part of this model. They only forward to the store behind confirmation dialogs and reloads.
- Concurrency, such as overlapping drags or operations in flight, is not modelled. The code has no serialisation to verify.
