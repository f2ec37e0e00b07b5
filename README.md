# Bid Beacon, modelled in Dafny

Bid Beacon is a procurement tracker. Emails arrive from contractors. A
user links each email to a project and a contractor, and turns it into a
bid. Bids get classifications, documents and contracts. This project
models the parts of the system that compute something, and proves what
they promise:

- **Database storage layer** (`storage.dfy`, `relations.dfy`):
  - the tables are sequences of rows, and the queries are filters and sorts over them;
  - the bid relation assembler builds its id indexes and `bid_id` groups in loops, and is proved equal to a per-bid join specification;
  - the substring searches, with SQL's three-valued `OR`;
  - the partial-merge updates and the deletes, including the foreign-key failures of the deletes;
  - the dashboard aggregates and the email-type histogram.
- **Stand-alone server** (`standalone.dfy`): one object holds arrays of JSON records. Its routes behave as follows:
  - `POST` appends;
  - `PATCH` merges at an index;
  - bid-classification `DELETE` splices;
  - `GET /api/bids` joins by `find`;
  - it has its own dashboard and histogram rules;
  - the generated sample data is referentially sound.
- **Shared schema** (`schema.dfy`): the four enums, the column defaults of the inserts, the string-or-number amount coercion, and the joined `BidWithRelations` view.
- **Client logic**:
  - extracting an amount from an email and matching the email to a project and a contractor (`email_detail.dfy`);
  - scraping headers from an uploaded email file (`email_upload.dfy`);
  - the bid form: classification toggle, file list, submit payload, edit initialisation and document URLs (`bid_form.dfy`);
  - the list pages' filters, counts, initials, labels and badge styles (`bids_page.dfy`, `contractors_page.dfy`, `classifications_page.dfy`, `projects_page.dfy`, `contracts_page.dfy`).

Shared helpers:

- `wrappers.dfy`: `Option` and `Result`.
- `seqs.dfy`: order-preserving filter, find, count, distinct, a stable sort.
- `text.dfy`: ASCII case mapping, containment, trim, split and join, digit texts.
- `numeric.dfy`: decimals, JavaScript's `parseFloat` and number-to-text, and Postgres' `numeric(12,2)` text.

State the source changes in place is modelled the way the source holds it:

- The server's global object is `Standalone.Store`.
- The bid form dialog is `BidForm.BidFormDialog`.
- The email dialog is `EmailDetail.DetailDialog`.
- The contract data is `ContractsPage.ContractData`.
- Loops become methods proved against specification functions: the relation assembler, the header scraper, the file splice, the document upload loop and the email-stats loop.

Generated ids, the clock and today's date are parameters. So is the outcome of an I/O call, such as which uploads succeeded.

## Model

| member | source | states |
|---|---|---|
| Relations.PopulateBidRelations | server/storage.ts:407-511 | one view per input bid, in input order, each equal to `ViewOf` (the join specification); an empty list issues no lookups, and each related table is queried only when some bid has that key |
| Relations.FetchRelated | server/storage.ts:410-463 | the id lists and the rows fetched for a non-empty bid list are the rows whose keys occur among the bids |
| Relations.BuildIndex | server/storage.ts:466-468 | the id→row map built by the loop is `IndexBy` of the rows |
| Relations.BuildGroups | server/storage.ts:484-497 | the `bid_id`→rows map grown by the loop is `GroupBy` of the rows, in fetch order |
| Relations.GroupClassified | server/storage.ts:469-481 | a link whose classification is not in the map is dropped; the rest are grouped by `bid_id`, each paired with its classification |
| Relations.ViewSound | server/storage.ts:500-510 | the view keeps the bid unchanged; a relation is absent when its key is null, and otherwise is a row with that id; documents, contracts and classifications all carry the bid's id |
| Relations.ViewFindsRows | server/storage.ts:466-508 | when the key is set and a row with it exists, the relation is present (the bid's project, contractor and email at 466-468, a contract's bid at 503-505) |
| Relations.ViewComplete | server/storage.ts:469-508 | every document and contract of the bid is in its view; a classification link of the bid is in the view iff its classification exists |
| Relations.ClassifyKeeps | server/storage.ts:475 | a link survives iff its classification row exists |
| Relations.AssembleFetched | server/storage.ts:500-510 | assembling a bid from the fetched maps gives exactly the join specification, so fetching only the rows of the listed bids loses nothing |
| Relations.LastWithKeyFetched | server/storage.ts:415-447 | restricting a table to the fetched keys does not change what a fetched key finds |
| Relations.GroupByLookup | server/storage.ts:484-497 | a group is the rows with that key in order, and a key is present iff it has rows |
| Relations.IndexByLookup | server/storage.ts:466-468 | the map holds a key iff a row has it, and maps it to the last such row |
| Relations.PresentKeys | server/storage.ts:410-413 | every set foreign key is listed, and the list is empty iff no bid has the key |
| Storage.AnyOf | server/storage.ts:743-745 | SQL `OR`: true iff some operand is true, false iff all are false, otherwise null |
| Storage.EmailConditionMeaning | server/storage.ts:160-174 | an email matches iff its subject, sender email, or a non-null sender name or body contains the query, ignoring case |
| Storage.SearchEmailsSpec | server/storage.ts:160-174 | the result is sorted newest first and holds exactly the matching emails, with their multiplicities |
| Storage.SearchContractorsSpec | server/storage.ts:228-242 | sorted by name; exactly the contractors whose name, email, non-null phone or certification level contains the query |
| Storage.SearchProjectsSpec | server/storage.ts:296-309 | sorted by name; exactly the projects whose name, non-null description or project type contains the query |
| Storage.GuardedInArray | server/storage.ts:396-397 | an empty id list contributes `FALSE`, and otherwise the test is membership of a non-null key |
| Storage.BidConditionMeaning | server/storage.ts:390-397 | the bid `WHERE` clause is true iff the project or contractor is among the hits, or the notes contain the query |
| Storage.SearchBidRowsSpec | server/storage.ts:381-401 | sorted by submission date, newest first; exactly the bids whose project or contractor is a search hit, or whose notes contain the query |
| Storage.SearchBids | server/storage.ts:381-404 | the views are the relation join of the matching bid rows, in their order |
| Storage.LatestBidsSpec | server/storage.ts:319-327 | at most `limit` bids, newest first, taken from the bids, and none of the bids left out is newer |
| Storage.GetBids | server/storage.ts:319-327 | the views are the join of the latest bids |
| Storage.GetBidById | server/storage.ts:329-339 | no view iff no bid has the id; otherwise the join of the bid with that id |
| Storage.BidsOfProjectSpec | server/storage.ts:361-369 | sorted newest first; exactly the bids of that project |
| Storage.BidsOfContractorSpec | server/storage.ts:371-379 | sorted newest first; exactly the bids of that contractor |
| Storage.GetBidsByProjectId | server/storage.ts:361-369 | the views are the join of the project's bids |
| Storage.GetBidsByContractorId | server/storage.ts:371-379 | the views are the join of the contractor's bids |
| Storage.MergeContractor | server/storage.ts:200-210 | given fields replace, absent fields keep the old value; `updated_at` becomes now, and the id and `created_at` are kept |
| Storage.UpdateContractor | server/storage.ts:200-210 | only rows with the id change, each to the merge; no row is returned iff none has the id; nothing else in the database changes |
| Storage.MergeProject | server/storage.ts:268-278 | field-by-field merge with a new `updated_at` |
| Storage.UpdateProject | server/storage.ts:268-278 | only rows with the id change; the returned row has a new `updated_at` |
| Storage.MergeBid | server/storage.ts:341-351 | field-by-field merge with a new `updated_at` |
| Storage.UpdateBid | server/storage.ts:341-351 | only rows with the id change; the returned row has a new `updated_at` |
| Storage.MergeContract | server/storage.ts:649-659 | field-by-field merge with a new `updated_at` |
| Storage.UpdateContract | server/storage.ts:649-659 | only rows with the id change; the returned row has a new `updated_at` |
| Storage.MergeEmail | server/storage.ts:143-150 | field-by-field merge, with no timestamp touched |
| Storage.UpdateEmailRecord | server/storage.ts:143-150 | only rows with the id change; nothing else in the database changes |
| Storage.MergeClassification | server/storage.ts:546-553 | field-by-field merge, with no timestamp touched |
| Storage.UpdateClassification | server/storage.ts:546-553 | only rows with the id change; nothing else in the database changes |
| Storage.EmptyPatches | server/storage.ts:143-150 | an empty patch changes only `updated_at`, for the four tables that set it (the same update shape recurs at 200-210, 268-278, 341-351, 546-553 and 649-659) |
| Storage.DeleteRows | server/storage.ts:212-218 | removes exactly the rows with the id, and a row was removed iff one had it |
| Storage.DeleteRowsInOrder | server/storage.ts:212-218 | the remaining rows keep their order |
| Storage.DeleteContractor | server/storage.ts:212-218 | fails iff the contractor exists and a bid refers to it; otherwise removes it, and `true` iff it existed |
| Storage.DeleteProject | server/storage.ts:280-286 | fails iff the project exists and a bid refers to it; otherwise removes it, and `true` iff it existed |
| Storage.DeleteBid | server/storage.ts:353-359 | fails iff the bid exists and is referenced by a link, document or contract; otherwise removes it, and `true` iff it existed |
| Storage.DeleteClassification | server/storage.ts:555-561 | fails iff the classification exists and a link refers to it; otherwise removes it, and `true` iff it existed |
| Storage.RemoveBidClassification | server/storage.ts:591-597 | removes the links with the id, and `true` iff one existed |
| Storage.DeleteBidDocument | server/storage.ts:616-622 | removes the documents with the id, and `true` iff one existed |
| Storage.DeleteContract | server/storage.ts:661-667 | removes the contracts with the id, and `true` iff one existed |
| Storage.ActiveBidsCount | server/storage.ts:684-693 | active bids are those with status submitted, under_review, approved or contract_pending |
| Storage.AmountSumMeaning | server/storage.ts:707-711 | `SUM` is null iff every amount is null, and otherwise the sum of the non-null amounts |
| Storage.DashboardSummarySpec | server/storage.ts:678-720 | the four counts as the status tests define them, and the total is `COALESCE(SUM, 0)` read back by `parseFloat` |
| Storage.StatsTotal | server/storage.ts:722-741 | the histogram counts sum to the number of emails |
| Storage.StatsOrdered | server/storage.ts:733 | the counts are non-increasing |
| Storage.StatsHaveEveryType | server/storage.ts:722-741 | every email type that occurs, null included, has its own entry with its count |
| Storage.StatsRowIsOfAType | server/storage.ts:722-741 | every entry is an occurring type with its count |
| Storage.StatsCategoriesDistinct | server/storage.ts:730-738 | no category name appears twice |
| Storage.UnknownKeepsItsRow | server/storage.ts:736 | `unknown` keeps its own entry and is not folded into `unclassified` |
| Storage.UnclassifiedCountsNulls | server/storage.ts:736 | the `unclassified` entry counts exactly the emails with no type |
| Schema.ParseEmailType | shared/schema.ts:7-15 | the name of each email type, in both directions |
| Schema.ParseBidStatus | shared/schema.ts:17-25 | the name of each bid status, in both directions |
| Schema.ParseProjectStatus | shared/schema.ts:27-32 | the name of each project status, in both directions |
| Schema.ParseProcessingStatus | shared/schema.ts:34-40 | the name of each processing status, in both directions |
| Schema.EmailTypesComplete | shared/schema.ts:7-15 | seven distinct email types, with distinct names |
| Schema.BidStatusesComplete | shared/schema.ts:17-25 | seven distinct bid statuses, with distinct names |
| Schema.ProjectStatusesComplete | shared/schema.ts:27-32 | four distinct project statuses, with distinct names |
| Schema.ProcessingStatusesComplete | shared/schema.ts:34-40 | five distinct processing statuses, with distinct names |
| Schema.InsertEmailRecord | shared/schema.ts:49-61 | defaults: received now, type `unknown`, not processed, status `unprocessed`; every given value, the received date included, is kept |
| Schema.InsertProject | shared/schema.ts:73-84 | default status `active`; both timestamps now |
| Schema.InsertBid | shared/schema.ts:86-97 | nullable foreign keys kept; submission date defaults to now; default status `submitted` |
| Schema.InsertContract | shared/schema.ts:124-134 | default status `draft`; both timestamps now |
| Schema.CoerceAmount | shared/schema.ts:232-233 | a string passes unchanged; a number becomes a text that reads back as the same number (the same coercion recurs at 259-260) |
| Standalone.NewRecord | standalone.js:303-313 | the generated id unless the body has one; the body's fields; `created_at`, and `updated_at` except for links, always regenerated |
| Standalone.Store.Post | standalone.js:303-313 | appends exactly the new record to its array, and changes no other array (the same handler shape recurs at 343-353, 388-398, 466-476, 498-508, 511-520 and 537-547) |
| Standalone.Patched | standalone.js:315-328 | old fields overridden by the body's, plus a new `updated_at` |
| Standalone.PatchRows | standalone.js:315-328 | an unknown id changes nothing; otherwise only the first element with the id changes, and the length is kept |
| Standalone.Store.Patch | standalone.js:315-328 | the array becomes `PatchRows` of the old one, and no other array changes (the same handler shape recurs at 355-369, 400-414, 478-492 and 549-563) |
| Standalone.RemoveFirst | standalone.js:522-530 | an absent id gives 404; otherwise exactly the first element with the id goes, and the array is one shorter |
| Standalone.RemoveFirstKeepsOthers | standalone.js:527 | the rest keep their order, and one fewer element has the id |
| Standalone.Store.DeleteBidClassification | standalone.js:522-530 | found iff some link has the id, and then only the link array changes, to `RemoveFirst` |
| Standalone.GetById | standalone.js:295-301 | 404 iff no record has the id, otherwise a record with it; defined for every collection, though standalone.js routes it only for emails (295), contractors (335), projects (380) and bids (441) |
| Standalone.UnprocessedEmails | standalone.js:290-293 | exactly the emails with `processing_status` `pending`, in order |
| Standalone.ActiveProjects | standalone.js:375-378 | exactly the projects with status `active`, in order |
| Standalone.Related | standalone.js:419-421 | the first row whose `id` strictly equals the key, or undefined when none does |
| Standalone.BidsWithRelationsSpec | standalone.js:416-439 | one view per bid, in order; project, contractor and email (through `email_id`) are the first rows found |
| Standalone.BidLinksSpec | standalone.js:422-427 | the links are every `bid_classifications` row of the bid, in order, each with its classification or undefined |
| Standalone.MissingClassificationKept | standalone.js:425-426 | a link whose classification is missing is kept, with no classification |
| Standalone.BidByIdAgreesWithList | standalone.js:441-464 | `GET /api/bids/:id` returns the list's view of the first bid with that id |
| Standalone.DashboardCountsSpec | standalone.js:565-577 | active bids are under_review or shortlisted; unprocessed emails are `pending`; active projects are `active` |
| Standalone.DashboardTotalSpec | standalone.js:579-587 | with numeric values, the total's text reads back as the sum of `value` over active and signed contracts |
| Standalone.TextValueConcatenates | standalone.js:579-581 | a string `value` makes `+` concatenate, so the total becomes text |
| Standalone.StatsCategories | standalone.js:591-603 | the categories are the fixed list's types that have emails, in the list's order |
| Standalone.StatsCounts | standalone.js:596-599 | every entry's count is that type's number of emails, and is positive |
| Standalone.StatsForTotal | standalone.js:591-603 | the counts sum to the number of emails whose type is in the list; other types are ignored |
| Standalone.Store.EmailStats | standalone.js:591-603 | the loop pushes exactly `StatsFor` over the fixed list |
| Standalone.SampleDataIntegrity | standalone.js:201-271 | every foreign key in the sample bids, contract and links names an existing sample record |
| Standalone.SampleDashboard | standalone.js:565-588 | the sample data (seeded at 57-271) shows 2 active bids, 2 pending emails, 2 active projects and total "0" |
| Standalone.Store.InitializeSampleData | standalone.js:57-281 | the store holds exactly the sample data |
| EmailDetail.ExtractBidAmount | client/src/components/emails/EmailDetailModal.tsx:41-44 | none iff no `$` starts a match; otherwise the leftmost match's capture without commas, which is digits with an optional `.dd` |
| EmailDetail.ExtractHalfCents | client/src/components/emails/EmailDetailModal.tsx:42 | "$1.5" gives "1" |
| EmailDetail.ExtractThreeDecimals | client/src/components/emails/EmailDetailModal.tsx:42 | "$1.234" gives "1.23" |
| EmailDetail.ExtractGrouped | client/src/components/emails/EmailDetailModal.tsx:41-44 | "$1,234.56" gives "1234.56" |
| EmailDetail.ExtractOnlyCommas | client/src/components/emails/EmailDetailModal.tsx:42-43 | "$," matches and gives the empty string |
| EmailDetail.AmountTextParses | client/src/components/emails/EmailDetailModal.tsx:251-253 | a non-empty extracted amount always parses as a number |
| EmailDetail.FindRelatedProject | client/src/components/emails/EmailDetailModal.tsx:47-54 | none iff there is no email or no project is mentioned; otherwise the first project, in list order, whose non-empty name occurs in subject + " " + body, ignoring case |
| EmailDetail.FindRelatedContractor | client/src/components/emails/EmailDetailModal.tsx:57-63 | none iff there is no email, the sender is empty, or no email address matches ignoring case; otherwise the first match |
| EmailDetail.ValueRangeOf | client/src/components/emails/EmailDetailModal.tsx:250-256 | not detected iff no amount or an empty one; otherwise high above 100000, medium above 10000, else low |
| EmailDetail.ValueRangeMonotone | client/src/components/emails/EmailDetailModal.tsx:250-256 | a larger amount never falls into a lower range |
| EmailDetail.BidFromEmail | client/src/components/emails/EmailDetailModal.tsx:116-155 | no bid unless both a project and a contractor are found; the bid's fields, status `submitted`, the notes prefix, and amount "0" exactly when nothing, "" or "0" was extracted |
| EmailDetail.ProcessedPatch | client/src/components/emails/EmailDetailModal.tsx:77-83 | sets `is_processed` true and `processing_status` processed, and nothing else (sent by the button at 170-176) |
| EmailDetail.DetailDialog.HandleCreateBid | client/src/components/emails/EmailDetailModal.tsx:116-155 | a notice for a missing project or contractor, otherwise loading and one create request |
| EmailDetail.DetailDialog.OnBidCreated | client/src/components/emails/EmailDetailModal.tsx:77-83 | sends the processed patch for the email, and closes |
| EmailDetail.DetailDialog.HandleMarkAsReviewed | client/src/components/emails/EmailDetailModal.tsx:158-176 | no email gives a notice, otherwise the processed patch; closes either way |
| EmailUpload.ScrapeHeaders | client/src/pages/EmailProcessing.tsx:69-76 | over the first 20 lines, the last `Subject:` and `From:` values, or the defaults |
| EmailUpload.LastHeaderDefault | client/src/pages/EmailProcessing.tsx:69-70 | no header line gives the default: the file name, or example@example.com |
| EmailUpload.LastHeaderLast | client/src/pages/EmailProcessing.tsx:73-76 | the last matching line wins, and its value is the trimmed text after the prefix |
| EmailUpload.LaterLinesIgnored | client/src/pages/EmailProcessing.tsx:73 | lines after the twentieth never matter |
| EmailUpload.SenderName | client/src/pages/EmailProcessing.tsx:82 | the sender text before the first `<`, trimmed |
| EmailUpload.SenderNameBeforeAddress | client/src/pages/EmailProcessing.tsx:82 | "Name <address>" gives "Name" |
| EmailUpload.HandleEmailUpload | client/src/pages/EmailProcessing.tsx:52-88 | no record iff the name ends in neither .eml nor .msg; otherwise every field, the body cut to 1000 characters, and type unknown, not processed, unprocessed |
| BidForm.Toggled | client/src/components/bids/BidFormModal.tsx:176-192 | a present id is removed everywhere and the others are kept in order; an absent id is appended |
| BidForm.ToggleTwice | client/src/components/bids/BidFormModal.tsx:176-192 | toggling an absent id twice restores the list |
| BidForm.SplicedRemovesIndex | client/src/components/bids/BidFormModal.tsx:201-205 | for an index in range, exactly that file is removed and the others keep their order |
| BidForm.RemoveAt | client/src/components/bids/BidFormModal.tsx:201-205 | the in-place shift equals `splice(index, 1)`, with JavaScript's clamping of the start |
| BidForm.BidFormDialog.AddFiles | client/src/components/bids/BidFormModal.tsx:194-199 | new files come after the existing ones |
| BidForm.BidFormDialog.RemoveFile | client/src/components/bids/BidFormModal.tsx:201-205 | the list becomes the spliced list, and the form is unchanged |
| BidForm.BidFormDialog.ToggleClassification | client/src/components/bids/BidFormModal.tsx:176-192 | only the classification list changes, to the toggle |
| BidForm.Payload | client/src/components/bids/BidFormModal.tsx:211-216 | an empty amount is sent as null, and otherwise as the parsed number; the other fields are copied |
| BidForm.Submit | client/src/components/bids/BidFormModal.tsx:211-221 | an update of the bid's id only when editing an existing bid, otherwise a create |
| BidForm.PayloadAmount | client/src/components/bids/BidFormModal.tsx:214 | an amount typed as a number's text reaches the payload as that number |
| BidForm.BlankForm | client/src/components/bids/BidFormModal.tsx:241-251 | every text empty, today's date, status `submitted`, no classifications |
| BidForm.EditForm | client/src/components/bids/BidFormModal.tsx:227-236 | missing texts become "", a missing status becomes `submitted`, the amount text reads back as the stored amount, and the classifications are the ids of the bid's classifications |
| BidForm.BidFormDialog.Open | client/src/components/bids/BidFormModal.tsx:225-253 | the edit form when editing a bid, the blank form otherwise |
| BidForm.CentsRoundTrip | client/src/components/bids/BidFormModal.tsx:230 | the stored amount's text parses back to the stored amount |
| BidForm.DocumentUrl | client/src/components/bids/BidFormModal.tsx:134-139 | the storage base, then the bid id, "/" and the file name |
| BidForm.UploadDocuments | client/src/components/bids/BidFormModal.tsx:128-146 | one request per file, in order; all-success iff every upload succeeded, and the notice that follows from it |
| BidsPage.FilteredBids | client/src/pages/Bids.tsx:35-45 | an order-preserving subsequence holding exactly the bids that pass the search and the status tests |
| BidsPage.NoFilterShowsAll | client/src/pages/Bids.tsx:36-42 | no query and the `all` tab show every bid |
| BidsPage.StatusCount | client/src/pages/Bids.tsx:48-53 | 0 while loading, the number of bids for `all`, otherwise the number with that status |
| BidsPage.StatusCountIsListLength | client/src/pages/Bids.tsx:42-53 | a tab's count is the length of the list the tab shows with no query |
| ContractorsPage.FilteredContractors | client/src/pages/Contractors.tsx:171-176 | an order-preserving subsequence holding exactly the contractors whose name, email or certification level contains the query ignoring case, or whose phone contains it |
| ContractorsPage.EmptyQueryShowsAll | client/src/pages/Contractors.tsx:171-172 | an empty query shows every contractor |
| ContractorsPage.InitialsAsWritten | client/src/pages/Contractors.tsx:180-185 | one piece gives the first two characters upper-cased; two non-empty leading pieces give their first letters upper-cased |
| ContractorsPage.InitialsAsWrittenDoubleSpace | client/src/pages/Contractors.tsx:180-183 | "John  Smith" gives "JUNDEFINED" |
| ContractorsPage.Initials | client/src/pages/Contractors.tsx:180-185 | at most two characters, taken from the first two non-empty words |
| ContractorsPage.InitialsAgree | client/src/pages/Contractors.tsx:180-185 | on names without empty pieces the correction agrees with the code as written |
| ContractorsPage.InitialsAdjacentSpaces | client/src/pages/Contractors.tsx:180-183 | the corrected initials ignore repeated spaces |
| ClassificationsPage.FilteredClassifications | client/src/pages/Classifications.tsx:176-185 | exactly the classifications that match both the search and the tab, in order |
| ClassificationsPage.NoFilterShowsAll | client/src/pages/Classifications.tsx:176-185 | no query and the `all` tab show everything |
| ClassificationsPage.Categories | client/src/pages/Classifications.tsx:188-190 | each category once, and only categories that occur |
| ClassificationsPage.CategoriesInFirstOccurrenceOrder | client/src/pages/Classifications.tsx:188-190 | the tabs are in first-occurrence order |
| ClassificationsPage.DisplayNameWords | client/src/pages/Classifications.tsx:193-197 | the words of the display name are the capitalised `_` pieces, so there are as many words as pieces |
| ClassificationsPage.DisplayNameTwoPieces | client/src/pages/Classifications.tsx:193-197 | "a_b" shows as "A B" with each piece capitalised |
| ClassificationsPage.BadgeColor | client/src/pages/Classifications.tsx:201-211 | three categories have their own colour, and every other category is gray |
| ProjectsPage.FilteredProjects | client/src/pages/Projects.tsx:190-194 | exactly the projects whose name, description or project type contains the query ignoring case, in order |
| ProjectsPage.EmptyQueryShowsAll | client/src/pages/Projects.tsx:190-191 | an empty query shows every project |
| ProjectsPage.StatusLabel | client/src/pages/Projects.tsx:255 | first character upper-cased, and only the first later `_` becomes a space |
| ProjectsPage.BadgeStyle | client/src/pages/Projects.tsx:197-210 | gray iff the text is not a project status; blue iff active, green iff completed, red iff cancelled, yellow iff on hold |
| ContractsPage.BidOf | client/src/pages/Contracts.tsx:142 | nothing while bids are not loaded or no bid has the contract's `bid_id`; otherwise a bid with it |
| ContractsPage.FilteredContracts | client/src/pages/Contracts.tsx:141-151 | exactly the contracts whose number, bid's project name, bid's contractor name or status contains the query ignoring case, in order |
| ContractsPage.WithoutBidOwnFieldsOnly | client/src/pages/Contracts.tsx:143-149 | with the bid not loaded, only the number and the status are consulted |
| ContractsPage.EligibleBids | client/src/pages/Contracts.tsx:314-318 | exactly the approved and under-review bids, in order |
| ContractsPage.ConvertedAmount | client/src/pages/Contracts.tsx:83-85 | only a non-empty text is converted, to the parsed number or null; anything else is sent unchanged |
| ContractsPage.ContractData.ConvertAmount | client/src/pages/Contracts.tsx:83-85 | only the amount changes, to the conversion |
| ContractsPage.ConvertedAmountReadsBack | client/src/pages/Contracts.tsx:83-85 | a parsed amount reaches the database as a text that reads back as the typed number |
| ContractsPage.StatusStyle | client/src/pages/Contracts.tsx:160-177 | chosen by the lower-cased status; unknown statuses are gray |
| ContractsPage.StatusStyleIgnoresCase | client/src/pages/Contracts.tsx:161 | statuses that differ only in ASCII letter case get the same style |

## Left out

- The database itself is left out (Drizzle and Postgres, connections, `returning`). Tables are sequences of rows, and row identity is structural.
- Storage.SearchEmails, Storage.SearchContractors, Storage.SearchProjects, Storage.SearchBids: they require a query without `%`, `_` or `\`. `ILIKE` reads those characters as wildcards, and the model does not cover that.
- The non-empty-query guard of the search route (server/routes.ts) is not required. An empty query is modelled as matching every non-null column, which is what `ILIKE '%%'` does.
- `ORDER BY` is modelled by one concrete stable sort, and its contracts promise only "sorted, and a permutation of the selection". Tie order is left unspecified, as in SQL. Text order is code-point order (the C collation).
- `count(*)`: the driver returns it as a string. The model keeps it a number.
- Amounts in rows are `numeric(12, 2)`, kept as integer cents.
- The database's foreign-key and unique checks on insert and update are out. Only the delete failures are modelled, as a `Result`.
- Storage.UpdateEmailRecord, Storage.UpdateClassification: an empty patch is modelled as a merge that changes nothing. Drizzle may instead reject an update with nothing to set; that error is not modelled.
- Users and authentication, and server/routes.ts (HTTP marshalling and zod parsing), are not part of this model.
- The stand-alone server's file load and save, `app.listen`, and its generated HTML front end are left out.
- Standalone records hold JSON scalars only; nested objects and arrays from a request body are not modelled.
- JavaScript floating point is out. Numbers are exact decimals, and `toString` is modelled without exponent notation or rounding. `parseFloat` reads an optional sign, digits and an optional fraction, and `NaN` is `None`. `NaN` is sent as JSON `null`.
- On the client, React state, hooks, queries, cache invalidation, toasts and `FileReader` are left out. Which `apiRequest` calls succeed is a parameter. The outcome of a request is not awaited: the model records the request that is sent.
- The two files call `apiRequest` with their arguments in different orders. The helper is not part of this model, so each call is modelled as the request it evidently means.
- Date formatting is out: the form's dates are string parameters.
- The `try`/`catch` error paths are left out.
- ProjectsPage.StatusLabel: takes a status text. A project whose status is null would make `charAt` throw, and that is not modelled.
- ContractsPage.StatusStyle: takes a status text. `contracts.status` is a nullable column (shared/schema.ts:131), and a contract whose status is null makes `status.toLowerCase()` throw (Contracts.tsx:161, reached from 251 and 468); that throw is not modelled.
- Case folding and string indexing: `Text.Lower` and `Text.Upper` map only ASCII letters, and strings are sequences of characters rather than UTF-16 code units. So "ignoring case" in Storage.EmailConditionMeaning, Storage.SearchEmailsSpec, Storage.SearchContractorsSpec, Storage.SearchProjectsSpec, Storage.BidConditionMeaning, ContractorsPage.FilteredContractors, ProjectsPage.FilteredProjects, ClassificationsPage.FilteredClassifications, ContractsPage.FilteredContracts, EmailDetail.FindRelatedProject, EmailDetail.FindRelatedContractor and ContractsPage.StatusStyleIgnoresCase does not cover non-ASCII case mapping (nor SQL `ILIKE`'s collation-dependent folding), and `substring(0, 1000)` in EmailUpload.HandleEmailUpload, `substring(8)` and `substring(5)` in EmailUpload.ScrapeHeaders, `substring(0, 2)` and `[0]` in ContractorsPage.InitialsAsWritten and ContractorsPage.Initials, and `charAt` in ProjectsPage.StatusLabel and ClassificationsPage.Capitalize count characters where JavaScript counts UTF-16 code units.
- The form's generic `handleChange` setter is not modelled; the form is a value replaced as a whole.
- BidForm.EditForm: reads each classification id from the joined classification's id. storage.ts builds the join only from links whose classification exists, so that id equals the link's `classification_id`.
- The UI-only components (layout, dashboard cards, tables, settings, the create-email dialog) are not part of this model.

## Findings

| source | as written | input that shows it | evidently intended | confidence | as-written member | corrected member |
|---|---|---|---|---|---|---|
| client/src/pages/Contractors.tsx:180-185 | `getInitials` takes `parts[0][0]` and `parts[1][0]` of `split(' ')`; an empty piece gives `undefined`, which the template literal writes as "undefined" | "John  Smith" (two spaces) gives "JUNDEFINED" | the first letters of the first two words, "JS" | not executed | ContractorsPage.InitialsAsWrittenDoubleSpace | ContractorsPage.InitialsAdjacentSpaces |
