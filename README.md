# Odoo add-ons for a Vietnamese business: a verified model

This project models in Dafny the decision logic of a set of Odoo add-ons and
proves properties of that model. The add-ons are:

- **Casso bank-transfer webhook** (`transaction_webhook`). The controller screens each request by IP allow-list,
  JSON body and signature header (`sha512=` or `t=…,v1=…`). The processor turns each transaction
  into a bank statement line. The Casso id is unique and repeats are answered with the existing
  line. The journal is resolved from the bank mapping, or else from the account number.
- **Partner relations and summaries** (`contact_custom`). A relation gets a mirror row (the
  reverse relation) when it is created. Writes and unlinks try to keep the mirrors in step, but
  a re-pointed relation leaves its old mirror behind, and unlinking a relation together with its
  mirror fails. The partner's recent and related invoices, sales, deliveries and
  purchases follow the payment-state rank and the sort key.
- **Sale orders** (`company_sale_custom`). Delivery and payment status, the invoice ordering,
  the manufacturing orders of an order, and the guard of the invoice wizard.
- **Deliveries** (`delivery_custom`). The picking's recipient prefill and tracking link, and
  the vendor-bill creation guard. The handling of Track123 register, query and webhook answers,
  and the UTC timestamp parse. The link from vendor bills to pickings through `invoice_origin`,
  and the Track123 webhook signature check.
- **Lục Khí CRM** (`luc_khi_crm`). The phone, tax-code and e-mail constraints, the lead score
  and element analysis, the contact form's assignment, state changes and one-shot conversion to
  a lead, and the website handlers for the contact form, consultation booking and popular
  elements.
- **Lục Khí shop, blog, courses and website** (`luc_khi_shop`, `luc_khi_blog`,
  `luc_khi_courses`, `luc_khi_website`). Meta-title and summary defaults, the two slug families,
  listing pagination, recommendations, the order's element analysis and recommendation text,
  VNPay and MoMo request signing and return handling, reading time, view and like counters,
  published and featured toggles, slug uniqueness, course access, and page and team URLs.

Records are datatypes. Tables whose rows the source updates in place are classes whose `seq`
field the methods reassign. Their `Valid()` predicates hold the SQL unique constraints:
- the Casso id;
- the bank account per company;
- the slugs of courses and course categories;
- the website page key.

An operation the database would refuse with a constraint error returns `Err` and leaves the
table unchanged.

Searches with `order=` and `limit=` are modelled on the rows in the order the search returns
them. The host's services are parameters:
- the ORM search order;
- HMAC and SHA digests;
- canonical JSON;
- URL encoding;
- the HTTP post;
- the slide channel's access check;
- the group's active user;
- the current date and time.

Python dictionaries become maps, or sequences of pairs where insertion order matters.
`sorted(..., key=...)` is the stable insertion sort `InvoiceOrder.SortBy` (both sorted and a
permutation). The four identical drop-map slug functions share `VietSlug`. The three identical
`_generate_slug` functions share `LatinSlug`. The identical meta-title and summary defaults
share `SiteCommon`. The lead and contact-form phone pattern is `Validators`.

Three behaviours of the code are modelled as the code has them:
- The drop-map slug (`_get_vietnamese_slug`) maps every character outside its table to
  nothing, ASCII letters and digits included. For example, "Đá Kim" becomes "da"
  (`VietSlug.DroppedExample`). The corrected conversion is under "Findings".
- The MoMo return reads only `resultCode` and checks no signature: a return with code 0
  confirms the order (`Payment.MomoForgedReturnConfirms`).
- The two return endpoints build a payment record only when a payment method with their
  code exists, and that record reads `payment_method.journal_id`. The model takes the
  existence of the method as an input: without one a successful return confirms the order,
  with one it ends in a server error and the confirmation is rolled back (`Payment.Settle`).

## Model

| member | source | states |
|---|---|---|
| CassoStore.InsertLine | transaction_webhook/models/statement_line.py:34-40 | creating a line succeeds exactly when it has no Casso id or its id is not yet stored; success appends it, failure reports the constraint message |
| CassoStore.InsertKeepsUnique | transaction_webhook/models/statement_line.py:34-40 | an accepted insert keeps every stored Casso id unique |
| CassoStore.CopyLine | transaction_webhook/models/statement_line.py:7-32 | a duplicated line keeps journal, date, reference text and amount and drops every `copy=False` webhook field |
| CassoStore.CopyAlwaysInsertable | transaction_webhook/models/statement_line.py:31-40 | a copied line never collides with the Casso id constraint |
| CassoStore.TidMayRepeat | transaction_webhook/models/statement_line.py:13-18 | the transaction reference is only indexed: two lines may share it |
| CassoStore.FindJournal | transaction_webhook/models/casso_map.py:15-20 | the journal found has the id asked for; none means no journal has it |
| CassoStore.AddMapping | transaction_webhook/models/casso_map.py:9-35 | a mapping is added exactly when its journal exists, is a bank journal and no mapping has the same identifier in that company; the new mapping is active and takes the journal's company |
| CassoStore.AddMappingKeepsValid | transaction_webhook/models/casso_map.py:21-35 | adding a mapping keeps identifier-and-company pairs unique and every mapping's company equal to its journal's |
| Json.Get | workspace/transaction_webhook/models/processor.py:23-49 | `d.get(key)`: the stored value for a present key, JSON `null` for a missing one |
| Json.Or | workspace/transaction_webhook/models/processor.py:40-49 | Python `a or b`: the first value when it is truthy, otherwise the second |
| Json.CharValue | workspace/transaction_webhook/models/processor.py:84-96 | a Char field stores the text of a string, and `None` or `False` clears it |
| CassoProcessor.CleanDateTextRemoves | workspace/transaction_webhook/models/processor.py:145-150 | the cleaned date text contains no `T`, `+` or `Z` |
| CassoProcessor.CleanPlain | workspace/transaction_webhook/models/processor.py:145 | text whose `T` replaced gives a bare date and time cleans to exactly that |
| CassoProcessor.CleanZ | workspace/transaction_webhook/models/processor.py:145-150 | text ending in `Z` cleans to the bare date and time before it |
| CassoProcessor.CleanOffset | workspace/transaction_webhook/models/processor.py:145-148 | text with a `+` offset cleans to the bare date and time before the `+` |
| CassoProcessor.NormalizeDate | workspace/transaction_webhook/models/processor.py:136-159 | falsy input gives today; text that reads as `YYYY-MM-DD HH:MM:SS` after cleaning gives that date |
| CassoProcessor.NormalizeIsoDate | workspace/transaction_webhook/models/processor.py:145-152 | an ISO timestamp with a `T` separator yields its own date |
| CassoProcessor.NormalizeUtcDate | workspace/transaction_webhook/models/processor.py:149-152 | a trailing `Z` is dropped, not applied: the date is the one written |
| CassoProcessor.NormalizeOffsetDate | workspace/transaction_webhook/models/processor.py:147-152 | a `+hh:mm` offset is cut off, not applied: the local date is kept |
| CassoProcessor.FindMapping | workspace/transaction_webhook/models/processor.py:105-120 | the mapping found is active, has the identifier (and company when given); none exactly when no mapping matches |
| CassoProcessor.FindBankJournal | workspace/transaction_webhook/models/processor.py:125-133 | the journal found is a bank journal with that account number; none exactly when there is no such journal |
| CassoProcessor.ResolveJournal | workspace/transaction_webhook/models/processor.py:102-133 | a same-company mapping wins, then a mapping in any company, then a bank journal whose account number is the identifier |
| CassoProcessor.JournalFor | workspace/transaction_webhook/models/processor.py:52-71 | the resolved journal; otherwise the default parameter is used exactly when it parses to a non-zero id of an existing bank journal; no default, or a default of 0 (the empty `browse`), gives the resolution error |
| CassoProcessor.Prepare | workspace/transaction_webhook/models/processor.py:20-71 | a missing id is reported first, then a missing amount (zero is not missing), then a missing account identifier; the prepared id is the text of `id` and the identifier the stripped account number or sub-account |
| CassoProcessor.Resolved | workspace/transaction_webhook/models/processor.py:26-71 | fails exactly when the journal does not resolve, with its error; otherwise the Casso id is the text of `id`, the identifier the stripped account number or sub-account, and the journal the one resolved for it |
| CassoProcessor.FindLine | workspace/transaction_webhook/models/processor.py:74-76 | the line found carries the Casso id; none exactly when no stored line uses it |
| CassoProcessor.Process | workspace/transaction_webhook/models/processor.py:12-99 | an error leaves the store as it was; an existing line is returned from the store unchanged; a created line is appended |
| CassoProcessor.ProcessPrepared | workspace/transaction_webhook/models/processor.py:72-99 | once the fields are read: an error keeps the store, an existing line is returned from the store, a created line is appended |
| CassoProcessor.ProcessKeepsUnique | workspace/transaction_webhook/models/processor.py:73-99 | processing never stores two lines with one Casso id |
| CassoProcessor.CreatedLineFields | workspace/transaction_webhook/models/processor.py:81-98 | a created line has the next id, source `casso`, the Casso id, `payment_ref` from description, else reference, else the Casso id, and `x_tw_tid` from the reference or unset |
| CassoProcessor.ExistingLineReturned | workspace/transaction_webhook/models/processor.py:73-78 | a stored Casso id returns that line with `created` false, but only after the journal resolves; a resolution error wins |
| CassoProcessor.ProcessTwice | workspace/transaction_webhook/models/processor.py:17-18 | the same payload processed twice creates one line: the second call returns it, not created |
| CassoProcessor.MissingIdFirst | workspace/transaction_webhook/models/processor.py:23-25 | a payload without `id` fails with the missing-id message and changes nothing |
| CassoProcessor.StatementLineStore.FindByCassoId | workspace/transaction_webhook/models/processor.py:74-76 | the loop finds the same line as the search specification |
| CassoProcessor.StatementLineStore.ProcessCassoPayload | workspace/transaction_webhook/models/processor.py:12-99 | the store's result and new contents are those of `Process`, the next id grows only when a line is created, and the Casso ids stay unique |
| CassoWebhook.AllowedIps | transaction_webhook/controllers/webhook.py:32-34 | every allowed address is non-empty and stripped, and every non-blank piece of the parameter is allowed |
| CassoWebhook.ClientIp | transaction_webhook/controllers/webhook.py:35-38 | the first stripped `X-Forwarded-For` entry, or the remote address when that entry is empty |
| CassoWebhook.SignatureOk | transaction_webhook/controllers/webhook.py:64-105 | fails closed without a secret or a signature; otherwise ok exactly when the header yields a digest and a signed message and the HMAC-SHA512 of that message matches case-insensitively |
| CassoWebhook.SignedParts | transaction_webhook/controllers/webhook.py:76-97 | for a `sha512=` header (any case) the digest is the stripped rest and the message the canonical JSON; otherwise the last `v1` value and the last `t` value, a dot and the canonical JSON; none when a part is empty |
| CassoWebhook.ShaHeaderParts | transaction_webhook/controllers/webhook.py:81-84 | a `sha512=` prefix in any case followed by a hex digest yields that digest and the canonical JSON |
| CassoWebhook.TimestampParts | transaction_webhook/controllers/webhook.py:86-96 | a `t=<ts>,v1=<hex>` header yields the hex digest and the message `<ts>.` followed by the canonical JSON |
| CassoWebhook.TimestampNotSha | transaction_webhook/controllers/webhook.py:81 | a `t=` header is never read as the `sha512=` form |
| CassoWebhook.Sha512HeaderVerifies | transaction_webhook/controllers/webhook.py:81-84 | a `sha512=<hex>` header (prefix in any case) over the canonical JSON verifies |
| CassoWebhook.TimestampHeaderVerifies | transaction_webhook/controllers/webhook.py:85-97 | a `t=<ts>,v1=<hex>` header over `ts + "." + canonical JSON` verifies |
| CassoWebhook.Screen | transaction_webhook/controllers/webhook.py:28-113 | 403 exactly for a refused address, else 400 exactly for an unreadable body, else 401 exactly for a bad signature; otherwise the payload passes |
| CassoWebhook.Gate | transaction_webhook/controllers/webhook.py:107-124 | never crashes: a screened-out request keeps its response, and a passed payload is accepted exactly when it is an object holding an object under `data`, else 422 |
| CassoWebhook.GateAgreesWhereDefined | transaction_webhook/controllers/webhook.py:115-124 | the code as written and the corrected gate agree wherever the former does not crash |
| CassoWebhook.SignedArrayCrashes | transaction_webhook/controllers/webhook.py:116 | a correctly signed JSON array reaches `payload.get` and crashes, where the corrected gate answers 422 |
| CassoWebhook.SignedArraySignature | transaction_webhook/controllers/webhook.py:76-97 | the body `[1]` with the right `sha512=` header passes the signature check |
| CassoWebhook.SignedArrayPasses | transaction_webhook/controllers/webhook.py:27-112 | that body passes every screen before the object check, reaching line 116 as a parsed array |
| CassoWebhook.ResultEntry | transaction_webhook/controllers/webhook.py:131-139 | a failed transaction becomes an `error: 1` entry carrying the message |
| CassoWebhook.ProcessAll | transaction_webhook/controllers/webhook.py:127-139 | one result per transaction |
| CassoWebhook.ProcessOne | transaction_webhook/controllers/webhook.py:127-139 | a batch of one transaction stores what processing it stores and reports its one result |
| CassoWebhook.ProcessTxs | transaction_webhook/controllers/webhook.py:127-139 | the loop over the transactions against the store gives the results and store of `ProcessAll` and keeps the store valid |
| CassoWebhook.Webhook | transaction_webhook/controllers/webhook.py:27-149 | on the gate as written: 500 exactly for a signed, screened body that is not an object; 200 exactly where the corrected gate accepts; every other answer leaves the store unchanged |
| CassoWebhook.WebhookOutcome | transaction_webhook/controllers/webhook.py:107-149 | the status is one of 200, 400, 401, 403, 422, 500; 500 leaves the store unchanged; only 200 touches the store, with exactly one result under `error: 0`, and `success` exactly in strict mode |
| CassoWebhook.FailClosed | transaction_webhook/controllers/webhook.py:64-113 | without a secret or a signature nothing gets past 401 and the store is unchanged |
| CassoWebhook.ProcessAllKeepsUnique | transaction_webhook/controllers/webhook.py:127-139 | processing a batch keeps the Casso ids unique |
| CassoWebhook.HandleWebhook | transaction_webhook/controllers/webhook.py:27-149 | the handler's response and the store after it are those of `Webhook`, the server error of a signed non-object body included, and the store stays valid |
| PartnerRelation.Find | contact_custom/models/res_partner_relation.py:47-52 | the first row with the asked pair; none exactly when the pair is absent |
| PartnerRelation.FindId | contact_custom/models/res_partner_relation.py:72 | the record of the write loop is located by its id: the index found holds the id, and none means no row has it |
| PartnerRelation.Batch | contact_custom/models/res_partner_relation.py:54-56 | one row per value set, numbered from the next id, with relation type defaulting to friend |
| PartnerRelation.Mirrors | contact_custom/models/res_partner_relation.py:57-66 | the mirror loop only appends rows, each numbered by the next id |
| PartnerRelation.MirrorsPairs | contact_custom/models/res_partner_relation.py:58-66 | the mirror loop adds exactly the reverses of the created pairs that were missing |
| PartnerRelation.MirrorsConstraints | contact_custom/models/res_partner_relation.py:58-66 | mirrors never duplicate a pair and are never self-relations |
| PartnerRelation.TableCreate | contact_custom/models/res_partner_relation.py:54-67 | a successful create keeps the old rows and appends the batch in order, with any mirrors after it; under `_skip_mirror` it appends only the batch |
| PartnerRelation.CreateValid | contact_custom/models/res_partner_relation.py:32-67 | `create` keeps the unique-pair and not-self constraints and fresh ids; it fails exactly when the batch breaks one of them |
| PartnerRelation.CreatePairs | contact_custom/models/res_partner_relation.py:54-67 | after a mirrored create the pairs are the old ones, the created ones and their reverses |
| PartnerRelation.CreateSymmetric | contact_custom/models/res_partner_relation.py:54-67 | a mirrored create keeps a symmetric table symmetric |
| PartnerRelation.CreateMirrors | contact_custom/models/res_partner_relation.py:58-66 | each created relation b to a gets a reverse a to b |
| PartnerRelation.CreateSkipMirror | contact_custom/models/res_partner_relation.py:57 | under `_skip_mirror` only the batch is inserted |
| PartnerRelation.CreateOk | contact_custom/models/res_partner_relation.py:54-67 | a batch that passes both constraints is stored, with its mirrors unless `_skip_mirror` is set, and the table stays valid |
| PartnerRelation.Apply | contact_custom/models/res_partner_relation.py:70 | writing values keeps the id, and writing nothing keeps the row |
| PartnerRelation.ApplyAll | contact_custom/models/res_partner_relation.py:70 | exactly the written records take the values |
| PartnerRelation.SyncOne | contact_custom/models/res_partner_relation.py:72-92 | the mirror step for one record never removes rows or reuses ids |
| PartnerRelation.Sync | contact_custom/models/res_partner_relation.py:72-92 | the mirror loop never removes rows or reuses ids |
| PartnerRelation.SyncPreserves | contact_custom/models/res_partner_relation.py:72-92 | the mirror loop keeps every existing row's id and endpoints |
| PartnerRelation.SyncCovers | contact_custom/models/res_partner_relation.py:72-92 | after the mirror loop every written record's reverse pair is present |
| PartnerRelation.SyncIds | contact_custom/models/res_partner_relation.py:86-92 | recreated mirrors keep ids distinct and fresh |
| PartnerRelation.SyncConstraints | contact_custom/models/res_partner_relation.py:72-92 | the mirror loop keeps the unique-pair and not-self constraints |
| PartnerRelation.WriteCovers | contact_custom/models/res_partner_relation.py:69-93 | after a mirrored write touching endpoints or type each written record keeps its id and new endpoints and has its reverse |
| PartnerRelation.WriteNothing | contact_custom/models/res_partner_relation.py:71 | a write of none of the three keys changes nothing |
| PartnerRelation.TableWrite | contact_custom/models/res_partner_relation.py:69-93 | a successful write keeps every row, in place and with its id, and never lowers the next id |
| PartnerRelation.WriteValid | contact_custom/models/res_partner_relation.py:40-93 | `write` keeps the constraints and fresh ids; it fails exactly when the written values break a constraint, and with the self-relation error whenever they make a self-relation, whether or not they also duplicate a pair |
| PartnerRelation.TwoPairsValid | contact_custom/models/res_partner_relation.py:32-44 | the table 1 -> 2, 2 -> 1, 3 -> 2, 2 -> 3 meets both constraints |
| PartnerRelation.WriteSelfBeforeUnique | contact_custom/models/res_partner_relation.py:40-70 | writing partner 2 on rows 1 and 3 of that table breaks both constraints and fails with the self-relation error |
| PartnerRelation.WriteLeavesOrphanMirror | contact_custom/models/res_partner_relation.py:73-85 | as written, repointing 1 to 2 at contact 3 leaves the old mirror 2 to 1 behind and the table is no longer symmetric |
| PartnerRelation.WriteRealigned | contact_custom/models/res_partner_relation.py:69-92 | the write with the mirror looked up before the change keeps every row, in place and with its id |
| PartnerRelation.WriteRealignedSymmetric | contact_custom/models/res_partner_relation.py:73-85 | the write with the mirror looked up before the change keeps the table symmetric |
| PartnerRelation.RealignedPair | contact_custom/models/res_partner_relation.py:73-85 | on a table of one relation and its mirror, re-pointing the relation at a third contact re-points the mirror back at it |
| PartnerRelation.RealignedKeepsExample | contact_custom/models/res_partner_relation.py:73-85 | on the same example the corrected write succeeds, re-points the mirror to 3 -> 1, and the table stays symmetric |
| PartnerRelation.MirrorIds | contact_custom/models/res_partner_relation.py:96-99 | every record's mirror, where it has one, is collected |
| PartnerRelation.MirrorOf | contact_custom/models/res_partner_relation.py:98 | the mirror found holds the reverse pair |
| PartnerRelation.Without | contact_custom/models/res_partner_relation.py:100-102 | exactly the rows whose ids are not dropped remain |
| PartnerRelation.MirrorUnlinkedIff | contact_custom/models/res_partner_relation.py:96-102 | the collected mirrors meet the unlinked records exactly when some unlinked record's mirror is unlinked with it |
| PartnerRelation.UnlinkSkipping | contact_custom/models/res_partner_relation.py:95-103 | with the nested unlink skipping the mirror search, exactly the rows that are neither unlinked nor a mirror of an unlinked record remain |
| PartnerRelation.TableUnlink | contact_custom/models/res_partner_relation.py:95-103 | as written, `unlink` fails with the missing-record error exactly when some unlinked record's mirror is unlinked with it; otherwise exactly the rows that are neither unlinked nor a mirror of an unlinked record remain |
| PartnerRelation.UnlinkPairFails | contact_custom/models/res_partner_relation.py:95-103 | as written, unlinking the relation 1 -> 2 together with its mirror 2 -> 1 fails |
| PartnerRelation.UnlinkOneSide | contact_custom/models/res_partner_relation.py:95-103 | as written, unlinking 1 -> 2 alone removes it and its mirror |
| PartnerRelation.UnlinkPairSkipping | contact_custom/models/res_partner_relation.py:95-103 | the corrected unlink removes the relation and its mirror given together |
| PartnerRelation.MirrorOfUnlinked | contact_custom/models/res_partner_relation.py:95-99 | a row whose mirror is unlinked is itself collected as a mirror |
| PartnerRelation.RemovedMirror | contact_custom/models/res_partner_relation.py:95-99 | a row collected as a mirror was collected for the row it mirrors, which is unlinked |
| PartnerRelation.UnlinkDone | contact_custom/models/res_partner_relation.py:95-103 | with the mirrors the loop collects, `unlink` fails when they meet the unlinked records and otherwise drops the records and those mirrors; a successful unlink keeps the table valid |
| PartnerRelation.MirrorIsUnique | contact_custom/models/res_partner_relation.py:32-38 | in a valid table the row with the reverse pair is the mirror the search finds |
| PartnerRelation.KeptMirror | contact_custom/models/res_partner_relation.py:95-103 | a row that survives `unlink` keeps its mirror, after the corrected unlink and after a successful one as written |
| PartnerRelation.UnlinkSymmetric | contact_custom/models/res_partner_relation.py:95-103 | the corrected unlink, and a successful one as written, keep a symmetric table symmetric |
| PartnerRelation.UnlinkValid | contact_custom/models/res_partner_relation.py:95-103 | the corrected unlink, and a successful one as written, keep the constraints and fresh ids |
| PartnerRelation.RelationTable.constructor | contact_custom/models/res_partner_relation.py:5-38 | an empty table is valid |
| PartnerRelation.RelationTable.Create | contact_custom/models/res_partner_relation.py:54-67 | the table becomes the result of `TableCreate`, or stays as it was with its error, and the new ids are consecutive |
| PartnerRelation.RelationTable.AddMirrors | contact_custom/models/res_partner_relation.py:58-66 | the mirror loop of `create` leaves the table with a reversed row for each record whose reverse is missing |
| PartnerRelation.RelationTable.Write | contact_custom/models/res_partner_relation.py:40-93 | the table becomes the result of `TableWrite`, or stays as it was with its error, the self-relation check first; it stays valid |
| PartnerRelation.RelationTable.CollectMirrors | contact_custom/models/res_partner_relation.py:96-99 | the loop collects the ids of the mirrors of the records |
| PartnerRelation.RelationTable.Unlink | contact_custom/models/res_partner_relation.py:95-103 | the table becomes the result of `TableUnlink`, or stays as it was with the missing-record error; it stays valid |
| PartnerSummary.SortDay | contact_custom/models/res_partner.py:100-107 | the first set date among invoice date, date, creation and last write, reduced to a day; today when none is set; a stored day or timestamp gives its own day |
| PartnerSummary.PartnerKeyOrder | contact_custom/models/res_partner.py:97-109 | the sort key puts a lower payment-state rank first, then a newer day, then a higher id |
| PartnerSummary.Recent | contact_custom/models/res_partner.py:157-158 | raises exactly when one invoice's date cannot be read; otherwise the first five invoices in key order |
| PartnerSummary.RecentIsFirstFive | contact_custom/models/res_partner.py:157-158 | at most five of the invoices found, sorted by key, none of those left out sorting before one kept |
| PartnerSummary.RecentIgnoresSearchOrder | contact_custom/models/res_partner.py:157-158 | with distinct invoice ids the five kept do not depend on the order the search returned |
| PartnerSummary.DocsOf | contact_custom/models/res_partner.py:128-132 | exactly the partner's records, in search order |
| PartnerSummary.MovesOf | contact_custom/models/res_partner.py:140-143 | exactly the customer moves of the given partners |
| PartnerSummary.GetGroupMoves | contact_custom/models/res_partner.py:145-160 | the grouped count read with default 0 is the partner's number of customer moves |
| PartnerSummary.GetGroupDocs | contact_custom/models/res_partner.py:119-136 | the grouped count read with default 0 is the partner's number of records |
| PartnerSummary.RecentDocs | contact_custom/models/res_partner.py:116-198 | for a saved contact the total is its number of records and the recent list is the first five in search order; an unsaved contact has neither |
| PartnerSummary.RecentInvoices | contact_custom/models/res_partner.py:138-160 | an unsaved contact has nothing; otherwise the total counts the contact's customer moves, and the recent list is `Recent` of the first 20 found, failing exactly when that does |
| PartnerSummary.RelatedOf | contact_custom/models/res_partner.py:111-114 | the contacts related to `p`, each once |
| PartnerSummary.SumOfGroups | contact_custom/models/res_partner.py:237 | summing the grouped counts of distinct contacts counts each of their customer moves once |
| PartnerSummary.RelatedInvoices | contact_custom/models/res_partner.py:221-237 | no related contact gives nothing; otherwise the total counts their customer moves, and the recent list is `Recent` of the first 50 found, failing exactly when that does |
| PartnerSummary.AllRelatedInvoices | contact_custom/models/res_partner.py:200-237 | one summary per contact, each the one `RelatedInvoices` gives |
| PartnerSummary.GroupedLarger | contact_custom/models/res_partner.py:209-219 | a contact's grouped count does not depend on the other contacts grouped with it |
| PartnerSummary.RelatedFromGroups | contact_custom/models/res_partner.py:209-237 | summing one contact's related counts out of the grouping over every contact of the batch gives that contact's `RelatedInvoices` |
| PartnerSummary.ComputeRelatedInvoices | contact_custom/models/res_partner.py:200-237 | the two loops and the single grouping compute exactly `AllRelatedInvoices` |
| PartnerSummary.RelatedInvoicesAction | contact_custom/models/res_partner.py:283-298 | no action exactly when the contact has no relation; otherwise customer moves of exactly its related contacts, filtered by default on the contact |
| InvoiceOrder.FirstPresent | contact_custom/models/res_partner.py:100 | the first truthy date field, none exactly when every one is falsy |
| InvoiceOrder.PaymentStateRank | contact_custom/models/res_partner.py:84-95 | the table rank of a known state; an unknown or missing state ranks 6, after all of them |
| InvoiceOrder.RankOrder | company_sale_custom/models/sale_order.py:87-98 | the six known states rank in the listed order and an unknown state after all of them |
| InvoiceOrder.RankSeparatesKnownStates | contact_custom/models/res_partner.py:84-91 | two different known states never share a rank |
| InvoiceOrder.SortBy | contact_custom/models/res_partner.py:158 | the stable sort returns a sorted permutation of its input |
| InvoiceOrder.Take | contact_custom/models/res_partner.py:158 | slicing `[:n]` keeps the first `n` elements, or all of them |
| InvoiceOrder.FirstOfSorted | company_sale_custom/models/sale_order.py:128 | `sorted(...)[:n]` keeps at most `n` elements of the input, in key order, none of those left out sorting before one kept |
| InvoiceOrder.SortedUnique | contact_custom/models/res_partner.py:233 | with distinct keys there is exactly one sorted arrangement of a collection |
| InvoiceOrder.SortByIgnoresInputOrder | contact_custom/models/res_partner.py:225-233 | with distinct keys the sort result does not depend on the order the search returned |
| DateTimes.ParseFixed | workspace/transaction_webhook/models/processor.py:151 | whatever `strptime` accepts is a valid calendar date-time |
| DateTimes.ParseFormat | workspace/transaction_webhook/models/processor.py:151 | every valid date-time is read back from its own `%Y-%m-%d %H:%M:%S` text |
| DateTimes.ParsedIsFormatted | workspace/transaction_webhook/models/processor.py:151 | whatever parses is exactly the text of the date-time it parsed to |
| DateTimes.ParseDay | contact_custom/models/res_partner.py:101-102 | `fields.Date.to_date` of a text date: whatever parses is, in its first ten characters, exactly the `%Y-%m-%d` text of the day it parsed to |
| DateTimes.ParseFormatDay | contact_custom/models/res_partner.py:101-102 | every day is read back from its own `%Y-%m-%d` text, whatever follows it |
| DateTimes.DayKeyMonotone | contact_custom/models/res_partner.py:108 | the day key orders dates as the calendar does and tells them apart |
| DateTimes.EpochDayMonotone | contact_custom/models/res_partner.py:108 | later days have larger day numbers, as `toordinal()` promises |
| DateTimes.TimestampMonotone | company_sale_custom/models/sale_order.py:106 | later date-times have larger timestamps |
| DateTimes.TimestampPositive | company_sale_custom/models/sale_order.py:105-106 | every date-time after the 1970 epoch has a positive timestamp, so it sorts ahead of an undated invoice's 0 |
| DateTimes.Midnight | company_sale_custom/models/sale_order.py:106 | a date read as a date-time is its own day at timestamp day-number times 86400 |
| SaleOrder.StatesFrom | company_sale_custom/models/sale_order.py:23-35 | exactly the given states from the preference list's position `k` on, in strictly increasing preference |
| SaleOrder.PresentStates | company_sale_custom/models/sale_order.py:27-35 | exactly the labelled states of outgoing pickings, each once, in preference order |
| SaleOrder.Labels | company_sale_custom/models/sale_order.py:15-22 | each state replaced by its business label |
| SaleOrder.StateOrderIndexed | company_sale_custom/models/sale_order.py:15-24 | `order_index` numbers the six preferred states in order, and each has a label |
| SaleOrder.DeliveryStatusDisplay | company_sale_custom/models/sale_order.py:13-37 | "No Delivery" exactly when no outgoing picking has a labelled state; otherwise the labels joined by ", " |
| SaleOrder.LabelsAreNotNoDelivery | company_sale_custom/models/sale_order.py:37 | a non-empty listing of labels is never the text "No Delivery" |
| SaleOrder.Filter | company_sale_custom/models/sale_order.py:64 | exactly the customer invoices and credit notes, receipts excluded |
| SaleOrder.PaymentStatusOf | company_sale_custom/models/sale_order.py:55-72 | no invoice exactly without invoices or credit notes; paid exactly when there are some and every one is paid; not paid exactly when one is not |
| SaleOrder.SaleWhen | company_sale_custom/models/sale_order.py:104-106 | undated exactly when no date field is set; only text can be unreadable; a text date is read only as the exact `%Y-%m-%d %H:%M:%S` text of the moment, or the `%Y-%m-%d` text of its day at midnight |
| SaleOrder.SaleWhenReadsMoment | company_sale_custom/models/sale_order.py:104-106 | the `%Y-%m-%d %H:%M:%S` text of a moment in the first date field set is read back as that moment |
| SaleOrder.SaleWhenReadsDay | company_sale_custom/models/sale_order.py:104-106 | the `%Y-%m-%d` text of a day in the first date field set is read back as that day's midnight |
| SaleOrder.SaleKeyOrder | company_sale_custom/models/sale_order.py:100-107 | lower rank first; within a rank newer first, an undated invoice after every dated one, and then higher ids first |
| SaleOrder.RecentBySaleKey | company_sale_custom/models/sale_order.py:128 | raises exactly when one date text is unreadable; otherwise the first five by the sale-order key |
| SaleOrder.OrderRelatedInvoices | company_sale_custom/models/sale_order.py:109-132 | nothing without a customer or related contacts; otherwise the total counts all their customer moves, and the recent list is `RecentBySaleKey` of the first 50 found, failing exactly when that does |
| SaleOrder.OrderRelatedInvoicesAction | company_sale_custom/models/sale_order.py:134-152 | no action exactly without a customer or its relations; otherwise the same action the contact gives |
| SaleOrder.MoIds | company_sale_custom/models/sale_order.py:163-167 | exactly the productions whose origin is the order name; none for an unnamed order |
| SaleOrder.MoCount | company_sale_custom/models/sale_order.py:168 | zero exactly for an unnamed order or when no production has its name as origin |
| SaleOrder.OpenInvoiceWizard | company_sale_custom/models/sale_order.py:170-188 | raises the warning exactly when invoices exist; otherwise the context gets the order as active record and keeps every other key |
| Text.JoinSplit | company_sale_custom/models/sale_order.py:37 | joining the pieces of a split gives the text back |
| Text.SplitJoin | transaction_webhook/controllers/webhook.py:34 | splitting a join of separator-free pieces gives the pieces back |
| Text.Strip | transaction_webhook/controllers/webhook.py:34 | `str.strip()`: a slice no longer than the text with no whitespace at either end, and a text already so is unchanged |
| Text.Split | transaction_webhook/controllers/webhook.py:34 | `str.split(sep)` gives at least one piece and no piece holds the separator |
| Text.SplitFirst | transaction_webhook/controllers/webhook.py:83 | `split(c, 1)` on a text holding `c`: the text before the first `c`, which holds none, and the rest, which rebuild the text |
| Text.PyInt | workspace/transaction_webhook/models/processor.py:61 | `int(s)`: blank text raises; surrounding whitespace is ignored and a digit string reads as its value |
| Text.PyDigitsValue | workspace/transaction_webhook/models/processor.py:61 | the unsigned part of `int`: a digit string is its value, and only digit groups separated by single underscores are read |
| Text.PyIntGrouped | workspace/transaction_webhook/models/processor.py:61 | `int("1_000")` is 1000 |
| Text.PyIntOfNat | lk_website_custom/luc_khi_shop/controllers/payment.py:90 | `int(str(n))` is `n` |
| Text.NatToString | lk_website_custom/luc_khi_shop/controllers/payment.py:90 | `str(n)`: a non-empty digit string, a single digit below ten |
| Text.IntToString | lk_website_custom/luc_khi_shop/controllers/payment.py:150-151 | `str(n)`: digits, with a leading `-` exactly for a negative number |
| Text.ReplaceChar | workspace/transaction_webhook/models/processor.py:145 | `s.replace(a, b)` for one character: same length, each `a` becomes `b` and every other character stays |
| Text.RemoveChar | lk_website_custom/luc_khi_crm/models/luc_khi_crm_lead.py:148 | `s.replace(a, '')`: no `a` left, never longer, and unchanged when there was no `a` |
| Text.Lower | transaction_webhook/controllers/webhook.py:81 | `lower()` on ASCII: same length, each character lowered |
| Text.IndexOf | workspace/transaction_webhook/models/processor.py:147 | `c in s`: the first index of `c`, and none exactly when `c` does not occur |
| Text.DigitsStripped | lk_website_custom/luc_khi_crm/controllers/main.py:59 | a digit string has no surrounding whitespace |
| Text.LessAfterPrefix | lk_website_custom/luc_khi_shop/controllers/payment.py:49 | putting a common prefix before two keys keeps their order |
| Text.OnlyOccurrence | lk_website_custom/luc_khi_crm/models/luc_khi_contact_form.py:155 | the first occurrence of a character with none after it is its only one |
| StockPicking.Prefill | workspace/delivery_custom/models/stock_picking.py:118-126 | exactly the six recipient fields, each `False` rather than empty when the partner lacks it |
| StockPicking.PrefillReadsBack | workspace/delivery_custom/models/stock_picking.py:118-126 | the recipient fields read back give the partner's own name, state, city, streets and country |
| StockPicking.PartnerOf | workspace/delivery_custom/models/stock_picking.py:140-147 | a partner is found exactly when `partner_id` is set to a known contact |
| StockPicking.PrefillKeepsPartner | workspace/delivery_custom/models/stock_picking.py:147 | writing the recipient fields does not change the picking's partner |
| StockPicking.CreatedAll | workspace/delivery_custom/models/stock_picking.py:137-148 | one stored record per value set, each created the same way |
| StockPicking.CreatedKeepsGiven | workspace/delivery_custom/models/stock_picking.py:137-148 | every value given to `create` is kept, and the carrier status defaults to `INIT` |
| StockPicking.CreatedPrefills | workspace/delivery_custom/models/stock_picking.py:140-147 | without any recipient value a picking with a partner gets the partner's recipient fields; with one, none is filled in |
| StockPicking.WrittenRefills | workspace/delivery_custom/models/stock_picking.py:150-162 | a write not touching the partner, or naming a recipient field, is a plain write; writing only the partner refills the recipient fields |
| StockPicking.TrackingLink | workspace/delivery_custom/models/stock_picking.py:164-169 | the link is text or `False` |
| StockPicking.TrackingLinkParts | workspace/delivery_custom/models/stock_picking.py:164-169 | the link is `False` exactly when website and code are both empty, and otherwise is the website followed by the code |
| StockPicking.ParseTrack123Utc | workspace/delivery_custom/models/stock_picking.py:492-519 | empty text reads as unset, and a time that is read is the text it came from, with at most one trailing `Z` |
| StockPicking.ParseTrack123RoundTrip | workspace/delivery_custom/models/stock_picking.py:492-519 | a time reads back unshifted with or without the `Z`; a second `Z` is refused |
| StockPicking.GetOr | workspace/delivery_custom/models/stock_picking.py:457-480 | `.get(key, default)` on a dictionary, and a crash on anything else |
| StockPicking.First | workspace/delivery_custom/models/stock_picking.py:472-474 | `[0]` succeeds exactly on a non-empty list |
| StockPicking.StatusValues | workspace/delivery_custom/models/stock_picking.py:458-467 | the status part of the values dictionary: carrier status and sub-status are present exactly when truthy, with the pushed values; the selection check happens at the write |
| StockPicking.EventValues | workspace/delivery_custom/models/stock_picking.py:470-488 | the event time appears only when the latest event's UTC text parses, unshifted; the detail exactly when truthy |
| StockPicking.TrackingValues | workspace/delivery_custom/models/stock_picking.py:453-488 | the dictionary the update builds: only tracking fields, each meaningful, status keys exactly when truthy, and the event time from the latest tracking detail |
| StockPicking.EventTimeFromLatest | workspace/delivery_custom/models/stock_picking.py:470-481 | the time of the first tracking detail is what lands in `eventTime`, unshifted |
| StockPicking.EventTimeParsed | workspace/delivery_custom/models/stock_picking.py:476-481 | a latest event time written `YYYY-MM-DDTHH:MM:SSZ` is stored as that moment |
| StockPicking.LatestIsFirst | workspace/delivery_custom/models/stock_picking.py:470-473 | the latest tracking detail is the first one listed |
| StockPicking.TrackingValuesOf | workspace/delivery_custom/models/stock_picking.py:453-488 | when the latest detail reads cleanly the values are the status part followed by the event part |
| StockPicking.TrackingValuesErr | workspace/delivery_custom/models/stock_picking.py:470-481 | an unreadable latest detail makes the whole update raise its error |
| StockPicking.NothingToWrite | workspace/delivery_custom/models/stock_picking.py:488-490 | a tracking record with nothing truthy writes nothing |
| StockPicking.AlreadyExistsIgnoresCase | workspace/delivery_custom/models/stock_picking.py:330-345 | the already-registered keyword test ignores the case of the message |
| StockPicking.RegisterOutcome | workspace/delivery_custom/models/stock_picking.py:316-389 | an error code raises the API message; success needs code OK; a reported issue is never an already-registered rejection |
| StockPicking.RejectedAsExisting | workspace/delivery_custom/models/stock_picking.py:330-345 | a rejection naming an existing registration, in any case, counts as already registered |
| StockPicking.QueryOutcome | workspace/delivery_custom/models/stock_picking.py:398-451 | an error code raises the API message; a record comes only from a response with code OK |
| StockPicking.QueryTakesFirst | workspace/delivery_custom/models/stock_picking.py:410-430 | both shapes of an accepted query give their first record |
| StockPicking.FindByCode | workspace/delivery_custom/models/stock_picking.py:532 | the first picking carrying the tracking code, none exactly when no picking does |
| StockPicking.UnknownTrackNo | workspace/delivery_custom/models/stock_picking.py:532-535 | a push for a tracking number no picking carries answers `False` and changes nothing |
| StockPicking.VendorBillCount | workspace/delivery_custom/models/stock_picking.py:110-116 | zero exactly when no vendor bill is linked by picking or by origin |
| StockPicking.CountAppend | workspace/delivery_custom/models/stock_picking.py:113-116 | storing one more bill raises the count by one exactly when it is this picking's bill |
| StockPicking.VendorBill | workspace/delivery_custom/models/stock_picking.py:171-249 | refuses an already billed picking, then a database without Accounting, then a picking without carrier; otherwise a vendor bill for the carrier and the picking's company, linked to the picking, in the purchase journal, with one line named `Delivery service charge for <name>` on the delivery product found by name (else the one created) and the product's expense account, else the company's |
| StockPicking.VendorBillOnce | workspace/delivery_custom/models/stock_picking.py:175-176 | once the drafted bill is stored a second request is refused |
| StockPicking.FirstBill | workspace/delivery_custom/models/stock_picking.py:255 | a bill is found exactly when the count is positive, and it is one of this picking's |
| StockPicking.OpenVendorBills | workspace/delivery_custom/models/stock_picking.py:251-271 | a single bill opens as a form on that bill, exactly when there is one |
| StockPicking.LatestEventValues | workspace/delivery_custom/models/stock_picking.py:470-488 | the field-by-field construction gives exactly `EventValues` |
| StockPicking.SelectionFault | workspace/delivery_custom/models/stock_picking.py:18-76 | no error exactly when both statuses are keys of their selections; a bad carrier status is reported first, as `Wrong value for stock.picking.carrier_status` |
| StockPicking.StoredPart | workspace/delivery_custom/models/stock_picking.py:18-76 | what a write stores before a selection error: everything when both statuses are accepted, otherwise at most the carrier status and only when it is accepted |
| StockPicking.TrackingState | workspace/delivery_custom/models/stock_picking.py:453-490 | only record `i` can change; the update succeeds exactly when the values can be read and both statuses are selection keys, and then appends exactly those values; a read error changes nothing; a selection error is the `ValueError` |
| StockPicking.UnknownCarrierStatus | workspace/delivery_custom/models/stock_picking.py:18-30 | a carrier status `PENDING` is refused with the selection error and the record is left as it was |
| StockPicking.PendingValues | workspace/delivery_custom/models/stock_picking.py:453-467 | a response whose only status is `PENDING` asks to write `carrier_status` = `PENDING` |
| StockPicking.PendingMessage | workspace/delivery_custom/models/stock_picking.py:18-30 | the selection error for `PENDING` names the field and the value |
| StockPicking.FromJson | workspace/delivery_custom/models/stock_picking.py:458-488 | a text value from Track123 is stored as that text |
| StockPicking.QueryState | workspace/delivery_custom/models/stock_picking.py:391-451 | no code and an API error change nothing and raise; success exactly when the record found updates cleanly, writing its values; an update error is wrapped in the query failure message |
| StockPicking.QueryRefusesUnknownStatus | workspace/delivery_custom/models/stock_picking.py:418-451 | a query whose record has status `PENDING` fails with the wrapped selection error and leaves the picking as it was |
| StockPicking.WebhookTarget | workspace/delivery_custom/models/stock_picking.py:521-535 | the picking updated is the first one carrying the pushed `trackNo`, with the `data` object as tracking data; none without a truthy number |
| StockPicking.WebhookOutcome | workspace/delivery_custom/models/stock_picking.py:521-545 | `False` and no change without a target; otherwise `True` exactly when the target updates cleanly, and the pickings are those the update leaves |
| StockPicking.WebhookWritesTarget | workspace/delivery_custom/models/stock_picking.py:538-542 | a webhook answered `True` writes exactly the values read from its data to the picking carrying its number |
| StockPicking.PickingTable.Create | workspace/delivery_custom/models/stock_picking.py:137-148 | the new records are appended, each as `Created` describes |
| StockPicking.PickingTable.PrefillCreated | workspace/delivery_custom/models/stock_picking.py:140-147 | the prefill step of `create` turns the stored defaults-plus-values record into `Created` |
| StockPicking.PickingTable.Write | workspace/delivery_custom/models/stock_picking.py:150-162 | exactly the written records change, each as `Written` describes |
| StockPicking.PickingTable.OnchangePartner | workspace/delivery_custom/models/stock_picking.py:128-135 | only this record changes, taking the partner's recipient fields when it has a partner |
| StockPicking.PickingTable.OnchangeTrackingLink | workspace/delivery_custom/models/stock_picking.py:164-169 | only this record's link changes |
| StockPicking.PickingTable.UpdateTrackingFromApi | workspace/delivery_custom/models/stock_picking.py:453-490 | the result and new records are those of `TrackingState`: a field-by-field write that stops at the first selection error, keeping the fields written before it |
| StockPicking.PickingTable.WriteTracking | workspace/delivery_custom/models/stock_picking.py:488-490 | the write of the values stores `StoredPart` and raises exactly `SelectionFault` |
| StockPicking.PickingTable.GetTracking | workspace/delivery_custom/models/stock_picking.py:391-451 | called from `action_track123_register`: the result and the records, as a failed update leaves them, are those of `QueryState` |
| StockPicking.PickingTable.GetTrackingButton | workspace/delivery_custom/models/stock_picking.py:391-451 | pressed as a button: the result is that of `QueryState`; an error leaves the records as they were, a success leaves them as `QueryState` does |
| StockPicking.PickingTable.Register | workspace/delivery_custom/models/stock_picking.py:307-389 | no code and a registration error raise and change nothing; otherwise a failed follow-up query after a rejection is raised again, so the call fails with the query error and the records are as before; in every other case the call answers the outcome message and the records are those the query leaves |
| StockPicking.PickingTable.ProcessWebhook | workspace/delivery_custom/models/stock_picking.py:521-545 | the answer and new records are those of `WebhookOutcome` |
| MoveLink.Runs | workspace/delivery_custom/models/account_move.py:32 | `re.split` on runs of `,`, `\n` and `\r` yields non-empty pieces free of separators |
| MoveLink.StripAll | workspace/delivery_custom/models/account_move.py:33 | the kept pieces are non-empty and trimmed, never more than the pieces given |
| MoveLink.Tokens | workspace/delivery_custom/models/account_move.py:31-34 | every origin token is non-empty, separator-free and trimmed |
| MoveLink.TokensOfJoin | workspace/delivery_custom/models/account_move.py:31-34 | splitting a comma-joined list of clean picking names gives the names back |
| MoveLink.TokensWithoutSep | workspace/delivery_custom/models/account_move.py:32-33 | an origin without separators is one token, itself trimmed, unless blank |
| MoveLink.DirectLinks | workspace/delivery_custom/models/account_move.py:20 | exactly the moves with `picking_id` set |
| MoveLink.AddBillLinks | workspace/delivery_custom/models/account_move.py:22-25 | the direct links plus every bill of each picking that has a bill among the computed moves |
| MoveLink.CollectTokens | workspace/delivery_custom/models/account_move.py:28-35 | the tokens of each move with an origin, and the union of all of them |
| MoveLink.NamesFound | workspace/delivery_custom/models/account_move.py:36-39 | exactly the names of the pickings that are among the tokens |
| MoveLink.AnyFound | workspace/delivery_custom/models/account_move.py:44-47 | the token loop finds a match exactly when some token names a picking |
| MoveLink.ComputeHasRelatedPicking | workspace/delivery_custom/models/account_move.py:15-48 | one flag per move, set exactly when the move has `picking_id` or an origin token naming a picking |
| MoveLink.MoveFlag | workspace/delivery_custom/models/account_move.py:42-48 | the flag of one move is set exactly when it has a related picking |
| MoveLink.TokensOfMove | workspace/delivery_custom/models/account_move.py:44 | `move_tokens.get(move.id, [])` is the move's own origin tokens |
| MoveLink.TokenNamesPicking | workspace/delivery_custom/models/account_move.py:36-47 | a token is in the by-name lookup exactly when it names a picking |
| MoveLink.LinkedMeansDirect | workspace/delivery_custom/models/account_move.py:19-25 | with unique move ids the reverse relation adds no move that lacks `picking_id` |
| MoveLink.FirstNamed | workspace/delivery_custom/models/account_move.py:57-58 | the picking found carries one of the names; none exactly when no picking does |
| MoveLink.OpenPickingAsWritten | workspace/delivery_custom/models/account_move.py:50-79 | as written, a move without picking and origin opens the `id = 0` list |
| MoveLink.CarriageReturnSplits | workspace/delivery_custom/models/account_move.py:32 | two clean names separated by a lone `\r` are both origin tokens |
| MoveLink.LoneCarriageReturnNotOpened | workspace/delivery_custom/models/account_move.py:54-58 | origin `A\rB` marks the move as linked to picking `A`, yet the action as written searches for `A\rB` and opens no picking |
| MoveLink.LoneCarriageReturnTokens | workspace/delivery_custom/models/account_move.py:32-33 | the compute splits `A` + carriage return + `B` into the tokens `A` and `B` |
| MoveLink.LoneCarriageReturnUnsplit | workspace/delivery_custom/models/account_move.py:54-56 | the action as written keeps that origin as one token |
| MoveLink.LoneCarriageReturnUnmatched | workspace/delivery_custom/models/account_move.py:57-58 | no picking is named by that unsplit token |
| MoveLink.LoneCarriageReturnAsWritten | workspace/delivery_custom/models/account_move.py:50-79 | the action as written opens the list searched by the unsplit origin |
| MoveLink.OpenPicking | workspace/delivery_custom/models/account_move.py:50-79 | with the split on every separator: the linked picking opens first, no origin opens the `id = 0` list, and a form found by name is a stored picking |
| MoveLink.LinkedMoveOpens | workspace/delivery_custom/models/account_move.py:41-58 | every move flagged as linked opens a picking form |
| Track123Webhook.VerifySignature | workspace/delivery_custom/controllers/track123_controller.py:14-44 | accepted exactly when the payload carries a truthy signature and a text timestamp, a key is configured and the signature equals the SHA-256 hex of key plus timestamp |
| Track123Webhook.SignedAccepted | workspace/delivery_custom/controllers/track123_controller.py:33-40 | a payload signed with the configured key is accepted |
| Track123Webhook.ForgedRejected | workspace/delivery_custom/controllers/track123_controller.py:36-38 | any other signature is refused, including the digest in another letter case |
| Track123Webhook.HandleWebhook | workspace/delivery_custom/controllers/track123_controller.py:46-75 | where the host's request has no `jsonrequest` the `except` reply carries the `AttributeError` text and nothing changes; an empty body and a bad signature are answered without touching pickings; otherwise the reply and the pickings are those of `WebhookOutcome` |
| Validators.PipeAcceptedAsWritten | lk_website_custom/luc_khi_crm/models/luc_khi_crm_lead.py:145 | the phone character class as written also admits the pipe character, so a number with a pipe in the second place is accepted where the corrected class refuses it |
| Validators.PipeConstraintAsWritten | lk_website_custom/luc_khi_crm/models/luc_khi_crm_lead.py:142-152 | the phone constraint as written accepts the number `0`, a pipe, `12345678` where the corrected one refuses it |
| Validators.AcceptedAgreeWithoutPipe | lk_website_custom/luc_khi_crm/models/luc_khi_crm_lead.py:142-152 | on every value without a pipe the constraint as written and the corrected one agree |
| Validators.PhoneMatchIsNumeric | lk_website_custom/luc_khi_crm/models/luc_khi_crm_lead.py:145 | a corrected match is 10 or 12 characters, all digits after an optional leading `+` |
| Validators.PrefixesAgree | lk_website_custom/luc_khi_crm/models/luc_khi_contact_form.py:164 | the `0` and `+84` prefixes accept the same subscriber numbers |
| Validators.SpacesIgnored | lk_website_custom/luc_khi_crm/models/luc_khi_contact_form.py:162-168 | spaces typed inside a phone number do not change the verdict |
| Validators.TaxCodeBranch | lk_website_custom/luc_khi_crm/models/luc_khi_crm_lead.py:157 | any ten-digit code is valid, with or without a `-ddd` branch suffix |
| Validators.DomainValidIsPattern | lk_website_custom/luc_khi_crm/models/luc_khi_contact_form.py:155 | the scan of the domain accepts exactly what the domain part of the pattern matches |
| Validators.EmailValidIsPattern | lk_website_custom/luc_khi_crm/models/luc_khi_contact_form.py:155 | the direct scan accepts exactly the addresses the regular expression matches |
| Validators.PatternIsValid | lk_website_custom/luc_khi_crm/models/luc_khi_contact_form.py:155 | an address the email regex matches passes the scan |
| Validators.ValidIsPattern | lk_website_custom/luc_khi_crm/models/luc_khi_contact_form.py:155 | an address the scan accepts matches the email regex |
| Validators.GoodDomainExample | lk_website_custom/luc_khi_crm/models/luc_khi_contact_form.py:155 | the domain `b.vn` is accepted |
| Validators.NoAtInDomain | lk_website_custom/luc_khi_crm/models/luc_khi_contact_form.py:155 | a valid domain contains no `@` |
| Validators.EmailHasOneAt | lk_website_custom/luc_khi_crm/models/luc_khi_contact_form.py:155 | an accepted address has exactly one `@` |
| Validators.GoodEmailExample | lk_website_custom/luc_khi_crm/models/luc_khi_contact_form.py:155 | the address `a@b.vn` is accepted |
| Validators.ShortDomainRefused | lk_website_custom/luc_khi_crm/models/luc_khi_contact_form.py:155 | an address whose top-level domain has one letter, `a@b.v`, is refused |
| CrmLead.CheckPhoneNumbers | lk_website_custom/luc_khi_crm/models/luc_khi_crm_lead.py:142-152 | passes exactly when both numbers are accepted; the mobile error is reported before the home one |
| CrmLead.CheckTaxCodes | lk_website_custom/luc_khi_crm/models/luc_khi_crm_lead.py:154-164 | passes exactly when both codes are accepted; the company error is reported before the personal one |
| CrmLead.EnergyBonus | lk_website_custom/luc_khi_crm/models/luc_khi_crm_lead.py:176-178 | no energy level gives 0, any level between 5 and 20 |
| CrmLead.LeadScore | lk_website_custom/luc_khi_crm/models/luc_khi_crm_lead.py:167-186 | the score is the uncapped sum, or 100 when that is larger |
| CrmLead.ScoreMonotone | lk_website_custom/luc_khi_crm/models/luc_khi_crm_lead.py:180-186 | one more course never lowers the score, and raises it below the cap |
| CrmLead.ElementScores | lk_website_custom/luc_khi_crm/models/luc_khi_crm_lead.py:209-226 | six scores exactly when every interest's element code is one of the six keys; otherwise the `KeyError` |
| CrmLead.FirstMax | lk_website_custom/luc_khi_crm/models/luc_khi_crm_lead.py:229 | `max` over the keys picks a largest score, the first one on ties |
| CrmLead.AllZeroIsFirst | lk_website_custom/luc_khi_crm/models/luc_khi_crm_lead.py:229 | with no interests the first key, `KIM`, is dominant |
| CrmLead.EnergyLevel | lk_website_custom/luc_khi_crm/models/luc_khi_crm_lead.py:277-289 | the 80%, 60% and 40% thresholds of 18 fall at totals 15, 11 and 8 |
| CrmLead.FindElement | lk_website_custom/luc_khi_crm/models/luc_khi_crm_lead.py:230 | the element found is the first with the dominant code in search order; none exactly when no element has it |
| CrmLead.Analyzed | lk_website_custom/luc_khi_crm/models/luc_khi_crm_lead.py:209-244 | defined exactly when the scores are; the lead then gets the dominant element, the six scores and the energy level of their sum |
| CrmLead.Written | lk_website_custom/luc_khi_crm/models/luc_khi_crm_lead.py:199-207 | a failure of a constraint on the written fields raises it; without interest keys the written lead with its score; with one the analysis must succeed, else the `KeyError` |
| CrmLead.ConstraintsOn | lk_website_custom/luc_khi_crm/models/luc_khi_crm_lead.py:142-164 | only the constraints whose fields are written run, the phone check before the tax-code check |
| CrmLead.WriteChecksWrittenFieldsOnly | lk_website_custom/luc_khi_crm/models/luc_khi_crm_lead.py:142-164 | a write whose written fields pass their own checks succeeds, whatever the other stored fields hold |
| CrmLead.Inserted | lk_website_custom/luc_khi_crm/models/luc_khi_crm_lead.py:167-191 | the row `create` inserts is the values over the defaults, with the computed score |
| CrmLead.FreshRowChecksAll | lk_website_custom/luc_khi_crm/models/luc_khi_crm_lead.py:142-164 | on a new row every constraint effectively runs: a field not given is empty and passes |
| CrmLead.Created | lk_website_custom/luc_khi_crm/models/luc_khi_crm_lead.py:189-197 | a constraint failure raises; without interest keys the inserted row; with one the analysis must succeed, else the `KeyError`, and the analysed lead gets its score |
| CrmLead.WriteKeepsAnalysis | lk_website_custom/luc_khi_crm/models/luc_khi_crm_lead.py:203-205 | a write naming no interest leaves the analysis as it was |
| CrmLead.SendRecommendation | lk_website_custom/luc_khi_crm/models/luc_khi_crm_lead.py:306-311 | refused exactly for a lead without a dominant element |
| CrmLead.AddCodes | lk_website_custom/luc_khi_crm/models/luc_khi_crm_lead.py:215-217 | the inner loop adds the weight once per code, and stops exactly at an unknown code |
| CrmLead.AddGroups | lk_website_custom/luc_khi_crm/models/luc_khi_crm_lead.py:214-226 | the nested loops add the weight per code of each interest, and stop exactly at an unknown code |
| CrmLead.IndexOfCode | lk_website_custom/luc_khi_crm/models/luc_khi_crm_lead.py:212 | the only position of a code among the six keys; none for any other code |
| CrmLead.LeadTable.AnalyzeProfile | lk_website_custom/luc_khi_crm/models/luc_khi_crm_lead.py:209-244 | succeeds exactly when `Analyzed` is defined and then writes that lead; otherwise nothing changes |
| CrmLead.LeadTable.ComputeLeadScores | lk_website_custom/luc_khi_crm/models/luc_khi_crm_lead.py:167-186 | every lead gets its score and nothing else changes |
| CrmLead.LeadTable.Create | lk_website_custom/luc_khi_crm/models/luc_khi_crm_lead.py:189-197 | succeeds exactly when `Created` does, appending that lead at the next position; a failure leaves the inserted row, as the statement-level model keeps it |
| ContactForm.CheckConstraints | lk_website_custom/luc_khi_crm/models/luc_khi_contact_form.py:152-168 | passes exactly when e-mail and phone are accepted; the e-mail error first |
| ContactForm.AssignmentGroup | lk_website_custom/luc_khi_crm/models/luc_khi_contact_form.py:185-194 | a group exactly for the six mapped reasons; none for a general inquiry or other |
| ContactForm.AutoAssign | lk_website_custom/luc_khi_crm/models/luc_khi_contact_form.py:182-205 | unmapped reasons get nobody; mapped ones the group's first active user |
| ContactForm.CreatedForm | lk_website_custom/luc_khi_crm/models/luc_khi_contact_form.py:170-180 | source defaults to website, a given assignee is kept, otherwise one is picked from a non-empty reason; a new form is a draft with no lead, and its many2many ids are kept once each |
| ContactForm.CreateFault | lk_website_custom/luc_khi_crm/models/luc_khi_contact_form.py:32-56 | no fault exactly when method, time and reason are keys of their selections and the reason is not empty; a bad method is reported first |
| ContactForm.InPersonRefused | lk_website_custom/luc_khi_crm/models/luc_khi_contact_form.py:32-37 | the lead's `in_person` method is no key of the form's selection, so that form is refused |
| ContactForm.CreateState | lk_website_custom/luc_khi_crm/models/luc_khi_contact_form.py:170-180 | a selection fault stores nothing; otherwise the row is inserted, and the result is its id exactly when the constraints pass, else their error |
| ContactForm.DraftOf | lk_website_custom/luc_khi_crm/models/luc_khi_contact_form.py:239-255 | the lead takes the subject as name, the form's name, e-mail, phone, message and interests |
| ContactForm.Convert | lk_website_custom/luc_khi_crm/models/luc_khi_contact_form.py:231-263 | refused once a lead is linked; otherwise fails exactly when creating the lead fails, and on success the form links the new lead and is converted |
| ContactForm.LeadValsOf | lk_website_custom/luc_khi_crm/models/luc_khi_contact_form.py:239-255 | the lead values give the mobile phone and both interests and nothing the constraints would read beyond them |
| ContactForm.ConvertFailsOnlyOnUnknownCodes | lk_website_custom/luc_khi_crm/models/luc_khi_contact_form.py:231-263 | a valid unconverted form converts exactly when every interest's element codes are known; a failure is the `KeyError` |
| ContactForm.ConvertState | lk_website_custom/luc_khi_crm/models/luc_khi_contact_form.py:231-278 | a success links the new lead; an already converted form changes nothing; a failed lead creation leaves the form unconverted and the inserted lead row behind |
| ContactForm.Step | lk_website_custom/luc_khi_crm/models/luc_khi_contact_form.py:207-263 | no action unlinks a linked lead |
| ContactForm.ConversionIsOneShot | lk_website_custom/luc_khi_crm/models/luc_khi_contact_form.py:234-236 | once converted, no later run of actions lets a second conversion succeed, and the first lead stays linked |
| ContactForm.LinkSurvives | lk_website_custom/luc_khi_crm/models/luc_khi_contact_form.py:207-237 | a form already linked to a lead keeps that lead through any run of the form actions |
| ContactForm.FormTable.Create | lk_website_custom/luc_khi_crm/models/luc_khi_contact_form.py:170-180 | the result and the new forms are those of `CreateState` |
| ContactForm.FormTable.AssignToMe | lk_website_custom/luc_khi_crm/models/luc_khi_contact_form.py:207-213 | only this form changes: assigned to the user, in progress |
| ContactForm.FormTable.MarkResponded | lk_website_custom/luc_khi_crm/models/luc_khi_contact_form.py:215-221 | only this form changes: responded, with the response date |
| ContactForm.FormTable.CloseForm | lk_website_custom/luc_khi_crm/models/luc_khi_contact_form.py:223-229 | only this form changes: closed, with the resolution date |
| ContactForm.FormTable.ConvertToLead | lk_website_custom/luc_khi_crm/models/luc_khi_contact_form.py:231-278 | the result, forms and leads are those of `ConvertState` |
| CrmController.KeepIds | lk_website_custom/luc_khi_crm/controllers/main.py:59 | keeps only the tokens that strip to all digits, at most one id per token |
| CrmController.IdTexts | lk_website_custom/luc_khi_crm/controllers/main.py:59 | one decimal text per id, in order |
| CrmController.KeepIdTexts | lk_website_custom/luc_khi_crm/controllers/main.py:59 | the decimal texts of ids read back as the same ids |
| CrmController.ParseJoinedIds | lk_website_custom/luc_khi_crm/controllers/main.py:58-70 | a comma-joined id list parses back to the same ids, in order |
| CrmController.ParseIdsDrops | lk_website_custom/luc_khi_crm/controllers/main.py:59 | a token that is not a number is dropped and the rest keep their order |
| CrmController.InterestIds | lk_website_custom/luc_khi_crm/controllers/main.py:57-70 | an interest is set exactly when its field is posted with non-blank text |
| CrmController.MissingAmong | lk_website_custom/luc_khi_crm/controllers/main.py:74 | reports exactly the listed fields that are empty |
| CrmController.MissingFields | lk_website_custom/luc_khi_crm/controllers/main.py:73-74 | reports exactly the empty required fields |
| CrmController.MissingAmongConcat | lk_website_custom/luc_khi_crm/controllers/main.py:74 | the report on two groups of fields is the first group's report followed by the second's |
| CrmController.MissingInOrder | lk_website_custom/luc_khi_crm/controllers/main.py:73-74 | missing fields are reported in the order name … message |
| CrmController.Outcome | lk_website_custom/luc_khi_crm/controllers/main.py:38-131 | success exactly when no required field is missing, the selections accept the values and the constraints hold; a missing field or a selection fault stores nothing; a constraint failure keeps the inserted row and reports the error; a failed conversion is caught |
| CrmController.OutcomeAppends | lk_website_custom/luc_khi_crm/controllers/main.py:83-108 | a success appends one form and answers its id; an auto-converted reason links a lead when the conversion succeeds and otherwise leaves the form a draft with the failed lead row behind |
| CrmController.MissingReported | lk_website_custom/luc_khi_crm/controllers/main.py:73-81 | an empty required field stores nothing and the error names the first empty field |
| CrmController.Submit | lk_website_custom/luc_khi_crm/controllers/main.py:73-131 | the reply and the new table are `Outcome` of the old table |
| CrmController.HandleContactForm | lk_website_custom/luc_khi_crm/controllers/main.py:38-131 | the reply and new table are `Outcome` of the form data read from the posted fields |
| CrmController.BookingData | lk_website_custom/luc_khi_crm/controllers/main.py:155-176 | a booking always has reason consultation and source consultation booking, the subject carries the name, and a consultant only from an all-digit id |
| CrmController.BookConsultation | lk_website_custom/luc_khi_crm/controllers/main.py:152-197 | the reply, forms and leads are those of `BookingOutcome` |
| CrmController.BookingOutcome | lk_website_custom/luc_khi_crm/controllers/main.py:152-197 | success exactly when the selections accept the values, the constraints hold and the conversion succeeds; every failure is the generic error, with what was inserted before it left in place |
| CrmController.RouteFor | lk_website_custom/luc_khi_crm/controllers/main.py:30-36 | the contact-form handler exactly for `luc_khi.contact.form` |
| CrmController.CountElements | lk_website_custom/luc_khi_crm/controllers/main.py:233-236 | the counting loops give the per-id counts of all form elements |
| CrmController.PopularFrom | lk_website_custom/luc_khi_crm/controllers/main.py:245-255 | only ids with an element record are reported, each with its counted pair |
| CrmController.Report | lk_website_custom/luc_khi_crm/controllers/main.py:245-255 | the reporting loop gives `PopularFrom` |
| CrmController.PopularElements | lk_website_custom/luc_khi_crm/controllers/main.py:226-257 | at most five elements, from the stable count-descending sort, each with its true non-zero count |
| CrmController.PopularCounts | lk_website_custom/luc_khi_crm/controllers/main.py:233-255 | every reported element's count is the number of its occurrences, never zero |
| Slug.DropNonSlug | lk_website_custom/luc_khi_shop/models/luc_khi_product.py:129 | the longest suffix starting with a slug character; everything cut off is not one |
| Slug.DashRuns | lk_website_custom/luc_khi_shop/models/luc_khi_product.py:129 | `re.sub(r'[^a-z0-9]+', '-', s)`: the result uses only `[a-z0-9-]`, never two hyphens in a row, and is empty exactly when the input is |
| Slug.DashRunsOfPlain | lk_website_custom/luc_khi_shop/models/luc_khi_product.py:129 | a string already of that shape is unchanged |
| Slug.TrimDashStart | lk_website_custom/luc_khi_shop/models/luc_khi_product.py:132 | removes exactly the leading hyphens |
| Slug.TrimDashEnd | lk_website_custom/luc_khi_shop/models/luc_khi_product.py:132 | removes exactly the trailing hyphens |
| Slug.PlainSlice | lk_website_custom/luc_khi_shop/models/luc_khi_product.py:129-132 | any piece of a plain string is plain |
| Slug.StripShaped | lk_website_custom/luc_khi_shop/models/luc_khi_product.py:132 | stripping a plain string leaves no hyphen at either end |
| Slug.StripOfShaped | lk_website_custom/luc_khi_courses/models/luc_khi_course.py:102 | stripping a slug-shaped string changes nothing |
| Slug.CollapseDash | lk_website_custom/luc_khi_shop/models/luc_khi_product.py:133 | no two hyphens in a row remain, and a non-hyphen first character is kept |
| Slug.CollapseWithoutDash | lk_website_custom/luc_khi_shop/models/luc_khi_product.py:133 | a string without hyphens is unchanged |
| Slug.SlugCharsUnchanged | lk_website_custom/luc_khi_shop/models/luc_khi_product.py:129-133 | a text of `[a-z0-9]` passes all three substitutions unchanged |
| VietSlug.DropChar | lk_website_custom/luc_khi_shop/models/luc_khi_product.py:96-123 | each table entry maps to one of a, d, e, i, o, u, y; every other character to nothing |
| VietSlug.AsciiDropChar | lk_website_custom/luc_khi_shop/models/luc_khi_product.py:126 | every ASCII character, letters and digits included, is dropped |
| VietSlug.Converted | lk_website_custom/luc_khi_shop/models/luc_khi_product.py:126 | the conversion is no longer than the text and holds only table letters |
| VietSlug.LettersUnchanged | lk_website_custom/luc_khi_shop/models/luc_khi_product.py:129-133 | a text of table letters passes every later substitution unchanged |
| VietSlug.SlugIsConverted | lk_website_custom/luc_khi_shop/models/luc_khi_product.py:90-135 | the slug equals the converted text: the regular expressions never change it |
| VietSlug.SlugShape | lk_website_custom/luc_khi_shop/models/luc_khi_product.py:90-135 | the slug has no hyphen, uses only table letters and is no longer than the text |
| VietSlug.NameSlug | lk_website_custom/luc_khi_shop/models/luc_khi_product.py:80-87 | the stored slug is the converted name, '' for no name |
| VietSlug.ConvertedConcat | lk_website_custom/luc_khi_shop/models/luc_khi_product.py:126 | the conversion of a concatenation is the concatenation of conversions |
| VietSlug.SlugConcat | lk_website_custom/luc_khi_shop/models/luc_khi_product.py:90-135 | the slug of a concatenation is the concatenation of slugs |
| VietSlug.AsciiDropped | lk_website_custom/luc_khi_shop/models/luc_khi_product.py:90-135 | an all-ASCII text has the empty slug |
| VietSlug.AsciiConverted | lk_website_custom/luc_khi_shop/models/luc_khi_product.py:126 | an all-ASCII text converts to nothing |
| VietSlug.KeptSlugKeepsAlnum | lk_website_custom/luc_khi_shop/models/luc_khi_product.py:125-133 | with the corrected conversion `get(c, c)` an ASCII name of letters and digits keeps them all, lower-cased, where the code as written gives the empty slug |
| VietSlug.KeptSlugAgreesOnTable | lk_website_custom/luc_khi_shop/models/luc_khi_product.py:94-133 | on a text made only of characters of the table the corrected and the as-written slug agree |
| VietSlug.DroppedExample | lk_website_custom/luc_khi_shop/models/luc_khi_product.py:90-135 | "Đá" followed by any ASCII text, e.g. "Đá Kim", slugs to "da" |
| VietSlug.ConvertedExample | lk_website_custom/luc_khi_shop/models/luc_khi_product.py:126 | "Đá" converts to "da" |
| VietSlug.DropCharExamples | lk_website_custom/luc_khi_shop/models/luc_khi_product.py:96-123 | `Đ` maps to d and `á` to a |
| LatinSlug.Lower | lk_website_custom/luc_khi_courses/models/luc_khi_course.py:82 | lower-cases character by character, keeping the length |
| LatinSlug.Pairs | lk_website_custom/luc_khi_courses/models/luc_khi_course.py:84-98 | one table entry per accented letter, in table order |
| LatinSlug.ReplaceAll | lk_website_custom/luc_khi_courses/models/luc_khi_course.py:99-100 | the `replace` loop keeps the length and acts on each character alone |
| LatinSlug.FirstMatch | lk_website_custom/luc_khi_courses/models/luc_khi_course.py:84-98 | none exactly when no entry has the key; otherwise an entry's value |
| LatinSlug.ApplyIsLookup | lk_website_custom/luc_khi_courses/models/luc_khi_course.py:99-100 | with non-ASCII keys and ASCII values the replacement order does not matter: it is one lookup |
| LatinSlug.KeysOutsideAscii | lk_website_custom/luc_khi_courses/models/luc_khi_course.py:84-98 | entries built from accented keys map outside ASCII into it |
| LatinSlug.ReplacementsAscii | lk_website_custom/luc_khi_courses/models/luc_khi_course.py:84-98 | the whole table maps non-ASCII letters to ASCII ones |
| LatinSlug.Folded | lk_website_custom/luc_khi_courses/models/luc_khi_course.py:99-100 | every character replaced by its table value, if any |
| LatinSlug.GenerateSlug | lk_website_custom/luc_khi_courses/models/luc_khi_course.py:80-102 | the loop over the table yields lower, fold, hyphen runs, strip |
| LatinSlug.ReplacedIsFolded | lk_website_custom/luc_khi_courses/models/luc_khi_course.py:99-100 | the replacement loop is the per-character fold |
| LatinSlug.SlugShape | lk_website_custom/luc_khi_courses/models/luc_khi_course.py:80-102 | a slug uses `[a-z0-9-]`, has no double hyphen and no hyphen at either end |
| LatinSlug.AsciiFolded | lk_website_custom/luc_khi_courses/models/luc_khi_course.py:82-100 | on ASCII text only lower-casing acts |
| LatinSlug.ShapedFolded | lk_website_custom/luc_khi_courses/models/luc_khi_course.py:82-100 | a slug-shaped text is unchanged by lower-casing and folding |
| LatinSlug.Idempotent | lk_website_custom/luc_khi_courses/models/luc_khi_course.py:80-102 | slugging a slug changes nothing |
| LatinSlug.AlnumKept | lk_website_custom/luc_khi_courses/models/luc_khi_course.py:80-102 | ASCII letters and digits survive, lower-cased |
| LatinSlug.FamiliesDiffer | lk_website_custom/luc_khi_courses/models/luc_khi_course.py:80-102 | on a non-empty alphanumeric ASCII name this slug is the lower-cased name while the drop-map slug is empty |
| SiteCommon.MetaTitleOnCreate | lk_website_custom/luc_khi_shop/models/luc_khi_product.py:139-141 | an absent or empty meta title becomes the name (or ''); every other key is unchanged |
| SiteCommon.MetaTitleOnWrite | lk_website_custom/luc_khi_shop/models/luc_khi_product.py:152-154 | a written name without a non-empty meta title becomes the meta title; otherwise unchanged |
| SiteCommon.MetaTitleNeverEmpty | lk_website_custom/luc_khi_shop/models/luc_khi_product.py:139-154 | with a non-empty name the meta title is never left empty |
| SiteCommon.Truncated | lk_website_custom/luc_khi_shop/models/luc_khi_product.py:146 | short texts are kept; longer ones are their first 150 characters and `...` |
| SiteCommon.SummaryOnCreate | lk_website_custom/luc_khi_shop/models/luc_khi_product.py:144-147 | an empty summary is filled from a non-empty source; otherwise unchanged |
| SiteCommon.ElementColor | lk_website_custom/luc_khi_shop/models/luc_khi_product.py:179-189 | the default grey exactly for codes other than the six elements |
| ShopProduct.CreateFillsDefaults | lk_website_custom/luc_khi_shop/models/luc_khi_product.py:138-149 | a product created from a description gets its truncation as short description (153 characters when longer than 150) and a meta title |
| ShopProduct.Matching | lk_website_custom/luc_khi_shop/models/luc_khi_product.py:167-174 | exactly the catalogue products the domain admits |
| ShopProduct.Recommended | lk_website_custom/luc_khi_shop/models/luc_khi_product.py:162-177 | nothing without an element; otherwise the first `limit` matching products in search order (all of them when fewer), none of them the product itself |
| ShopProduct.MatchingConcat | lk_website_custom/luc_khi_shop/models/luc_khi_product.py:167-174 | the search keeps the catalogue's order: the matches of a catalogue split in two are those of the first part followed by those of the second |
| ShopProduct.RecommendedKeepsEarlier | lk_website_custom/luc_khi_shop/models/luc_khi_product.py:167-177 | once the first part of the catalogue holds `limit` matches, products after it never enter the recommendation |
| ShopProduct.ProductTable.constructor | lk_website_custom/luc_khi_shop/models/luc_khi_product.py:138-149 | the table holds the given products |
| ShopProduct.ProductTable.IncrementViewCount | lk_website_custom/luc_khi_shop/models/luc_khi_product.py:158-160 | one more view on that product, nothing else changes |
| ShopProduct.ProductTable.ComputeSlugs | lk_website_custom/luc_khi_shop/models/luc_khi_product.py:80-87 | every product's slug is recomputed from its name, nothing else changes |
| ProductCategory.Path | lk_website_custom/luc_khi_shop/models/luc_khi_product_category.py:48-54 | the names from root down, ending in the category's own |
| ProductCategory.JoinSnoc | lk_website_custom/luc_khi_shop/models/luc_khi_product_category.py:52 | joining one more name appends the separator and the name |
| ProductCategory.CompleteNameIsPath | lk_website_custom/luc_khi_shop/models/luc_khi_product_category.py:48-54 | the full name is the ancestors' names, root first, joined by ` / ` |
| ProductCategory.RootNameFirst | lk_website_custom/luc_khi_shop/models/luc_khi_product_category.py:48-54 | the full name starts with the root's name |
| LucKhiOrder.AddressParts | lk_website_custom/luc_khi_shop/models/luc_khi_order.py:29-39 | one part per present field, the street first |
| LucKhiOrder.AfterStreet | lk_website_custom/luc_khi_shop/models/luc_khi_order.py:32-39 | one part per present ward, district, province and country |
| LucKhiOrder.FullAddress | lk_website_custom/luc_khi_shop/models/luc_khi_order.py:27-43 | with every part the address reads street, ward, district, province, country with their prefixes |
| LucKhiOrder.SparseAddress | lk_website_custom/luc_khi_shop/models/luc_khi_order.py:27-43 | a street alone gives the street; no shipping partner gives '' |
| LucKhiOrder.AddressStartsWithStreet | lk_website_custom/luc_khi_shop/models/luc_khi_order.py:30-41 | the address starts with the street when there is one |
| LucKhiOrder.LineElements | lk_website_custom/luc_khi_shop/models/luc_khi_order.py:57-58 | exactly the lines' non-empty elements |
| LucKhiOrder.AdviceFor | lk_website_custom/luc_khi_shop/models/luc_khi_order.py:100-140 | an entry with three products exactly for the six elements |
| LucKhiOrder.ItemListed | lk_website_custom/luc_khi_shop/models/luc_khi_order.py:143-144 | every product appears as its own list item |
| LucKhiOrder.BuildRecommendations | lk_website_custom/luc_khi_shop/models/luc_khi_order.py:96-148 | the appending loop builds the header, title, advice and item list |
| LucKhiOrder.AdviceStartsWithTitle | lk_website_custom/luc_khi_shop/models/luc_khi_order.py:96-148 | the text starts with the header and the title |
| LucKhiOrder.AdviceListsProducts | lk_website_custom/luc_khi_shop/models/luc_khi_order.py:96-148 | every suggested product is listed |
| LucKhiOrder.RecommendationContent | lk_website_custom/luc_khi_shop/models/luc_khi_order.py:96-148 | an unknown element gets only the header; a known one its title and every product |
| LucKhiOrder.SaleOrder.constructor | lk_website_custom/luc_khi_shop/models/luc_khi_order.py:13-19 | a new order has no analysis and both invoice flags set |
| LucKhiOrder.SaleOrder.AnalyzeProfile | lk_website_custom/luc_khi_shop/models/luc_khi_order.py:52-73 | nothing changes without an element; otherwise the first most frequent element is dominant, with its counts and recommendations |
| LucKhiOrder.LineElementsSnoc | lk_website_custom/luc_khi_shop/models/luc_khi_order.py:57-58 | one more line adds its element when it has one |
| LucKhiOrder.AnalysisFacts | lk_website_custom/luc_khi_shop/models/luc_khi_order.py:56-64 | counts are the occurrences, add up to the lines with an element, and the dominant one is a largest count with every earlier one strictly less |
| LucKhiOrder.BenefitOf | lk_website_custom/luc_khi_shop/models/luc_khi_order.py:164-171 | a benefit exactly for the six elements |
| LucKhiOrder.OnchangeBenefit | lk_website_custom/luc_khi_shop/models/luc_khi_order.py:160-174 | no product, or one without element, keeps the benefit; otherwise the element's benefit |
| Tally.FlattenStep | lk_website_custom/luc_khi_shop/controllers/main.py:170-171 | one more group appends its values |
| Tally.FirstSeen | lk_website_custom/luc_khi_shop/models/luc_khi_order.py:56-60 | the distinct values, each once |
| Tally.Counted | lk_website_custom/luc_khi_shop/models/luc_khi_order.py:56-60 | one item per distinct value, in first-appearance order |
| Tally.CountedPositive | lk_website_custom/luc_khi_shop/models/luc_khi_order.py:56-60 | a value that occurs has a positive count |
| Tally.CountedIn | lk_website_custom/luc_khi_shop/models/luc_khi_order.py:56-60 | a positive count belongs to a value that occurs |
| Tally.CountedEntries | lk_website_custom/luc_khi_shop/models/luc_khi_order.py:56-60 | every item is a value with its number of occurrences |
| Tally.SumCountsEmpty | lk_website_custom/luc_khi_shop/models/luc_khi_order.py:56-60 | nothing counted sums to 0 |
| Tally.SumCountsSnoc | lk_website_custom/luc_khi_shop/models/luc_khi_order.py:56-60 | one more value adds one to its key |
| Tally.SumCountsAll | lk_website_custom/luc_khi_shop/models/luc_khi_order.py:56-60 | distinct keys covering every value count every value once |
| Tally.TotalIsSum | lk_website_custom/luc_khi_shop/models/luc_khi_order.py:56-60 | the total of the items is the sum of their counts |
| Tally.CountsAddUp | lk_website_custom/luc_khi_shop/models/luc_khi_order.py:56-60 | the counts add up to the number of values |
| Tally.TallyStep | lk_website_custom/luc_khi_shop/models/luc_khi_order.py:59-60 | `counts.get(e, 0) + 1` keeps the dictionary a tally of the values seen |
| Tally.ItemsOfTallied | lk_website_custom/luc_khi_shop/models/luc_khi_order.py:56-60 | a full tally's items are `Counted` |
| Tally.Count | lk_website_custom/luc_khi_shop/models/luc_khi_order.py:56-60 | the counting loop yields `Counted` |
| Tally.CountInto | lk_website_custom/luc_khi_shop/models/luc_khi_order.py:56-60 | the counting loop, continued from any partial tally, tallies every value seen |
| Tally.FirstMax | lk_website_custom/luc_khi_shop/models/luc_khi_order.py:64 | `max` with a key picks a largest count, the first one on ties |
| Paging.Window | lk_website_custom/luc_khi_shop/controllers/main.py:11-39 | `offset`/`limit` give the right number of rows |
| Paging.Offset | lk_website_custom/luc_khi_shop/controllers/main.py:68 | `(page - 1) * perPage` |
| Paging.CeilOfOnePage | lk_website_custom/luc_khi_shop/controllers/main.py:104 | that page count is 0 or 1 |
| Paging.Paginate | lk_website_custom/luc_khi_shop/controllers/main.py:67-77 | page 0 is refused; otherwise the window, `has_more` exactly when rows follow, and a page count of 0 or 1 |
| Paging.PagesCover | lk_website_custom/luc_khi_shop/controllers/main.py:67-77 | pages 1 to k show the first k pages of rows, each once and in order |
| Paging.LastPage | lk_website_custom/luc_khi_shop/controllers/main.py:75 | no more follow exactly when the pages so far hold every row |
| ShopController.ShopListing | lk_website_custom/luc_khi_shop/controllers/main.py:65-109 | page 0 is refused; at most 20 products, the right window, and `has_more` exactly when more follow |
| ShopController.LowerAll | lk_website_custom/luc_khi_shop/controllers/main.py:172 | every code lower-cased, in order |
| ShopController.LowerAllSnoc | lk_website_custom/luc_khi_shop/controllers/main.py:172 | one more code appends its lower-cased form |
| ShopController.CountCodes | lk_website_custom/luc_khi_shop/controllers/main.py:167-173 | the loops count the lower-cased codes |
| ShopController.Breakdown | lk_website_custom/luc_khi_shop/controllers/main.py:217-223 | one entry per counted code with its name and count |
| ShopController.LucKhiAnalysis | lk_website_custom/luc_khi_shop/controllers/main.py:161-188 | answers the analysis, errors included, as `AnalysisOf` |
| ShopController.AnalysisFacts | lk_website_custom/luc_khi_shop/controllers/main.py:161-188 | fails exactly with no product or no codes; else counts are occurrences summing to the codes, the first largest is dominant, one breakdown entry per code |
| ShopController.AddToCartGuard | lk_website_custom/luc_khi_shop/controllers/main.py:292-293 | passes exactly for an existing published product |
| ShopController.ConfirmOrder | lk_website_custom/luc_khi_shop/controllers/main.py:317-332 | both invoice flags end up set, and nothing else changes |
| Payment.Lookup | lk_website_custom/luc_khi_shop/controllers/payment.py:88 | the value found belongs to the key; none when the key is absent |
| Payment.LookupFinds | lk_website_custom/luc_khi_shop/controllers/payment.py:88 | with distinct keys a key's entry is the one found |
| Payment.Remove | lk_website_custom/luc_khi_shop/controllers/payment.py:72 | removes exactly the key's items and keeps every other item as often as before |
| Payment.Insert | lk_website_custom/luc_khi_shop/controllers/payment.py:49 | inserting into key-sorted items keeps them key-sorted and adds exactly that item |
| Payment.SortByKey | lk_website_custom/luc_khi_shop/controllers/payment.py:49 | `sorted(params.items())`: key-sorted and a permutation of the items |
| Payment.SortedUnique | lk_website_custom/luc_khi_shop/controllers/payment.py:49 | two key-sorted permutations of the same items are the same list |
| Payment.SortedDistinct | lk_website_custom/luc_khi_shop/controllers/payment.py:49 | key-sorted items never repeat a key |
| Payment.ConcatSorted | lk_website_custom/luc_khi_shop/controllers/payment.py:155 | two key-sorted lists, all keys of the first before those of the second, join into a key-sorted list |
| Payment.Pairs | lk_website_custom/luc_khi_shop/controllers/payment.py:74 | one `key=value` text per item, in order |
| Payment.HashDataIgnoresOrder | lk_website_custom/luc_khi_shop/controllers/payment.py:49-52 | the hash input does not depend on the order the parameters come in |
| Payment.HashDataOfSorted | lk_website_custom/luc_khi_shop/controllers/payment.py:73-74 | parameters already in key order are joined in that order |
| Payment.ConfigParam | lk_website_custom/luc_khi_shop/controllers/payment.py:23-25 | `get_param(key, default)`: the stored value when it is non-empty, else the default (`value or default`) |
| Payment.VnpayConfig | lk_website_custom/luc_khi_shop/controllers/payment.py:23-30 | missing exactly when the terminal code, the secret or the URL (sandbox by default) is empty; otherwise those three values |
| Payment.VnpParams | lk_website_custom/luc_khi_shop/controllers/payment.py:33-46 | distinct keys, none of them the signature key |
| Payment.VnpayCreate | lk_website_custom/luc_khi_shop/controllers/payment.py:16-64 | no order redirects to the cart; missing configuration redirects with the error; otherwise the redirect is the URL, `?` and the encoding of the request parameters with their signature appended |
| Payment.VnpayReturn | lk_website_custom/luc_khi_shop/controllers/payment.py:67-127 | a bad signature redirects with the error and confirms nothing; a valid one with an unreadable `vnp_TxnRef` raises; otherwise the outcome is `Settle` of that order with success exactly for code 00 and the found `vnpay` payment method |
| Payment.OrderRef | lk_website_custom/luc_khi_shop/controllers/payment.py:90 | `int(...)` of the parameter, none where it is missing or does not parse |
| Payment.Settle | lk_website_custom/luc_khi_shop/controllers/payment.py:88-127 | an unknown order redirects to the shop; a failure code to the payment page; success on an order `action_confirm` refuses ends on its `UserError`; success on one it accepts confirms it when no payment method with the route's code exists, and otherwise raises on `payment_method.journal_id` so the confirmation rolls back; an order is confirmed exactly in that first case |
| Payment.SignedSuccessConfirms | lk_website_custom/luc_khi_shop/controllers/payment.py:48-127 | a return carrying the create handler's signed parameters, in any order, with code 00 for a confirmable order confirms it when no `vnpay` payment method exists, and raises (nothing confirmed) when one does |
| Payment.SignedLookup | lk_website_custom/luc_khi_shop/controllers/payment.py:71-88 | every signed parameter comes back under its own key |
| Payment.ConfirmedTwiceRefused | lk_website_custom/luc_khi_shop/controllers/payment.py:95-97 | a second return for an order already in state `sale` ends on the `action_confirm` error, whether or not a payment method exists |
| Payment.LookupRemoved | lk_website_custom/luc_khi_shop/controllers/payment.py:72-88 | popping one key leaves the lookups of every other key alone |
| Payment.DistinctAfterRemove | lk_website_custom/luc_khi_shop/controllers/payment.py:72 | popping keeps the keys distinct |
| Payment.PopSigned | lk_website_custom/luc_khi_shop/controllers/payment.py:53-59 | popping the signature from any reordering of a signed set gives back the signature and the parameters |
| Payment.SignedVerifies | lk_website_custom/luc_khi_shop/controllers/payment.py:48-84 | a request signed by the create handler passes the return check, in any order |
| Payment.MomoFieldsSorted | lk_website_custom/luc_khi_shop/controllers/payment.py:155 | the MoMo field names come in increasing order, each once |
| Payment.MomoHeadSorted | lk_website_custom/luc_khi_shop/controllers/payment.py:155 | the first five MoMo field names are in increasing order |
| Payment.MomoTailSorted | lk_website_custom/luc_khi_shop/controllers/payment.py:155 | the last five MoMo field names are in increasing order |
| Payment.MomoConfig | lk_website_custom/luc_khi_shop/controllers/payment.py:137-145 | missing exactly when endpoint, partner code, access key or secret key is empty; otherwise those four values |
| Payment.MomoPairs | lk_website_custom/luc_khi_shop/controllers/payment.py:155 | the ten `name=value` pieces, extraData empty |
| Payment.RawSignatureIsSorted | lk_website_custom/luc_khi_shop/controllers/payment.py:155 | the raw signature is the sorted `key=value` join of its fields |
| Payment.MomoRequestFor | lk_website_custom/luc_khi_shop/controllers/payment.py:147-177 | the body signs the raw signature of its own fields and carries the order's id, amount, urls, request id and info |
| Payment.MomoCreate | lk_website_custom/luc_khi_shop/controllers/payment.py:130-192 | no order goes to the cart; missing configuration is an error; otherwise the answer's resultCode 0 redirects to its payUrl, any other answer or none to an error |
| Payment.MomoReturn | lk_website_custom/luc_khi_shop/controllers/payment.py:195-237 | an unreadable `orderId` raises; otherwise the outcome is `Settle` of that order with success exactly for `resultCode` 0 and the found `momo` payment method, whatever the signature |
| Payment.MomoReturnUnverified | lk_website_custom/luc_khi_shop/controllers/payment.py:195-207 | only orderId and resultCode decide the outcome |
| Payment.MomoForgedReturnConfirms | lk_website_custom/luc_khi_shop/controllers/payment.py:195-237 | a return carrying code 0 for a confirmable order confirms it whatever its signature when no `momo` payment method exists, and raises (nothing confirmed) when one does |
| BlogPost.WordCount | lk_website_custom/luc_khi_blog/models/luc_khi_blog_post.py:49 | `len(re.findall(r'\w+', s))`: no larger than the text, and 0 exactly when the text has no word character |
| BlogPost.WordsAdd | lk_website_custom/luc_khi_blog/models/luc_khi_blog_post.py:49 | texts joined by a non-word character have the words of both |
| BlogPost.RoundPer200 | lk_website_custom/luc_khi_blog/models/luc_khi_blog_post.py:50 | `round(n / 200)`: within half a unit of n / 200, ties going to the even number |
| BlogPost.RoundingUnique | lk_website_custom/luc_khi_blog/models/luc_khi_blog_post.py:50 | those two properties fix the rounded value |
| BlogPost.ReadingTime | lk_website_custom/luc_khi_blog/models/luc_khi_blog_post.py:43-52 | at least 1; 1 for no content or fewer than 300 words; otherwise within 100 words of 200 words a minute |
| BlogPost.CreateVals | lk_website_custom/luc_khi_blog/models/luc_khi_blog_post.py:111-123 | always a meta title; an empty summary is filled from the content's truncation; a given summary is kept |
| BlogPost.RelatedIn | lk_website_custom/luc_khi_blog/models/luc_khi_blog_post.py:150-154 | exactly the posts the related-post domain admits |
| BlogPost.RelatedPosts | lk_website_custom/luc_khi_blog/models/luc_khi_blog_post.py:145-154 | nothing without a category; otherwise the first `limit` published posts of the same category other than itself, in search order (all of them when fewer) |
| BlogPost.RelatedInConcat | lk_website_custom/luc_khi_blog/models/luc_khi_blog_post.py:150-154 | the search keeps the posts' order: the related posts of a list split in two are those of the first part followed by those of the second |
| BlogPost.RelatedKeepsEarlier | lk_website_custom/luc_khi_blog/models/luc_khi_blog_post.py:150-154 | once the first part of the list holds `limit` related posts, posts after it never enter the result |
| BlogPost.PostTable.constructor | lk_website_custom/luc_khi_blog/models/luc_khi_blog_post.py:111-123 | the table holds the given posts |
| BlogPost.PostTable.IndexOf | lk_website_custom/luc_khi_blog/controllers/main.py:175-176 | a position holding the id; none when no post has it |
| BlogPost.PostTable.IncrementViewCount | lk_website_custom/luc_khi_blog/models/luc_khi_blog_post.py:141-143 | one more view, nothing else changes |
| BlogPost.PostTable.IncrementLikeCount | lk_website_custom/luc_khi_blog/controllers/main.py:178 | one more like, nothing else changes |
| BlogPost.PostTable.ComputeFields | lk_website_custom/luc_khi_blog/models/luc_khi_blog_post.py:43-61 | every post gets its name's slug and its reading time, nothing else changes |
| BlogPost.IndexFrom | lk_website_custom/luc_khi_blog/controllers/main.py:175-176 | the search from a position finds a post with the id, or proves none has it |
| BlogCategory.PostsOf | lk_website_custom/luc_khi_blog/models/luc_khi_blog_category.py:29-32 | exactly the posts of the category |
| BlogCategory.CountPublished | lk_website_custom/luc_khi_blog/models/luc_khi_blog_category.py:32 | the number of published posts: all exactly when all are published, 0 exactly when none |
| BlogCategory.PostCount | lk_website_custom/luc_khi_blog/models/luc_khi_blog_category.py:29-32 | bounded by the category's posts; equal exactly when all of them are published, 0 exactly when none |
| BlogCategory.PostCountAdd | lk_website_custom/luc_khi_blog/models/luc_khi_blog_category.py:29-32 | a new post moves only its own category's count, and only when published |
| BlogCategory.CountPublishedConcat | lk_website_custom/luc_khi_blog/models/luc_khi_blog_category.py:32 | the count of a concatenation is the sum of counts |
| BlogController.ListedIn | lk_website_custom/luc_khi_blog/controllers/main.py:10-24 | exactly the published posts of the category, any category when none is given |
| BlogController.BlogListing | lk_website_custom/luc_khi_blog/controllers/main.py:39-75 | page 0 is refused; at most 12 listed posts, the page's window, and `has_more` exactly when more follow |
| BlogController.WindowWithin | lk_website_custom/luc_khi_blog/controllers/main.py:17-21 | a window holds only rows of the listing |
| BlogController.SearchIn | lk_website_custom/luc_khi_blog/controllers/main.py:129-135 | exactly the published posts whose name, content or keywords contain the query |
| BlogController.BlogSearch | lk_website_custom/luc_khi_blog/controllers/main.py:124-146 | an empty query redirects to the blog; otherwise every hit and its count |
| BlogController.DetailMatches | lk_website_custom/luc_khi_blog/controllers/main.py:83-96 | every position listed matches the route, and every matching position is listed |
| BlogController.BlogPostDetail | lk_website_custom/luc_khi_blog/controllers/main.py:81-121 | no id and slug, no match or several matches raise and change nothing; otherwise that post gains one view and comes with its four related posts |
| BlogController.BlogLikePost | lk_website_custom/luc_khi_blog/controllers/main.py:171-183 | an unknown post is refused and nothing changes; otherwise it gains one like and the new count is answered |
| Toggles.Flipped | lk_website_custom/luc_khi_courses/models/luc_khi_course.py:167-170 | negated once per visit: even visits keep the flag, odd ones negate it |
| Toggles.FlippedStep | lk_website_custom/luc_khi_courses/models/luc_khi_course.py:167-170 | one more visit negates once more |
| Toggles.FlippedTwice | lk_website_custom/luc_khi_courses/models/luc_khi_course.py:167-175 | two runs over the same records restore the flag |
| Toggles.VisitsSnoc | lk_website_custom/luc_khi_courses/models/luc_khi_course.py:168-169 | one more record in the loop adds one visit to it only |
| SlugStore.NewSlug | lk_website_custom/luc_khi_courses/models/luc_khi_course.py:74-78 | unchanged without a name; otherwise the generated slug of the name |
| SlugStore.Recomputed | lk_website_custom/luc_khi_courses/models/luc_khi_course.py:74-78 | each record's slug as `NewSlug` gives it |
| SlugStore.ComputeSlugs | lk_website_custom/luc_khi_courses/models/luc_khi_course.py:74-78 | the loop over the records yields `Recomputed` |
| SlugStore.RenamedToSlug | lk_website_custom/luc_khi_courses/models/luc_khi_course.py:74-102 | renaming a record to its own slug keeps the slug |
| SlugStore.SameSlugClash | lk_website_custom/luc_khi_courses/models/luc_khi_course.py:70-78 | two named records whose names slug alike break the uniqueness constraint |
| Course.CheckAccessRights | lk_website_custom/luc_khi_courses/models/luc_khi_course.py:177-194 | public: yes; registered: exactly for non-public users; purchased: exactly with a channel granting access; unset: no |
| Course.AccessWithoutChannel | lk_website_custom/luc_khi_courses/models/luc_khi_course.py:177-194 | a purchased course with no channel is closed; the channel answer matters only for purchased courses |
| Course.ChannelValsOf | lk_website_custom/luc_khi_courses/models/luc_khi_course.py:141-150 | the channel copies name, description and publication, is a training channel, public exactly for a public course |
| Course.WithPublishedToggled | lk_website_custom/luc_khi_courses/models/luc_khi_course.py:167-170 | each course's publication negated once per visit |
| Course.WithFeaturedToggled | lk_website_custom/luc_khi_courses/models/luc_khi_course.py:172-175 | each course's featured flag negated once per visit |
| Course.ToggleTwice | lk_website_custom/luc_khi_courses/models/luc_khi_course.py:167-175 | toggling twice is the identity, and each toggle leaves the other flag alone |
| Course.Names | lk_website_custom/luc_khi_courses/models/luc_khi_course.py:74-78 | the courses' names, in order |
| Course.Slugs | lk_website_custom/luc_khi_courses/models/luc_khi_course.py:70-72 | the courses' slugs, in order |
| Course.WithSlugs | lk_website_custom/luc_khi_courses/models/luc_khi_course.py:74-78 | only the slugs change, to the ones given |
| Course.CourseTable.constructor | lk_website_custom/luc_khi_courses/models/luc_khi_course.py:70-72 | an empty table satisfies the uniqueness constraint |
| Course.CourseTable.ComputeSlugs | lk_website_custom/luc_khi_courses/models/luc_khi_course.py:70-78 | recomputed slugs are stored exactly when they are unique; otherwise the constraint error and no change |
| Course.CourseTable.TogglePublished | lk_website_custom/luc_khi_courses/models/luc_khi_course.py:167-170 | the table becomes `WithPublishedToggled` and stays valid |
| Course.CourseTable.ToggleFeatured | lk_website_custom/luc_khi_courses/models/luc_khi_course.py:172-175 | the table becomes `WithFeaturedToggled` and stays valid |
| Course.CourseTable.CreateSlideChannel | lk_website_custom/luc_khi_courses/models/luc_khi_course.py:133-159 | a linked channel is answered with no change; otherwise a new channel from the course's values is linked |
| CourseCategory.Names | lk_website_custom/luc_khi_courses/models/luc_khi_course_category.py:27-31 | the categories' names, in order |
| CourseCategory.Slugs | lk_website_custom/luc_khi_courses/models/luc_khi_course_category.py:23-25 | the categories' slugs, in order |
| CourseCategory.WithSlugs | lk_website_custom/luc_khi_courses/models/luc_khi_course_category.py:27-31 | only the slugs change, to the ones given |
| CourseCategory.DisplayNames | lk_website_custom/luc_khi_courses/models/luc_khi_course_category.py:67-76 | one `(id, name)` pair per category, in order |
| CourseCategory.DisplayNameShape | lk_website_custom/luc_khi_courses/models/luc_khi_course_category.py:70-74 | a root shows its name; a child starts with its parent's name and ends with ` / ` and its own |
| CourseCategory.OneLevel | lk_website_custom/luc_khi_courses/models/luc_khi_course_category.py:70-74 | only the category and its parent affect the display name |
| CourseCategory.CategoryTable.constructor | lk_website_custom/luc_khi_courses/models/luc_khi_course_category.py:23-25 | an empty table satisfies the constraints |
| CourseCategory.CategoryTable.ComputeSlugs | lk_website_custom/luc_khi_courses/models/luc_khi_course_category.py:23-56 | recomputed slugs are stored exactly when unique; otherwise the constraint error and no change |
| CourseCategory.CategoryTable.NameGet | lk_website_custom/luc_khi_courses/models/luc_khi_course_category.py:67-76 | the loop yields `DisplayNames` |
| WebsitePage.Url | lk_website_custom/luc_khi_website/models/luc_khi_website_page.py:72-79 | `/page/` followed by the page key |
| WebsitePage.UrlInjective | lk_website_custom/luc_khi_website/models/luc_khi_website_page.py:72-79 | equal URLs mean equal keys |
| WebsitePage.Names | lk_website_custom/luc_khi_website/models/luc_khi_website_page.py:42-46 | the pages' names, in order |
| WebsitePage.Slugs | lk_website_custom/luc_khi_website/models/luc_khi_website_page.py:42-46 | the pages' slugs, in order |
| WebsitePage.WithSlugs | lk_website_custom/luc_khi_website/models/luc_khi_website_page.py:42-46 | only the slugs change, to the ones given |
| WebsitePage.KeyUsed | lk_website_custom/luc_khi_website/models/luc_khi_website_page.py:38-40 | exactly when some page has the key |
| WebsitePage.PageTable.constructor | lk_website_custom/luc_khi_website/models/luc_khi_website_page.py:38-40 | an empty table satisfies the key constraint |
| WebsitePage.PageTable.Create | lk_website_custom/luc_khi_website/models/luc_khi_website_page.py:38-46 | a taken key is refused with no change; otherwise the page is appended with the slug of its name |
| WebsitePage.PageTable.ComputeSlugs | lk_website_custom/luc_khi_website/models/luc_khi_website_page.py:42-70 | every page's slug recomputed, the keys kept unique |
| WebsitePage.PageTable.UrlsDistinct | lk_website_custom/luc_khi_website/models/luc_khi_website_page.py:38-40 | in a valid table no two pages share a URL |
| TeamMember.Url | lk_website_custom/luc_khi_website/models/luc_khi_team_member.py:41-48 | `/team/` followed by the member's id |
| TeamMember.UrlInjective | lk_website_custom/luc_khi_website/models/luc_khi_team_member.py:41-48 | equal URLs mean equal ids |
| TeamMember.WithPublishedToggled | lk_website_custom/luc_khi_website/models/luc_khi_team_member.py:31-34 | each member's publication negated once per visit |
| TeamMember.WithFeaturedToggled | lk_website_custom/luc_khi_website/models/luc_khi_team_member.py:36-39 | each member's featured flag negated once per visit |
| TeamMember.ToggleTwice | lk_website_custom/luc_khi_website/models/luc_khi_team_member.py:31-39 | toggling twice is the identity, and each toggle leaves the other flag alone |
| TeamMember.ToggleOnce | lk_website_custom/luc_khi_website/models/luc_khi_team_member.py:31-34 | a member selected once is negated; one not selected is untouched |
| TeamMember.TeamTable.constructor | lk_website_custom/luc_khi_website/models/luc_khi_team_member.py:31-39 | the table holds the given members |
| TeamMember.TeamTable.TogglePublished | lk_website_custom/luc_khi_website/models/luc_khi_team_member.py:31-34 | the table becomes `WithPublishedToggled` |
| TeamMember.TeamTable.ToggleFeatured | lk_website_custom/luc_khi_website/models/luc_khi_team_member.py:36-39 | the table becomes `WithFeaturedToggled` |

## Left out

- The ORM is not modelled: record caches, `sudo`, access rights, `env.ref`, and how a search chooses and orders its rows. Searches are modelled on the rows they return, in their order. The order in which a many2many field reads its rows back is not modelled.
- Transactions are modelled at the level of one statement. A write that a caught exception follows keeps what it stored, as the request commits. An uncaught exception leaves the state of the call unchanged, as the request rolls back. A `NOT NULL` abort is not modelled.
- Window and URL actions that only build a dictionary for the client are left out: the four `action_view_*` methods of `res_partner` (`contact_custom/models/res_partner.py:239-281`), `action_view_website` of products, course categories and courses, `action_view_products`, `action_view_posts` of blog categories, and `action_enroll_student`. Each rests on `env.ref` or on the web client.
- The blog sidebar queries (recent posts, categories and tags handed to the templates) are left out: they are searches with no decision logic.
- Digests are function parameters: HMAC-SHA512 and HMAC-SHA256, canonical JSON (`json.dumps(..., sort_keys=True)`) and `urllib.parse.urlencode`. Only the strings fed to them and the comparison of their results are modelled.
- Network calls are parameters or left out. `_get_track123_api_key` and `_call_track123_api` (`workspace/delivery_custom/models/stock_picking.py:273-305`) are configuration and HTTP I/O; only the interpretation of the answer dictionaries is modelled. The MoMo `requests.post` and JSON decoding (`lk_website_custom/luc_khi_shop/controllers/payment.py:179-192`) are a parameter whose `None` stands for an exception.
- The clock is a parameter: `fields.Date.context_today`, `datetime.now()` and the MoMo timestamp.
- The `strptime` and `to_datetime` fallback of `_normalize_date` (`workspace/transaction_webhook/models/processor.py:156`) is a parameter.
- Floating point is left out:
  - the percentages of the shop analysis (`lk_website_custom/luc_khi_shop/controllers/main.py:216-223`, `lk_website_custom/luc_khi_shop/models/luc_khi_order.py:75-94`);
  - `response_rate` of `get_contact_stats`;
  - the course `rating` and `student_count` computes;
  - any shipping fee.
- Payment amounts are integers: `int(amount_total * 100)` and `int(amount_total)` are integer parameters.
- Timestamps are integer seconds: the float sale-order timestamps of `company_sale_custom/models/sale_order.py:106` are handled that way.
- Mail and text generation are left out: `action_send_auto_reply`, `action_schedule_followup`, and the HTML text of the lead's `_generate_profile_analysis` and of the order's `_generate_luc_khi_analysis`. The decisions that lead to them are modelled.
- Code that cannot run as written is left out:
  - `_cron_process_pending_forms` and `get_popular_elements` subtract the string `'30 days'` from a datetime. The popular-element counting is modelled on the forms given.
  - `_compute_product_count` reads a `product_tmpl_ids` field the category does not have.
  - `action_post` and `_generate_electronic_invoice` of `luc_khi_order.py` read `electronic_invoice` on an invoice.
- Query-and-render routes with no decision logic are left out: the shop's `product_detail`, cart, checkout and payment pages; `cod_confirm`; the blog RSS feed and category redirect; `contactus`; the consultation form page; `_get_form_url`.
- `get_contact_stats` is left out: it is only `search_count` calls and a float ratio.
- Concurrency is not modelled: the Casso id check-then-create race is resolved by the unique constraint, which the table invariant holds.
- Characters outside ASCII are handled only where the code's tables name them. `\d`, `isdigit` and `lower` are ASCII only, except that `LatinSlug.Lower` also knows the Vietnamese capitals. The regex `$` matching before a final newline is not modelled.
- BlogPost.WordCount: `\w` is modelled as the ASCII word characters and the precomposed Latin letters. Letters of other scripts, digits outside ASCII and decomposed combining marks are not classified.
- Text.PyInt: digits outside ASCII, which Python's `int` also accepts, are refused.
- Logging is left out: the `_logger` lines and the `ir.logging` rows. Only the decisions around them are modelled.
- StockPicking.VendorBill: the line's quantity 1.0 and price `shipping_fee` are floats and are not modelled. Since a product is always found or created, the "No expense account found" error cannot occur and has no branch.
- Payment records are not modelled beyond the lookup of the payment method: when an `account.payment.method` with code `vnpay` or `momo` exists, building the record reads `payment_method.journal_id`, which that model does not define, so the request fails and the confirmation is rolled back (`Payment.Settle`'s `methodExists`); the `account.payment` values, its posting and the `payment_state` write (`lk_website_custom/luc_khi_shop/controllers/payment.py:104-120` and `:214-230`) are never reached and are left out.
- JSON numbers are integers: `Json.JNum` holds an `int`. A float in a webhook body, such as a Casso `amount` of `1.5` or an `id` of `1.0`, is not modelled, nor what `float(...)` and `str(...)` make of it.
- StockPicking.ParseTrack123Utc: `strptime` with `%Y-%m-%dT%H:%M:%S` is modelled for the zero-padded form only. An unpadded field such as `2024-1-5T3:04:05`, which `strptime` also accepts, is refused, and the event time is then left unset.
- DateTimes.ParseDay: only the zero-padded `%Y-%m-%d` form is parsed. `2024-1-5`, which `strptime` also accepts, is refused.
- SaleOrder.SaleWhen: a text date is read in the zero-padded `%Y-%m-%d %H:%M:%S` and `%Y-%m-%d` forms only. An unpadded date, which `to_datetime` also accepts, counts as unreadable.
- Track123Webhook.HandleWebhook: `request.jsonrequest` does not exist from Odoo 16 on, where the handler always takes its `except` branch. Both hosts are modelled, through the `hasJsonRequest` parameter.
- CourseCategory.CategoryTable.NameGet: `name_get` is no longer called from Odoo 17 on, and the manifest names 18.0. The override is modelled as written; `CourseCategory.DisplayNames` is what it would show where it is called.
- ShopController.LucKhiAnalysis: each selected product's element codes are an input. The many2many `luc_khi_element_ids` it reads, and the `luc_khi.element` model whose `code` it lowers, are declared in none of the modelled files (`lk_website_custom/luc_khi_shop/models/luc_khi_product.py` declares only the selections `luc_khi_element` and `compatible_elements`). The model assumes another module of the host adds them; on a host without that module the read raises `AttributeError`, which is not modelled. `CrmLead.Analyzed` takes the element codes of courses, products and blog categories the same way.
- ShopController.ConfirmOrder: the response of website_sale's `confirm_order` is a redirect whose `qcontext` holds no `order`, so on the target host the analysis flags are never set. The branch that would set them is modelled as written.
- Payment.MomoRequestFor: the request id and amount are stated through `Text.IntToString` of integer parameters. That `str(int(...))` of the float amount reads back as the same number is not stated.
- BlogPost.ReadingTime: the minute count is pinned to within 100 words of 200 words a minute, not to the exact rounded value. `BlogPost.RoundingUnique` shows that value is determined.
- CassoProcessor.NormalizeDate: `strptime` with `%Y-%m-%d %H:%M:%S` is modelled for the zero-padded form only. Unpadded fields, which `strptime` also accepts, fall through to the `to_datetime` parameter.
- CassoProcessor.JournalFor: the errors that Python and the ORM raise are answered with their fixed first part only. The code answers `str(e)`, and so `int()` adds the quoted parameter (`invalid literal for int() with base 10: 'abc'`), and `MissingError` adds a line naming the record and the user (`(Record: account.journal(9,), User: 1)`). The model answers `MsgBadInt` and `MsgMissingRecord` without these parts.
- CassoProcessor.ProcessPrepared: an amount `float()` refuses is answered "could not convert to float". Python's text names the value: `could not convert string to float: 'x'` for text, and `float() argument must be a string or a real number, not 'list'` for a list or an object.
- BlogController.BlogPostDetail: the singleton error is "Expected singleton: blog.post" without the ids Python lists after it, as in `blog.post(1, 2)`.
- PartnerSummary.Recent: the date error leaves out the quoted value of Python's `time data '<value>' does not match format '%Y-%m-%d'`.
- SaleOrder.RecentBySaleKey: the date error leaves out the quoted value, in the same way, for the format `%Y-%m-%d %H:%M:%S`.
- PartnerRelation.TableUnlink: the failure is the first line of the ORM's `MissingError`; the line naming the record and the user is left out.
- PartnerRelation.TableWrite: ids that name no row are skipped, by `write` and by `unlink` alike. The ORM raises `MissingError` when it reads such a record, and the model does not follow that.

## Findings

| source | as written | input that shows it | evidently intended | confidence | as-written member | corrected member |
|---|---|---|---|---|---|---|
| transaction_webhook/controllers/webhook.py:116 | a signed body that is valid JSON but not an object reaches `payload.get` and raises `AttributeError`, answered as a server error | the body `[1]` with a correct `X-Casso-Signature` | answer 422 "Unsupported payload" for any body that is not an object | not executed | CassoWebhook.SignedArrayCrashes | CassoWebhook.GateAgreesWhereDefined |
| contact_custom/models/res_partner_relation.py:95-103 | the nested `mirrors.unlink()` runs the override again, since `unlink` never reads `_skip_mirror`. Its loop reads the endpoints of every mirror, and a mirror that was itself unlinked is deleted by then, so `MissingError` is raised and the whole unlink rolls back | rows 1 -> 2 and 2 -> 1; unlink both records at once | the nested call only deletes the mirrors, so that a relation and its mirror can be unlinked together | not executed | PartnerRelation.UnlinkPairFails | PartnerRelation.UnlinkSymmetric |
| contact_custom/models/res_partner_relation.py:69-93 | `write` searches for the mirror with the new endpoints. A re-pointed relation finds none and creates a new mirror; the old mirror survives and still points at the relation's old endpoints | rows 1 -> 2 and 2 -> 1 (friends); write partner 3 as the related partner of row 1 | the old mirror is realigned to point back at the rewritten row, keeping the table symmetric | not executed | PartnerRelation.WriteLeavesOrphanMirror | PartnerRelation.WriteRealignedSymmetric |
| workspace/delivery_custom/models/account_move.py:54-58 | `action_open_picking` splits the origin only when it holds `,` or a newline, but `_compute_has_related_picking` splits on `\r` too. A move flagged as linked then opens no picking | origin `A` + carriage return + `B`, with a picking named `A` | split on every separator the compute uses, so every linked move opens its picking | not executed | MoveLink.LoneCarriageReturnNotOpened | MoveLink.LinkedMoveOpens |
| lk_website_custom/luc_khi_crm/models/luc_khi_crm_lead.py:145 | the operator class `[3` pipe `5` pipe `7` pipe `8` pipe `9]` also admits the pipe character (same pattern in `luc_khi_contact_form.py:164`) | the phone `0` + pipe + `12345678` | the operator digit is one of 3, 5, 7, 8, 9 | not executed | Validators.PipeAcceptedAsWritten | Validators.PhoneMatchIsNumeric |
| lk_website_custom/luc_khi_shop/models/luc_khi_product.py:126 | the conversion `vietnamese_map.get(c, '')` drops every character outside the table, ASCII letters and digits included, so the `[^a-z0-9]+` substitution after it never sees one (the same table in the category and blog models) | the name "Kim", whose slug is "" | keep characters outside the table, `get(c, c)`, so that "Kim" slugs to "kim" | not executed | VietSlug.AsciiDropped | VietSlug.KeptSlugKeepsAlnum |

The relation table unlinks as written: `PartnerRelation.RelationTable.Unlink` follows `PartnerRelation.TableUnlink`, and `PartnerRelation.UnlinkSkipping` is the corrected unlink, which `PartnerRelation.UnlinkPairSkipping` shows removing a relation and its mirror together. The Casso handler runs the gate as written: `CassoWebhook.Webhook` and `CassoWebhook.HandleWebhook` answer a signed non-object body with a server error and leave the store unchanged, and `CassoWebhook.Gate` is the corrected gate. The stored slugs of products, categories and posts are those of the drop-map conversion as written (`VietSlug.NameSlug`); `VietSlug.KeptSlug` is the corrected conversion. The operations check phones with the class as written: `CrmLead.CheckPhoneNumbers` and `ContactForm.CheckConstraints` use `Validators.PhoneAcceptedAsWritten`. `Validators.AcceptedAgreeWithoutPipe` shows that the two classes agree on every phone without a pipe.
