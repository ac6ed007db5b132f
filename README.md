# EcoLoop record store, modelled in Dafny

The EcoLoop web interface keeps its state in a single JSON document.
The document holds two ordered sequences:

- `plastics`: recycling submissions `{id, company, quantity, recycled}`;
- `transactions`: payments `{id, amount, status, date}`.

Every request that changes the store reads the whole document, changes it in memory and writes it back; the report route only reads it.
This project models that record store:

- the `readDb` fallback, which returns the empty document when the file cannot be read or parsed;
- the two append operations of `POST /api/recycle` and `POST /api/transaction`, which number the new record by the current length plus one and push it onto the end;
- the per-company report of `GET /report/:company`, which filters the plastics by company and projects each to `{quantity, recycled}`.

Files:

- `records.dfy` (module `Records`): the record and document datatypes and the `Load` fallback. It also holds `WithPlastic` and `WithTransaction`, the append operations as functions on documents, and the invariant "the record at index i has id i + 1". `Replay` applies a history of requests in order, each reading what the one before it wrote, with lemmas about what such a history does.
- `reports.dfy` (module `Reports`): the filter (`Owned`) and the projection (`Report`), with lemmas stating that the report is an order-preserving filter and projection.
- `store.dfy` (module `Store`): the class `Db`, the loaded document whose two `seq` fields the handlers push onto in place. It also holds `ReadDb` and the three route handlers. Each handler is one atomic step that returns what it renders or the document it hands to `writeDb`.

Parameters stand in for what the program gets from outside:

- `stored: Option<Document>` is the outcome of reading and parsing `./db.json`; `None` stands for any failure.
- `charge: Option<string>` is the status the payment provider answered; `None` means the charge call raised.
- `date` is the timestamp string that the handler takes from the clock.

## Model

| member | source | states |
|---|---|---|
| Records.Load | server.js:14-21 | the parsed document when reading and parsing succeed, otherwise the document with both sequences empty |
| Records.LoadFallbackWellNumbered | server.js:18-21 | the fallback `{plastics: [], transactions: []}` satisfies the numbering invariant |
| Records.WithPlastic | server.js:66-68 | plastics grows by one at the end, earlier plastics unchanged, the new record is `{id: old length + 1, company, quantity, recycled: false}`, transactions unchanged |
| Records.WithTransaction | server.js:89-97 | transactions grows by one at the end, earlier transactions unchanged, the new record has id old length + 1 and the given amount, status and date verbatim, plastics unchanged |
| Records.WithPlasticPreservesNumbering | server.js:67 | "record at index i has id i + 1" holds after a plastic append exactly when it held before |
| Records.WithTransactionPreservesNumbering | server.js:91 | the same for a transaction append |
| Records.NumberedIdsIncrease | server.js:67-91 | in a well-numbered document ids strictly increase along each sequence, so none repeats (plastic ids assigned at line 67, transaction ids at line 91) |
| Records.ReplayAppendOnly | server.js:66-97 | after any history of requests, each reading what the previous one wrote, the old sequences are prefixes of the new ones, and each grew by the number of requests of its kind (plastic pushes at lines 66-68, transaction pushes at lines 89-97) |
| Records.ReplayPreservesNumbering | server.js:67-91 | any history of requests keeps the numbering invariant of both sequences (ids assigned at lines 67 and 91) |
| Records.FromEmptyIdsAreSequential | server.js:20 | from the fallback document, n plastic and m transaction appends yield ids 1..n and 1..m in order |
| Records.FailedReadLosesRecords | server.js:18-20 | when a read fails, the next submission writes a document holding only its own record with id 1, so at least two stored plastics or any stored transaction are lost |
| Records.ThreeRecyclesFromEmpty | server.js:67-68 | three submissions to the empty document give ids 1, 2, 3 with their companies and quantities, unrecycled |
| Reports.Owned | server.js:54 | the filter result is no longer than its input, holds only plastics of the company, and contains a plastic exactly when the input has it for that company |
| Reports.Report | server.js:54-58 | one row per filtered plastic, in the same order, each its `{quantity, recycled}`; at most as many rows as plastics |
| Reports.OwnedIsSubsequence | server.js:54 | the filter keeps the insertion order: its result is a subsequence of the plastics |
| Reports.OwnedMultiplicity | server.js:54 | every plastic of the company occurs in the result as often as it is stored, and no other plastic occurs |
| Reports.OwnedConcat | server.js:54 | filtering distributes over concatenation |
| Reports.ReportConcat | server.js:54-58 | the report of a concatenation is the concatenation of the reports |
| Reports.ReportAppend | server.js:54-58 | appending a plastic adds its row to its own company's report and changes no other report |
| Reports.ReportMembers | server.js:54-58 | a row is in the report iff some stored plastic of that company projects to it |
| Reports.ReportAfterRecycle | server.js:67-68 | after a submission for company c with quantity q the report of c ends with `(q, false)`; the report of any other company is unchanged |
| Reports.ReportAfterPay | server.js:97 | a transaction append changes no report |
| Reports.AcmeReport | server.js:54-58 | the report of "Acme" over an "Acme" and an "Other" plastic is exactly the "Acme" row |
| Store.Db.constructor | server.js:17 | the object holds exactly the given document |
| Store.Db.AppendPlastic | server.js:67-68 | returns the new record with id old length + 1 and `recycled = false`; plastics becomes old plastics plus that record; transactions unchanged; the numbering invariant is kept |
| Store.Db.AppendTransaction | server.js:90-97 | returns the new record with id old length + 1 and the given amount, status and date; transactions becomes old transactions plus that record; plastics unchanged; the numbering invariant is kept |
| Store.ReadDb | server.js:14-21 | a fresh object holding what `Load` gives: the parsed document, or both sequences empty when reading or parsing failed |
| Store.ReportRoute | server.js:51-58 | the rendered report is `Report` of the loaded plastics, whose meaning `ReportMembers`, `OwnedIsSubsequence` and `ReportAppend` state |
| Store.RecycleRoute | server.js:64-69 | the document written is the loaded one with the new plastic appended, and the company's report then ends with `(quantity, false)` |
| Store.TransactionRoute | server.js:79-101 | when the charge raised nothing is written; otherwise the document written is the loaded one with the new transaction appended |

## Left out

- Express setup, static files, body parsing, views, rendering, redirects, the 500 response body and `app.listen`: web plumbing with no store logic.
- Reading and writing `./db.json` and `JSON.parse`/`JSON.stringify`: library calls. The outcome of a load enters as an optional document, and a save is the document a handler returns. No serialise/parse round trip is modelled.
- A parsed file of another shape. Without a `plastics` array the program fails on `db.plastics.length`. Without a `transactions` array `POST /api/transaction` fails on `db.transactions.length` after the charge has gone through, answers 500 and records nothing, so the customer is charged without a record. With extra top-level keys or extra record fields it keeps going and writes them back unchanged, and a plastic without `recycled` shows `undefined` in the report. The two-field `Document` and the typed `Plastic` and `Transaction` records cannot express either case: the model assumes a parsed document has exactly the two sequences of well-formed records.
- Records.ReplayAppendOnly: append-only holds only along a history in which every write succeeds and every later read returns it. A read that fails between requests falls back to the empty document, and the next write replaces the stored records with that document plus one record, as `FailedReadLosesRecords` shows. The program gives no such guarantee, so append-only is not a property of the file on disk.
- Logging of read and write errors, and the swallowing of a failed write: side effects only. A failed write loses the update silently, which the model does not show.
- The payment call and `amount * 100`: a foreign API over floating-point numbers. Its result enters only as the status string, or as `None` when the call raised.
- `new Date().toISOString()`: it reads the clock, so the date is a string parameter.
- Interleaving of concurrent requests across the awaits of `readDb` and `writeDb`, and the lost update it allows: each handler is modelled as one atomic step, and `Replay` runs requests strictly one after another.
- `quantity` and `amount` are untyped request fields that are never validated or computed on in the store. They are modelled as integers and stored verbatim; `company` is modelled as a string.
