# BIC directory flattening

This project models the record-flattening step of `downloadAndParseFile` in
`app.js`. The program downloads the Bank of Russia's ED807 BIC directory and
parses it with xml2js. This step then projects the parsed tree onto an ordered
list of `{bic, name, corrAccount}` records.

The model works on values. `ParsedTree` describes the part of the xml2js tree
that the step reads:
- a document with an optional `ED807` root;
- the root's `BICDirectoryEntry` value, which is either an array or not;
- per entry, its `$` attributes, its `ParticipantInfo` and its `Accounts`;
- a child field is absent (or falsy), a bare value, or an array.

`Flatten` evaluates the step the way the JavaScript does:
- the `BIC` attribute is read eagerly, once per entry;
- the first `ParticipantInfo`'s `NameP` is read inside the per-account `map`;
- `account.$.Account` is read after the name.

Every property read on `undefined` becomes a labelled `Failure`. The
surrounding `catch` turns any failure into an `undefined` result
(`DownloadAndParseResult` returns `None`). A missing attribute is not an
error: it appears in the record as `None`, which stands for `undefined`.

`FlattenProperties` proves the following lemmas about the step:
- concatenation of entry lists;
- the position and content of every record;
- where each record comes from;
- no deduplication;
- skipping of entries without accounts;
- normalisation of a bare `Accounts` value;
- the failure cases.

A document whose root is not `ED807` makes `parsedResult.ED807` undefined.
Reading `.BICDirectoryEntry` from it then throws, so the result is `undefined`,
not an empty list (`MissingRootFails`). Only a present `ED807` whose
`BICDirectoryEntry` is not an array yields `[]` (`NotAnArrayYieldsEmpty`).

## Model

| member | source | states |
|---|---|---|
| Flatten.AccountList | app.js:77-79 | a bare `Accounts` value becomes a one-element list, an array is kept as it is (same elements, same order), an absent value gives no accounts; the length is the normalised account count |
| Flatten.ParticipantName | app.js:83 | `nameP[0].$.NameP` succeeds exactly when `ParticipantInfo` is a non-empty array whose first element has attributes, and then yields that element's `NameP` |
| Flatten.AccountRecords | app.js:81-85 | the per-account `map` succeeds iff there are no accounts, or the name is readable and every account has attributes; on success one record per account, in account order, carrying the given BIC, the name and that account's `Account`; a name failure is reported before an account failure |
| Flatten.EntryRecords | app.js:69-85 | one entry succeeds iff it has attributes and either holds no accounts or has a readable name and addressable accounts; on success it yields as many records as its normalised account count, the `j`-th built from the `j`-th account; on failure it yields the first error in evaluation order |
| Flatten.EntriesRecords | app.js:68-86 | the `flatMap` succeeds iff every entry is well formed; the record count is the sum of normalised account counts; on failure the error is that of the first ill-formed entry |
| Flatten.FlattenDocument | app.js:66-86 | a missing `ED807` root fails with `MissingRoot`; otherwise it succeeds iff the document is well formed; the record count is 0 for a non-array entry value, else the sum of account counts; for an entry array the outcome is exactly that of the per-entry `flatMap` (`EntriesRecords`), so its record order and content carry over |
| Flatten.DownloadAndParseResult | app.js:88-93 | the function resolves to `undefined` exactly when the document is not well formed, otherwise to exactly the records the flattening produced, of the expected length |
| FlattenProperties.EntriesRecordsAppend | app.js:68 | flattening `a + b` gives the records of `a` followed by those of `b`; an error in `a` is thrown before `b` is examined |
| FlattenProperties.RecordAt | app.js:68-85 | record number `TotalAccounts(es[..i]) + j` is entry `i`'s BIC, its first participant's `NameP` and its `j`-th account: entry order, then account order |
| FlattenProperties.RecordOrigin | app.js:68-86 | every output record comes from one account of one entry: record `k` lies in the block of some entry `i` and equals that entry's record for its account at offset `k` minus the entries before it |
| FlattenProperties.NoDeduplication | app.js:81 | a repeated entry list yields its records twice; nothing is deduplicated |
| FlattenProperties.AbsentAccountsSkipped | app.js:73-75 | an entry that has attributes and whose `Accounts` is absent or falsy yields no records and no error, whatever its `ParticipantInfo` |
| FlattenProperties.ZeroAccountsNeverFail | app.js:73-85 | an entry with attributes and zero accounts (absent or an empty array) yields no records and no error |
| FlattenProperties.SingleAccountNormalised | app.js:77-81 | a bare `Accounts` value gives the same outcome as a one-element array, and exactly one record on success |
| FlattenProperties.EmptyEntryContributesNothing | app.js:68-75 | removing an entry that has attributes and no accounts leaves the whole result, records or error, unchanged |
| FlattenProperties.MissingNameFailsOnlyWithAccounts | app.js:70-93 | an entry without a readable `ParticipantInfo` fails the whole document when it has an account; an entry that has attributes and no accounts yields no records and no error |
| FlattenProperties.NotAnArrayYieldsEmpty | app.js:66-86 | a present `ED807` whose `BICDirectoryEntry` is not an array yields the empty list |
| FlattenProperties.MissingRootFails | app.js:66-93 | a document without `ED807` fails with `MissingRoot`, and the function resolves to `undefined` rather than `[]` |

## Left out

- The HTTP download with node-fetch, the non-2xx check and streaming to `new-file.zip` (app.js:12-30) are left out. They are network and filesystem I/O.
- The ZIP extraction with adm-zip, the choice of entry 0 and the rename to `new-file.xml` (app.js:33-46) are left out. They are a foreign library and filesystem calls.
- CP1251 decoding with iconv-lite (app.js:49-50) is left out. It is a library call on a file read.
- XML parsing with xml2js (app.js:53-65) is left out. Its output is the given `Document` value, and a parse error is not modelled.
- Console logging and the top-level promise chain (app.js:30, 46, 92, 96-99) are left out. Only the "any error becomes `undefined`" outcome is modelled.
- The text of the thrown TypeError is not modelled. `Error` only labels which property read threw.
- Falsy values are not told apart. JavaScript distinguishes a missing value, `null` and an empty string; for the `!accounts` test and for `nameP[0]`, all of them behave as `Absent`.
