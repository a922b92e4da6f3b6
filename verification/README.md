# Verification of the document management SDK

A Dafny model of the synchronous document management SDK and proofs about it. The SDK stores
each document in two places that share no transaction, a metadata row and an object, and keeps
a third table of upload operations for idempotent retries. What makes it hard is that any call
can fail at any moment and that many callers run at once; most of the theorems here are about
every run of such a system.

`dafny verify dfyconfig.toml` checks the whole project.

## How it is modelled

* **Step systems** (`ClaimProtocol`, `Lifecycle`, `Allocation`). One step is one database
  transaction or one object-store call of one process. A call may answer, raise without effect,
  or raise after taking effect, and a process may vanish between two calls. `Exec` is one step,
  `Run` a sequence of steps of any number of processes, and a theorem about `Run` speaks of every
  interleaving. In `ClaimProtocol` the select of a record and the guarded update that reclaims it
  are separate steps, so exclusion rests on the compare-and-swap alone.
  A run of `Lifecycle` is *permitted* (`Lifecycle.Permitted`) if document ids hold no slash, an upload
  overlaps no other operation on its own id, and a save that raises has rolled back. Deletions,
  recoveries and purges of one id may overlap each other, and different ids interleave freely. Module
  `Counterexamples` shows these hypotheses to be exact: whichever is waived, or narrowed by one kind of
  operation that an upload may not overlap, an explicit run from agreeing stores that keeps all the
  others ends with stores that disagree (`AgreementIsExact`). Module `KeyedUploads` joins the two
  systems: of uploads under idempotency keys the claim protocol itself provides the hypothesis on
  overlaps, if different keys have different documents.
* **Services over stores that change in place** (`Stores`, `Streams`, `Upload`, `Documents`,
  `Coordinator`, `Reset`). Classes with the source's fields and loops. Which call raises is chosen
  freely; a ghost field `raised` remembers that one did, so that contracts can say both what may be
  left after a failure and that without a failure the outcome is determined. `ClaimStepsMeetClaim`,
  `UploadIsARun`, `StreamUploadIsARun`, `DeletionIsARun` and `RecoveryIsARun` tie them to the step
  systems: whatever an upload, an upload from a stream, a deletion or a recovery did to the two stores,
  failing or not, is a permitted run of one process working for that call, and a batch or a plan is
  such runs one after the other (`BatchIsARun`), so the theorems on runs hold of the services.
* **Codecs and names** (`Base64Url`, `Json`, `Cursor`, `Fingerprint`, `Namespaces`, `Like`). A
  Python string in the cursor is a sequence of code points (`Text.Text`), lone surrogates included;
  elsewhere strings are sequences of Unicode scalar values. The JSON reader follows the grammar of
  RFC 8259 as `json.loads` does and is not the inverse of the printer; what it takes for a number, a
  blank and an escape is proved against those rules (`JsonReader`), and the printers are held against it.
* **Meanings** (`FileNames`, `UploadMeaning`, `ListingMeaning`, `FingerprintText`, and the lemmas named
  `...Means` and `...Exactly`). The operations are proved against specification functions; these
  lemmas say what those come to in the fields of requests, rows and objects, with names and
  constants written out, so that they do not rest on the functions' own definitions.
* **Pagination** (`Pagination`, `PaginationLoops`, `PaginationTheorems`). Request `k` of an iteration finds the table
  `tables(k)`, an arbitrary table each time. Listings are ordered by any strict total order on ids
  (the database's collation). The loops are proved for any codec that reads back what it writes;
  `PaginationTheorems` shows that the SDK's cursors are one and says which rows have none.

SHA-256, the date-time printer and parser, lower-casing of a checksum, the letters a `LIKE`
compares as equal, and the current time are parameters. Of the hash of partition ids only the shape of
its hex digest is used and, where two digests meet, that the two ids in play do not collide: a
fixed-length digest cannot be injective on all strings, and assuming it would prove anything.

## What was found

Each of these is a theorem with a concrete run or an exact condition, not an opinion.

* Not every page size lists everything. A row whose cursor text is over 3072 bytes, such as one with an
  id of 255 characters outside the basic plane, has no cursor; a page that is not the last and ends in
  such a row raises (`LongIdRaises`). On a table that does not change an iteration finishes if and only
  if no page but the last ends so, and otherwise it raises after the pages before
  (`PageRaisesExactly`, `UnchangedTableIteration`).
* Two overlapping uploads of one id (`OverlappingUploadsDisagree`): the rollback of the loser removes
  the winner's object, because both use one storage key. So does a save that raises after it
  committed (`LateSaveFailureDisagrees`). On every permitted run the stores agree (`StoresAlwaysAgree`).
* An upload may also not overlap a deletion, a purge, a completion or a mark-failed of its id that
  began on an earlier row of that id (`DeletionOverlapDisagrees`, `PurgeOverlapDisagrees`,
  `CompletionOverlapDisagrees`, `MarkFailedOverlapDisagrees`): a completion that inspected the old row
  marks the newly uploaded one DELETED while its object is there, and a mark-failed puts the old row
  back in place of the new one.
* A retry can be answered with another upload's document. Two retries read one FAILED record, the first
  wins the guarded update, and the second, which changes no row, goes on with the record as it read it:
  `claim` says `claimed=False`, only PENDING is refused, and the row under the record's id is returned as
  the caller's own (`LostRaceShowsOtherDocument`, with one payload and no collision). The row may be
  foreign, because an attempt that meets a taken id marks its record FAILED. A database that locks
  in `with_for_update` excludes the race; SQLite ignores it. The exact guard is that the record read
  is not FAILED (`GuardIsExact`); every other answer describes the request
  (`ReplayDescribesTheRequest`, `DecidedOn`).
* Idempotency keys that share an explicit document id do not exclude each other
  (`SharedDocumentDisagrees`); with one document per key the stores agree whatever overlaps
  (`KeyedUploadsAgree`).
* The inspector's chain of branches also calls DELETED with its object present consistent
  (`ChainExactUnless`); no permitted run reaches such a state, so its verdict is exact where it is used
  (`InspectorIsExact`).
* An orphan purge reaches the objects of ids that continue its own id by a slash (`PurgeNamespace` is
  the exact condition, `SlashedIdPurgeDisagrees` a run).
* A cursor round trip is exact if and only if neither id holds a high surrogate directly followed by
  a low one (`RoundTripExactly`): two escapes of a pair are read back as one character.
* There is no takeover of a PENDING operation whose owner vanished (`AbandonedForever`), and a key
  whose success mark was lost after the row was saved never succeeds afterwards (`LostMarkPoisons`,
  `PoisonedForever`), because every retry meets the duplicate check.
* A batch dry run of orphan purges never exports a plan item, because a batch supplies no storage key
  (`PlanHoldsTheEligible`).

## Model

| member | source | states |
|---|---|---|
| `ClaimProtocol.StepKeeps` | dms/sdk/upload.py:368-408 | every step of every client, raising or not, keeps the protocol invariant: owners hold a PENDING record under their own id, no two owners share a key, a SUCCEEDED record has its row |
| `ClaimProtocol.RunKeeps` | dms/sdk/upload.py:337-408 | so does every run of any number of clients with failures and crashes |
| `ClaimProtocol.ReclaimedRecordKeeps` | dms/infrastructure/metadata/operations.py:95-106 | when the guarded update wins, no live client owned the key |
| `ClaimTheorems.StepMovesStates` | dms/infrastructure/metadata/operations.py:147-157 | a record only moves PENDING to SUCCEEDED, PENDING to FAILED or FAILED to PENDING and keeps fingerprint and id |
| `ClaimTheorems.RecordsAreForever` | dms/infrastructure/metadata/operations.py:55-115 | over every run a record keeps its fingerprint and document id, and SUCCEEDED is final |
| `ClaimTheorems.AtMostOneOwner` | dms/infrastructure/metadata/operations.py:78-106 | at most one live owner per key between `claimed=True` and its mark, even with select and update apart |
| `ClaimTheorems.OneDocumentPerKey` | dms/sdk/upload.py:374-400 | all results for one key name one document, and at most one says `created` |
| `ClaimTheorems.SucceededHasItsRow` | dms/sdk/upload.py:388-398 | a SUCCEEDED record has a row with its id and partition, described by a request its fingerprint was built from |
| `ClaimTheorems.DecidedOn` | dms/sdk/upload.py:374-387 | every result was decided on a record read as SUCCEEDED, or as FAILED without creating the document |
| `ClaimTheorems.ReplayDescribesTheRequest` | dms/sdk/upload.py:379-387 | a result decided on a SUCCEEDED record, or whose key has succeeded by the end of the run, describes the caller's own request, unless fingerprints collide; one decided on a record read as FAILED need not |
| `ReplayGuard.LostRaceShowsOtherDocument` | dms/infrastructure/metadata/operations.py:94-115 | the run in which it does not: the loser of the guarded update gets the foreign row under the record's id as its success, for every fingerprint function and with a single payload |
| `ReplayGuard.GuardIsExact` | dms/sdk/upload.py:374-387 | a record read in a given state makes every answer of every run describe its request if and only if that state is not FAILED; the code refuses PENDING alone |
| `ClaimTheorems.ResultsOnlyGrow` | dms/sdk/upload.py:383-400 | what was returned stays returned, so the statements about one run hold across its prefixes |
| `ClaimTheorems.OnlyOwnersSucceed` | dms/sdk/upload.py:388-397 | nobody but an owner marking success makes a record SUCCEEDED |
| `ClaimTheorems.AbandonedForever` | dms/infrastructure/metadata/operations.py:90-115 | a PENDING record without an owner stays so in every continuation |
| `ClaimTheorems.LostMarkPoisons` | dms/sdk/upload.py:394-408 | a failed success mark leaves an unfinished record whose id already has a row |
| `ClaimTheorems.PoisonedForever` | dms/sdk/upload.py:141-147 | such a record never succeeds in any continuation |
| `ClaimTheorems.ClaimStepsMeetClaim` | dms/infrastructure/metadata/operations.py:55-115 | the three separate steps, undisturbed, have the effect and answer of one claim |
| `LifecycleProof.StepKeeps` | dms/sdk/upload.py:133-224 | every permitted step of an upload, deletion, recovery or purge keeps the two-store invariant |
| `LifecycleProof.UploadKeyIsPrivate` | dms/sdk/upload.py:526-539 | the key an upload writes or rolls back belongs to no row and to no other process's snapshot |
| `LifecycleProof.PurgeKeyIsPrivate` | dms/sdk/reconciliation.py:166-192 | the key a purge removes belongs to no row, even if the row appeared after the inspection |
| `LifecycleTheorems.StoresAlwaysAgree` | dms/sdk/upload.py:140-224 | on every permitted run an AVAILABLE row has its object of `file_size` bytes at its key and a DELETED row has none |
| `LifecycleTheorems.NeverRevived` | dms/sdk/documents.py:466-489 | over every permitted run a row that stays keeps created_at, key, partition and size, and never returns to AVAILABLE |
| `LifecycleTheorems.InspectorIsExact` | dms/sdk/reconciliation.py:55-107 | on every reachable state `consistent` means exactly: readable with its object, or deleted without |
| `Inspection.ChainExactUnless` | dms/sdk/reconciliation.py:89-98 | on an arbitrary state the chain is exact if and only if the row is not DELETED with its object present |
| `Inspection.InspectionMeans` | dms/sdk/reconciliation.py:55-107 | which issue is named for which row and object, in both directions, and that status, presence and key are those of the row |
| `LifecycleTheorems.CompletionAcceptsExactly` | dms/sdk/reconciliation.py:204-215 | completion reaches its write if and only if the row is DELETING and the object absent |
| `LifecycleTheorems.RecoveryFinishesDeletion` | dms/sdk/documents.py:412-451 | a deletion that crashed after removing the object and was then completed leaves the stores an undisturbed one leaves, up to timestamps |
| `Counterexamples.AgreementIsExact` | dms/sdk/upload.py:140-224 | rows and objects agree on all runs from agreeing stores if and only if no hypothesis is waived, where a waiver is one kind of overlap with an upload, a late save or slashes in ids |
| `Counterexamples.EveryHypothesisIsNeeded` | dms/sdk/upload.py:140-224 | for each waiver an agreeing start and a run that keeps all the other hypotheses and ends in disagreement |
| `Counterexamples.OverlappingUploadsDisagree` | dms/sdk/upload.py:186-197 | with only uploads overlapping an upload, both put, one saves and the other rolls back: an AVAILABLE row without object |
| `Counterexamples.LateSaveFailureDisagrees` | dms/sdk/upload.py:176-197 | with nothing overlapping, a save that raises after committing is rolled back: an AVAILABLE row without object |
| `Counterexamples.SlashedIdPurgeDisagrees` | dms/sdk/reconciliation.py:171-192 | with nothing overlapping, a purge of an id removes the object of an id that continues it by a slash |
| `Counterexamples.CollidingPartitionsDisagree` | dms/sdk/contracts.py:55-64 | on a permitted run, two partition ids of one digest let a purge under one remove the object of the same id's row under the other |
| `Counterexamples.CompletionOverlapDisagrees` | dms/sdk/reconciliation.py:204-230 | with only completions overlapping an upload: a completion marks the newly uploaded row DELETED with its object there |
| `Counterexamples.DeletionOverlapDisagrees` | dms/sdk/documents.py:412-427 | with only deletions overlapping an upload: a deletion removes the newly uploaded object and its row stays AVAILABLE |
| `Counterexamples.PurgeOverlapDisagrees` | dms/sdk/reconciliation.py:166-192 | with only purges overlapping an upload: a purge that saw no row removes the uploaded object |
| `Counterexamples.MarkFailedOverlapDisagrees` | dms/sdk/reconciliation.py:231-240 | with only mark-faileds overlapping an upload: the deleted row is back in place of the uploaded one and ends DELETED with an object at its key |
| `KeyedUploads.RunJoins` | dms/sdk/upload.py:388-400 | every run of the claim protocol is, step by step, a permitted run of the two stores in which the uploading owners are the processes |
| `KeyedUploads.WinnerIsAlone` | dms/infrastructure/metadata/operations.py:78-106 | the winner of a claim finds no upload of its document under way, so its upload may start |
| `KeyedUploads.KeyedUploadsAgree` | dms/sdk/upload.py:388-408 | keyed uploads with one document per key leave every row with its object, whatever overlaps, retries, raises or crashes, but a save that raises after committing |
| `KeyedUploads.SucceededIsStored` | dms/sdk/upload.py:388-398 | so a SUCCEEDED key has its document AVAILABLE in both stores, with an object of the size a request with its fingerprint declared |
| `KeyedUploads.SharedDocumentDisagrees` | dms/sdk/upload.py:368-398 | two keys naming one document: the explicit run is two overlapping uploads and leaves a row without object |
| `Namespaces.StorageKeyInjective` | dms/sdk/upload.py:526-539 | storage keys are equal if and only if partition, id and sanitised file name are, whatever slashes the ids hold |
| `Namespaces.LastSlashSplits` | dms/sdk/upload.py:535-539 | a key splits at its last slash in one way only |
| `Namespaces.StoragePrefixesDisjoint` | dms/sdk/contracts.py:55-64 | no storage prefix begins another partition's |
| `Namespaces.ScopePrefixesDisjoint` | dms/sdk/contracts.py:67-73 | no operation-scope prefix begins another partition's |
| `Namespaces.PurgeNamespace` | dms/sdk/reconciliation.py:171-175 | a key lies in the purge namespace of an id if and only if it is that document's or its id continues it by a slash |
| `Namespaces.SlashFreePurgeIsPrivate` | dms/sdk/reconciliation.py:171-175 | with slash-free ids a purge reaches its own document only |
| `FileNames.StripExactly` | dms/sdk/upload.py:538-539 | stripping takes the white-space ends and nothing else, however a text is split into white space, a trimmed middle and white space |
| `FileNames.StripSplits` | dms/sdk/upload.py:538-539 | and every text splits so |
| `FileNames.FirstDotsMerge` | dms/sdk/upload.py:538-539 | the first two dots in a row become one, and what follows is treated alike |
| `FileNames.PlainNameKept` | dms/sdk/upload.py:538-539 | a name without two dots in a row, slashes, backslashes and white-space ends is kept |
| `FileNames.NameWithoutDots` | dms/sdk/upload.py:538-539 | without two dots in a row, the sanitised name is the trimmed one with a dash exactly where there was a slash or backslash |
| `FileNames.NameWithDots` | dms/sdk/upload.py:538-539 | with them, the first two of the trimmed name become one, and so on to the right |
| `FileNames.BlankIsWhite` | dms/sdk/upload.py:348-358 | a text is blank if and only if it consists of the 29 white-space characters |
| `Base64Url.RoundTrip` | dms/sdk/documents.py:46-128 | decoding after stripping and restoring padding gives back every byte string, and the bare text has ceil(4n/3) characters |
| `Base64Url.BitsKept` | dms/sdk/documents.py:70-71 | the values of the symbols, most significant first, are the bits of the bytes, with zeros added at the end |
| `Base64Url.AlphabetSpelled` | dms/sdk/documents.py:70-71 | the alphabet: capitals, small letters, digits, `-` and `_` |
| `Base64Url.DecodesExactly` | dms/sdk/documents.py:82-84 | the strict decoder accepts symbols only, with exactly the padding that their number allows |
| `Json.BodyReads` | dms/sdk/documents.py:46-73 | the JSON reader reads back what the printer escaped, surrogate pairs joined |
| `Json.PrintStringPrefix` | dms/sdk/upload.py:66-79 | a printed string followed by anything determines both the string and the rest |
| `Json.JoinIdentity` | dms/sdk/documents.py:46-73 | joining changes a text if and only if it holds a neighbouring surrogate pair |
| `JsonReader.NumberSound` | dms/sdk/documents.py:85 | what is read as a number is one, without a leading zero, and has its value; only integers are read as integers |
| `JsonReader.NumberComplete` | dms/sdk/documents.py:85 | every number is read, to its end |
| `JsonReader.StringsStrict` | dms/sdk/documents.py:85 | a raw control character or a missing quote is no string |
| `CursorProof.RefusedForLength` | dms/sdk/documents.py:61-73 | encoding is refused for length if and only if the payload exceeds 3072 bytes |
| `CursorProof.DecodeInvertsEncode` | dms/sdk/documents.py:76-128 | whatever was encoded decodes to the same state with surrogate pairs joined |
| `CursorProof.RoundTripExactly` | dms/sdk/documents.py:46-128 | the round trip is exact if and only if neither id holds a neighbouring surrogate pair |
| `CursorProof.EncodeInjective` | dms/sdk/documents.py:46-73 | different positions have different cursors |
| `CursorProof.SurrogatePairLost` | dms/sdk/documents.py:46-128 | the failing case, with its decoded id |
| `Cursor.Decode` | dms/sdk/documents.py:76-128 | decoding any text gives a valid state or the one cursor error |
| `CursorProof.DecodesExactly` | dms/sdk/documents.py:76-128 | a text is accepted if and only if it is 1 to 4096 characters of Base64 of a JSON object that passes the checks |
| `CursorProof.AcceptedExactly` | dms/sdk/documents.py:87-125 | the checks: exactly the keys v, t, i, s, p, k, q; version 4; text, status, page size, kind and time as they must be; and what is read is what they hold |
| `Pagination.ListingIsRight` | dms/infrastructure/metadata/sqlalchemy.py:163-180 | the listing is strictly descending in (created_at, document_id) and holds exactly the selected rows |
| `Pagination.DescendingIsUnique` | dms/infrastructure/metadata/sqlalchemy.py:166-177 | a descending list is determined by its elements |
| `PaginationLoops.PageRaises` | dms/sdk/documents.py:251-307 | every error of a page request and when: the validation errors in order, then a bad cursor, then exactly a last row without a cursor on a page that is not the last |
| `PaginationLoops.PageIsRight` | dms/sdk/documents.py:280-307 | a page is the next `limit` rows past the cursor, `has_more` says whether there are others, and the next cursor stands for its last row |
| `ListingMeaning.PageMeans` | dms/infrastructure/metadata/sqlalchemy.py:147-180 | a page holds rows of the partition only, not DELETING or DELETED, of the status asked for, newest first by (created_at, id), and misses none beyond the cursor's place before its last item |
| `ListingMeaning.RequestRefused` | dms/sdk/documents.py:260-279 | a hidden status, a limit outside 1 to 1000, a cursor that does not decode, and one of another status, page size or partition are refused, in that order |
| `ListingMeaning.IterationMeans` | dms/sdk/implementation.py:376-396 | the same of all items of an iteration over changing tables, finished or not |
| `ListingMeaning.UnchangedIterationMeans` | dms/sdk/implementation.py:384-396 | a finished iteration of an unchanging table lists exactly the rows of the partition and status that are neither DELETING nor DELETED |
| `ListingMeaning.WantedListedOnce` | dms/sdk/implementation.py:384-396 | a row that every request finds so, under one created_at, is listed exactly once |
| `PaginationLoops.IterDocuments` | dms/sdk/implementation.py:376-396 | over tables that change between requests the items are strictly descending and each was eligible in the table of its request; it raises only for an invalid query or where a page that is not the last ends in a row without a cursor, and it has then listed everything before |
| `PaginationTheorems.CursorsAreFaithful` | dms/sdk/documents.py:46-128 | the SDK's cursor of a row, if there is one, is read back as the row's position |
| `PaginationTheorems.TablesAreSane` | dms/sdk/documents.py:46-128 | so the SDK's cursors meet what the iteration asks of a codec, on any tables |
| `PaginationTheorems.PageRaisesExactly` | dms/sdk/documents.py:293-302 | with a valid query and a matching cursor a page raises if and only if it is not the last and its last row's id is blank or its cursor text over 3072 bytes |
| `PaginationTheorems.ListedExactlyOnce` | dms/sdk/implementation.py:384-396 | a document eligible throughout a finished iteration was listed exactly once |
| `ListingRuns.AvailableListedOnce` | dms/sdk/implementation.py:376-396 | while uploads, deletions, recoveries and purges run, a listing of AVAILABLE documents lists exactly once, with its identity, every document that was there from the start and is AVAILABLE at the last request |
| `ListingRuns.AvailableThroughout` | dms/sdk/implementation.py:384-396 | such a document was AVAILABLE, under one created_at, to every request |
| `ListingRuns.FoundThroughout` | dms/sdk/implementation.py:384-396 | a document that stays is found under one created_at by every request, whatever the status asked for |
| `PaginationTheorems.UnchangedTableIteration` | dms/sdk/implementation.py:384-396 | on an unchanging table, with enough requests allowed, an iteration lists exactly the filtered listing in max(1, ceil(n/p)) requests if and only if no page but the last ends in a row without a cursor; otherwise it raises after the pages before |
| `PaginationTheorems.UnchangedTableListed` | dms/sdk/implementation.py:384-396 | a finished iteration of an unchanging table listed exactly the filtered listing |
| `PaginationTheorems.UnchangedTableRequests` | dms/sdk/implementation.py:384-396 | and it took max(1, ceil(n/p)) requests |
| `PaginationTheorems.UnchangedTableEnds` | dms/sdk/implementation.py:384-396 | while it goes on, fewer than n rows have been listed: the iteration ends |
| `PaginationTheorems.LongIdRaises` | dms/sdk/documents.py:293-302 | a table with a legal id of 255 characters that cannot be iterated by pages of one |
| `PaginationLoops.IterRecoveryCandidates` | dms/sdk/implementation.py:474-496 | paging by offset lists exactly the filtered listing in floor(n/p) + 1 requests |
| `ListingMeaning.CandidatesMean` | dms/infrastructure/metadata/sqlalchemy.py:122-145 | the candidates are exactly the partition's rows of the status asked for, newest first |
| `ListingMeaning.CandidatePageMeans` | dms/sdk/implementation.py:661-672 | one request for candidates: refused for status, offset or limit, in that order, or the rows from the offset on |
| `Fingerprint.TextDeterminesUpload` | dms/sdk/upload.py:56-79 | the sorted-key JSON text determines every field |
| `FingerprintText.TextReads` | dms/sdk/upload.py:56-79 | reading the text as JSON gives one object with the keys in alphabetical order and the values of the upload |
| `FingerprintText.EscapesMean` | dms/sdk/upload.py:72-77 | how each character is printed: short escapes, printable ASCII as it is, the rest as lower-case `\u` escapes or the two of a surrogate pair |
| `Fingerprint.FingerprintsAgree` | dms/sdk/upload.py:56-79 | fingerprints are equal if and only if the uploads agree on all six fields, given no digest collision on the two texts |
| `Fingerprint.NoDigestCollisionSuffices` | dms/sdk/upload.py:56-79 | a digest without collisions among a run's texts gives the claim protocol its collision freedom |
| `Like.PrefixPattern` | dms/infrastructure/metadata/operations.py:135-145 | a wildcard-free prefix with `%` matches exactly the texts that begin with it, letter case as the database compares |
| `Like.ScopePatternExact` | dms/infrastructure/metadata/operations.py:135-145 | a partition's clearing pattern matches a scope if and only if it was built for that partition |
| `Stores.ObjectStore.ClearPrefix` | dms/infrastructure/storage/minio.py:147-172 | counts exactly what it removed, touches nothing outside the prefix, and leaves under it exactly the removals that failed |
| `Stores.ObjectStore.PutObjectStream` | dms/infrastructure/storage/minio.py:55-70 | the object holds exactly the bytes read through the reader |
| `Stores.MetadataStore.AllocateDocumentId` | dms/infrastructure/metadata/sqlalchemy.py:41-50 | terminates, and returns the first sequence value after the last whose text is not an id |
| `Stores.MetadataStore.SaveMetadata` | dms/infrastructure/metadata/sqlalchemy.py:83-89 | inserts if and only if the id is free, and a save that raises changed nothing |
| `Stores.MetadataStore.MarkDeleted` | dms/infrastructure/metadata/sqlalchemy.py:182-195 | writes the row back as DELETED, or changes nothing |
| `Stores.MetadataStore.ClearRows` | dms/infrastructure/metadata/sqlalchemy.py:211-229 | removes exactly the partition's rows, or none, and counts them |
| `Stores.RemoveAll` | dms/infrastructure/metadata/operations.py:135-145 | deleting one by one leaves the rest, and before = after + count |
| `Stores.UploadOperationStore.Claim` | dms/infrastructure/metadata/operations.py:55-115 | insert, or re-read and reclaim: the effect and answer of `ClaimAlone`, or a raise |
| `Stores.UploadOperationStore.ClearAll` | dms/infrastructure/metadata/operations.py:135-145 | removes exactly the records whose scope is LIKE the pattern, or none |
| `Allocation.NeverTwice` | dms/infrastructure/metadata/sqlalchemy.py:41-50 | no id is handed out twice and each was free when checked, over every interleaving of callers, rollbacks and writers |
| `Reset.Sdk.ResetData` | dms/sdk/implementation.py:957-1022 | for each store before = after + reported count; a store is reported failed if and only if it raised itself, so later stores are attempted after a failure; the failed ones are reported in the order of clearing; ready means that none failed |
| `Reset.OneMoreStore` | dms/sdk/implementation.py:991-1014 | clearing one more store keeps what is known of the others |
| `Reset.OtherObjectsUntouched` | dms/sdk/implementation.py:967-973 | objects of every other partition survive a partition reset |
| `Reset.OtherRowsUntouched` | dms/sdk/implementation.py:974-979 | so do its rows, which go on agreeing with their objects whatever failed; on success no row of the partition is left |
| `Reset.OperationsOfPartition` | dms/sdk/implementation.py:981-990 | a record is removed if and only if its scope was built for the partition |
| `Reset.ReadyMeansEmpty` | dms/sdk/implementation.py:1010-1015 | a reset that returns ready leaves nothing of the partition in any store |
| `Reset.FullResetMeansEmpty` | dms/infrastructure/storage/minio.py:140-142 | a full reset that returns ready leaves no document's object, no row and no record |
| `Reset.OutsideDocumentsUntouched` | dms/infrastructure/storage/minio.py:140-142 | and whatever failed, objects outside `documents/` are untouched |
| `Streams.HashingReader.Read` | dms/sdk/upload.py:82-97 | after any sequence of reads of any length, count and hash are those of the bytes delivered |
| `Streams.ContentStream.Close` | dms/sdk/types.py:211-221 | the callback runs, or without one the stream is closed, exactly once, however often and however badly `close` is called |
| `Streams.CopyDocumentTo` | dms/sdk/implementation.py:768-805 | the sink gets exactly the chunks in order, the source is closed once on every exit, and each error occurs if and only if its cause does: a close failure only if nothing failed before, success exactly if nothing raised and size and checksum agree |
| `Upload.UploadService.UploadDocument` | dms/sdk/upload.py:133-224 | each outcome with what the two stores then hold; without a store failure it succeeds if and only if the id is free |
| `Upload.UploadService.UploadDocumentStream` | dms/sdk/upload.py:238-300 | the same from a stream; a row is saved only if the bytes read are as many as declared |
| `Upload.UploadService.IdempotentUpload` | dms/sdk/upload.py:337-408 | the claim decides, the owner uploads under the claimed id and marks, everybody else leaves the stores alone; without a store failure an owner fails only if its id has a row |
| `UploadMeaning.SecondRequestRefused` | dms/sdk/upload.py:359-373 | after one request made the record of a key, an undisturbed request under it is refused as a different upload if and only if they differ in content digest, filename, content type, size or document id |
| `UploadMeaning.SecondRequestAnswered` | dms/sdk/upload.py:374-387 | after a success it is answered with the first row, or refused, and those fields decide which |
| `UploadMeaning.SharedRecord` | dms/sdk/upload.py:358-373 | two requests share a record if and only if partition, scope and key agree |
| `UploadMeaning.UsableKeys` | dms/sdk/upload.py:344-358 | a key is usable if and only if key and scope are given and not white space |
| `UploadMeaning.UploadSaves` | dms/sdk/upload.py:133-224 | the row of a successful upload, field by field, and the object at the key written out |
| `UploadMeaning.StreamUploadSaves` | dms/sdk/upload.py:238-300 | the same from a stream, with the bytes read and their digest |
| `UploadMeaning.PlainNameStored` | dms/sdk/upload.py:526-539 | a plain file name is the last part of the object's key as it is |
| `Upload.UploadKeepsAgreement` | dms/sdk/upload.py:140-224 | all or nothing: row and object agree, or the stores are unchanged, or there is no row and no object; all other rows keep their objects |
| `Upload.PutThenSave` | dms/sdk/upload.py:176-211 | rolling back a put leaves no object at the key, also if there was one before |
| `UploadRuns.UploadIsARun` | dms/sdk/upload.py:133-224 | whatever an upload did and wherever it stopped, one process uploading this document has a permitted run that does the same |
| `UploadRuns.StreamUploadIsARun` | dms/sdk/upload.py:238-300 | so does one from a stream, whatever bytes its put left under the key, with the size check and its clean-up |
| `UploadRuns.RollbackIsARun` | dms/sdk/upload.py:186-197 | a failed save and its rollback are such a run, and leave no object at the key |
| `Upload.ReplayIsQuiet` | dms/sdk/upload.py:374-387 | the same request after a success gets the stored row and changes nothing |
| `Upload.OtherUploadRefused` | dms/infrastructure/metadata/operations.py:90-94 | a request is refused as a different upload only if the key's record has another fingerprint, and then it is refused, or a store raised, and nothing changes |
| `Upload.UndisturbedIsDetermined` | dms/sdk/upload.py:368-408 | without a store failure claim and rows determine the answer and what the stores hold |
| `Upload.KeyKeepsItsId` | dms/sdk/upload.py:388-393 | every attempt under a key uploads under the record's id and touches no other row |
| `Documents.DocumentService.Delete` | dms/sdk/documents.py:403-464 | each outcome of a deletion with what the stores then hold |
| `Documents.DocumentService.SetStatus` | dms/sdk/documents.py:466-489 | writes the row with the new status and timestamps, or changes nothing |
| `Documents.DeletionKeepsAgreement` | dms/sdk/documents.py:412-451 | however a deletion ends, all rows and objects agree and no other row changed |
| `Documents.DeletionMeans` | dms/sdk/documents.py:403-464 | each ending in the fields of the row, timestamps included; without a store failure the document is deleted if and only if it is there |
| `DeletionRuns.DeletionIsARun` | dms/sdk/documents.py:403-464 | whatever a deletion did and wherever it stopped, one process deleting this document has a permitted run that does the same |
| `Runs.RunKeepsAgreement` | dms/sdk/documents.py:403-464 | hence whatever a service call does to agreeing stores leaves them agreeing |
| `Coordinator.ReconciliationCoordinator.InspectDocument` | dms/sdk/reconciliation.py:55-107 | the report is the inspector's function of row and object, or a store raised |
| `Coordinator.ReconciliationCoordinator.Apply` | dms/sdk/reconciliation.py:153-246 | effect and answer are those of `ApplyAlone`, or a store raised and nothing or all of it happened; a dry run changes nothing |
| `Coordinator.ReconciliationCoordinator.ReconcileItem` | dms/sdk/reconciliation.py:324-355 | an item never raises; its error and a second inspection become its result; with a store error the item was left alone or done, without one it was done |
| `Coordinator.ReconciliationCoordinator.ReconcileDocuments` | dms/sdk/reconciliation.py:281-322 | whichever calls raise, each candidate in order is left alone or done, an item is applied exactly if it has no error, and the counters add up; without a raise the stores and results are `BatchAlone`'s; a dry run changes no store |
| `Coordinator.ReconciliationCoordinator.ExecutePlan` | dms/sdk/reconciliation.py:248-279 | refuses another partition's plan, and otherwise, whichever calls raise, leaves each item in order alone or done, with an error exactly where it is not applied |
| `Reconciliation.RecoveryKeepsAgreement` | dms/sdk/reconciliation.py:166-246 | no recovery breaks the agreement of rows and objects, and no purge removes an object any row refers to |
| `Reconciliation.RefusedExactly` | dms/sdk/reconciliation.py:166-234 | when each action is refused, and with which error |
| `Reconciliation.RecoveryMeans` | dms/sdk/reconciliation.py:153-246 | what an accepted action leaves in the fields of the row, and what the caller is told |
| `Reconciliation.InterruptedDeletionCompletes` | dms/sdk/reconciliation.py:204-230 | after a deletion that failed at its last write, completion is accepted and leaves what the deletion would have left |
| `Reconciliation.RecoveryIsARun` | dms/sdk/reconciliation.py:153-246 | whatever a recovery did, nothing because a store raised or all of it, one recovering process has a permitted run that does the same |
| `Batches.CountersAddUp` | dms/sdk/types.py:492-510 | whichever calls raised, the counters add up, none is negative, a dry run applies nothing and another batch skips nothing |
| `Batches.CountersMean` | dms/sdk/types.py:492-510 | what the counters count |
| `Batches.EndedShape` | dms/sdk/reconciliation.py:303-355 | whichever calls raised, results keep length and order, a dry run changed nothing, and an item of a real run counts as applied if and only if it has no error |
| `Batches.AloneEnds` | dms/sdk/reconciliation.py:303-322 | the undisturbed batch is one of the endings |
| `Batches.BatchKeepsAgreement` | dms/sdk/reconciliation.py:248-322 | a whole batch or plan keeps the agreement of rows and objects, whichever of its calls raised |
| `Batches.BatchIsARun` | dms/sdk/reconciliation.py:248-322 | and did what a permitted run of one recovering process after the other does |
| `Batches.PlanHoldsTheEligible` | dms/sdk/types.py:512-534 | exporting a dry run succeeds with one item per eligible candidate; a purge exports none, for want of a key |
| `Batches.PlanRefusedExactly` | dms/sdk/types.py:512-534 | a real run is refused as a plan, and mixed actions; a plan is for the batch's partition, status and action and holds the results without an error |
| `Batches.PlanExecutes` | dms/sdk/reconciliation.py:256-279 | executing the exported plan on the same stores applies every item without an error: each eligible candidate is gone, DELETED or FAILED as the action says, all other documents and all objects are unchanged |
| `Text.DecimalInjective` | dms/infrastructure/metadata/sqlalchemy.py:41-50 | different sequence values have different texts |

## Left out

* The asynchronous twins (`async_*` modules, `Async*` classes): the same steps; each `await` is already a step boundary here.
* SQLAlchemy sessions, schema creation, the MinIO client, bucket creation, factories: replaced by the store classes and their contracts.
* Access policies, operation observers, audit events, logging, JSON schemas, `to_dict` dumps and error codes: wiring with single-branch facts.
* Validation of upload fields, MIME guessing and file opening: input checks; where a proof needs their result (non-empty ids, positive chunk size) it is a precondition.
* The insides of SHA-256, of date-time printing and parsing and of `str.lower`: parameters, with only the assumptions named in each theorem.
* Serving content (`get_content`, `get_content_stream`) and `iter_chunks_closing`: reads that change nothing; closing and chunking are proved in `CopyDocumentTo`.
* Eventual success of retries, and recovery iteration while the consumer changes statuses: the code gives neither.
* A reset or hard delete while claims run: `clear_all` can make the claim loop read for ever, so the claim theorems are about runs without them.
* Objects and storage keys inside the claim protocol: there the put and the clean-up are steps without content; `Lifecycle` carries the objects, and `KeyedUploads` joins the two for uploads that start on empty stores with no other writers.
* Concurrency inside the service classes: they run one call at a time; the interleavings are in the step systems.
* Upload.UploadService.UploadDocumentStream: what a raising stream put leaves under its key is not narrowed down, because the MinIO client decides it; the step system allows any bytes or none there.
* Forged cursors whose timestamp has another offset than UTC on a database with naive timestamps, and Python's recursion limit on deeply nested JSON in a forged cursor.
* Fingerprints of names with lone surrogates: strings there are sequences of Unicode scalar values.
* `extra_metadata`, `created_by` and stored object attributes: no property here depends on them.
* Stores.ObjectStore.ClearPrefix: a removal that fails is taken to have no effect, as the reported count requires.
