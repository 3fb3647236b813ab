# EpsilonDB: a verified model

EpsilonDB is a multi-master key/value store written in C. Each shard is a SQLite file; replicated
writes carry a timestamp and an origin; queries over documents run as SQL on shadow tables; nodes
talk HTTP. This project models the parts of it in which something can go wrong between functions,
and proves what they promise. `dafny verify dfyconfig.toml` checks all of it.

| file | what it models |
|---|---|
| `Replica.dfy` | replicated puts and deletes, tombstones and cleanup passes; when replicas converge |
| `StmtCache.dfy` | the eight-slot cache of prepared statements |
| `JsonPath.dfy`, `Filters.dfy` | JSON filters compiled to SQL text by one loop and bound by another |
| `HandleTable.dfy` | the table of open shard handles under any interleaving of threads |
| `EqlScan.dfy`, `EqlRewrite.dfy` | the scanner that turns dotted references into table aliases, in a fixed buffer |
| `EqlTokens.dfy` | that scanner against SQL's own tokens: literals, quoted names, comments |
| `EqlWriteBack.dfy` | row events of a statement, replayed from the shadow table onto the store |
| `HttpHead.dfy`, `Http.dfy` | request heads; framing of requests from a stream cut up by recv |
| `Bytes.dfy`, `Streaming.dfy`, `Sha256.dfy`, `Md5.dfy` | streaming hashes against FIPS 180-4 and RFC 1321 |
| `Sha256Constants.dfy`, `Sha256Example.dfy`, `Md5Example.dfy`, `ChaCha20Example.dfy` | where the constants come from, and the standards' own examples worked through |
| `ChaCha20.dfy`, `Crypto.dfy` | ChaCha20 (RFC 8439), HMAC (RFC 2104), HKDF (RFC 5869), encrypt-then-MAC |
| `Lua.dfy` | documents on their way into a Lua handler and back |
| `Restore.dfy` | lock, wipe, chunked push and unlock, against other traffic at any moment |
| `Analytics.dfy` | counters of each node, added up over the cluster |
| `Strings.dfy` | strcmp's order and what snprintf leaves in a buffer |

## How the model is built

Objects that the program updates in place are classes whose methods follow the C functions branch by
branch. Each method is proved against a function on values, and the theorems are about that
function: over all inputs, all sequences of operations, or all interleavings. Whatever comes from
outside (the clock, SQLite's answers, the chunks that recv returns, the answers of request handlers,
the size of a file) is a parameter. Buffers that cut a name short are modelled as cutting it
(`Strings.Clip`). Handles and threads are modelled as a state machine whose steps lie between lock
operations; the links of a bucket chain are a sequence.

Some promises hold only under a condition. In each case the condition is exact (the lemma says "if and
only if") or there is a concrete counterexample:

- An equal (timestamp, origin) is overwritten by the later arrival. Replicas agree if and only if the changes
  that tie for the greatest version look alike: `Replica.OrderDoesNotMatterExactly`,
  `Replica.ReplicasAgreeExactly`; two local puts of one second do not: `Replica.EqualVersionsDiverge`.
- Convergence also needs origins under 64 characters (the stored origin is read through a 64-byte
  buffer), delays of at most 7195 seconds (the grace period less the five seconds by which a tombstone
  is backdated) and puts that do not expire too long before their timestamp:
  `Replica.ConvergesExactlyWithin`.
- A statement text of 192 characters or more is stored cut short, and another text can then be given
  its statement: `StmtCache.ClippedTextFindsTheOther`.
- The buffer for a JSON path is allocated for keys without quotes and backslashes; `JsonPath.PathFits`
  says exactly which keys fit, `JsonPath.QuoteDoesNotFit` names one that does not.
- The scanner looks for a second `[` to end a bracketed name and lets a backslash escape a quote; SQL does
  neither. It cuts a text into SQL's tokens if and only if no quote of a literal is escaped (or only quotes
  follow) and no bracketed name ends before the text does: `EqlTokens.ScansAsSqlExactly`. Otherwise a piece
  begins inside a literal or name, or runs on behind the end of one: `EqlTokens.MisreadingShowsExactly`.
  No reference is replaced inside a literal, name or comment where no quote is escaped, no second bracket
  follows and no dotted name is cut between two backquotes, which are one backquote of a name to SQL but not
  to `read_ident`: `EqlTokens.NoMatchInsideLiterals`. In harmless text without cut names a registered
  reference is replaced by its own alias if and only if it does not start inside another and no table before its
  own has its dotted name: `EqlTokens.RegisteredReferenceIsReplacedExactly`. The examples at the end of the
  file show the failures.
- That the condition on cut names is needed is shown for scans from any token (`EqlTokens.SplitNamesMisleadExactly`),
  and for the scan from the start unless a reference before the cut name fits the same table
  (`EqlTokens.SplitNameMisleads`). Without that clause it is false: `EqlTokens.OverlapHidesSplit` has a text in which
  overlapping references hide the cut name from every scan that starts at the front.
- Aliases belong to one reference where no table registered before has the same dotted name
  (`EqlRewrite.RegisteredReferenceGetsItsAliasExactly`), so always for names without dots; with dots
  `EqlRewrite.DotsMislead` shows two that share one. The comment in `rewrite_sql` has a partition-wide alias apply only
  where the text stops after two names; the code does not look, and the model follows the code:
  `EqlRewrite.PrefixOfUnregisteredIsReplaced`.
- Write-back needs ids that are unique over merged keyspaces: `EqlWriteBack.MaterializedMirrors`. And the names that a
  statement touches must fit the buffers of the row map, 512 bytes for an id and 128 for a keyspace:
  `EqlWriteBack.WritesBackExactly`.
- A head may end in CRLFCRLF or LFLF, and the first is preferred wherever it stands in the buffer, so
  what the head is can depend on how recv cut the stream: `Http.SplitDoesNotMatterExactly`. A request can stand in
  front of any other bytes if and only if its head ends in CRLFCRLF: `Http.FramedInFrontExactly`.
- An empty JSON object comes back from Lua as an empty array, and a document with fields nested 32 deep does not
  come back: `Lua.NormalIsSameExactly`, `Lua.UnchangedEntityComesBack`. It is not refused either, as the branch
  below the call at `src/lua/epsilon_lua.c:1061` intends: the conversion raises a Lua error there outside any
  protected call, and the error ends in Lua's panic handler.
- An empty file in a backup is never sent, and counts as restored: `Restore.FullyRestoredExactly`,
  `Restore.PushShard`.
- The length that `edb_aead_open` returns is an int: `Crypto.ReturnedLengthIsExactBelow`.

## Model

| member | source | states |
|---|---|---|
| Replica.Shard.StoredVersion | src/engine/shard.c:327-344 | the version a replicated change is compared with: the row's timestamp, and its origin cut to 63 characters |
| Replica.Shard.DoPut | src/engine/shard.c:298-325 | the row stored by a put, a negative ttl as none |
| Replica.Shard.ReplicaPut | src/engine/shard.c:360-378 | a replicated put is skipped exactly when the stored (timestamp, origin) is greater; a tie goes to the later arrival |
| Replica.Shard.ReplicaDelete | src/engine/shard.c:380-415 | the same for a delete, which leaves a tombstone with its ttl five seconds before its timestamp |
| Replica.SkipsExactly | src/engine/shard.c:360-415 | of two changes of one second the one with the smaller origin is skipped, by the first difference of the two or where one ends, and the greater or equal one overwrites; otherwise an earlier timestamp is skipped |
| Strings.FirstDifferenceDecides | src/engine/shard.c:360-415 | strcmp: at the first difference the smaller character decides |
| Strings.LessExactly | src/engine/shard.c:360-415 | one string is less than another if and only if the first difference is smaller in it or it ends first |
| Replica.CleanedAfter | src/engine/shard.c:739-757 | a tombstone outlives its delete by 7195 seconds, a put its expiry by 7200 |
| Replica.Shard.GetTs | src/engine/shard.c:417-455 | a reader sees a row that has not expired and holds a non-empty document |
| Replica.Shard.PutLocal | src/engine/shard.c:346-358 | read-your-write: at every later time, and for all other rows nothing changes |
| Replica.Shard.DeleteLocal | src/engine/shard.c:491-510 | the local delete hides the row from every later read, keeps its origin and value, touches no other row |
| Replica.Shard.Cleanup | src/engine/shard.c:739-786 | cleanup drops exactly the rows that expired more than two hours ago; the vacuum counter counts them and is reset only by a vacuum that succeeds |
| Replica.LatestIsUnique | src/engine/shard.c:360-415 | where the changes that tie for the greatest version store one row, there is one greatest row |
| Replica.DistinctVersionsAgree | src/engine/shard.c:360-415 | where no two contents carry one version, no tie can matter |
| Replica.ApplyKeepsLatest | src/engine/shard.c:327-415 | each change, whatever came before it, leaves the row of a change that none surpasses, or the initial row if that is newer than all of them |
| Replica.ApplyAllLeavesLatest | src/engine/shard.c:360-415 | the same after any sequence of changes |
| Replica.LastTopWins | src/engine/shard.c:360-415 | a change that none surpasses wins when it comes last |
| Replica.OrderDoesNotMatter | src/engine/shard.c:360-415 | where ties agree, any order and any repetition of the same changes leaves the same table |
| Replica.OrderDoesNotMatterExactly | src/engine/shard.c:360-415 | any two orders of a set of changes leave the same table if and only if, row by row, the changes that tie for the greatest version store the same row |
| Replica.CleanupOnlyRemovesExpired | src/engine/shard.c:739-757 | over every run with cleanup passes at any moments, a replica holds the row it would hold without cleanup, or none because that row expired long ago |
| Replica.ReplicasAgree | src/engine/shard.c:360-429 | two replicas that received the same changes in time, of which those that tie look alike, answer every read alike, and with a greatest version |
| Replica.ReplicasAgreeExactly | src/engine/shard.c:360-429 | within the bounds, and for any run: all replicas that receive its changes, in any order and with any cleanups, answer every read as it does if and only if the changes that tie for the greatest version look alike |
| Replica.EqualVersionsDiverge | src/engine/shard.c:360-378 | counterexample: two puts of one second and one origin, as local puts are, leave different documents in either order |
| Replica.LateWriteRevives | src/engine/shard.c:380-415 | counterexample: an older put that arrives after the newer tombstone was cleaned away is visible again |
| Replica.LongOriginsTie | src/engine/shard.c:327-344 | counterexample: origins that differ only beyond the 64-byte buffer overwrite each other in either order |
| Replica.ConvergesExactlyWithin | src/engine/shard.c:298-429 | replicas with the same changes, whose ties look alike, converge under all cleanup schedules if and only if changes arrive within 7195 seconds (and within 7200 plus what a put lives), and origins are shorter than 64 characters |
| StmtCache.Shard.Get | src/engine/shard.c:25-49 | the loop over the slots, the eviction of the oldest of eight and the new slot are the cache step StmtFor |
| StmtCache.Shard.Invalidate | src/engine/manager.c:494-527 | when the fresh connection opened and passed its check, every cached statement is finalised and the cache emptied before the connection is replaced; otherwise nothing changes |
| StmtCache.EvictKeepsValid | src/engine/shard.c:34-39 | eviction finalises exactly the statement it drops and makes room |
| StmtCache.OldestGivesWay | src/engine/shard.c:25-49 | first in, first out: of eight entries the oldest gives way, the others move up and the new one is last |
| StmtCache.PrepareKeepsValid | src/engine/shard.c:40-48 | a new entry is distinct from all others and live |
| StmtCache.LookupKeepsValid | src/engine/shard.c:25-49 | for texts under 192 characters a lookup returns a live statement compiled from that very text on the current connection, or none when SQLite refuses it |
| StmtCache.CacheStaysValid | src/engine/shard.c:25-49 | over every run of lookups, refusals and reconnections the unfinalised statements are exactly the cache's at most eight distinct entries |
| StmtCache.ClippedTextFindsTheOther | src/engine/shard.c:45-48 | after a text was cached, the text cut to the buffer finds a statement compiled from itself if and only if nothing was cut |
| JsonPath.FilterKeyValid | src/engine/shard.c:77-98 | a key is valid if and only if it is non-empty, at most 512 characters long, free of control characters, and none of its dot-separated segments is empty |
| JsonPath.PathForKey | src/engine/shard.c:139-171 | the loop writes one quoted label for each segment, quotes and backslashes escaped |
| JsonPath.JoinUndoesSplit | src/engine/shard.c:139-171 | splitting at dots loses nothing |
| JsonPath.SegmentsAreNonEmpty | src/engine/shard.c:77-98 | the character rule of the validator says exactly that no segment is empty |
| JsonPath.SegmentsHoldNoDot | src/engine/shard.c:77-98 | segments hold no dot |
| JsonPath.PlainPaths | src/engine/shard.c:139-171 | the path of one and of two plain segments, in characters |
| JsonPath.PathRoundTrip | src/engine/shard.c:139-171 | a reader of JSON paths gets back exactly the key's segments, whatever characters they hold |
| JsonPath.LabelsLength | src/engine/shard.c:139-171 | the exact length of the path |
| JsonPath.SegmentCount | src/engine/shard.c:77-98 | at most half the key plus one segments, reached when each is one character |
| JsonPath.PathFits | src/engine/shard.c:143-147 | the path and its terminator fit the 2*length+4 bytes allocated if and only if twice the segments plus the escaped characters are at most length+1 |
| JsonPath.QuoteDoesNotFit | src/engine/shard.c:143-147 | a valid key of quotes whose path does not fit the allocation |
| Filters.FiltersValid | src/engine/shard.c:122-137 | filters are accepted if and only if they parse one by one |
| Filters.FilterValid | src/engine/shard.c:100-120 | one filter is accepted if and only if its operator is known, its key valid and, for an ordering, its value a number |
| Filters.FragmentFor | src/engine/shard.c:535-556 | the SQL fragment of an operator, always below the 256 bytes counted for it |
| Filters.BindingsFor | src/engine/shard.c:592-612 | the values bound for one filter, in the order the second loop binds them |
| Filters.WriteText | src/engine/shard.c:528-564 | the first loop: its capacity guard never fires, whatever the filters |
| Filters.Bind | src/engine/shard.c:576-615 | the second loop binds the clock and then each filter's values by position |
| Filters.PrepareLiveQuery | src/engine/shard.c:512-617 | only invalid or too many filters are refused, and the text with its terminator fits its allocation |
| Filters.FragmentsAreShort | src/engine/shard.c:535-563 | no fragment reaches 256 bytes, no ordering fragment its own 160-byte buffer |
| Filters.OneBindingPerPlaceholder | src/engine/shard.c:512-617 | the two loops agree: as many values are bound as the text has question marks |
| Filters.TextSpellsPreds | src/engine/shard.c:528-564 | the text is the spelling of the filters' predicates joined by AND |
| Filters.PlaceholdersAreHoles | src/engine/shard.c:535-556 | each predicate's question marks are its holes, in order |
| Filters.TypeAndValueIdentify | src/engine/shard.c:535-541 | comparing JSON type and extracted value decides equality of JSON values |
| Filters.FilterMeans | src/engine/shard.c:530-615 | the bound predicates of one filter are true of a row exactly when the filter holds of its document, under three-valued logic |
| Filters.ConjunctionMeans | src/engine/shard.c:512-617 | the same for all filters at once, each predicate taking its own slice of the bindings |
| Filters.QueryReadsBack | src/engine/shard.c:512-617 | a reader of the lexemes that are sent, ordering included, finds exactly the filters' predicates |
| Filters.LexReadsBack | src/engine/shard.c:528-564 | any lexemes are read back from their characters: a text has no other division into them |
| Filters.TextReadsBack | src/engine/shard.c:512-617 | from the characters that are sent exactly the filters' predicates are read: the text has no other reading |
| Filters.LengthIsSpelled | src/engine/shard.c:557-564 | the length compared with the capacity is the number of characters |
| Filters.CompiledQuerySelects | src/engine/shard.c:512-617 | the characters of the compiled text as they are read, with the bindings made for it, are true of a row if and only if the row is live and every filter holds of it |
| Filters.AcceptedExactly | src/engine/shard.c:100-120 | six operator names and no other are accepted, the four orderings for numbers only |
| Filters.OrderingsMean | src/engine/shard.c:512-617 | by operator name: the query sent for gt, gte, lt or lte selects a live row if and only if its member is a number greater, at least, less or at most the value |
| Filters.EqualitiesMean | src/engine/shard.c:512-617 | and for eq or ne if and only if its member is equal or unequal: scalars by type and value, arrays and objects by kind and text |
| Filters.OrderingIsSpelled | src/engine/shard.c:173-181 | the characters of an ordering, with the sign of its name between the member and the value |
| Filters.EqIsSpelled | src/engine/shard.c:535-537 | the characters of eq |
| Filters.NeIsSpelled | src/engine/shard.c:538-541 | the characters of ne |
| Filters.HeadIsSpelled | src/engine/shard.c:528-529 | the characters before the filters: the SELECT and the liveness test |
| HandleTable.FindIn | src/engine/manager.c:57-68 | the first handle of the chain with the key, or the key is nowhere in it |
| HandleTable.BucketFor | src/engine/manager.c:33-41 | every key falls in one of the buckets |
| HandleTable.AcquireKeeps | src/engine/manager.c:97-108 | looking up a shard keeps the invariant |
| HandleTable.OpenKeeps | src/engine/manager.c:110-121 | opening a file outside the lock keeps it |
| HandleTable.InsertKeeps | src/engine/manager.c:70-95 | inserting keeps it, also when another thread was first and the new handle is given up |
| HandleTable.UseKeeps | src/engine/manager.c:645-655 | locking a referenced handle keeps it |
| HandleTable.ReleaseKeeps | src/engine/manager.c:135-147 | the last release of a retired handle is the one that frees it |
| HandleTable.FreeKeeps | src/engine/shard.c:275-296 | freeing outside all locks keeps it |
| HandleTable.GcKeeps | src/engine/manager.c:376-422 | unlinking and retiring while others still hold the handle keeps it |
| HandleTable.SweepKeeps | src/engine/manager.c:167-195 | the cleanup pass references every linked handle at once |
| HandleTable.InvLockKeeps | src/engine/manager.c:467-529 | invalidate takes the handle's lock before it lets go of the table's |
| HandleTable.PeekKeeps | src/engine/manager.c:547-596 | maintenance reads a handle under both locks |
| HandleTable.LockerHoldsToo | src/engine/manager.c:376-422 | the lock of a retired handle is only ever with a thread that also keeps it alive |
| HandleTable.StepKeeps | src/engine/manager.c:57-596 | every step of every thread keeps the invariant |
| HandleTable.InvIsSafe | src/engine/manager.c:57-147 | the invariant gives exact reference counts, one linked handle per key, no retired handle linked, nothing freed while held or locked, nothing freed twice |
| HandleTable.EveryRunIsSafe | src/engine/manager.c:57-596 | all of that at every point of every interleaving of any number of threads |
| HandleTable.QuietMeansNoLeak | src/engine/manager.c:135-147 | when all threads are idle and hold nothing, each handle is linked or freed, and every retired one is freed |
| HandleTable.NoDeadlock | src/engine/manager.c:57-596 | with two lock levels, while any thread is busy some busy thread can take its next step |
| HandleTable.AcquireGives | src/engine/manager.c:97-108 | acquiring a key in the table gives the thread one more counted reference to its handle and changes nothing else |
| HandleTable.AcquireMisses | src/engine/manager.c:97-108 | a key that is not in the table is opened, and nothing else changes |
| HandleTable.OpenMakes | src/engine/manager.c:110-121 | an opened handle carries the key asked for; a file that does not open ends the attempt |
| HandleTable.InsertGives | src/engine/manager.c:70-95 | after inserting the thread has a reference to the one handle of that key in the table, its own or a faster one, unless memory ran out and there was none |
| HandleTable.GcUnlinks | src/engine/manager.c:376-422 | collecting a key takes its handle, and no other, out of the table, retired and referenced by the thread |
| HandleTable.ReleaseGivesUp | src/engine/manager.c:135-147 | releasing gives up one counted reference; the last one to a retired handle goes on to free it |
| HandleTable.SweepTakes | src/engine/manager.c:167-195 | the cleanup pass takes one reference to each handle in the table and to no other |
| EqlScan.Scanner.ReadUntil | src/eql/epsilon_eql.c:103-142 | a quoted name up to its quote, doubled only for the double quote, cut to the buffer |
| EqlScan.Scanner.ReadIdent | src/eql/epsilon_eql.c:95-154 | an identifier, bare or quoted, as the scanner's grammar has it; the cursor stays when there is none |
| EqlScan.Scanner.SkipSpacesComments | src/eql/epsilon_eql.c:156-178 | stops at the first thing that is neither space nor comment |
| EqlScan.Scanner.SkipQuotedRaw | src/eql/epsilon_eql.c:180-199 | the raw skip looks for the opening character again, also after an opening bracket, and honours a backslash in a literal |
| EqlScan.Scanner.ReadDotIdent | src/eql/epsilon_eql.c:539-551 | a dot and an identifier with anything blank around them |
| EqlScan.Scanner.ReadDotted | src/eql/epsilon_eql.c:534-587 | as many dotted identifiers as asked for, or none |
| EqlScan.BareNameIsRead | src/eql/epsilon_eql.c:144-150 | a name of letters, digits and underscores is read as itself |
| EqlScan.QuotedNameIsRead | src/eql/epsilon_eql.c:95-143 | a name in double quotes, backquotes or brackets is read as what stands between them |
| EqlScan.BlanksAreSkipped | src/eql/epsilon_eql.c:156-161 | the six blanks of isspace are skipped |
| EqlScan.LineCommentIsSkipped | src/eql/epsilon_eql.c:162-168 | so is the rest of a line behind two dashes |
| EqlScan.BlockCommentIsSkipped | src/eql/epsilon_eql.c:169-174 | so is a comment up to the next star-slash |
| EqlScan.ThreeNamesAreRead | src/eql/epsilon_eql.c:534-556 | the text db.part.ks of such names is read as those three |
| EqlRewrite.ShortReference | src/eql/epsilon_eql.c:534-605 | only two one-letter bare names make a reference of three characters, and no reference can start where it ends |
| EqlRewrite.BudgetKept | src/eql/epsilon_eql.c:503-620 | the amortised bound at every loop head: at most twice what was consumed, plus one |
| EqlRewrite.RewriteSql | src/eql/epsilon_eql.c:486-624 | the loop ends, at most 2*length+1 characters are written so that the capacity is never reached, and the text is that of the pieces |
| EqlRewrite.WritePiece | src/eql/epsilon_eql.c:503-532 | each turn of the loop copies or replaces exactly one piece |
| EqlRewrite.WriteWord | src/eql/epsilon_eql.c:534-619 | the turn that may find a reference: three names before two, then the text as it stands |
| EqlRewrite.TryThree | src/eql/epsilon_eql.c:535-568 | three names match the first table with that dotted name |
| EqlRewrite.TryTwo | src/eql/epsilon_eql.c:569-605 | two names match the first partition-wide table with that dotted name |
| EqlRewrite.BoundIsReached | src/eql/epsilon_eql.c:486-502 | with eleven registered references 2*length+1 characters are in fact written for some statement |
| EqlRewrite.RewritingCutsTheStatement | src/eql/epsilon_eql.c:486-624 | the output is the statement cut into consecutive pieces, each copied or replaced by the alias of a table it names |
| EqlRewrite.NoTablesNoChange | src/eql/epsilon_eql.c:486-624 | without tables the rewriting is the identity |
| EqlRewrite.RegisteredTables | src/eql/epsilon_eql.c:370-397 | registration keeps one table per reference whose names fit, each under its own names and the alias of its place |
| EqlRewrite.DistinctAreRegistered | src/eql/epsilon_eql.c:370-397 | up to sixteen different references are all registered, each in its place |
| EqlRewrite.EveryReferenceIsRegistered | src/eql/epsilon_eql.c:370-397 | every reference whose names fit has a table, unless sixteen others have |
| EqlRewrite.AliasNames | src/eql/epsilon_eql.c:394-395 | the aliases are eql_t0 to eql_t15 |
| EqlRewrite.DottedNamesAreUnique | src/eql/epsilon_eql.c:386-392 | for dot-free names a three-part dotted name belongs to one reference only, partition-wide ones included |
| EqlRewrite.RegisteredReferenceGetsItsAliasExactly | src/eql/epsilon_eql.c:534-605 | the turn of the loop that meets the names of a registered three-part reference puts its own alias if and only if no table registered before has the same dotted name, and else the alias of the first that has |
| EqlRewrite.RegisteredReferenceGetsItsAlias | src/eql/epsilon_eql.c:534-605 | for dot-free names that is always so, also beside a partition-wide table with the same first two names |
| EqlRewrite.DotsMislead | src/eql/epsilon_eql.c:386-392 | counterexample: where a name holds a dot, the second of two references with one dotted name is replaced by the alias of the first |
| EqlRewrite.AliasesAreDistinct | src/eql/epsilon_eql.c:394-395 | no two places share an alias |
| EqlRewrite.PrefixOfUnregisteredIsReplaced | src/eql/epsilon_eql.c:569-605 | of three names the first two are replaced if and only if they name a partition-wide table and the three name none, whatever the comment there says |
| EqlTokens.TokenEndsInCode | src/eql/epsilon_eql.c:156-199 | SQL's reading by tokens and its reading by characters agree: a token ends in code, and has none inside it but within a word |
| EqlTokens.LiteralSkippedExactly | src/eql/epsilon_eql.c:180-199 | the scanner finds the end of a literal if and only if no quote in it stands behind an odd run of backslashes, or nothing but quotes follows that one |
| EqlTokens.SkipIsToken | src/eql/epsilon_eql.c:180-199 | a raw skip ends where the literal or name does if and only if no quote of a literal is escaped and a bracketed name, like its skip, runs to the end of the text |
| EqlTokens.ScansAsSqlExactly | src/eql/epsilon_eql.c:486-624 | the loop cuts a text without references into SQL's own tokens if and only if every token of it is harmless in that sense |
| EqlTokens.MisreadingShowsExactly | src/eql/epsilon_eql.c:486-624 | if and only if some token is not harmless, some piece begins inside a literal or name, or one that copies a literal or name runs on behind its end |
| EqlTokens.StaysInCodeExactly | src/eql/epsilon_eql.c:486-624 | helper: in any text only three kinds of piece can end outside code: a literal with an escaped quote, a skipped bracket, a reference cut between two backquotes |
| EqlTokens.InCodeIfNamesAreWhole | src/eql/epsilon_eql.c:486-624 | helper: in quiet text every piece begins in code if and only if no replaced reference ends between two backquotes |
| EqlTokens.NoMatchInsideLiterals | src/eql/epsilon_eql.c:486-624 | for all tables no match begins inside a literal, name or comment as SQL reads it, where no quote of a literal is escaped, no opening bracket follows a bracketed name, and no dotted name is cut between two backquotes |
| EqlTokens.SplitNamesMisleadExactly | src/eql/epsilon_eql.c:95-178 | the condition on dotted names is exact: none is cut if and only if from no token on, for no tables, a piece begins outside code |
| EqlTokens.SplitNameMisleads | src/eql/epsilon_eql.c:486-624 | a cut name makes the scan from the start begin a piece outside code, with the one table that fits it, unless a reference before it fits that table too |
| EqlTokens.OverlapHidesSplit | src/eql/epsilon_eql.c:486-624 | counterexample to more: six names before a cut one, which every scan from the start uses up in threes or pairs, whatever the tables |
| EqlTokens.PlainIsNotSplit | src/eql/epsilon_eql.c:95-122 | where no backquoted name holds two backquotes in a row, no dotted name is cut |
| EqlTokens.TextWithoutIsHarmless | src/eql/epsilon_eql.c:180-199 | text without backslash and opening bracket is harmless throughout |
| EqlTokens.DottedEnds | src/eql/epsilon_eql.c:95-178 | a dotted name ends where one of SQL's tokens does, or between two backquotes |
| EqlTokens.ScanArrives | src/eql/epsilon_eql.c:486-624 | in harmless text the scan has a piece at every token that is not inside a reference found before |
| EqlTokens.RegisteredReferenceIsReplacedExactly | src/eql/epsilon_eql.c:486-624 | in harmless text without cut names, the names of a registered three-part reference that start in code and not within a word are replaced by the alias of its table if and only if they do not start inside a reference found before and no table registered before has the same dotted name |
| EqlTokens.RegisteredReferenceIsReplaced | src/eql/epsilon_eql.c:486-624 | with dot-free names, and conditions on the text and the tables alone, such a reference is replaced by the alias of its own table |
| EqlTokens.SpelledReferenceIsReplaced | src/eql/epsilon_eql.c:486-624 | spelled out: the text db.part.ks of a registered reference is replaced by the alias of its table |
| EqlTokens.BackslashMisleads | src/eql/epsilon_eql.c:180-199 | with a backslash in a literal a reference can be replaced inside it |
| EqlTokens.BracketMisleads | src/eql/epsilon_eql.c:180-199 | with a bracketed name a reference can be replaced inside a literal |
| EqlTokens.BackquoteMisleads | src/eql/epsilon_eql.c:95-122 | with two backquotes in a name a reference can be replaced inside it |
| EqlTokens.BracketSwallows | src/eql/epsilon_eql.c:180-199 | behind a bracketed name a reference can be skipped with all the rest, though every piece begins in code |
| EqlTokens.EscapeSwallows | src/eql/epsilon_eql.c:180-199 | so it can behind a literal that ends with a backslash |
| EqlWriteBack.TrapBuffer.Push | src/eql/epsilon_eql.c:215-239 | no event is lost before 2^20 of them; the next sets the overflow flag for good |
| EqlWriteBack.Replayer.MapTake | src/eql/epsilon_eql.c:273-288 | the latest record of a row is taken and the gap closed, the others stay as they were |
| EqlWriteBack.Replayer.MapAdd | src/eql/epsilon_eql.c:254-271 | a record is added with id and keyspace cut to their buffers |
| EqlWriteBack.Replayer.ProcessEvent | src/eql/epsilon_eql.c:1624-1683 | one event: delete, stale row, rename or write |
| EqlWriteBack.Replayer.ProcessEvents | src/eql/epsilon_eql.c:1606-1692 | the events one after the other |
| EqlWriteBack.Materialize | src/eql/epsilon_eql.c:1276-1293 | each document becomes the next row, in place of an earlier row with its id, and a record |
| EqlWriteBack.TracksKept | src/eql/epsilon_eql.c:1606-1692 | each replayed change keeps the row map up to date, whether names fit their buffers or not |
| EqlWriteBack.DeleteSimulates | src/eql/epsilon_eql.c:1625-1637 | replaying one delete of a row whose names fit keeps store and shadow table equal |
| EqlWriteBack.InsertSimulates | src/eql/epsilon_eql.c:1639-1683 | the same for one insert of an id that fits |
| EqlWriteBack.UpdateSimulates | src/eql/epsilon_eql.c:1639-1683 | the same for one update whose old and new names fit, a rename onto an id that another row has just left included |
| EqlWriteBack.WriteBackSimulates | src/eql/epsilon_eql.c:1606-1692 | for every one-class statement SQLite lets through that touches only names that fit (under 512 characters for an id, 128 for a keyspace), whatever other rows are called, replaying its events makes the store exactly the final shadow table, each record in its own keyspace, with nothing failed and nothing else touched |
| EqlWriteBack.WritesBackExactly | src/eql/epsilon_eql.c:1606-1692 | that condition is exact: a statement is written back rightly for all documents it may write if and only if the old and new names it touches fit |
| EqlWriteBack.StatementReports | src/eql/epsilon_eql.c:1606-1692 | a statement reports exactly the ids of the rows it touched, as cut, in the order in which it touched them (a renamed row under its old id and then its new one) and no failure |
| EqlWriteBack.MaterializedMirrors | src/eql/epsilon_eql.c:1251-1293 | the shadow table shows the store faithfully if and only if no id occurs in two of the merged keyspaces |
| EqlWriteBack.MaterializedTracks | src/eql/epsilon_eql.c:1291-1292 | after materialising, the row map knows every row under its names as cut |
| EqlWriteBack.StatementRoundTrip | src/eql/epsilon_eql.c:1212-1692 | from fetching to write-back, where ids are unique: the store ends up as the statement left its shadow table, whatever documents it wrote, if and only if the names it touched fit |
| HttpHead.TrimText | src/httpd/epsilon_http.c:240-249 | blanks go from the front, blanks and CRs from the end, and no more |
| HttpHead.TrimIs | src/httpd/epsilon_http.c:240-249 | what trimming means, without the loops |
| HttpHead.ReadHeaders | src/httpd/epsilon_http.c:332-349 | the line loop reads names and values up to the blank line and refuses a 33rd |
| HttpHead.ReadBodyLength | src/httpd/epsilon_http.c:351-386 | a body length is taken only from a single all-digit Content-Length up to 16 MiB, without Transfer-Encoding |
| HttpHead.ParseHead | src/httpd/epsilon_http.c:305-386 | a head is read field by field or refused |
| HttpHead.WordsReadBack | src/httpd/epsilon_http.c:316-319 | method and target within their limits are read back |
| HttpHead.LinesReadBack | src/httpd/epsilon_http.c:332-349 | up to 32 written header lines are read back as the same list |
| HttpHead.HeadReadsBack | src/httpd/epsilon_http.c:305-386 | a head written with clean fields is read back field by field |
| HttpHead.LongPartsAreCut | src/httpd/epsilon_http.c:320-330 | the path is what stands before the first question mark of the target and the query what stands behind it, cut to 1023 and 2047 characters |
| HttpHead.PathAndQueryReadBack | src/httpd/epsilon_http.c:320-330 | shorter parts come back whole |
| HttpHead.PathReadsBack | src/httpd/epsilon_http.c:320-330 | without a question mark all of the target is the path and the query is empty |
| HttpHead.SameNameExactly | src/httpd/epsilon_http.c:105-113 | names are compared without regard to case and in nothing else loosely |
| HttpHead.TransferEncodingIsRefused | src/httpd/epsilon_http.c:351-386 | no body length, and so no request, with Transfer-Encoding |
| HttpHead.SecondLengthIsRefused | src/httpd/epsilon_http.c:351-386 | nor with a second Content-Length, even of the same value |
| HttpHead.BadLengthIsRefused | src/httpd/epsilon_http.c:351-386 | nor with one that is empty, not all digits or above 16 MiB |
| HttpHead.MoreThan32AreRefused | src/httpd/epsilon_http.c:332-349 | more than 32 header lines are refused |
| HttpHead.RefusedHead | src/httpd/epsilon_http.c:305-386 | helper: a head without a body length is no head |
| Http.BufFind | src/httpd/epsilon_http.c:254-267 | the first occurrence, or none |
| Http.Conn.Receive | src/httpd/epsilon_http.c:209-238 | one chunk joins the buffer; no byte is lost or repeated |
| Http.Conn.FindHead | src/httpd/epsilon_http.c:278-283 | CRLFCRLF anywhere comes before LFLF |
| Http.Conn.AwaitHead | src/httpd/epsilon_http.c:276-303 | reads until a head shows, the peer closes or 32 KiB are passed |
| Http.Conn.AwaitBody | src/httpd/epsilon_http.c:403-408 | succeeds if and only if the stream holds the whole body |
| Http.Conn.ParseRequest | src/httpd/epsilon_http.c:269-420 | the request is that of the head found, its bytes and only they are used up; a failure uses none |
| Http.Conn.Compact | src/httpd/epsilon_http.c:609-615 | compaction drops used bytes only |
| Http.Conn.Serve | src/httpd/epsilon_http.c:546-616 | for all chunkings the requests and the rest are consecutive bytes of the stream; when heads are unambiguous they are those of the stream seen whole |
| Http.CarvedLeavesSuffix | src/httpd/epsilon_http.c:609-615 | what is left is a tail of what came in, shorter by at least one byte per request |
| Http.AcceptedIsHead | src/httpd/epsilon_http.c:276-303 | on an unambiguous stream the head found, size limit included, does not depend on the chunks |
| Http.SplitDoesNotMatterExactly | src/httpd/epsilon_http.c:276-303 | the head is the same for all chunkings if and only if, within 32 KiB, no LFLF ends before the first CRLFCRLF does |
| Http.WholeIsFramed | src/httpd/epsilon_http.c:269-420 | any single request whose head ends in CRLFCRLF is framed as itself in front of anything else |
| Http.FramedInFrontExactly | src/httpd/epsilon_http.c:276-303 | and only such: one whose head ends in LFLF is not, in front of some other bytes |
| Http.PipelineInFront | src/httpd/epsilon_http.c:546-616 | such requests in front of any other bytes are read one by one, and what is behind them as if it stood alone |
| Http.ClosingRequestIsLast | src/httpd/epsilon_http.c:546-616 | a request with "Connection: close", or whose handler does not keep the connection, is the last one, and what is behind it is left |
| Http.PipelineIsReadBack | src/httpd/epsilon_http.c:546-616 | any pipeline of such requests, whatever their heads look like and whether or not they have a Content-Length, is read back request for request, in order, with no byte over |
| Http.MessageIsWhole | src/httpd/epsilon_http.c:269-420 | a message written with any headers that announce its body is such a request, and the one it is meant to be |
| Http.BodylessNeedsNoLength | src/httpd/epsilon_http.c:351-386 | helper: a message without body needs no Content-Length |
| Http.LengthAnywhere | src/httpd/epsilon_http.c:351-386 | a Content-Length for the body can be added to the other headers in any place |
| Http.ConnMain | src/httpd/epsilon_http.c:531-616 | however recv cuts a pipeline, its requests are what the connection answers |
| Bytes.ZeroCountIsLeast | src/engine/sha256.c:110-115 | the zeros of the padding are the fewest that fill the last block up to the length |
| Bytes.NotYetPadded | src/engine/sha256.c:113-115 | the pad loop's measure, going round at 64, decreases until 56 is met |
| Bytes.StoreUndoesLoad | src/engine/epsilon_crypto.c:13-25 | helper: storing a loaded word gives the four bytes back, in either byte order |
| Sha256.OrderOfTermsIsFree | src/engine/sha256.c:44-50 | helper: the code's order of the four schedule terms gives the standard's word |
| Sha256.RotrRotates | src/engine/sha256.c:33-33 | helper: two shifts are the rotation, for every distance used |
| Sha256.Expand | src/engine/sha256.c:37-50 | the array filled in place is the message schedule of section 6.2.2 of FIPS 180-4 |
| Sha256.Block | src/engine/sha256.c:35-72 | the 64 rounds over eight shifting variables are the compression function |
| Sha256.PadIsWholeBlocks | src/engine/sha256.c:107-120 | padding extends the message to a whole number of blocks |
| Streaming.TookMore | src/engine/sha256.c:91-104 | a piece that does not fill the block only waits |
| Streaming.TookBlock | src/engine/sha256.c:91-104 | a piece that fills the block is folded into the state |
| Streaming.FirstBlockFirst | src/engine/sha256.c:88-105 | the fold takes the first block first |
| Sha256.Context.Take | src/engine/sha256.c:91-104 | one turn of the update loop takes in a piece of the data |
| Sha256.Context.Update | src/engine/sha256.c:88-105 | the context holds exactly the message taken in so far, however it was split |
| Sha256.Context.PadZeros | src/engine/sha256.c:112-115 | the zero loop ends after exactly the zeros of the padding |
| Sha256.Context.Final | src/engine/sha256.c:107-127 | the digest is the fold of the compression function over the padded message |
| Sha256.Digest | src/engine/sha256.c:129-135 | edb_sha256 is SHA-256 of its input, 32 bytes |
| Sha256.SplitsDoNotShow | src/engine/sha256.c:88-105 | two contexts that took in the same message in different parts are equal |
| Sha256Constants.ConstantsAreCubeRoots | src/engine/sha256.c:14-31 | each of the 64 constants holds the 32 bits behind the point of the cube root of the prime of its place |
| Sha256Constants.StartIsSquareRoots | src/engine/sha256.c:76-83 | the initial value holds those of the square roots of the first eight primes |
| Sha256Example.HashOfAbc | src/engine/sha256.c:129-135 | the digest of "abc" is the one published in FIPS 180-4 |
| Md5.SecondRoundFunction | src/engine/md5.c:60-60 | helper: the code's form of the second round's function is the standard's G |
| Md5.Block | src/engine/md5.c:43-74 | the 64 steps over four rotating variables are the compression function of section 3.4 of RFC 1321 |
| Md5.Context.Update | src/engine/md5.c:86-101 | the context holds exactly the message taken in so far |
| Md5.Context.Final | src/engine/md5.c:103-123 | the digest is the fold over the padded message |
| Md5.Digest | src/engine/md5.c:125-132 | the digest whose hexadecimal form edb_md5_hex writes |
| Md5.SplitsDoNotShow | src/engine/md5.c:86-101 | how the message was split does not show |
| Md5Example.HashOfAbc | src/engine/md5.c:125-132 | the digest of "abc" is the one published in RFC 1321 |
| ChaCha20.QuarterRound | src/engine/epsilon_crypto.c:32-38 | the quarter round in place on four of the sixteen words |
| ChaCha20.TenDoubleRounds | src/engine/epsilon_crypto.c:47-56 | ten times four columns and four diagonals |
| ChaCha20.BlockFunction | src/engine/epsilon_crypto.c:40-60 | the block function of section 2.3 of RFC 8439 |
| ChaCha20.KeyStream | src/engine/epsilon_crypto.c:89-93 | the sixteen words of a block as 64 bytes |
| ChaCha20.XorInto | src/engine/epsilon_crypto.c:79-102 | the chunk loop is the xor with a keystream indexed by byte, block n under the n-th counter modulo 2^32; no other byte of the buffer changes |
| ChaCha20.CryptUndoesItself | src/engine/epsilon_crypto.c:79-102 | applying the keystream twice gives the data back |
| ChaCha20.CryptSplits | src/engine/epsilon_crypto.c:79-102 | data may be processed in parts cut at multiples of 64 bytes, each from its own counter |
| ChaCha20Example.KeyBlockIs | src/engine/epsilon_crypto.c:28-77 | the keystream block of the example in section 2.3.2 of RFC 8439 is the published one |
| Crypto.HmacSha256 | src/engine/epsilon_crypto.c:107-145 | HMAC of RFC 2104 over SHA-256 |
| Crypto.HmacIs | src/engine/epsilon_crypto.c:107-145 | byte by byte: a key of at most 64 bytes is filled up with zeros and masked with 0x36 for the inner and 0x5c for the outer hash |
| Crypto.HmacOfLongKey | src/engine/epsilon_crypto.c:117-121 | a longer key is hashed first |
| Crypto.BlockFormIsAsGood | src/engine/epsilon_crypto.c:117-123 | a key and the block it is brought to authenticate alike |
| Crypto.HkdfSha256 | src/engine/epsilon_crypto.c:156-211 | extract, expand and the refusal of more than 255 blocks, as RFC 5869 has them |
| Crypto.Expand | src/engine/epsilon_crypto.c:179-208 | the loop's output is the first bytes of T(1), T(2) and so on |
| Crypto.OkmBlocks | src/engine/epsilon_crypto.c:179-208 | each block of the output is the tag of the block before it, the info and its own number as a byte, from 1 on |
| Crypto.NoSaltIsZeros | src/engine/epsilon_crypto.c:171-178 | without salt the key of the extraction is 32 zeros |
| Crypto.ShorterIsPrefix | src/engine/epsilon_crypto.c:179-208 | asking for less gives a prefix of what asking for more gives |
| Crypto.CtEqual | src/engine/epsilon_crypto.c:216-224 | the or of all differences is zero if and only if the bytes are equal |
| Crypto.Seal | src/engine/epsilon_crypto.c:226-254 | writes the box when it fits and otherwise nothing |
| Crypto.Open | src/engine/epsilon_crypto.c:256-299 | writes the plaintext and returns its length, or returns -1 and writes nothing |
| Crypto.SealedIs | src/engine/epsilon_crypto.c:226-254 | a box is the nonce, the ciphertext from block 1 on and, in its last 32 bytes, the tag over associated data, nonce and ciphertext |
| Crypto.OpenedIs | src/engine/epsilon_crypto.c:256-299 | any nonce, ciphertext and tag open to the decrypted text if the tag is that one, and are refused otherwise |
| Crypto.OpensUnderEqualTagsOnly | src/engine/epsilon_crypto.c:226-299 | under other associated data or another authentication key a box opens if and only if the two tags are equal |
| Crypto.OpenUndoesSeal | src/engine/epsilon_crypto.c:226-299 | opening a sealed box gives the plaintext, for all keys, nonces, associated data and plaintexts |
| Crypto.OpensExactlyWhatWasSealed | src/engine/epsilon_crypto.c:226-299 | a box opens to a plaintext if and only if it is what sealing that plaintext makes |
| Crypto.ReturnedLengthIsExactBelow | src/engine/epsilon_crypto.c:298-298 | helper: the returned int is the plaintext's length if and only if that is below 2^31 |
| Lua.PushedIsNotNil | src/lua/epsilon_lua.c:107-112 | nil stands only for what is nested more than 32 deep |
| Lua.IntegerExactly | src/lua/epsilon_lua.c:121-131 | a handler sees an integer exactly for an integral number from -2^53 to 2^53 - 1, and else a float |
| Lua.Length | src/lua/epsilon_lua.c:195-215 | an array table ends at its greatest key |
| Lua.ArrayComesBack | src/lua/epsilon_lua.c:195-228 | an array comes back item for item when its items do and there are at most 2^24 |
| Lua.ObjectComesBack | src/lua/epsilon_lua.c:229-251 | an object comes back member for member, an empty one as an empty array |
| Lua.ComesBack | src/lua/epsilon_lua.c:107-261 | pushed and pulled one level deeper, a value comes back in normal form if and only if it is nested less than 32 deep and holds no longer array |
| Lua.NormalIsSameExactly | src/lua/epsilon_lua.c:216-228 | the normal form is the value itself if and only if it holds no empty object |
| Lua.UnchangedEntityComesBack | src/lua/epsilon_lua.c:267-296 | a handler that returns its entity unchanged gives back the document without its id, in normal form, exactly when it fits; otherwise there is no document, because the conversion raises a Lua error |
| Restore.Node.SetLocked | src/api/epsilon_api.c:44-51 | the lock and the setting that mirrors it change together |
| Restore.Node.WipeAll | src/api/epsilon_api_cluster.c:339-369 | exactly the files of non-system shards go, and only under the lock |
| Restore.Node.PutChunk | src/api/epsilon_api_cluster.c:374-474 | one chunk is written at its offset; the last one replaces the shard file when the integrity check passes |
| Restore.Node.Change | src/api/epsilon_api.c:89-97 | a write or a replicated change is refused under the lock, whatever it would do |
| Restore.UnlockedIsRefused | src/api/epsilon_api_cluster.c:339-390 | without the lock wiping and uploading answer 409 and change nothing |
| Restore.KeyIsRefusedExactly | src/api/epsilon_api_cluster.c:388-396 | under it a key is refused with 400, and nothing changes, exactly when it is a system shard or not 32 lower-case hexadecimal digits |
| Restore.UnsoundIsRefused | src/api/epsilon_api_cluster.c:440-460 | a file that fails the integrity check is thrown away and the one in place stays |
| Restore.WriteAtIs | src/api/epsilon_api_cluster.c:405-440 | a chunk is at its offset, byte by byte, behind what was there or zeros |
| Restore.ChunksPush | src/epsilonbkup.c:907-938 | the chunks of a file, of any size, leave the whole file in place |
| Restore.PushShard | src/epsilonbkup.c:894-947 | the upload loop sends just those chunks, stops at the first refusal and reports failure exactly when a non-empty file could not be placed |
| Restore.CmdRestore | src/epsilonbkup.c:784-974 | the phases over all nodes send each node its plan |
| Restore.PushesLeave | src/epsilonbkup.c:866-950 | pushing the backup to a locked node adds the files that can be placed and changes nothing else |
| Restore.LockedRun | src/api/epsilon_api.c:35-42 | between lock and unlock other traffic leaves no trace |
| Restore.RestoreLeavesBackup | src/epsilonbkup.c:784-974 | at its unlock a node's data files are those of the backup that can be placed and its system files those it had at its lock, whatever came between |
| Restore.EveryNodeIsRestored | src/epsilonbkup.c:784-974 | the same for every node of a whole run, in every interleaving of the tool's requests with any other traffic on any node |
| Restore.FullyRestoredExactly | src/epsilonbkup.c:866-950 | the whole backup is restored if and only if every file has a valid key of a data shard, is not empty and is sound |
| Analytics.CountIn | src/engine/epsilon_analytics.c:57-110 | look up by name or append, then add; the four routines of the program in one |
| Analytics.CountAddsUp | src/engine/epsilon_analytics.c:57-110 | each count adds just its figures under its names as cut to their buffers, whether they were cut or not |
| Analytics.JoinFilterKeys | src/engine/epsilon_analytics.c:121-150 | the join never overruns its buffer and leaves the sorted keys joined |
| Analytics.SortedIsOrdered | src/engine/epsilon_analytics.c:112-135 | sorting keeps the keys and orders them as strcmp does |
| Analytics.OrderIsUnique | src/engine/epsilon_analytics.c:112-135 | there is one ascending arrangement |
| Analytics.OrderOfFiltersDoesNotMatter | src/engine/epsilon_analytics.c:119-150 | the same filters in any order land in the same slow entry |
| Analytics.TwoKeysJoined | src/engine/epsilon_analytics.c:121-150 | two filter keys make the smaller, a comma and the greater, in either order |
| Analytics.Node.RecordRead | src/engine/epsilon_analytics.c:180-190 | a read is counted once in each table |
| Analytics.Node.RecordWrite | src/engine/epsilon_analytics.c:192-210 | a write is counted once in each table, an update also as such |
| Analytics.Node.RecordDelete | src/engine/epsilon_analytics.c:212-226 | a delete is counted once in each table |
| Analytics.Node.RecordQuery | src/engine/epsilon_analytics.c:228-243 | a query counts as a read and under its filters |
| Analytics.RecordingAddsUp | src/engine/epsilon_analytics.c:154-243 | a node's table holds exactly the work of its events, key by key |
| Analytics.RecordingHas | src/engine/epsilon_analytics.c:154-243 | it has an entry for exactly the names under which something happened |
| Analytics.ShardWorkIs | src/engine/epsilon_analytics.c:154-243 | a shard's counters are the numbers of its reads and queries, writes, updates and deletes, and the sums of their times |
| Analytics.CallWorkIs | src/engine/epsilon_analytics.c:154-243 | a slow entry is the number of calls of its kind, shard and filters, the sum of their times and the longest |
| Analytics.BuildReport | src/engine/epsilon_analytics.c:505-592 | the report's nested loops |
| Analytics.ReportEntryIsSum | src/engine/epsilon_analytics.c:416-592 | each entry of the report is the sum of what all snapshots hold under its name, and no other entry has that name |
| Analytics.ReportHas | src/engine/epsilon_analytics.c:505-592 | the report has an entry for exactly the names that some snapshot has |
| Analytics.WorkIsConserved | src/engine/epsilon_analytics.c:505-551 | for every shard name the report's counters are the sums over all nodes' events and its size that of the largest copy; it has one entry for each shard with which anything happened on any node, and no other |
| Analytics.CallsAreConserved | src/engine/epsilon_analytics.c:552-592 | for every name of a slow call the report's count, time and maximum are those of all nodes' events under it; it has one entry for each name under which anything happened on any node, and no other |
| Analytics.OrderOfSnapshotsDoesNotMatter | src/engine/epsilon_analytics.c:505-592 | reports over the same snapshots in different orders have the same names with the same figures |

## Left out

- SQLite: a shard is a map from id to row, a shadow table a map from row id to row. That SQLite evaluates the predicates, fires one hook per changed row and checks the primary key at each change is taken as given, and its statements succeed unless a parameter says otherwise.
- cJSON, the Lua VM and libc (sscanf, strtoull, qsort): modelled by what they are documented to do.
- The cluster mesh, leader election, quorum fan-out, range placement and the change log (epsilon_repl.c and epsilon_cluster.c are not part of this model).
- Failing allocations, file-system errors, socket errors other than the end of the stream, and timeouts.
- Engine close, and file names in the data directory; in `edb_shard_invalidate` the private fresh handle, which no other thread can see.
- HandleTable: the chains are sequences in a state machine, so the addresses of the links and their aliasing are not captured.
- EQL: how collect_refs finds references, the column scanners, SELECT results, permissions, and the conversion between documents and columns; a document is one value.
- Filters.Json: a number is an integer or not as its printed text says; beyond fifteen digits, where the text of an integral number may have an exponent, the model leaves it open which.
- Replica.Shard.GetTs: the document's text stands for the parsed JSON document, so a stored text that does not parse is not modelled.
- EqlTokens: SQL's numeric and blob literals are words and string literals to it; only what decides where literals, names and comments begin and end is modelled.
- EqlWriteBack.WriteBackSimulates: for an INSERT the target is one keyspace, because an INSERT into merged keyspaces is refused before it runs; writes that the cluster rejects are not modelled.
- EqlRewrite.RewriteSql: the NUL terminator ends the text in C, so statements hold no NUL.
- Http.Conn.ParseRequest: the bytes that C overwrites with NUL inside a head it has just read are not written back into the model's buffer; they are used up, or the connection ends.
- HTTP routing, responses, static files and the server's shutdown flag.
- Sha256.Hash and Md5.Hash: hexadecimal output. Cryptographic strength and randomness are no part of it; only equality with the standards and round trips.
- Crypto.Open: aliasing of the input and output buffers.
- Lua: member order and repeated names of JSON objects, keys of tables other than strings and integers, the standard library, the watchdog and the dispatch of events. A value that cannot be converted makes the C code raise a Lua error, outside any protected call, so that the panic handler ends the process; here it is None, and what happens after the error is not modelled.
- Restore: the lock test and the write that follows it are one step, as are all other requests; offline nodes and nodes without an HTTP port are not part of a run; the analytics keyspace, whose flush does not ask for the lock; authentication.
- Analytics: wrap-around of 64-bit counters, and rounding of counters above 2^53 in the JSON snapshot.
- The config registry, login and sessions, the admin console, installers and command lines: small tables and user interface that would add easy members.
