# Relational crawler model

A Dafny model of the relationalising crawler of the `ameliorate_repo` ETL helpers, with
proofs about it.

`RelationalCrawler.run` reads an ordered list of raw telemetry batches from S3. It
partitions each batch into four tables:

- devices, with iOS and Android flags;
- applications, with one 0/1 column per category tag and a hash-derived AppID;
- IPs, with their ISP;
- events.

It merges these into running "marts" with first-wins deduplication. When the event mart's
byte estimate is over a threshold, it flushes the event mart to a randomly named Parquet
object. At the end it writes all four marts. The model also covers the string logic of the
S3 helper it writes through:

- splitting `s3://bucket/key` paths;
- the `.txt` guard of `get_list` and its line splitting;
- the object keys and bucket gate of the write methods;
- the bucket default of the read methods;
- the suffix dispatch of `multi_read`;
- the listing table of `crawl_size`.

## Modules

- `wrappers.dfy`: `Option` and `Result`.
- `text.dfy` (`Text`): the Python string operations the code relies on:
  - `str.upper`, substring removal (`replace(" IOS", "", regex=True)`) and `strip`;
  - `split` and `join` on one character, `split('.')[0]`;
  - `str(int)`, slices, `splitlines`;
  - their round trips.
- `dedup.dfy` (`Dedup`): pandas' `drop_duplicates(subset, keep="first")` over a sequence of
  rows, as a generic `DedupFrom`/`DedupBy` with a key function, and its laws.
- `records.dfy` (`Records`): the raw row and the rows of the four tables.
- `normalizer.dfy` (`Normalizer`): `create_device_master`, `create_app_master` (its nested
  category loop as methods), `create_event_master`, `create_ip_master` and `partition`.
- `accumulator.dfy` (`Accumulator`): the cross-batch merges of `run`.
- `s3.dfy` (`S3`): the S3 helper as a class `Client` with its bucket, its region and a log
  of stored objects, plus the pure string logic around it. `MultiRead` and `CrawlSize` are
  methods with their loops.
- `crawler.dfy` (`Crawler`): `run` as a class `RelationalCrawler` whose methods update the
  helper's object log. It also holds the specification functions `Iteration`, `Absorb`,
  `Accumulate`, `Loop`, `Final` and `RunSpec` that those methods are proved against.
- `run_properties.dfy` (`RunProperties`): what `run` guarantees across passes.

What the code gets from outside is passed in as parameters (`Crawler.Env`):

- the batch reader (a read that raises is `None`);
- the IAB code mapping returned by `iab_code_scraper.refresh_codes`;
- Python's per-process salted `hash`;
- the `memory_usage().sum()` byte estimate of an event table;
- the successive `random.getrandbits(64)` draws, indexed by the draw count.

The object store is the `puts` log of `S3.Client`. Nothing in the model claims the random
event names are distinct.

### Behaviour worth knowing

- **Event join.** Events are joined to the app table of the same batch, by a left join
  on the normalised name (aws_restructure.py:118, 142). Within a batch every event
  resolves (`Normalizer.EventMasterSpec`).
- **Device flags.** A device keeps the flags of the first batch it appears in, because
  the device merge keeps the first row (aws_restructure.py:196).
- **Failed batches.** A batch that fails mid-way keeps the assignments made before the
  exception (aws_restructure.py:165-235). One example: batch 0 failed and the run was
  started with flag 1. A later batch then replaces the event mart by its own events and
  clears the flag (aws_restructure.py:177-183). Only after that does it raise NameError on
  the unbound device mart (aws_restructure.py:196).
- **Threshold test.** The threshold is tested on the event mart before the batch is
  merged (aws_restructure.py:205). A flush never merges the triggering batch's events.
  The next successful batch replaces the event mart by its own events
  (aws_restructure.py:177-183).
- **Final write.** The final event write is unconditional. A table flushed by the last
  successful pass is written a second time under a second random name
  (`RunProperties.FlushedEventsWrittenAgain`).
- **AppID.** AppID is `str(hash(name))[1:13]`. It can collide across names
  (`Normalizer.AppIdCollision`), and it is not stable across processes.
- **First batch.** If the first batch fails, the device, app and IP marts are never bound. The final write
  then raises NameError after only the IAB table has been stored (`RunProperties.RunCompletes`).

## Model

| member | source | states |
|---|---|---|
| Text.Upper | aws_restructure.py:64 | `str.upper()`: same length; each lower-case ASCII letter becomes its capital, every other character is kept |
| Text.UpperAppend | aws_restructure.py:64 | upper-casing distributes over concatenation |
| Text.Slice | aws_restructure.py:93 | `s[lo:hi]` with Python's clamping: exact length, characters taken from position lo on |
| Text.Tail | aws_etl.py:341 | `s[-k:]` for a positive k: the last k characters, or all of s when shorter |
| Text.TailIsSuffix | aws_etl.py:341 | comparing `s[-4:]` with ".txt" is exactly "s ends with .txt" |
| Text.RemoveAll | aws_restructure.py:64 | `re.sub(p, "", s)` never adds a character: the result is no longer than s and made of characters of s |
| Text.RemoveAllNoMatch | aws_restructure.py:64 | removal from text without an occurrence changes nothing |
| Text.RemoveAllTrailing | aws_restructure.py:64 | for a border-free pattern, a trailing copy of the pattern is removed and nothing else changes |
| Text.RemoveAllAppendUntouched | aws_restructure.py:64 | appended text that no occurrence of p touches survives removal unchanged |
| Text.StripLeft | aws_restructure.py:64 | removes exactly the leading whitespace (Python `isspace`) |
| Text.StripRight | aws_restructure.py:64 | removes exactly the trailing whitespace |
| Text.Strip | aws_restructure.py:64 | `strip()`: a slice of the input, with only whitespace cut on either side and no whitespace at its ends |
| Text.UpperIdempotent | aws_restructure.py:64 | upper-casing twice is upper-casing once |
| Text.StripOfStripped | aws_restructure.py:64 | stripping is the identity on text without whitespace at its ends |
| Text.Split | aws_etl.py:404 | `split(sep)`: at least one piece, no piece holds sep, and the first piece is the prefix up to the first sep |
| Text.JoinSplit | aws_etl.py:404-431 | `sep.join(s.split(sep)) == s` |
| Text.SplitJoin | aws_restructure.py:70 | pieces free of sep, joined and split again, come back unchanged |
| Text.SplitSepFree | aws_restructure.py:70 | text without sep splits into itself |
| Text.SplitAfterPiece | aws_restructure.py:70 | a sep-free piece followed by sep splits off as the first piece |
| Text.Before | aws_etl.py:161 | `split('.')[0]`: the longest "."-free prefix, ending at the first "." |
| Text.IndexOf | aws_etl.py:324 | the position of the first occurrence of a character, or the length when there is none |
| Text.NatToString | aws_etl.py:411 | `str(n)` for n >= 0: decimal digits with no leading zero |
| Text.IntToString | aws_restructure.py:93 | `str(i)`: a "-" exactly for negative i, digits otherwise, and the digits read back as the magnitude of i |
| Text.DecimalRoundTrip | aws_etl.py:411 | reading the digits of `str(n)` gives n back |
| Text.NatToStringInjective | aws_etl.py:411 | distinct numbers print differently |
| Text.SplitLines | aws_etl.py:350 | `splitlines()`: no line holds a line boundary, and there are at most as many lines as characters |
| Text.SplitLinesBreakFree | aws_etl.py:350 | text without a boundary is one line, and the empty text has no lines |
| Text.SplitLinesAtBreak | aws_etl.py:350 | a line ended by any single boundary (a "\r" only when no "\n" follows it) is the first line, and splitting continues after the boundary |
| Text.SplitLinesAtCrLf | aws_etl.py:350 | "\r\n" ends a line as one boundary, and splitting continues after it |
| Text.SplitLinesLast | aws_etl.py:350 | a last line without a final boundary is kept |
| Text.SplitLinesUnlines | aws_etl.py:350 | boundary-free lines, each ended by "\n", split back into the same lines |
| Text.UnlinesSplitLines | aws_etl.py:350 | "\n"-terminated text whose only boundaries are "\n" is rebuilt from its lines |
| Text.SplitLinesAtNewline | aws_etl.py:350 | at a first boundary that is a lone "\n", splitting continues right after it |
| Dedup.DedupFrom | aws_restructure.py:61 | first-wins deduplication: no longer than the input, every row from the input, unique keys, and exactly the input's keys outside `seen` |
| Dedup.FirstIndex | aws_restructure.py:61 | the first row carrying a key |
| Dedup.DedupKeepsFirst | aws_restructure.py:61 | every surviving row is the first input row with its key (`keep="first"`) |
| Dedup.DedupAppend | aws_restructure.py:196 | deduplicating a concatenation keeps the first part's result and adds from the second only unseen keys |
| Dedup.DedupOfUnique | aws_restructure.py:196 | rows with distinct, unseen keys all survive, in order |
| Dedup.MergeKeepsExisting | aws_restructure.py:196 | appending to a table with unique keys and deduplicating keeps every existing row in place and adds only rows with new keys |
| Dedup.DedupRefine | aws_restructure.py:61-67 | deduplicating on AppName and then on the normalised name equals deduplicating on the normalised name |
| Dedup.DedupSameElements | aws_restructure.py:115 | full-row `drop_duplicates()` keeps exactly the distinct rows |
| Dedup.DedupSameKeys | aws_restructure.py:32 | full-row deduplication keeps the set of values of every column |
| Dedup.DedupProject | aws_restructure.py:52 | the key column of a deduplicated table is the deduplicated key column |
| Dedup.FirstIndexSameColumn | aws_restructure.py:130 | the first row of a key depends only on the key column |
| Dedup.SameKeyColumn | aws_restructure.py:130 | tables with the same key column hold the same keys, equally unique |
| Normalizer.MarkerHitsPositive | aws_restructure.py:40-49 | a device's summed marker column is positive iff one of its rows is marked |
| Normalizer.MarkerFlagOfBatch | aws_restructure.py:32-49 | the flag over the distinct (DeviceID, AppName, IP) rows equals the flag over the raw rows |
| Normalizer.DeviceMasterKeys | aws_restructure.py:29-54 | one device row per DeviceID of the batch, with unique DeviceIDs and at most one row per raw row |
| Normalizer.DeviceMasterFlags | aws_restructure.py:40-49 | iOS is 1 iff some AppName of the device, upper-cased, contains " IOS"; likewise Android with " ANDROID" |
| Normalizer.DeviceMasterOrder | aws_restructure.py:52 | device rows come in order of first occurrence of their DeviceID |
| Normalizer.NormaliseName | aws_restructure.py:64 | the normalised name is no longer than the raw one, has no whitespace at its ends and no lower-case ASCII letter |
| Normalizer.NormaliseNameCaseBlind | aws_restructure.py:64 | names equal up to the case of ASCII letters normalise to the same name |
| Normalizer.NormaliseNameOfUpper | aws_restructure.py:64 | upper-casing a name first does not change its normalised form |
| Normalizer.BorderFreeByFirstChar | aws_restructure.py:64 | a pattern whose first character does not recur is border-free |
| Normalizer.MarkersBorderFree | aws_restructure.py:64 | " IOS" and " ANDROID" are border-free |
| Normalizer.AndroidSuffixHasNoIos | aws_restructure.py:64 | no " IOS" overlaps an appended " ANDROID" |
| Normalizer.PlatformVariantsShareName | aws_restructure.py:64 | `base + " iOS"` and `base + " Android"` normalise to the same name as `base` |
| Normalizer.Tags | aws_restructure.py:70 | the tags of AppCategory: at least one, none containing ";" |
| Normalizer.TagsRejoin | aws_restructure.py:70 | the tags are exactly the ";"-separated pieces of the upper-cased, "\|"-to-";" category |
| Normalizer.CategoryCellsSpec | aws_restructure.py:77-99 | a row has a cell for every renamed column, and the cell is 1 iff the row lists a tag renamed onto it |
| Normalizer.CategoryCellOfTag | aws_restructure.py:77-84 | without a renaming collision, a tag's cell is 1 iff the row lists the tag, else 0 |
| Normalizer.AppId | aws_restructure.py:93 | `str(hash(name))[1:13]`: at most 12 characters, all digits |
| Normalizer.AppIdCollision | aws_restructure.py:93 | truncation collides: hash values 15 and 25 both give AppID "5" |
| Normalizer.CategoryCellsAdd | aws_restructure.py:84 | adding one tag's column extends every row's cells by that tag's 0/1 |
| Normalizer.CategoryColumn | aws_restructure.py:78-84 | the inner loop: one entry per row, 1 iff the row lists the tag |
| Normalizer.FillCategoryCells | aws_restructure.py:77-84 | the outer loop: every row gets exactly its 0/1 cells over the tag universe |
| Normalizer.CreateAppMaster | aws_restructure.py:58-101 | the imperative build equals the app-table expression `AppMaster` |
| Normalizer.AppRowsOfCells | aws_restructure.py:93-99 | rows built from the filled cells are the rows of the app table |
| Normalizer.AppListingsByNormName | aws_restructure.py:61-67 | the two deduplications keep the first listing of each normalised name |
| Normalizer.AppMasterKeys | aws_restructure.py:61-90 | one app row per normalised name of the batch, with unique names and at most one row per raw row |
| Normalizer.AppMasterRows | aws_restructure.py:93-99 | each AppID is derived from its row's name alone, and each row has a cell for exactly the table's columns |
| Normalizer.AppMasterKeepsFirstCategory | aws_restructure.py:61-67 | each app row carries the category of the first raw row with its normalised name |
| Normalizer.VisitsSpec | aws_restructure.py:108-115 | pre-join event rows are the distinct images of the raw rows, with Cellular 1 iff InternetType is "CELLULAR" |
| Normalizer.JoinOne | aws_restructure.py:118 | a left-joined row appears at least once |
| Normalizer.LeftJoin | aws_restructure.py:118 | the left join never drops a row |
| Normalizer.IdsNamedUnique | aws_restructure.py:118 | with unique names, a name matches at most one AppID, the first row's |
| Normalizer.LeftJoinUnique | aws_restructure.py:118-121 | with unique app names the left join neither drops nor multiplies: row i is pre-join row i with its AppID or none |
| Normalizer.EventMasterSpec | aws_restructure.py:105-123 | joined against the batch's own app table, event i is distinct pre-join row i with the AppID of its name |
| Normalizer.IpMasterSpec | aws_restructure.py:127-132 | one row per IP of the batch, with the ISP of that IP's first raw row |
| Normalizer.Partition | aws_restructure.py:136-144 | the imperative partition returns `PartitionOf` |
| Normalizer.PartitionSpec | aws_restructure.py:136-144 | a batch partitions iff the IAB mapping avoids the key columns; then every table has unique keys, at most one row per raw row, cells within columns and resolved events |
| Normalizer.AppMasterCellsInColumns | aws_restructure.py:99 | every cell of the app table lies in its columns |
| Normalizer.EventMasterResolved | aws_restructure.py:118 | the event table has at most one row per raw row, each with an AppID |
| Accumulator.KeyedMerge | aws_restructure.py:196-202 | a keyed merge keeps the accumulated rows in place, adds only new keys, keeps keys unique and holds the union of keys |
| Accumulator.MergeDevicesSpec | aws_restructure.py:196 | DeviceIDs stay unique, and each device keeps its accumulated row |
| Accumulator.MergeAppsSpec | aws_restructure.py:199 | AppNames stay unique, columns are the union, and cells stay within columns |
| Accumulator.MergeIpsSpec | aws_restructure.py:202 | IPs stay unique, and each keeps the ISP first accumulated |
| Accumulator.MergeEventsSpec | aws_restructure.py:208 | the merged events are exactly the rows of both tables, once each, with accumulated rows kept in place |
| Accumulator.MergeEventsResolved | aws_restructure.py:208 | merging keeps every event row resolved |
| Accumulator.MergeEventsSelf | aws_restructure.py:208 | an event table merged with itself is its own deduplication |
| S3.ParsePath | aws_etl.py:317-326 | an optional leading "s3://" is dropped, then the text splits at the first "/": the bucket holds no "/", and bucket + "/" + key is the de-prefixed path; without "/" the unpacking fails |
| S3.ParsePathRoundTrip | aws_etl.py:317-326 | `s3://bucket/key` with a "/"-free bucket parses to (bucket, key) |
| S3.GetList | aws_etl.py:338-352 | a path error propagates; a key not ending in ".txt" is a ValueError; a ".txt" key gives the fetched body's `splitlines()`, or the read error when the fetch fails |
| S3.ObjectKey | aws_etl.py:161 | the key is path + (object name up to its first ".") + extension |
| S3.ObjectKeyOfPlainName | aws_etl.py:275 | an object name without "." is used whole |
| S3.WriteBucket | aws_etl.py:264-270 | a write targets the client's bucket iff the client has one and the call names none |
| S3.WritePuts | aws_etl.py:150-165 | a write stores at most one object, exactly when the gate opens, in the client's bucket, under a key that starts with the path and ends with the extension |
| S3.Client.constructor | aws_etl.py:19-35 | the client keeps its bucket, defaults the region to us-east-2, and starts with nothing stored |
| S3.Client.ReadBucket | aws_etl.py:179-180 | reads use the bucket argument, or the client's bucket when none is given |
| S3.Client.WriteCsv | aws_etl.py:150-165 | write_csv appends to the store exactly the puts of the gate and a ".csv" key |
| S3.Client.WriteDict | aws_etl.py:209-222 | write_dict appends exactly the puts of the gate and a ".dict" key |
| S3.Client.WriteParquet | aws_etl.py:264-279 | write_parquet appends exactly the puts of the gate and a ".parquet" key |
| S3.ReadFormat | aws_etl.py:109-115 | ".csv" keys are read as CSV; other keys ending ".parquet", ".pq" or ".parquet.snappy" as Parquet; the rest are skipped |
| S3.WrittenKeysReadBack | aws_etl.py:109-130 | ".csv" and ".parquet" objects the helper writes are read back by the matching reader, and ".dict" objects are skipped |
| S3.ReadPlanSound | aws_etl.py:105-120 | every read uses a listed key with the reader its suffix selects |
| S3.ReadPlanComplete | aws_etl.py:105-120 | every listed key with a recognised suffix is read |
| S3.MultiRead | aws_etl.py:105-120 | the loop issues exactly the planned reads, in order |
| S3.FrameWidth | aws_etl.py:406-428 | the table width: the first entry's length when no entry is longer, otherwise one more (the except branch); no width exactly when some entry is two or more longer than the first; every entry fits |
| S3.ColumnNamesDistinct | aws_etl.py:409-412 | "Level 0" .. "Level k-1" and "Size" are pairwise distinct labels |
| S3.KeptRows | aws_etl.py:416 | kept rows are exactly the full-width listed rows with Size > 0 |
| S3.CrawlSize | aws_etl.py:402-433 | the table of levels and sizes, and the paths, which reproduce every listed key; an empty listing is an error, and so exactly is a key with two or more levels more than the first key's; the width is one or two more than the first key's level count |
| Crawler.SliceLength | aws_restructure.py:158-163 | `len(meta_list[:sample])` with Python's slice bounds: None or a bound past the end gives the whole list, a negative bound counts from the end and clamps at 0 |
| Crawler.RelationalCrawler.constructor | aws_restructure.py:21-26 | the crawler owns a fresh helper on the given bucket, in the default region |
| Crawler.RelationalCrawler.Run | aws_restructure.py:148-241 | the store after run and whether it completes are those of `RunSpec` |
| Crawler.RelationalCrawler.Pass | aws_restructure.py:165-235 | one loop pass updates the marts, flag, draws and store as `Iteration` says |
| Crawler.RelationalCrawler.AccumulateMarts | aws_restructure.py:193-228 | the else branch updates the marts and store as `Accumulate` says |
| Crawler.RelationalCrawler.Flush | aws_restructure.py:222-225 | a flush appends the event mart and then the device, app and IP marts |
| Crawler.RelationalCrawler.WriteFinal | aws_restructure.py:238-241 | the final writes, stopping at the first unbound mart, as `Final` says |
| RunProperties.AccumulateKeepsMartsValid | aws_restructure.py:193-228 | merging or flushing a valid partition keeps keys unique, cells within columns and events resolved |
| RunProperties.AbsorbKeepsMartsValid | aws_restructure.py:174-228 | reset, initialisation and accumulation keep the marts valid |
| RunProperties.IterationKeepsMartsValid | aws_restructure.py:165-235 | every pass, skipped or not, keeps the marts valid |
| RunProperties.LoopKeepsMartsValid | aws_restructure.py:163-235 | the marts stay valid over any number of passes |
| RunProperties.SkippedBatch | aws_restructure.py:232-235 | an unreadable or unpartitionable batch leaves the state unchanged |
| RunProperties.AccumulateLog | aws_restructure.py:193-228 | the else branch stores and draws nothing, or it flushes the marts it leaves |
| RunProperties.AbsorbLog | aws_restructure.py:174-228 | a partitioned batch stores and draws nothing, or it is a flush that sets the flag |
| RunProperties.IterationLog | aws_restructure.py:165-235 | a pass stores and draws nothing, or it draws one number, sets the flag and stores the four marts |
| RunProperties.MergeOrFlush | aws_restructure.py:196-228 | the dimension marts are merged; the events are merged when the accumulated estimate is within the threshold, and otherwise the accumulated events are flushed unmerged |
| RunProperties.ResetAfterFlush | aws_restructure.py:177-183 | after a flush, the next successful batch's own events replace the event mart |
| RunProperties.AccumulateKeepsBound | aws_restructure.py:193-228 | the else branch never unbinds a mart |
| RunProperties.IterationKeepsBound | aws_restructure.py:165-235 | no pass unbinds a mart |
| RunProperties.UnboundStaysUnbound | aws_restructure.py:196 | while the device mart is unbound, later passes bind nothing and store nothing (NameError) |
| RunProperties.FirstBatchFails | aws_restructure.py:186-191 | if batch 0 fails, the dimension marts are never bound and only the IAB table is stored |
| RunProperties.FirstBatchSucceeds | aws_restructure.py:186-191 | if batch 0 succeeds, every mart is bound and valid after every pass |
| RunProperties.FinalAllOrNothing | aws_restructure.py:238-241 | with valid marts, the final writes all happen, or the first raises and nothing changes |
| RunProperties.RunCompletes | aws_restructure.py:158-241 | run completes iff the sample is non-empty and batch 0 succeeds; otherwise only the IAB table is stored |
| RunProperties.FinalLog | aws_restructure.py:238-241 | the final writes add four objects after the stored ones, the last being the event mart under `EVENT_DM_<random>.parquet` |
| RunProperties.FlushedEventsWrittenAgain | aws_restructure.py:222-241 | an event table flushed by the last pass is written again by the final write |
| RunProperties.StoredAfterWrite | aws_etl.py:264-279 | a crawler write keeps the store's prefix and adds only a crawler put |
| RunProperties.IterationStores | aws_restructure.py:222-225 | a pass adds only .parquet puts under the crawler's paths |
| RunProperties.LoopStores | aws_restructure.py:163-235 | the loop adds only crawler puts after the stored objects |
| RunProperties.FinalStores | aws_restructure.py:238-241 | the final writes add only crawler puts |
| RunProperties.RunStoresParquet | aws_restructure.py:155-241 | run keeps what was stored and adds only .parquet objects in the helper's bucket under its paths; without a bucket it stores nothing |

## Left out

- I/O, the boto3 resource and client calls, and the pandas/pyarrow serialisation are not
  modelled. Reads are a parameter returning a batch or nothing; writes append to the
  helper's object log.
- `iab_code_scraper.refresh_codes` is not part of this model. Its result is a parameter,
  and the `dict(iab_df.values)` mapping is a `map<string, string>`.
- `time.time`, every `print`, the MB figure of the flush message and the unused `day_part`
  argument of `run` have no effect on the tables and are not modelled.
- Python's `hash`, `memory_usage().sum()` and `random.getrandbits(64)` are parameters; the
  model says nothing about their values.
- `byte_thresh` is an integer; the float default `1e+9` and float comparison are not modelled.
- NaN values, the dtype coercion of the transposed merges and pandas' column suffixing are
  not modelled. A cell missing from a row is an absent map key or an absent AppID.
- Normalizer.CategoryCellsSpec: when the IAB mapping renames two category labels onto one, pandas
  keeps two columns with the same label. Maps cannot hold that, so the model keeps one cell,
  1 if either is. Renaming onto or off AppID/AppName is modelled as the partition failing.
- Text.Upper: only ASCII letters are upper-cased. Python's full Unicode case mapping
  (such as "ß" becoming "SS") is not modelled.
- `create_device_master`'s top-IP computation is dropped before the table is returned, so
  it is not modelled.
- `multi_read`'s `df = df.append(df)` accumulation and the reading of object bodies are not
  modelled. Neither is its list branch, which calls `.all()` on a list and always raises.
  Only the suffix classification of keys is.
- `crawl_size`'s `multi_file_filter` listing is an input: the listed keys and sizes.
- The AWS secret and access id passed to the constructors only reach boto3 and are not
  modelled.
- `obj_check`, `create_file` and `multi_file_filter` in aws_etl.py are not part of this
  model.
