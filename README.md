# slack2rag sync core in Dafny

slack2rag copies the public channels of a Slack workspace into a Qdrant vector
collection so that they can be searched by meaning. One sync cycle works like this:

1. It lists the channels, optionally limited by an allow-list of names or ids.
2. It reads each channel's history from a per-channel cursor onwards.
3. For a thread root, it fetches the thread's replies.
4. It formats the root and its replies as `[user]: text` lines, joins them, and cuts
   the text into overlapping chunks. Each chunk becomes a document with a stable
   name-based id.
5. It embeds the documents in batches and upserts them.
6. It moves the channel's cursor to the newest timestamp it saw.

This project models that core and proves properties of the model. It has one module
per source file, plus two shared ones:

| module | file | models |
|---|---|---|
| `Wrappers`, `Records` | `wrappers.dfy`, `records.dfy` | `Option`/`Result`; Slack channels and messages as the code reads them |
| `Text` | `text.dfy` | the Python string built-ins the code relies on: `str.strip`, `split`, `join`, `int()`, decimal formatting, ASCII `lower()` |
| `Processor` | `processor.dfy` | `src/processor.py`: chunking, ids, message formatting, document building, and the point payload |
| `StateStore` | `state.dfy` | `src/state.py`: the cursor store, as class `SyncState` |
| `Configuration` | `config.dfy` | `src/config.py`: `from_env` and `channel_list` |
| `VectorIndex` | `vector_store.dfy` | `src/vector_store.py`: upsert and the search filter, as class `VectorStore` |
| `Slack` | `slack_client.dfy` | `src/slack_client.py`: pagination, the channel filter, the history stream, thread replies, and the user-name cache (class `SlackClient`) |
| `SyncDriver` | `sync_driver.dfy` | `src/main.py`: `_flush`, `sync_channel` and `run_once` |

**Where the code does its work step by step, the model does too.**
- The loops of `sync_channel`, `run_once`, `_chunk` and `build_documents` are methods
  with loop invariants. So are the pagination loops of the Slack client.
- Each such method is proved equal to a pure function that defines its result. The
  properties are proved as lemmas about those functions.

**How the outside world is represented.**
- The Slack Web API is replaced by its answers. A paginated call reads a finite
  sequence of `Response`s, one per request: either a page with its next cursor, or a
  `SlackApiError` code.
- Join attempts are a sequence of outcomes.
- `users.info` is a function from user id to answer.
- The embedder is a function from texts to vectors.
- Qdrant is the `VectorStore` object. Its fields are:
  - `points`, the stored points by id;
  - `writes`, the upserts in order.
- The sync writes the state through `SyncState.SetCursor`, whose `data` is the cursor
  map.
- `float(ts)` is a parameter `tsValue: string -> int`. It is used only to compare
  timestamps.

**Two behaviours of the code that are easy to misread.**
- *Chunk count.* `_chunk` starts a window every 1300 characters for as long as the
  start is below the length. So a 3000-character text gives three chunks, starting at
  0, 1300 and 2600 (`Processor.ChunkCountExamples`). The last chunk can lie wholly
  inside the one before it (`Processor.TrailingChunk`).
- *Thread replies.* `get_thread_replies` drops the first message of every page until
  it has gathered something. A reply is lost when the first page holds only the root:
  see Findings.

## Model

| member | source | states |
|---|---|---|
| `Processor.Chunks` | src/processor.py:73-84 | the chunk list of `_chunk`: the whole text when it is at most 1500 characters, else the windows of 1500 characters starting at 0, 1300, 2600, ... below the length |
| `Processor.Windows` | src/processor.py:78-83 | the windows the `while` loop of `_chunk` yields from a start: `text[start:start+1500]`, then the windows from `start + 1300`, until the start reaches the length |
| `Processor.Chunk` | src/processor.py:73-84 | the while loop of `_chunk` yields exactly the chunk list `Chunks`: the whole text when it is at most 1500 characters, else windows of 1500 starting every 1300 characters below the length |
| `Processor.WindowsCount` | src/processor.py:78-83 | the window loop runs ceil((len − start) / 1300) times |
| `Processor.WindowsAt` | src/processor.py:80-83 | window i starts at 1300·i, and it exists whenever that start is below the length |
| `Processor.ChunkLayout` | src/processor.py:73-84 | a short text is its own single chunk; a long one has ChunkCount ≥ 2 chunks, chunk i being `text[1300i : 1300i+1500]`, non-empty and at most 1500 long |
| `Processor.WindowsReassemble` | src/processor.py:80-83 | dropping the first 200 characters of every window from a start gives the text after start + 200 |
| `Processor.ChunksReassemble` | src/processor.py:73-84 | chunk 0 followed by every later chunk minus its 200-character overlap reconstructs the text exactly |
| `Processor.TrailingChunk` | src/processor.py:80-83 | a final chunk of at most 200 characters occurs exactly when the previous window already reached the end, and it is then a suffix of that window |
| `Processor.ChunkCountExamples` | src/processor.py:75-84 | 3000 and 2700 characters give 3 chunks, 2600 give 2, 1500 give 1 and 1501 give 2 |
| `Processor.IdName` | src/processor.py:69 | the name hashed for an id: `channel_id:ts:chunk_idx`, the index in decimal |
| `Processor.MakeId` | src/processor.py:66-70 | the id of a chunk: UUID version 5 of its name in the DNS namespace `6ba7b810-9dad-11d1-80b4-00c04fd430c8` |
| `Processor.MakeIdDistinctChunks` | src/processor.py:66-70 | chunks of one message with different indices get different ids |
| `Processor.MakeIdInjective` | src/processor.py:66-70 | for colon-free channel ids, equal ids mean equal (channel, ts, index) |
| `Processor.SplitAtFirstColon` | src/processor.py:69 | a name `a:b` determines a and b when a has no colon |
| `Processor.SplitAtLastColon` | src/processor.py:69 | a name `a:b` determines a and b when b has no colon |
| `Processor.UserOf` | src/processor.py:113-124 | `msg.get("user", "unknown")`: the message's user, or `unknown` when it has none |
| `Processor.ThreadTsOf` | src/processor.py:111 | `root_msg.get("thread_ts") or ts`: the thread marker, or the message's own ts when it is missing or empty |
| `Processor.ChannelName` | src/processor.py:109 | `channel.get("name", channel_id)`: the channel's name, or its id when it has none |
| `Processor.FormatMessage` | src/processor.py:87-91 | the line is empty iff the resolved, stripped text is empty; otherwise it is `[name]: text`, starts with `[` and is trimmed |
| `Processor.Lines` | src/processor.py:117-128 | the lines of a thread: the root's formatted line, then each reply's, blank ones dropped |
| `Processor.KeptShape` | src/processor.py:119-121 | the root contributes no line iff its content is blank, and a kept line is well formed |
| `Processor.ReplyLinesShape` | src/processor.py:123-128 | every reply line kept is well formed; there is none iff every reply is blank |
| `Processor.LinesShape` | src/processor.py:117-128 | `lines` holds only well-formed lines and is empty iff the root and every reply are blank |
| `Processor.JoinLinesTrimmed` | src/processor.py:130 | joining well-formed lines with newlines gives a trimmed text, empty iff there are no lines |
| `Processor.FullTextShape` | src/processor.py:130-132 | `.strip()` leaves the joined lines unchanged, and the full text is empty iff every message is blank |
| `Processor.FullText` | src/processor.py:130 | the text of a thread: its lines joined with newlines, then stripped |
| `Processor.WithMeta` | src/processor.py:142-155 | a document gets the given id, text and shared metadata |
| `Processor.SharedMeta` | src/processor.py:108-115 | the metadata every document of a message carries: channel id and name (the id when there is no name), root ts and its date, the root's user (`unknown` when absent) and that user's name, `thread_ts or ts`, and `reply_count` the number of replies passed in, blank ones included |
| `Processor.Stamped` | src/processor.py:137-155 | there is one document per chunk |
| `Processor.PartLabel` | src/processor.py:140 | the label of chunk idx of n: `(part idx+1/n) `, both numbers in decimal |
| `Processor.ChunkText` | src/processor.py:138-140 | a chunk's stored text: the chunk with its part label in front when there is more than one chunk, else the chunk alone |
| `Processor.CollectLines` | src/processor.py:117-128 | the loop over the replies builds exactly `Lines`: the root's line, then the replies' lines in order, with blank ones dropped |
| `Processor.AppendLine` | src/processor.py:123-128 | one reply of the line loop keeps the invariant |
| `Processor.StampChunks` | src/processor.py:134-155 | the enumerate loop builds exactly `Stamped`: document i has id (channel, ts, i) and the label `(part i+1/n)` when n > 1 |
| `Processor.BuildDocuments` | src/processor.py:96-157 | `build_documents` returns exactly `Documents`, the model the lemmas below describe |
| `Processor.Documents` | src/processor.py:96-157 | the documents of a thread: the joined, stripped lines cut into chunks, one document per chunk with its id, label and shared metadata, none when the text is empty |
| `Processor.DocumentsEmptyIff` | src/processor.py:130-132 | no documents exactly when neither the root nor any reply has content |
| `Processor.DocumentsLayout` | src/processor.py:108-155 | one document per chunk of the joined lines (more than one iff over 1500 characters); an unsplit document holds the joined text itself; document i has id (channel, root ts, i) and the metadata shared by all |
| `Processor.DocumentsDistinctIds` | src/processor.py:137-155 | the documents of one message have pairwise distinct ids |
| `Processor.PayloadOf` | src/processor.py:41-54 | the payload of a document: its text and every metadata field under its key |
| `Processor.PayloadRoundTrip` | src/processor.py:41-54 | the payload keeps every field: reading a document back from its id and payload gives it exactly |
| `Text.IsSpace` | src/processor.py:88 | the characters `str.isspace` accepts, which `strip()` removes: tab to carriage return, U+001C to space, U+0085, U+00A0, U+1680, U+2000 to U+200A, U+2028, U+2029, U+202F, U+205F and U+3000 |
| `Text.LStrip` | src/processor.py:88 | the result is no longer than the input and does not start with whitespace |
| `Text.LStripSuffix` | src/processor.py:88 | left stripping keeps a suffix |
| `Text.LStripCutsSpace` | src/processor.py:88 | left stripping removes only whitespace |
| `Text.RStrip` | src/processor.py:130 | the result is no longer than the input and does not end in whitespace |
| `Text.RStripPrefix` | src/processor.py:130 | right stripping keeps a prefix |
| `Text.RStripCutsSpace` | src/processor.py:130 | right stripping removes only whitespace |
| `Text.Strip` | src/processor.py:88 | `str.strip()`: the right strip of the left strip |
| `Text.StripResultTrimmed` | src/processor.py:88 | a stripped string has no surrounding whitespace |
| `Text.StripIsTrimmedSlice` | src/config.py:28 | `strip` gives the contiguous slice left after removing leading and trailing whitespace, and nothing else |
| `Text.StripTrimmed` | src/processor.py:130 | stripping a trimmed string changes nothing |
| `Text.StripNonEmpty` | src/config.py:28 | a string with a non-whitespace character strips to a non-empty one |
| `Text.Join` | src/processor.py:130 | `sep.join(parts)`: the parts with the separator between consecutive ones, empty for no parts |
| `Text.JoinSnoc` | src/processor.py:130 | joining one more part appends the separator and the part |
| `Text.Split` | src/config.py:28 | `split` gives at least one part, and no part contains the separator |
| `Text.JoinSplit` | src/config.py:28 | joining the parts of a split with the separator gives back the string |
| `Text.SplitJoin` | src/config.py:28 | splitting a join of separator-free parts gives back the parts |
| `Text.DigitChar` | src/processor.py:69 | a digit's character has that digit value |
| `Text.NatToString` | src/processor.py:69 | a decimal rendering is a non-empty digit string |
| `Text.IntToString` | src/config.py:45-48 | `str(i)` for an integer: a `-` before the decimal digits of its magnitude when negative |
| `Text.NatToStringRoundTrip` | src/processor.py:69 | the digits of a rendering have the original value |
| `Text.NatToStringInjective` | src/processor.py:69 | different chunk indices render differently |
| `Text.RemoveUnderscores` | src/config.py:45 | removing `_` from digits and underscores gives digits |
| `Text.ParseInt` | src/config.py:45-48 | `int()` of a string: the white space `int()` skips around it (every Python white space except the separators U+001C to U+001F), an optional sign, then digits with single underscores between them; otherwise no value |
| `Text.RemoveUnderscoresDigits` | src/config.py:45 | a digit string is unchanged by underscore removal |
| `Text.DigitsAreGroups` | src/config.py:45 | a digit string is a valid `int()` digit grouping |
| `Text.ParseTrimmedDigits` | src/config.py:45 | `int()` of a non-empty ASCII digit string, with or without a leading `-`, is its value with that sign |
| `Text.ParseSignedDigits` | src/config.py:48 | a signed digit string parses to its value |
| `Text.ParseIntRoundTrip` | src/config.py:45-48 | `int(str(i)) == i` for every integer |
| `Text.ParseIntPadding` | src/config.py:45 | `int(" 50\n")` is 50 |
| `Text.ParseIntSeparator` | src/config.py:45 | `int("50\x1c")` is an error, although `strip()` would remove the U+001C |
| `Text.AsciiLower` | src/config.py:46 | `lower()` maps A–Z to a–z and keeps every other character |
| `Configuration.KeepPart` | src/config.py:28 | a part is kept, as its stripped form, exactly when that form is non-empty |
| `Configuration.CleanParts` | src/config.py:28 | there are no more kept parts than parts, each stripped and non-empty |
| `Configuration.ChannelList` | src/config.py:26-29 | an empty setting gives no channels; every listed name is non-empty and trimmed |
| `Configuration.StripKeepsOut` | src/config.py:28 | stripping cannot introduce a character |
| `Configuration.CleanPartsKeepOut` | src/config.py:28 | a character absent from every part is absent from every kept part |
| `Configuration.ChannelListNoComma` | src/config.py:26-29 | no listed name contains a comma |
| `Configuration.CleanPartsOfPadded` | src/config.py:28 | parts whose stripped forms are given non-empty names give exactly those names, in order |
| `Configuration.ChannelListPadded` | src/config.py:26-29 | comma-free parts joined with commas read back as their stripped forms, in order, whatever white space surrounds them |
| `Configuration.ChannelListRoundTrip` | src/config.py:26-29 | joining clean names with commas and reading the list back gives the same names in the same order |
| `Configuration.Get` | src/config.py:33-48 | `os.environ.get` gives the set value, or else the default |
| `Configuration.LowerIsWord` | src/config.py:46 | a string lowers to a lower-case word exactly when it spells it in any letter case |
| `Configuration.Truthy` | src/config.py:46 | `RUN_ONCE` is on when its lower-cased value is "1", "true" or "yes" |
| `Configuration.TruthyIff` | src/config.py:46 | `RUN_ONCE` is on exactly for "1", or for "true" or "yes" in any letter case |
| `Configuration.FromEnv` | src/config.py:32-49 | the missing-token error comes exactly when the token is missing or empty; success iff the token is set and both integers parse; the fields then hold the token, the parsed integers and the truthiness of `RUN_ONCE` |
| `Configuration.Assemble` | src/config.py:36-49 | the record holds the given token and integers, and `RUN_ONCE`'s truthiness |
| `Configuration.DefaultInterval` | src/config.py:45 | the default interval string parses to 60 |
| `Configuration.DefaultBatchSize` | src/config.py:48 | the default batch size string parses to 50 |
| `Configuration.ParsesTo` | src/config.py:45-48 | a rendered integer parses back to itself |
| `Configuration.FromEnvDefaults` | src/config.py:7-23 | with only the token set, every other setting takes the dataclass default |
| `Configuration.DefaultsParsed` | src/config.py:45-48 | with no settings, the integers come out as 60 and 50 |
| `Configuration.AssembleDefaults` | src/config.py:36-49 | with no settings, the string fields get their defaults and `run_once` is off |
| `Configuration.FromEnvErrorOrder` | src/config.py:33-48 | with the token set, a malformed `SYNC_INTERVAL_MINUTES` is the error reported, whatever `BATCH_SIZE` holds: the interval is parsed before the batch size |
| `StateStore.Lookup` | src/state.py:22-24 | a cursor is reported exactly for a channel that has one, and it is the stored value |
| `StateStore.Initial` | src/state.py:15-18 | the cursors a new store starts with: the loaded file's, or none when there is no file or it cannot be read |
| `StateStore.FreshStateEmpty` | src/state.py:15-18 | without a readable state file, no channel has a cursor |
| `StateStore.LoadedStateKept` | src/state.py:33-41 | a loaded file's cursors are the ones reported |
| `StateStore.SetThenGet` | src/state.py:26-29 | reading a cursor back after setting it gives the value set |
| `StateStore.SetLeavesOthers` | src/state.py:26-29 | setting one channel's cursor leaves every other channel's cursor as it was |
| `StateStore.LastSetWins` | src/state.py:26-29 | of two sets for one channel the second wins, as if the first had not happened |
| `StateStore.SyncState.constructor` | src/state.py:15-18 | a new store holds the loaded cursors, or none |
| `StateStore.SyncState.GetCursor` | src/state.py:22-24 | `get_cursor` reports exactly the stored cursor, or nothing |
| `StateStore.SyncState.SetCursor` | src/state.py:26-29 | the channel's cursor becomes the value given, and every other cursor is unchanged |
| `VectorIndex.Points` | src/vector_store.py:79-86 | one point per (document, vector) pair, as many as the shorter list (`zip`); point i carries document i's id, vector i and its payload |
| `VectorIndex.Apply` | src/vector_store.py:88 | an upsert: each point, in order, replaces whatever was stored under its id |
| `VectorIndex.LastWith` | src/vector_store.py:88 | the point that wins for an id in one upsert carries that id and is one of the points |
| `VectorIndex.ApplyAt` | src/vector_store.py:88 | after an upsert, an id is stored iff it was before or is upserted; it then holds the last point written for it, or else its old point |
| `VectorIndex.ApplyIdempotent` | src/vector_store.py:74-88 | upserting the same points twice is the same as upserting them once |
| `VectorIndex.UpsertStoresEach` | src/vector_store.py:74-88 | upserting documents with distinct ids stores each one under its id, with its vector and payload |
| `VectorIndex.LastWithUnique` | src/vector_store.py:88 | a point whose id no other point has is the one that wins |
| `VectorIndex.QueryFilter` | src/vector_store.py:126 | no filter iff there are no conditions; otherwise the filter requires all of them |
| `VectorIndex.ConditionsFor` | src/vector_store.py:108-124 | the conditions of a search: the channel condition, then the lower and the upper date bound, each only when its argument is given |
| `VectorIndex.BuildConditions` | src/vector_store.py:108-124 | the conditions appended are the channel, lower date and upper date conditions for the filters given |
| `VectorIndex.ChannelCondition` | src/vector_store.py:111-116 | a channel argument matches `channel_id` when it starts with `C`, else `channel_name` |
| `VectorIndex.ConditionsCount` | src/vector_store.py:108-126 | there is one condition per non-empty filter argument, and no filter iff all three are empty |
| `VectorIndex.LexLeReflexive` | src/vector_store.py:117-124 | every date lies within the range from it to itself |
| `VectorIndex.AllHoldConcat` | src/vector_store.py:126 | all conditions of two runs hold iff all of each run hold |
| `VectorIndex.Holds` | src/vector_store.py:111-124 | what a condition asks of a payload: an exact channel id or name, or a date at least or at most the bound, as a string comparison |
| `VectorIndex.Selected` | src/vector_store.py:93-126 | what the search arguments mean, defined on its own: the channel given, by id for a `C` prefix and otherwise by name, and the date within each bound given, both inclusive |
| `VectorIndex.FilterMeaning` | src/vector_store.py:108-126 | a payload passes the filter iff it matches the channel (its id when the filter starts with `C`, otherwise its name) and its date lies within both bounds, each filter applying only when given |
| `VectorIndex.AllHoldSingle` | src/vector_store.py:126 | a single condition holds iff it holds on its own |
| `VectorIndex.DateBoundsInclusive` | src/vector_store.py:104-124 | a document is found by a date range from its own date to its own date: both bounds are inclusive |
| `VectorIndex.Reshape` | src/vector_store.py:136-139 | a result holds every payload key with its value, plus `score`, which is the hit's score unless the payload has its own |
| `VectorIndex.Results` | src/vector_store.py:136-139 | one result per hit, in hit order |
| `VectorIndex.ResultOfDocument` | src/vector_store.py:136-139 | a hit on a stored document reports its score, and the document can be read back from the result |
| `VectorIndex.SameFields` | src/vector_store.py:137 | an extra `score` key does not change the document read from a payload |
| `VectorIndex.VectorStore.constructor` | src/vector_store.py:74-88 | a new store is empty and has seen no writes |
| `VectorIndex.VectorStore.Upsert` | src/vector_store.py:74-88 | an empty batch leaves the store untouched; otherwise the points are written once and applied to the store |
| `VectorIndex.VectorStore.Search` | src/vector_store.py:93-139 | every payload passes the filter built iff it matches the arguments; the results are the hits reshaped, in order |
| `Slack.Continues` | src/slack_client.py:61 | `if not cursor: break`, as at lines 61, 134 and 162: reading goes on only when the next cursor is present and non-empty |
| `Slack.Accumulate` | src/slack_client.py:41-62 | the items of a paginated listing: the pages read in turn until one has no next cursor, stopping at an error with what was read before it |
| `Slack.AccumulateRun` | src/slack_client.py:41-62 | a run of pages with a next cursor and then a stopping response give the run's items in page order, then the stopping page's; nothing after is read; the reading ends in an error exactly when the stopping response is one |
| `Slack.StripHashes` | src/slack_client.py:65 | `lstrip("#")` removes exactly the leading `#` characters: it keeps a suffix that does not start with `#`, and everything removed is `#` |
| `Slack.Needles` | src/slack_client.py:65 | the needle set of an allow-list: each name with its leading `#` removed |
| `Slack.Select` | src/slack_client.py:64-69 | the filter succeeds iff every channel has a name (else a nameless channel's `KeyError`); it keeps exactly the listed channels whose name or id is a needle, and never adds any |
| `Slack.SelectAppend` | src/slack_client.py:66-69 | filtering keeps the listing's order: filtering a concatenation is concatenating the filtered runs |
| `Slack.PublicChannelsFor` | src/slack_client.py:31-76 | the result of `get_public_channels`: every channel read when the allow-list is absent or empty (`if channel_names:`), else the allow-list filter of those channels |
| `Slack.NamedChannelFound` | src/slack_client.py:64-69 | a channel named in the allow-list is selected whether it is written `#name` or bare `name` |
| `Slack.Noise` | src/slack_client.py:128 | the subtypes the history skips: `channel_join`, `channel_leave`, `channel_purpose` and `channel_topic` |
| `Slack.KeptMessages` | src/slack_client.py:126-130 | a page's yielded messages are exactly those without a noise subtype, and never more than the page |
| `Slack.KeptAppend` | src/slack_client.py:126-130 | the skip filter distributes over concatenation, so order is kept across pages |
| `Slack.KeptAll` | src/slack_client.py:126-130 | a page without noise is yielded whole and in order |
| `Slack.KeepPage` | src/slack_client.py:126-130 | the loop over a page yields exactly `KeptMessages` |
| `Slack.KeptSnoc` | src/slack_client.py:126-130 | one message of the page loop is yielded iff it is not noise |
| `Slack.HistoryMessages` | src/slack_client.py:94-135 | the messages the history generator yields: each page's messages without noise, a `not_in_channel` error answered by a join and a retry, any other error or a failed join ending the stream |
| `Slack.HistoryNoNoise` | src/slack_client.py:94-135 | no yielded message is noise, and each one comes from a page that was read |
| `Slack.HistoryWithoutErrors` | src/slack_client.py:107-135 | when no request fails, the stream is exactly the filtered concatenation of the pages up to the first one with no cursor |
| `Slack.RepliesAsWritten` | src/slack_client.py:137-165 | the replies as the code gathers them: each page's first message dropped while nothing has been gathered, and no replies at all after an error |
| `Slack.IntendedReplies` | src/slack_client.py:137-165 | all replies of the thread without its root, or none when a request fails |
| `Slack.AsWrittenGathering` | src/slack_client.py:156-163 | once something is gathered, later pages are appended whole, and an error in the rest gives no replies at all |
| `Slack.AsWrittenAgrees` | src/slack_client.py:137-165 | when the first page holds a reply besides the root, the code as written returns the intended replies |
| `Slack.AsWrittenFirstPage` | src/slack_client.py:156-158 | on the first page the root is dropped |
| `Slack.RootOnlyFirstPageDropsReply` | src/slack_client.py:156-158 | pages `[root]` then `[r1, r2]` give `[r2]` as written, where `[r1, r2]` is intended |
| `Slack.HistoryStep` | src/slack_client.py:114-135 | one response of the history loop: a successful join retries; a failed join or any other error ends the stream; a page yields its kept messages and continues only on a non-empty cursor |
| `Slack.AccumulateStep` | src/slack_client.py:41-62 | one response of a pagination loop: an error ends it, and a page contributes its items and continues only on a non-empty cursor |
| `Slack.FirstGiven` | src/slack_client.py:177-182 | the name chosen is the default or one of the candidates, present and non-empty |
| `Slack.NameFor` | src/slack_client.py:169-187 | the name for a user: display name, real name, account name, then the id, the first present and non-empty one winning; the id when the lookup fails |
| `Slack.NameFallback` | src/slack_client.py:174-182 | the display name, real name and account name are tried in turn, the first present and non-empty winning, and the user id is the last resort |
| `Slack.FirstGivenCons` | src/slack_client.py:177-182 | each `or` in the chain takes its left side when it is given, else the rest |
| `Slack.NameNonEmpty` | src/slack_client.py:169-187 | a user with a non-empty id always gets a non-empty name, even when the lookup fails |
| `Slack.SlackClient.constructor` | src/slack_client.py:24-27 | a new client starts with an empty user cache |
| `Slack.SlackClient.UserName` | src/slack_client.py:169-187 | the name is the directory's answer run through the fallback chain; it is cached; a cache hit makes no call, a miss makes exactly one; cached names always agree with the directory |
| `Slack.SlackClient.PublicChannels` | src/slack_client.py:31-76 | the listing loop returns exactly `PublicChannelsFor`: every channel read up to an error or the last page, filtered by the allow-list when one is given |
| `Slack.SlackClient.ChannelMessages` | src/slack_client.py:94-135 | the generator's yields, in order, are exactly `HistoryMessages` |
| `Slack.SlackClient.ThreadRepliesAsWritten` | src/slack_client.py:137-165 | the loop as written returns exactly `RepliesAsWritten` |
| `Slack.SlackClient.ThreadReplies` | src/slack_client.py:137-165 | the corrected loop returns every reply in page order, with only the thread root removed, and no replies when a request fails |
| `SyncDriver.Latest` | src/main.py:61-69 | the newest timestamp seen: a message's replaces the one tracked when nothing is tracked or it is numerically greater |
| `SyncDriver.Newer` | src/main.py:68-69 | one message of the tracking: its ts replaces the tracked one when nothing is tracked or it is numerically greater |
| `SyncDriver.LatestIsMaximum` | src/main.py:61-69 | the tracked timestamp is set iff there is a cursor or a message, and it is numerically at least the cursor and every message |
| `SyncDriver.LatestObserved` | src/main.py:61-69 | the tracked timestamp is the cursor or one of the messages' timestamps, and is numerically above the cursor when it differs from it |
| `SyncDriver.LatestStep` | src/main.py:68-69 | one message of the tracking loop |
| `SyncDriver.NonRootBuiltAlone` | src/main.py:72-82 | a message that is not a thread root is built without replies: its documents have a reply count of 0 |
| `SyncDriver.IsThreadRoot` | src/main.py:73 | a thread root: a reply count above 0 (0 when absent) and a `thread_ts` equal to its own `ts` |
| `SyncDriver.RepliesFor` | src/main.py:72-74 | replies are fetched only for a thread root: a message with replies whose `thread_ts` is its own `ts` |
| `SyncDriver.DocsOf` | src/main.py:72-82 | the documents of one message: the builder applied to the message and the replies fetched for it |
| `SyncDriver.Built` | src/main.py:71-82 | one list of documents per message, in message order, each built from the message and its replies |
| `SyncDriver.Batches` | src/main.py:83-90 | the batches flushed from the messages' documents: the buffer is flushed whenever it holds `batch_size` documents after a message, and a non-empty remainder at the end |
| `SyncDriver.ConcatAppend` | src/main.py:83 | `extend` across batches: concatenation distributes over `+` |
| `SyncDriver.BatchesCover` | src/main.py:83-90 | every document built is flushed exactly once, in build order |
| `SyncDriver.BatchesShape` | src/main.py:85-90 | every flushed batch holds at least `batch_size` documents, except the last, which is the non-empty remainder |
| `SyncDriver.BatchesFlushFirst` | src/main.py:83-87 | the buffer is flushed as soon as it holds `batch_size` documents: the first batch is the buffer after the first message that brings it to that size, and batching starts afresh after it |
| `SyncDriver.BatchesNoFlush` | src/main.py:83-90 | while the buffer stays below `batch_size` nothing is flushed until the end, where a non-empty remainder is flushed as one batch |
| `SyncDriver.ConsWellBatched` | src/main.py:85-87 | a full batch in front of well-formed batches keeps them well formed |
| `SyncDriver.BatchesStep` | src/main.py:83-87 | one message of the batching loop keeps the flushed batches plus the rest equal to the whole |
| `SyncDriver.Texts` | src/main.py:102 | the texts embedded are the documents' texts, in order |
| `SyncDriver.Written` | src/main.py:101-105 | the store writes of a sequence of flushes: one write per non-empty batch, in order, of the batch's points with the vectors embedded from its texts |
| `SyncDriver.Stored` | src/main.py:101-105 | the store contents after a sequence of flushes: each non-empty batch's points applied in turn |
| `SyncDriver.WrittenAppend` | src/main.py:101-105 | the store writes of successive flushes add up |
| `SyncDriver.StoredAppend` | src/main.py:101-105 | the store contents after successive flushes are the flushes applied in turn |
| `SyncDriver.FlushEvents` | src/main.py:85-90 | one flush event per batch, carrying its size |
| `SyncDriver.Advances` | src/main.py:92 | `latest_ts and latest_ts != oldest_ts`: a timestamp was tracked, it is non-empty, and it differs from the old cursor |
| `SyncDriver.Trace` | src/main.py:85-96 | the effects of one sync in order: one flush per batch, then a cursor write when the newest timestamp is non-empty and differs from the old cursor |
| `SyncDriver.FlushesPrecedeCursor` | src/main.py:85-96 | every flush happens before the cursor write, and there is at most one cursor write, the last event |
| `SyncDriver.NoMessagesNoCursor` | src/main.py:61-98 | a channel with no new messages indexes nothing and leaves every cursor unchanged |
| `SyncDriver.DataAfter` | src/main.py:92-93 | the cursors after one channel: the newest timestamp seen is stored under the channel when it is non-empty and differs from the old cursor |
| `SyncDriver.MessagesOf` | src/main.py:52-64 | the messages one channel's sync reads: the history from the stored cursor onwards |
| `SyncDriver.LatestOf` | src/main.py:52-69 | the newest timestamp a channel's sync tracks, starting from its stored cursor |
| `SyncDriver.ChannelGroups` | src/main.py:60-90 | the batches one channel's sync flushes: its messages' documents, batched by `batch_size` with nothing pending at the start |
| `SyncDriver.ChannelTotal` | src/main.py:85-98 | the count `sync_channel` returns: the number of documents built for the channel's messages |
| `SyncDriver.CursorAdvances` | src/main.py:61-96 | the cursor never moves back; a changed cursor is numerically greater; a written cursor is at least every synced message; other channels' cursors are untouched |
| `SyncDriver.Flush` | src/main.py:101-105 | `_flush` embeds the batch's texts, upserts the batch with those vectors, and returns its size |
| `SyncDriver.MessageDocuments` | src/main.py:71-82 | replies are fetched only for a thread root, and the message's documents are those the builder makes of it and its replies |
| `SyncDriver.SyncChannel` | src/main.py:39-98 | returns the number of documents built; writes and stores exactly the batch sequence; moves the cursor as `DataAfter` says; its trace, recorded as the effects happen, is the flushes in order and then the cursor write; when the cursor is written the store already holds every batch |
| `SyncDriver.IndexMessages` | src/main.py:60-87 | the loop tracks the newest timestamp and flushes full batches, leaving the remainder pending |
| `SyncDriver.FlushCounted` | src/main.py:85-90 | one flush adds its batch to those done, its size to the total and a flush event of that size to the trace |
| `SyncDriver.FinishChannel` | src/main.py:89-96 | the remainder is flushed if it is not empty, then the cursor is written if it advances; every write is in the store when the cursor is written |
| `SyncDriver.FlushStep` | src/main.py:85-90 | one flush adds its size to the count, one event to the trace, its write to the writes and its points to the store |
| `SyncDriver.CycleTotalFlushed` | src/main.py:114-116 | the cycle's total is the number of documents it flushes |
| `SyncDriver.CycleStep` | src/main.py:115-116 | one channel of the cycle: the next sync sees the cursors the previous one left |
| `SyncDriver.CycleTotal` | src/main.py:114-116 | the total of a cycle: the channels' counts summed, each sync seeing the cursors the previous ones left |
| `SyncDriver.CycleData` | src/main.py:114-116 | the cursors after a cycle: each channel's sync applied to the cursors the previous ones left |
| `SyncDriver.CycleGroups` | src/main.py:114-116 | the batches of a cycle: each channel's batches, channel after channel |
| `SyncDriver.RunOnce` | src/main.py:108-118 | a failed listing or no channels touches neither the store nor the state; otherwise the channels are synced in order, and the state, store and documents indexed are those of the cycle |
| `SyncDriver.AllowList` | src/main.py:109 | `cfg.channel_list or None`: no allow-list when the configured list is empty |
| `SyncDriver.SyncAll` | src/main.py:114-116 | the loop over the channels sums their counts and threads the cursors through them in order |
| `SyncDriver.SyncAllStep` | src/main.py:114-116 | one channel of the cycle loop keeps the batches, writes and store accounted for |

## Left out

- Network transport, `tenacity` retries, logging and warnings are not modelled. So are the `limit`, `types` and `exclude_archived` request arguments and the `oldest` argument. Each Web API call is replaced by the sequence of its answers; the history for a cursor is a function of that cursor.
- Pagination also stops when the modelled answers run out. The code would keep requesting as long as the server returns a cursor, or as long as joins keep succeeding.
- `get_channel_messages` is a generator. The model collects what it yields before `sync_channel` consumes it. The interleaving of fetching with building and flushing is not modelled, and neither is an exception raised midway.
- `SlackClient.resolve_text` renders mentions and links; it is a parameter of the builder. The user-name lookups made while building are the pure function `userName`. The cache's effect on them is modelled only in `Slack.SlackClient.UserName`.
- `_ts_to_date`, UTC date formatting and `float(ts)` are the parameters `tsToDate` and `tsValue`. Floating-point rounding is not modelled.
- UUID version 5 (SHA-1) is the symbolic, injective value `Uuid5(namespace, name)`. Its byte layout is not modelled.
- `src/embedder.py` and `src/query.py` are not part of this model: the embedder is a function from texts to vectors, and the query front end is left out.
- Qdrant's ranking, `limit`, and its date comparison are not modelled. `Range` on a string date field is modelled as a lexicographic comparison of ISO dates. `store.count()` is logged only and is left out.
- State-file I/O, `os.path.exists` and JSON decoding are reduced to the outcome of the load (read, unreadable, or absent). A file holding JSON that is not an object, and the writes of `_save`, are not modelled.
- `Processor.Chunk`: `_chunk`'s `max_chars` and `overlap` parameters are fixed at their defaults, 1500 and 200, the only values the code passes. With `overlap >= max_chars` the source loop would not end; the model does not represent that case.
- `Text.ParseInt`: CPython's `int()` refuses a string of more than 4300 digits (`sys.set_int_max_str_digits`) with `ValueError`; the model parses every length.
- `SyncDriver.Latest`: `float(ts)` is the total parameter `tsValue`. A timestamp that `float` refuses raises `ValueError` at src/main.py:68 and ends the sync; the model does not represent that.
- `StateStore.Initial`: a state file that is not valid UTF-8 raises `UnicodeDecodeError`, which the `except (json.JSONDecodeError, OSError)` of src/state.py:39 does not catch, so the constructor fails. The model treats every failed read as `Unreadable`, an empty state.
- `SyncDriver.MessageDocuments`: the replies come from the corrected `Slack.SlackClient.ThreadReplies` (see Findings), while src/main.py:74 calls `get_thread_replies` as written. The two agree whenever the first page of the thread holds a reply besides the root (`Slack.AsWrittenAgrees`); when it holds only the root, the code loses the first reply of the next page (`Slack.RootOnlyFirstPageDropsReply`).
- `SyncDriver.RepliesFor`: the same: it uses `Slack.IntendedReplies`, not `Slack.RepliesAsWritten`.
- `Slack.SlackClient.UserName`: `users.info` is a fixed function of the user id, so a lookup always gives the same answer. In the code a transient `SlackApiError` caches the user id as the name for good, even when a later call would succeed; "cached names agree with the directory" holds only for this fixed model. A `KeyError` from an answer without `user` escapes `except SlackApiError` (src/slack_client.py:175-184); the model has no such answer.
- `main()`'s scheduling loop, signal handling and logging set-up are outside the core and not modelled.
- `int()` accepts Unicode digits; the model handles ASCII digits, signs, surrounding whitespace and underscores between digits.
- `RUN_ONCE`'s `lower()` is modelled on ASCII letters. No non-ASCII character lowers to a letter of "true" or "yes", so the outcome is the same.
- A `KeyError` from a channel without `id` or a message without `ts` is not modelled: records always carry both. A channel without `name` under an allow-list is modelled as `ListingFailed`; it propagates out of `run_once` in the code.
- `Slack.Select`: on failure the contract names some nameless channel of the listing; the function returns the first one, as the comprehension would.
- `Slack.KeptMessages`: its contract gives membership and length; order is stated by `Slack.KeptAppend` and `Slack.KeptAll`.

## Findings

| source | as written | input that shows it | evidently intended | confidence | as-written member | corrected member |
|---|---|---|---|---|---|---|
| src/slack_client.py:156-158 | `msgs[1:] if not replies else msgs`: the root is dropped from every page until something has been gathered | pages `[root]` (next cursor "next") then `[r1, r2]` (no cursor) give `[r2]`; the reply `r1` is lost | drop the root from the first page only: all replies, without the root | high, by proof; not executed | `Slack.SlackClient.ThreadRepliesAsWritten`, `Slack.RootOnlyFirstPageDropsReply` | `Slack.SlackClient.ThreadReplies`, `Slack.IntendedReplies`, `Slack.AsWrittenAgrees` |

The sync model uses the corrected loop: `SyncDriver.MessageDocuments` fetches a thread's replies with `Slack.SlackClient.ThreadReplies`.
