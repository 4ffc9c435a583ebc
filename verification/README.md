# Proofs about the platform's self-contained cores

This project models nine cores of the repository in Dafny and proves what they are for. `dafny verify dfyconfig.toml`
checks all of it. Each core has a value-level model, an imperative model in the program's own form (objects, arrays,
loops, in-place updates) proved to do the same, and theorems about the value-level model.

| core | modules |
|---|---|
| SQL condition compiler | `SqlText` (a reader for the emitted SQL), `Conditions`, `ConditionReading`, `JsonReading`, `ConditionMeaning`, `ConditionTheorems`, `ConditionChecks` (what is taken, refused and written back), `ConditionLeaves` (texts, arguments and LIKE patterns of single comparisons), `ConditionSymbols` (dialects without symbol connectives), `ConditionBuild` (heap items rewritten in place) |
| Bulk-update compiler | `BulkUpdate`, `BulkStatement` (a reader and evaluator for the UPDATE statement), `BulkReading`, `BulkParsing`, `BulkTheorems`, `BulkCells` (what each kind of value becomes), `BulkCompiler` (the loops) |
| SDP printer and parser (section 5 of RFC 4566 with the `y=` and `f=` lines of GB/T 28181) | `Sdp`, `SdpParse`, `SdpFields`, `SdpLines` (text to lines), `SdpReading` (other spellings, refusals), `SdpWriting` (order of lines), `SdpFull` (what comes back unchanged), `SdpRoundTrip`, `SdpMediaRoundTrip`, `SdpTheorems`, `SdpLimits`, `SdpEncoder` (growing buffer), `SdpDecoder` (shared scratch slice), `SdpTrip` |
| Fixed-grid trailing throttle | `Throttle` (state machine), `ThrottleFates`, `ThrottleStarts` (calls in a callback's hand), `ThrottleTiming`, `ThrottleRuns`, `ThrottleIdle`, `ThrottleRetries`, `ThrottleGrid` (entry objects, map, timers) |
| S3 upload queue | `UploadQueue` (state machine), `QueueConservation`, `QueueOutcomes`, `QueueFlush`, `QueueRuns`, `QueueObject`, `UploadRetry` |
| Gatekeeper | `Encryption` (tokens, CBC in place), `Gatekeeper` (state machine), `GatekeeperSafety`, `GatekeeperOrigin`, `GatekeeperObject`, `RateLimit`, `RateLimitRuns` |
| ORM query cache | `QueryCache` (state machine), `CacheCoherence`, `CacheRuns`, `CacheKeys`, `CacheObject` |
| Categories | `Categories`, `CategoryForest`, `CategorySearch`, `CategoryObject` |
| G.711 codec (section 3 of ITU-T G.711) | `G711`, `G711Codec`, `G711Stream` |

How concurrency is modelled: a lock-held region, a start of a goroutine outside a lock, a channel operation, a store command
or a reading of the clock is one step, steps of different goroutines interleave freely, and a theorem about runs is about every finite sequence of steps;
a step that is not possible in a state leaves the state alone.

## Where the code does less than it says

- `connection` does not invert when a TTL is written (core/pkg/sdp/decoder.go:274-288): `ConnectionRoundTripExactly` says
  exactly when a connection comes back. More than 20 time zones, 1024 formats or 1022 offsets do not come back either
  (`SdpLimits`).
- The throttle promises that a call starts at its slot's right end (core/pkg/dt/throttle_fixed_grid.go:94-95 and 125). A
  callback that was already in flight when its timer was stopped can take the next slot's call and start it early
  (`ReplacedTimerStartsEarly`, exactly when: `GoStartsEarlyExactly`), and then the slot can start two calls
  (`SlotCanStartTwice`); every other start is on time (`LaunchedAfterSlotEnd`). The comment at line 154 says that an
  earlier slot's call is run synchronously; the code starts a goroutine, and so does the model.
- The throttle's calls are taken in the order they were accepted (`TakesFollowAcceptance`), but a callback starts its call
  after it has left the lock (core/pkg/dt/throttle_fixed_grid.go:134-139), and in between a call of the next slot can start
  a later one under the lock: the calls of a key can start in the wrong order (`StartsCanBeInverted`, exactly when:
  `StartsInOrderExactly`).
- The condition compiler writes the connectives `&&` and `||` for every database, and its validator admits them, but only
  MySQL reads them as AND and OR. In the other dialects a list joined by them is read as one atom (`TwoBecomeOneAtom`), which
  stands for whatever the dialect does with the text, be it to refuse it;
  `CompiledTextMeansTree` says for all trees exactly when the text is read as the tree, and `TruthKeptExactly` for lists of
  comparisons exactly when the truth is kept.
- JSON membership is written with `MEMBER OF` for every database but SQLite (core/pkg/orm/orm.foundation.go:572-582), and only
  MySQL has that operator: `MySqlMembership` is for MySQL; elsewhere `JsonContainsMeaning` says how the text reads, and what
  the atom means, if anything, is the database's.
- The waiting gauge of the upload queue can be negative, and each requeue and each loss leaves it too high for good
  (`GaugeCanBeNegative`, `GaugeDrifts`).
- A result that a stream has taken when it is cancelled is gone without a log line (`CancelledStreamDropsResult`); every other
  loss is logged (`LossesAreLogged`).
- The rate limit of a second fails when a script runs after its counter has expired (`LateScriptResetsCounter`);
  `LimitPerSecond` says exactly when it holds. Late scripts can let any multiple of the limit pass at one instant
  (`LateScriptsPassTogether`).
- A default text of a bulk update is put between quotes as it is. One that ends in a backslash leaves its literal open in MySQL
  (`BackslashLeavesOpen`).
- The SDP encoder writes zones, keys and attributes of the header before the timing, and a section's mode before its information,
  connections, bandwidths and keys; section 5 of RFC 4566 has them behind (`StandardOrderExactly` says for which sessions that
  shows). The decoder takes any order.
- An SDP time at the Unix epoch is written as 0 and read back as the zero time (`TimeExactly`).
- A bulk update with a column whose records are all skipped is not valid SQL (`CompiledIsRead`). A row that is missing from
  one column's list loses its value there (`DifferentListsOverwrite`), and of two values for one key the first is written
  (`RepeatedKeyTakesFirst`); `SameAsOneByOneExactly` says when the statement does what its assignments do one by one.
- A query that reads before a write and stores its rows after the write has dropped the table's keys leaves old rows in the
  cache (`LateStoreServesOldRows`, exactly when: `CurrentExactly`). Two stores that overlap can leave a key out of the recorded
  list (`OverlappingStoresForgetKeys`). With an empty prefix a write drops nothing (`StaleWithoutPrefix`).
- A cache hit reports one affected row whatever the number of rows (`AnswersAreCurrent`).
- The mu-law byte 0x7F is re-encoded as 0xFF (`UlawBytesSurvive`).

## Assumptions of the main results

- Conditions: hand-written SQL is a well-formed boolean expression of its dialect with as many placeholders as values; column
  names are identifiers; a single value is compared with a comparison operator or `like`. MySQL, and no other dialect, reads
  `&&` as AND and `||` as OR (which is MySQL without its PIPES_AS_CONCAT mode). Quoted text holds no backslash, or the
  database is in MySQL's NO_BACKSLASH_ESCAPES mode: this project's reader takes a backslash as itself.
- Bulk update: raw SQL and defaults can stand in a CASE (they can be read, are not empty, have no placeholder, and their own
  CASEs are closed); names hold no backtick, and quoted text no backslash, as above. Assignments of an UPDATE take effect from
  left to right.
- SDP: `GoodSession` in `Sdp.dfy` states the well-formedness of a session: an origin, no line ends, no separators inside
  separated fields, whole-second times other than the Unix epoch, bandwidth keys that are not empty (an empty one is written as
  `-`), distinct payloads, connections that come back, lists within the decoder's limits.
- Gatekeeper: JSON, base64 and the block cipher can be undone; the key has the length of a cipher block, because it is also
  the initial vector; the clock does not go back and expiries do not exceed 64 bits; one gatekeeper issues all credentials of
  the store, or the store was left by an earlier run of it.
- Query cache: the hash of SQL texts has no collisions; the result of SQL depends on its table only; prefixes and table
  names are not empty and hold no colon; for a cached result to be current every kind of write drops its table's keys. A
  change is visible to queries before the hook after the write runs.
- Categories: ids are integers other than 0; in the results about forests and searches no two items share one.

## Model

| member | source | states |
|---|---|---|
| ConditionTheorems.CompiledTextMeansTree | core/pkg/orm/orm.db.condition.go:144-255 | The expression that a condition tree of any depth stands for (siblings an OR of AND-runs, the first connective ignored, inner lists groups) has one placeholder per argument and the truth of the tree on every row and for every database; the where-text is read as that expression if and only if the dialect reads the symbols as connectives or no sibling at any level is joined to the one before it by a symbol |
| ConditionSymbols.TruthKeptExactly | core/pkg/orm/orm.db.condition.go:181-254 | For any list of single comparisons over different columns the text has the truth of the list on every row and for every database if and only if the dialect reads the symbols as connectives or no symbol joins two comparisons |
| ConditionSymbols.TwoBecomeOneAtom | core/pkg/orm/orm.db.condition.go:232-254 | Two comparisons joined by a symbol that the dialect does not read as a connective: the text, and the one atom it is read as |
| ConditionSymbols.AbsorbedSymbolKeepsTruth | core/pkg/orm/orm.db.condition.go:181-254 | Where a comparison is repeated, the compiled text, as read with its one atom, can keep the truth of the list although a symbol is not read as a connective, so that the symbols decide the reading and not always the truth |
| ConditionChecks.AcceptedExactly | core/pkg/orm/orm.db.condition.go:88-134 | A call succeeds if and only if each item at every level has a valid operator and connective, and inner items or a known column with something to compare, and JSON membership is asked of a named dialect; a call without items, where that is allowed, gives the empty text |
| ConditionChecks.RefusedExactly | core/pkg/orm/orm.db.condition.go:144-205 | Which error a call answers: that of the first item, depth first, that is not acceptable, by its column, operator, connective, inner items and dialect in this order |
| ConditionChecks.ItemsLeft | core/pkg/orm/orm.db.condition.go:158-205 | What a call writes into the items, whether it succeeds or not: defaults and rewritten JSON membership up to the first item that is refused, nothing after it |
| ConditionTheorems.PlaceholdersMatchArguments | core/pkg/orm/orm.db.condition.go:186-242 | At every nesting depth and in every dialect the marks in the text are as many as the arguments, IN lists, like-wrapping and rewritten JSON membership included |
| ConditionTheorems.CompileTwice | core/pkg/orm/orm.db.condition.go:158-205 | A second call on the items that the first one rewrote returns the same text, arguments or error |
| ConditionTheorems.ItemTwice | core/pkg/orm/orm.db.condition.go:159-206 | Compiling an item that has been compiled before changes neither it nor the result, so the retry after a JSON rewrite happens at most once |
| ConditionReading.StripExact | core/pkg/orm/orm.db.condition.go:181-184 | The six trims by character sets remove exactly the leading connective and nothing of a text whose ends are safe |
| ConditionMeaning.SiblingsAreGroup | core/pkg/orm/orm.db.condition.go:245-254 | Reading a flat list with AND binding tighter than OR is the declared truth of a sibling group, in three-valued logic |
| ConditionMeaning.PiecesMeaning | core/pkg/orm/orm.db.condition.go:245-254 | The expression of pieces has the truth of their group and their placeholders; their text, trimmed, reads as that expression when the dialect reads every join as a connective |
| ConditionLeaves.OneComparison | core/pkg/orm/orm.db.condition.go:229-242 | Compiling one comparison gives the column in the quotes of its dialect, the operator (`=` if there is none) and a mark; bound is the value itself, or for `like` a percent sign, the value as text and a percent sign, and for `llike` a percent sign and the value as text |
| ConditionLeaves.OneList | core/pkg/orm/orm.db.condition.go:206-226 | Compiling a column with a list of values gives `in` or `not in` with one mark for each value, and the values in order |
| ConditionLeaves.LikeMeansContains | core/pkg/orm/orm.db.condition.go:229-235 | For a database that compares LIKE by patterns, the compiled text of `column like v`, with no wildcard in v, is true of a text in that column if and only if the text contains v |
| ConditionLeaves.LlikeMeansEndsIn | core/pkg/orm/orm.db.condition.go:237-240 | For a database that knows `llike` and compares it by patterns, the text of `column llike v` is true of a text if and only if the text ends in v |
| JsonReading.JsonContainsMeaning | core/pkg/orm/orm.foundation.go:555-582 | The query made for JSON membership reads as one expression and takes one argument per value: one EXISTS for SQLite, and for every other database an OR of one MEMBER OF per value |
| JsonReading.MySqlMembership | core/pkg/orm/orm.foundation.go:572-582 | On MySQL, which knows MEMBER OF, that query means that some value is in the JSON array |
| ConditionBuild.ConditionItem.OperatorValidate | core/pkg/orm/orm.db.condition.go:88-100 | The default operator is written into the item, and only the listed operators pass |
| ConditionBuild.ConditionItem.LogicalOperatorValidate | core/pkg/orm/orm.db.condition.go:102-115 | The default connective is written into the item, and only the six spellings pass |
| ConditionBuild.TrimConnectives | core/pkg/orm/orm.db.condition.go:182-184 | The loop over the six spellings is the six trims in order |
| ConditionBuild.DoLeaf | core/pkg/orm/orm.db.condition.go:191-242 | A leaf: hand-written SQL, a value list, a single value, or JSON membership rewritten in place and retried |
| ConditionBuild.DoGroup | core/pkg/orm/orm.db.condition.go:175-189 | A group: the inner compiler run, trimmed behind its connective, in parentheses |
| ConditionBuild.DoItem | core/pkg/orm/orm.db.condition.go:158-243 | One turn of the loop does to the item and appends what the value-level compiler says |
| ConditionBuild.Do | core/pkg/orm/orm.db.condition.go:144-255 | The whole call over heap objects returns the compiler's result and leaves every item of the tree as the compiler does, also when it stops at an error |
| SdpTheorems.RoundTrip | core/pkg/sdp/decoder.go:39-431 | Decoding the rendering of any well-formed session gives the session back up to defaults, for any number of media sections and attributes and whatever the order in which bandwidth maps are walked |
| SdpTheorems.RoundTripOfLines | core/pkg/sdp/decoder.go:41-76 | The same for every text that has the session's lines, whether they end in a line feed or in returns and a line feed, whether or not the last one ends at all, and whatever follows after an empty line |
| SdpLines.DecodedExactly | core/pkg/sdp/decoder.go:41-76 | Decoding any text, LF-only or not, with the last line end present or missing: its lines are folded into the session; decoding ends after the last line, or at an empty line once there is an origin, and fails with the number and the text of the first line that has no shape or is refused, or at the end without an origin |
| SdpLines.EveryTextHasLines | core/pkg/sdp/decoder.go:443-459 | Every text consists of lines that end in returns and a line feed, and a last line that may be empty |
| SdpReading.UnexpectedExactly | core/pkg/sdp/decoder.go:78-172 | A line is unexpected if and only if its kind does not belong where it stands, or it is a second origin or connection |
| SdpReading.PiecesExactly | core/pkg/sdp/decoder.go:416-431 | A text is cut at every separator until there are as many pieces as may be |
| SdpReading.TooFewPieces | core/pkg/sdp/decoder.go:174-357 | Lines with too few pieces are badly formed, and keys and attributes without a colon have no value |
| SdpReading.DurationSpelled | core/pkg/sdp/decoder.go:387-406 | A number of days, hours, minutes or seconds is read as nanoseconds, modulo 2^64 |
| SdpReading.FormatMapSpelled | core/pkg/sdp/decoder.go:198-217 | A format map without a clock rate has 90000, and one without channels leaves them alone |
| SdpReading.UnknownPayloadIgnored | core/pkg/sdp/decoder.go:174-186 | An attribute of a payload type that the section does not have is skipped over |
| SdpReading.StarsIgnored | core/pkg/sdp/decoder.go:236-246 | Stars in a list of payload types count for nothing |
| SdpReading.PortSpelled | core/pkg/sdp/decoder.go:219-248 | The port of a media line may have a number of ports after a slash |
| SdpReading.AddressSpelled | core/pkg/sdp/decoder.go:267-291 | An address is read alone, with a number of addresses, and with a time to live, which takes the place of the address |
| SdpFull.UnchangedExactly | core/pkg/sdp/encoder.go:40-263 | Of the sessions that come back normalised, those come back unchanged that have a timing and leave none of the always written fields empty |
| SdpFull.EmptyBecomes | core/pkg/sdp/encoder.go:162-247 | What the empty ones become: a dash, or the local host over IPv4, or a timing without ends |
| SdpFull.ZeroExactly | core/pkg/sdp/encoder.go:177-184 | An instant is written as 0 if and only if it is the zero time or in the second of the Unix epoch |
| SdpFull.DurationCut | core/pkg/sdp/encoder.go:186-200 | The fraction of any duration is dropped towards zero by the trip |
| SdpFull.LargestUnit | core/pkg/sdp/encoder.go:186-200 | A duration is written in the largest unit that divides its seconds |
| SdpFull.CountsWritten | core/pkg/sdp/encoder.go:86-136 | Numbers of ports and channels are written after a slash when they are positive, and not otherwise |
| SdpFull.PayloadWritten | core/pkg/sdp/encoder.go:128-143 | An attribute about a payload type is its name, the payload type and the value |
| SdpWriting.KindsOfSession | core/pkg/sdp/encoder.go:40-143 | How many lines of which kind any session is written as, and in which order |
| SdpWriting.StandardOrderExactly | core/pkg/sdp/encoder.go:40-126 | The lines are in the order of section 5 of RFC 4566 if and only if the header has no zones, keys, mode or attributes, which are written before the timing, and no section has a mode, which is written first, together with information, connections, bandwidths or keys |
| SdpTrip.EncodeThenDecode | core/pkg/sdp/sdp.go:32-40 | The growing encoder buffer followed by the decoder with its shared scratch slice gives a well-formed session back, normalised |
| SdpFields.ConnectionRoundTripExactly | core/pkg/sdp/encoder.go:217-226 | A connection comes back if and only if it has no TTL and no single or negative address count, or TTL and address are spelt alike; otherwise the TTL is taken for the address |
| SdpLimits.ZonesExactly | core/pkg/sdp/decoder.go:306-322 | Time zones of whole seconds come back if and only if there are at most 20 |
| SdpLimits.FormatListExactly | core/pkg/sdp/decoder.go:236-246 | The payload types of a media line come back if and only if there are at most 1024 |
| SdpLimits.RepeatExactly | core/pkg/sdp/decoder.go:354-375 | A repeat line of whole seconds comes back if and only if it has at most 1022 offsets |
| SdpLimits.SplitOverflow | core/pkg/sdp/decoder.go:416-431 | A cut at its limit keeps all that is left, separators included, in the last piece |
| SdpFields.SplitJoinAll | core/pkg/sdp/decoder.go:416-431 | Joining pieces and cutting at the separator gives them back, the last piece free to hold separators when the limit is reached |
| SdpFields.OriginRound | core/pkg/sdp/decoder.go:250-265 | An origin line is read back, empty transport fields as their defaults |
| SdpFields.DurationRound | core/pkg/sdp/encoder.go:186-200 | A whole-second duration written with the largest fitting unit is read back |
| SdpFields.TimeExactly | core/pkg/sdp/decoder.go:377-385 | An instant comes back if and only if it has whole seconds and is not the Unix epoch, which is written as 0 and read as the zero time |
| SdpFields.MediaLineRound | core/pkg/sdp/decoder.go:219-248 | A media line gives type, port, port count, protocol and bare formats back |
| SdpFields.RtpmapRound | core/pkg/sdp/decoder.go:198-217 | A format map line is read back, channels included |
| SdpMediaRoundTrip.FoldFormats | core/pkg/sdp/encoder.go:128-143 | The attribute lines of formats with distinct payloads restore every format, in order |
| SdpMediaRoundTrip.FoldSession | core/pkg/sdp/decoder.go:39-76 | The header lines followed by the media sections, read line by line, build the normalised session |
| SdpRoundTrip.DecodeRendered | core/pkg/sdp/decoder.go:443-459 | Reading rendered lines one after the other is decoding the text |
| Text.ShowInt64Length | core/pkg/sdp/encoder.go:274-278 | A printed 64-bit integer fits into the twenty bytes that are reserved for it |
| Text.ParseShow | core/pkg/sdp/decoder.go:408-410 | Printing and parsing a 64-bit integer gives it back |
| SdpEncoder.Encoder.Grow | core/pkg/sdp/encoder.go:301-314 | Growing keeps everything written and makes room for what was asked |
| SdpEncoder.Encoder.Next | core/pkg/sdp/encoder.go:292-299 | The next bytes are reserved behind what was written |
| SdpEncoder.Encoder.Str | core/pkg/sdp/encoder.go:241-247 | What was written is followed by the string, or by a dash for the empty one |
| SdpEncoder.Encoder.Int | core/pkg/sdp/encoder.go:274-278 | The over-reserving integer path appends exactly the digits |
| SdpEncoder.Encoder.Fields | core/pkg/sdp/encoder.go:249-263 | Three fields are copied into one reservation with spaces between them |
| SdpEncoder.Encoder.Add | core/pkg/sdp/encoder.go:280-290 | A line end is written before every line but the first |
| SdpEncoder.Encoder.Duration | core/pkg/sdp/encoder.go:186-200 | The unit loop writes the duration's text |
| SdpEncoder.Encoder.Connection | core/pkg/sdp/encoder.go:217-239 | The transport fields, then TTL and count after slashes |
| SdpEncoder.Encoder.FormatLinesOf | core/pkg/sdp/encoder.go:128-143 | The lines of one format |
| SdpEncoder.Encoder.MediaOf | core/pkg/sdp/encoder.go:86-126 | The lines of one media section |
| SdpEncoder.Encoder.SessionOf | core/pkg/sdp/encoder.go:40-84 | The lines of a session, media sections last |
| SdpEncoder.Encoder.Bytes | core/pkg/sdp/encoder.go:316-324 | The final line end is written and the text is everything written since the reset |
| SdpEncoder.Encoder.Encode | core/pkg/sdp/encoder.go:23-34 | For every session, well-formed or not, the text is the rendering of its lines |
| SdpDecoder.Decoder.Split | core/pkg/sdp/decoder.go:416-431 | The loop over the scratch slice leaves in it the pieces of a pure cut |
| SdpDecoder.Decoder.Connection | core/pkg/sdp/decoder.go:267-291 | The address is cut in the slice that held the fields, and the result is that of two independent cuts |
| SdpDecoder.Decoder.Duration | core/pkg/sdp/decoder.go:387-406 | Units, parsing and 64-bit wrap-around of the products |
| SdpDecoder.Decoder.TimeZones | core/pkg/sdp/decoder.go:306-322 | Pairs are taken off the slice until fewer than two pieces are left; the first bad one is the error |
| SdpDecoder.Decoder.Proto | core/pkg/sdp/decoder.go:219-248 | Three cuts into the same slice, each read before the next overwrites it |
| SdpDecoder.Decoder.Rtpmap | core/pkg/sdp/decoder.go:198-217 | The map is cut once more with the default clock rate when it has none |
| SdpDecoder.Decoder.FormatLine | core/pkg/sdp/decoder.go:174-196 | A format attribute changes the first format with its payload, or nothing |
| SdpDecoder.Decoder.MediaLine | core/pkg/sdp/decoder.go:134-172 | One line of a media section |
| SdpDecoder.Decoder.SessionLine | core/pkg/sdp/decoder.go:78-132 | One line of the header, a second origin or connection refused |
| SdpDecoder.Decoder.ReadLine | core/pkg/sdp/decoder.go:443-459 | The next line without its line end, and the text that is left |
| SdpDecoder.Decoder.Decode | core/pkg/sdp/decoder.go:39-76 | The loop over lines computes the pure decoder, errors with kind, line number and text |
| ThrottleStarts.EveryAcceptedCallHasOneFate | core/pkg/dt/throttle_fixed_grid.go:111-224 | In every interleaving an accepted call is pending, overwritten, in the hand of a callback that has left the lock, or started: one of these, once |
| ThrottleFates.EveryCallIsAcceptedOnce | core/pkg/dt/throttle_fixed_grid.go:156-224 | Every call that is not refused is still in its retry loop, has given up after 64 attempts, or was accepted once |
| ThrottleFates.PendingHasLiveTimer | core/pkg/dt/throttle_fixed_grid.go:51-109 | A pending call is held by the entry that is in the map, under a timer that is armed or about to run |
| ThrottleFates.OneLiveEntryPerKey | core/pkg/dt/throttle_fixed_grid.go:51-75 | Across removal and recreation a key has at most one entry with a pending call |
| ThrottleFates.TakesFollowAcceptance | core/pkg/dt/throttle_fixed_grid.go:111-224 | The calls of a key are taken off its entries in the order in which they were accepted, in every run, stale timers included |
| ThrottleStarts.StartsInOrderExactly | core/pkg/dt/throttle_fixed_grid.go:125-142 | In every run the calls of a key start in the order in which they were accepted if and only if none of them was started while a callback held an earlier one, taken under the lock, that it started afterwards |
| ThrottleRuns.StartsCanBeInverted | core/pkg/dt/throttle_fixed_grid.go:134-139 | For every key there is a run that starts its second call before its first: a callback takes the first and leaves the lock, and before it starts it a call in the next slot starts the second under the lock |
| ThrottleStarts.RunHands | core/pkg/dt/throttle_fixed_grid.go:111-224 | In every state of every run a taken call is in one callback's hand or has started, once, and not before it was taken |
| ThrottleFates.RunKeeps | core/pkg/dt/throttle_fixed_grid.go:53-224 | All links between map, entries, timers and logs hold in every state of every run |
| ThrottleTiming.LaunchedAfterSlotEnd | core/pkg/dt/throttle_fixed_grid.go:94-142 | With one period per key a call starts at or after epoch + (slot+1)*period, unless a timer that was already replaced took it |
| ThrottleTiming.GoStartsEarlyExactly | core/pkg/dt/throttle_fixed_grid.go:125-142 | In every run in which a callback takes its entry's pending call under the lock and, after any other steps, starts it, the start is early if and only if the timer had been replaced at the take and the slot's right end still lies ahead at the start |
| ThrottleRuns.SlotCanStartTwice | core/pkg/dt/throttle_fixed_grid.go:125-142 | For every key there is a run in which, after an early start, one slot starts two calls |
| ThrottleTiming.SlotLaunchedOnce | core/pkg/dt/throttle_fixed_grid.go:125-224 | A slot starts two calls only if the one accepted first had been taken before the slot's right end, by a replaced timer |
| ThrottleTiming.LastCallOfSlotIsKept | core/pkg/dt/throttle_fixed_grid.go:210-221 | The last call of a slot is never overwritten: it is pending, in a callback's hand or started |
| ThrottleTiming.PendingCallCanStart | core/pkg/dt/throttle_fixed_grid.go:96-142 | From every reachable state, waiting for its timer starts a pending call |
| ThrottleTiming.AcceptedInSlot | core/pkg/dt/throttle_fixed_grid.go:195-209 | With one period per key the time of every accepted call lies in its slot, from epoch + slot*period up to epoch + (slot+1)*period, which is its boundary |
| ThrottleIdle.CallbackRemovesKey | core/pkg/dt/throttle_fixed_grid.go:53-75 | After a callback that nothing interrupts its key is not in the map, if its entry was the one there |
| ThrottleIdle.NextCallBeginsGrid | core/pkg/dt/throttle_fixed_grid.go:53-75 | Whenever a run has left an idle entry in the map, its removal takes the key out, and the key's next uninterrupted call is accepted on a new entry, in slot 0, with its own time as epoch and now + period as boundary and timer |
| ThrottleRetries.GivesUpExactly | core/pkg/dt/throttle_fixed_grid.go:161-193 | In every run a call has given up if and only if 64 attempts of it have failed; while it tries, fewer have |
| ThrottleRetries.RefusedExactly | core/pkg/dt/throttle_fixed_grid.go:156-161 | A call without a key, a function or a positive period is refused, and any other gets into its retry loop |
| ThrottleRuns.ReplacedTimerStartsEarly | core/pkg/dt/throttle_fixed_grid.go:77-92 | For every key there is a run in which a replaced timer's callback starts a call before its slot ends |
| ThrottleGrid.GridEntry.StopTimer | core/pkg/dt/throttle_fixed_grid.go:77-92 | Stopping marks an armed timer as stopped, leaves an expired one in flight and clears the field |
| ThrottleGrid.GridEntry.ScheduleSlotEnd | core/pkg/dt/throttle_fixed_grid.go:94-109 | A new timer for the slot's right end, or for now |
| ThrottleGrid.GridEntry.FlushPending | core/pkg/dt/throttle_fixed_grid.go:111-123 | The pending call is taken out, the slot reset and the timer stopped |
| ThrottleGrid.GridEntry.TakeOnFire | core/pkg/dt/throttle_fixed_grid.go:125-135 | The callback's region under the lock is the machine's take: the pending call leaves the entry and is in the callback's hand |
| ThrottleGrid.Grid.Go | core/pkg/dt/throttle_fixed_grid.go:136-139 | Outside the lock the callback starts the call in its hand |
| ThrottleGrid.GridEntry.OnSlotTimerFire | core/pkg/dt/throttle_fixed_grid.go:125-142 | A whole callback that nothing interrupts is its take, its start and the removal of an idle entry, in order |
| ThrottleGrid.GridEntry.StartEarlierSlot | core/pkg/dt/throttle_fixed_grid.go:209-217 | A call in a later slot takes the pending one and starts it under the lock |
| ThrottleGrid.GridEntry.RemoveIfIdle | core/pkg/dt/throttle_fixed_grid.go:53-75 | The entry leaves the map only when idle and still the one in the map |
| ThrottleGrid.GridEntry.Accept | core/pkg/dt/throttle_fixed_grid.go:194-221 | The locked part of a call: grid, slot, earlier slot started, call pending, timer armed |
| ThrottleGrid.Grid.Locked | core/pkg/dt/throttle_fixed_grid.go:181-223 | The lock region checks the map again and accepts or retries |
| ThrottleGrid.Grid.Trailing | core/pkg/dt/throttle_fixed_grid.go:156-224 | A whole call that nothing interleaves with is its steps in order |
| ThrottleGrid.AloneIsAccepted | core/pkg/dt/throttle_fixed_grid.go:161-224 | Such a call is accepted at its first attempt |
| QueueConservation.EveryTaskIsSomewhereOnce | core/pkg/s3obs/s3_upload_queue.go:142-259 | In every run each accepted task is in one channel, buffer, worker, result channel or goroutine, or was delivered once, or was lost once in a branch that logs it, or was dropped once by a cancelled stream; nothing else is anywhere |
| QueueConservation.LossesAreLogged | core/pkg/s3obs/s3_upload_queue.go:459-488 | Every task that is nowhere and was not delivered has one log line, if and only if no stream was cancelled while it held a result |
| QueueRuns.CancelledStreamDropsResult | core/pkg/s3obs/s3_upload_queue.go:470-476 | For all sizes of the queue there is a run in which a cancelled stream drops the only result and nothing is logged |
| QueueConservation.WaitingGauge | core/pkg/s3obs/s3_upload_queue.go:521-547 | The waiting gauge equals channels plus twice the dispatcher's tasks plus tasks in flight plus requeues plus twice the lost tasks plus the lost and dropped results, up to the updates still owed |
| QueueConservation.WaitingAtLeastMinusUncounted | core/pkg/s3obs/s3_upload_queue.go:362-379 | The gauge is below zero by at most the number of sends not yet counted |
| QueueConservation.CountedSendsKeepGaugeNonNegative | core/pkg/s3obs/s3_upload_queue.go:354-379 | When a send and its count are one step the gauge is never negative |
| QueueRuns.GaugeCanBeNegative | core/pkg/s3obs/s3_upload_queue.go:362-379 | With the two steps apart there is a run that shows -1, for all sizes of the queue |
| QueueConservation.GaugeDrifts | core/pkg/s3obs/s3_upload_queue.go:175-212 | After everything has drained the gauge is zero if and only if nothing was requeued or lost, and totals, successes and failures are the history's |
| QueueConservation.RunBooks | core/pkg/s3obs/s3_upload_queue.go:142-259 | Flow equations, statistics less the updates still owed, and channel capacities hold in every state of every run |
| QueueConservation.ActiveGauge | core/pkg/s3obs/s3_upload_queue.go:222-246 | In every run the active gauge, which changes in steps of its own, is the number of uploads under way and of those just ended, and no more than the workers |
| QueueOutcomes.ResultIsOutcome | core/pkg/s3obs/s3_upload_queue.go:232-329 | In every run a result that is anywhere, or was delivered, lost or dropped, has the outcome of its task: some step ended the upload of that task with it, and no step ended it with another |
| QueueOutcomes.BookedFailures | core/pkg/s3obs/s3_upload_queue.go:530-540 | Once no result is on its way, none was lost or dropped and all are booked, the failures are the uploads that failed, counted over the steps of the run, and the successes are the others |
| QueueRuns.WaiterGetsResult | core/pkg/s3obs/s3_upload_queue.go:355-457 | For all sizes and every task that fits, urgent or not and with any outcome, there is a run in which a waiter gets its result, everything is drained, and the books show one task with that outcome |
| QueueRuns.WrongWaiterReturnsResult | core/pkg/s3obs/s3_upload_queue.go:433-488 | A result that a waiter for another task takes is put back and delivered by a stream |
| QueueRuns.WrongWaiterLosesResult | core/pkg/s3obs/s3_upload_queue.go:443-450 | When the result channel stays full, the result that a waiter for another task took is lost |
| QueueRuns.RefusedExactly | core/pkg/s3obs/s3_upload_queue.go:355-379 | A task goes to the end of its channel unless that is full: half the size of the queue for priorities up to 2, all of it for others |
| QueueRuns.WorkersHaveRoomForTen | core/pkg/s3obs/s3_upload_queue.go:108 | Tasks are handed over until ten wait for each worker |
| QueueRuns.OldestFirst | core/pkg/s3obs/s3_upload_queue.go:151-159 | The dispatcher, the workers, waiters and streams take the oldest that is in their channel |
| QueueRuns.CapacitiesHold | core/pkg/s3obs/s3_upload_queue.go:82-112 | In every run no channel holds more than its capacity |
| QueueRuns.FlushOrders | core/pkg/s3obs/s3_upload_queue.go:176-188 | A flush is always possible; without priorities it keeps the order, with them it takes any order in which no task comes before a more urgent one |
| QueueRuns.FirstInFirstOut | core/pkg/s3obs/s3_upload_queue.go:142-212 | As long as nothing was sent back, the tasks of a kind wait in the order in which they were accepted |
| QueueFlush.FlushResult | core/pkg/s3obs/s3_upload_queue.go:176-212 | A flush hands over, in order, as many tasks as fit, and sends each other task back to its own channel as far as that has room |
| QueueFlush.UrgentFirst | core/pkg/s3obs/s3_upload_queue.go:182-212 | With priorities on, no task sent back was more urgent than one handed over |
| QueueObject.Queue.AddTask | core/pkg/s3obs/s3_upload_queue.go:355-379 | A task is refused exactly when its channel is full |
| QueueObject.Queue.AddBatchTasks | core/pkg/s3obs/s3_upload_queue.go:391-404 | Tasks are added in order; the counts of added and refused are exact |
| QueueObject.Queue.OnTask | core/pkg/s3obs/s3_upload_queue.go:153-155 | Pulling moves the oldest task to the buffer and counts it |
| QueueObject.Queue.OnPriorityTask | core/pkg/s3obs/s3_upload_queue.go:157-159 | The same for the priority channel |
| QueueObject.Queue.OnTick | core/pkg/s3obs/s3_upload_queue.go:161-164 | A tick flushes both buffers and empties them |
| QueueObject.Queue.FlushTasks | core/pkg/s3obs/s3_upload_queue.go:189-211 | The flush loop is the machine's hand-off steps to the end |
| QueueObject.Queue.TakeTask | core/pkg/s3obs/s3_upload_queue.go:222-239 | A worker takes the oldest task and counts itself as active |
| QueueObject.Queue.DeliverResult | core/pkg/s3obs/s3_upload_queue.go:239-256 | After an upload the worker counts itself out; its result is offered once and dropped when the channel is full |
| QueueObject.Queue.AwaitResult | core/pkg/s3obs/s3_upload_queue.go:436-450 | A waiter ends only with the result of its own id and puts any other back |
| QueueObject.Queue.UpdateStatsOnResult | core/pkg/s3obs/s3_upload_queue.go:530-540 | One delivered result is booked as success or failure |
| UploadRetry.ProcessTask | core/pkg/s3obs/s3_upload_queue.go:297-329 | How often an upload is tried, what the result is and how long it sleeps; with negative retries nothing is tried and the task counts as uploaded |
| UploadRetry.UploadedIff | core/pkg/s3obs/s3_upload_queue.go:297-329 | A task is uploaded if and only if some try within the limit succeeds after nothing but failures worth another try |
| UploadRetry.FailedBecause | core/pkg/s3obs/s3_upload_queue.go:297-329 | A task is not uploaded because its deadline had passed, because every try failed, or because an error was not worth another try, and the result says which |
| UploadRetry.RetryableExactly | core/pkg/s3obs/s3_upload_queue.go:333-352 | An error is worth another try if and only if one of the eight words occurs in its message, in whatever letter case |
| UploadRetry.CheckRetryable | core/pkg/s3obs/s3_upload_queue.go:333-352 | The loop finds whether a listed word occurs in the lower-case message |
| Encryption.OpenSeal | core/pkg/gatekeeper/gatekeeper.go:546-593 | A token opens to the item it was made of if and only if that has an id |
| Encryption.SealInjective | core/pkg/gatekeeper/gatekeeper.go:546-562 | Different items have different tokens |
| Encryption.CbcInverse | core/pkg/functions/encryption.go:56-81 | CBC decryption undoes CBC encryption for any number of blocks and any block permutation |
| Encryption.PaddingComesOff | core/pkg/functions/encryption.go:33-53 | Padding comes off again if and only if there was something to pad; otherwise a whole block is left |
| Encryption.SwapTwice | core/pkg/gatekeeper/gatekeeper.go:596-602 | Scrambling twice gives the text back, short texts included |
| Encryption.SwapParts | core/pkg/gatekeeper/gatekeeper.go:596-602 | In a text of ten or more characters the first three and the last three change places; a shorter one stays |
| Encryption.CbcChains | core/pkg/functions/encryption.go:33-47 | Each block is encrypted after an exclusive or with the cipher block before it, the first one with the initial vector |
| Encryption.PaddedExactly | core/pkg/functions/encryption.go:27-31 | One byte to a whole block is added, each of them the number of bytes added |
| Encryption.OpenTrimmed | core/pkg/gatekeeper/gatekeeper.go:565-593 | White space around a token makes no difference |
| Encryption.RefusedBecause | core/pkg/gatekeeper/gatekeeper.go:565-593 | Which token is refused for which reason: nothing in it, no base64, no whole blocks, no JSON, or no id |
| Encryption.EncryptBlocks | core/pkg/functions/encryption.go:56-66 | Encrypting block by block in the buffer is CBC encryption of what was in it |
| Encryption.DecryptBlocks | core/pkg/functions/encryption.go:69-81 | Decrypting in the buffer is CBC decryption of what was in it |
| Encryption.SealToken | core/pkg/gatekeeper/gatekeeper.go:546-562 | The stages in order make the token |
| Encryption.OpenToken | core/pkg/gatekeeper/gatekeeper.go:565-593 | The stages in order open it, each failure in its place |
| GatekeeperSafety.AcceptedTokensAreFresh | core/pkg/gatekeeper/gatekeeper.go:496-502 | A guard lets through only tokens that had not expired at its clock reading |
| GatekeeperSafety.SupersededTokensAreRefused | core/pkg/gatekeeper/gatekeeper.go:416-517 | Once a credential that expires later is stored for an id, the old token is not accepted by any later look |
| GatekeeperSafety.ExpiriesGrow | core/pkg/gatekeeper/gatekeeper.go:421-444 | Credentials are stored in the order of their expiries across deletions, and a renewal lives longer than what it renews |
| GatekeeperSafety.StoredExpiryNeverDecreases | core/pkg/gatekeeper/gatekeeper.go:430-442 | While an id stays in the store its expiry never decreases |
| GatekeeperSafety.OnlyExpiredAreDeleted | core/pkg/gatekeeper/gatekeeper.go:105-157 | Sweeps and cleanups, whatever runs beside them, delete only expired credentials and texts that do not open |
| GatekeeperOrigin.AcceptedTokensWereStored | core/pkg/gatekeeper/gatekeeper.go:483-494 | Every accepted token was stored for the id it names, before the guard looked |
| GatekeeperObject.GuardPost.Credential | core/pkg/gatekeeper/gatekeeper.go:416-445 | A credential is stored and returned unless there is no id or the lock is taken, each with its own error |
| GatekeeperObject.GuardPost.Guard | core/pkg/gatekeeper/gatekeeper.go:450-517 | A guard grants exactly the unexpired token that is stored for its id, renews it in the second half of its life and cleans up an expired one |
| GatekeeperObject.GuardPost.ClearExpired | core/pkg/gatekeeper/gatekeeper.go:105-157 | A sweep removes exactly the ids whose text does not open or has expired |
| GatekeeperObject.GuardPost.ExpiredIds | core/pkg/gatekeeper/gatekeeper.go:126-141 | The loop over the store collects these ids |
| GatekeeperObject.GuardPost.CleanupExpired | core/pkg/gatekeeper/gatekeeper.go:520-543 | The cleanup that a guard starts is the machine's cleanup steps |
| GatekeeperObject.GuardPost.Clean | core/pkg/gatekeeper/gatekeeper.go:520-543 | The cleanup looks again before it deletes |
| GatekeeperObject.GuardSteps | core/pkg/gatekeeper/gatekeeper.go:450-517 | What the steps of a guard, taken alone, leave behind in each case |
| GatekeeperObject.SweepExactly | core/pkg/gatekeeper/gatekeeper.go:105-157 | A sweep that nothing interrupts, with the lock free, deletes every text that does not open and every credential that expired before its time, and keeps every other one |
| GatekeeperObject.CredentialLives | core/pkg/gatekeeper/gatekeeper.go:416-517 | A credential that is issued and left alone opens the gate for its lifetime and no longer |
| RateLimit.PassedByLives | core/pkg/gatekeeper/gatekeeper.go:270-328 | Each life of a counter, from the script that makes it to its expiry, lets through its first requests up to the limit and no others |
| RateLimit.LimitPerSecond | core/pkg/gatekeeper/gatekeeper.go:270-328 | At most the limit passes of the requests that an id makes in a second of the clock, if and only if the limit is zero, or no script of them runs a second or more after another one, or they are no more than the limit |
| RateLimit.LimitOnTime | core/pkg/gatekeeper/gatekeeper.go:270-328 | In every run no more than the limit of an id's requests of a second pass within that second |
| RateLimit.TwiceLimitPerInterval | core/pkg/gatekeeper/gatekeeper.go:270-328 | In every run at most twice the limit passes in any interval of a second, apart from requests whose scripts ran late |
| RateLimit.TwiceLimitIsReached | core/pkg/gatekeeper/gatekeeper.go:270-328 | For every limit there is an interval of a second in which twice as many pass and none late |
| RateLimit.LateScriptResetsCounter | core/pkg/gatekeeper/gatekeeper.go:283-286 | For every limit of at least one, one more request than the limit passes when a script runs after the counter has expired |
| RateLimitRuns.LateScriptsPassTogether | core/pkg/gatekeeper/gatekeeper.go:270-328 | For every limit and every number m there is a run in which m times the limit pass at one instant: the requests of m seconds whose scripts all run late |
| RateLimitRuns.TwiceLimitIsExceeded | core/pkg/gatekeeper/gatekeeper.go:270-328 | For every limit of at least one, late scripts of three seconds let more than twice the limit pass within one second |
| RateLimit.Limiter.Allow | core/pkg/gatekeeper/gatekeeper.go:270-328 | One request is allowed exactly when the counter does not exceed the limit, and the count is returned; without an id it is an error and nothing is counted |
| BulkTheorems.ExecutedAsMeant | core/pkg/orm/orm.db.act.update.go:111-195 | Executing the compiled statement gives each covered row, column by column, the first matching value or the column's default, and leaves every other row alone |
| BulkCells.ExecutedCells | core/pkg/orm/orm.db.act.update.go:111-195 | What executing the compiled text leaves, by kind of cell: in a covered row a column gets the value of its first record for that key (simple values, pointers and nullables themselves, maps, structs and slices as their JSON, raw SQL as evaluated), or else its default; other rows and columns stay |
| BulkTheorems.SameAsOneByOneExactly | core/pkg/orm/orm.db.act.update.go:130-187 | For different columns other than the key, with values and defaults that do not depend on the row, the statement does to a row what its assignments do one by one, if and only if no column lists its key, or each column that lists it has the same value first and last and each that does not holds its default already |
| BulkTheorems.ExecutedOneByOneExactly | core/pkg/orm/orm.db.act.update.go:111-195 | Executing the statement on a table is making its assignments one by one, if and only if that holds for each row |
| BulkTheorems.ExecutedOneByOne | core/pkg/orm/orm.db.act.update.go:130-173 | Raw SQL included: when all columns list the same keys, each once, executing the statement is making every assignment on its own |
| BulkTheorems.RepeatedKeyTakesFirst | core/pkg/orm/orm.db.act.update.go:136-173 | Of two values for one key the statement writes the first, and one by one the second stays |
| BulkTheorems.CompilesExactly | core/pkg/orm/orm.db.act.update.go:111-175 | An update is compiled if and only if there are a key column, an allowed column and an entry, and each entry is for an allowed column and has only records that are skipped, raw SQL, or encodable |
| BulkTheorems.RefusedExactly | core/pkg/orm/orm.db.act.update.go:111-175 | Which error an update answers: about the key column, the allowed columns, the entries, or the first entry that fails, by its first bad record or else because its column is not allowed |
| BulkTheorems.ColumnAfter | core/pkg/orm/orm.db.act.update.go:136-187 | In a covered row the first WHEN for its key wins; without one the default replaces what was there |
| BulkTheorems.DifferentListsOverwrite | core/pkg/orm/orm.db.act.update.go:186 | Whatever the keys and values, a row that only one of two columns lists loses its value in the other, unless it is the default |
| BulkTheorems.DefaultIsLiteral | core/pkg/orm/orm.db.act.update.go:179-187 | A missing default is the empty string, a number is itself, any other without a quote or a backslash is its quoted text, which MySQL also ends at its last quote |
| BulkTheorems.BackslashLeavesOpen | core/pkg/orm/orm.db.act.update.go:182-184 | A default text that ends in a backslash is written as a literal that MySQL does not end |
| BulkParsing.CompiledIsRead | core/pkg/orm/orm.db.act.update.go:111-195 | The statement can be read, with its arguments meeting their placeholders, if and only if every column has a record that is not skipped |
| BulkReading.StatementTokenized | core/pkg/orm/orm.db.act.update.go:190-192 | The text has exactly the tokens of the statement |
| BulkCompiler.TakeUpdateBulk | core/pkg/orm/orm.db.act.update.go:111-195 | The nested loops return the compiled text and arguments or the first error, in the order of the checks |
| CategoryForest.HoldsRootedOnce | core/pkg/categories/main.go:60-93 | The flattened forest holds the items whose parents lead to a root, each once, and nothing else |
| CategoryForest.BuiltIsForest | core/pkg/categories/main.go:60-76 | Every node's children are the items with its id as parent, in list order |
| CategoryForest.OneForest | core/pkg/categories/main.go:60-76 | A list has one such forest |
| CategoryForest.RebuildIsIdentity | core/pkg/categories/main.go:26-93 | Building from the flattened forest gives the same forest |
| Categories.ChainsFit | core/pkg/categories/main.go:60-76 | A chain of parents down from a root is no longer than the list, whatever cycles the list has elsewhere: this bounds the recursion |
| Categories.BuildingEnds | core/pkg/categories/main.go:60-76 | For any list, repeated ids included, the chains down from the roots are bounded, so that building ends, if and only if none comes back to an item |
| Categories.OneChain | core/pkg/categories/main.go:60-76 | Chains to the same item are the same |
| CategorySearch.FoundHoldsDescendants | core/pkg/categories/main.go:125-140 | The node found for an id has exactly its descendants below it, each once |
| CategorySearch.FindTreesGivesDescendants | core/pkg/categories/main.go:96-123 | The search returns the parent ids and the ids of all their descendants, and no others |
| CategorySearch.ReversedIsWayDown | core/pkg/categories/main.go:164-201 | The ancestors turned around lead from the topmost one down to the item, each the parent of the next |
| CategorySearch.OneAncestry | core/pkg/categories/main.go:203-228 | The ancestors of an id are determined by the list |
| CategorySearch.AncestryEnds | core/pkg/categories/main.go:164-228 | Following parents from an id ends within as many steps as there are items if it meets no cycle, and never if it meets one |
| CategoryObject.Category.Conv | core/pkg/categories/main.go:26-57 | The list and its trees are set, for all lists on which building ends; an empty list leaves the old trees |
| CategoryObject.Category.MakeTrees | core/pkg/categories/main.go:60-76 | The recursive loop terminates and builds the forest |
| CategoryObject.Category.SubFlatList | core/pkg/categories/main.go:79-93 | The recursive loop flattens |
| CategoryObject.Category.FindId | core/pkg/categories/main.go:125-140 | The first node with the id, parents before children |
| CategoryObject.Category.FindTrees | core/pkg/categories/main.go:96-123 | The three loops return the searched ids |
| CategoryObject.Category.FindParents | core/pkg/categories/main.go:164-201 | For an id whose parents meet no cycle the loops return its ancestors and the item, topmost first |
| CategoryObject.Category.FindAbove | core/pkg/categories/main.go:203-228 | The recursion up the parents terminates and collects them |
| CacheCoherence.CurrentExactly | core/pkg/orm/orm.plugin.cache.go:158-329 | In every run of interleaved steps a cached result is evaluated on what its table holds now, if and only if no change of the table came between its read and its store and none that came after the read has still to delete it |
| CacheCoherence.AnswersAreCurrent | core/pkg/orm/orm.plugin.cache.go:158-232 | In every run a query is answered with its rows on contents that the table has had, and on those of now when it is no hit or the cached result is current; its count of affected rows is right if and only if it is no hit or has one row |
| CacheCoherence.HitsAreYoung | core/pkg/orm/orm.plugin.cache.driver.memory.go:18-86 | In every run a query is answered from the cache only while its result is younger than the expiry, counted from when it was last stored |
| CacheCoherence.ServedUntilExpiry | core/pkg/orm/orm.plugin.cache.driver.memory.go:18-86 | A result that is left alone is served until it expires, and not after |
| CacheCoherence.FlagsDecide | core/pkg/orm/orm.plugin.cache.go:236-329 | A cached result of the table is dropped by a write if and only if a driver is set and a flag for that kind of write is |
| CacheCoherence.NothingCachedWithout | core/pkg/orm/orm.plugin.cache.go:158-329 | Without the flag for queries or a driver nothing is cached or served, and without a positive expiry nothing is cached |
| CacheRuns.LateStoreServesOldRows | core/pkg/orm/orm.plugin.cache.go:216-329 | With every flag on there is a run in which a query reads before an update and stores after it, and the old rows answer queries when nothing is under way any more |
| CacheCoherence.WriteDropsItsTable | core/pkg/orm/orm.plugin.cache.go:374-396 | A write drops all live keys of its table and none of another |
| CacheCoherence.StaleWithoutFlag | core/pkg/orm/orm.plugin.cache.go:280-316 | Without the flag for a kind of write the old answer is still given after it |
| CacheCoherence.StaleWithoutPrefix | core/pkg/orm/orm.plugin.cache.go:374-377 | With the empty prefix a write drops nothing, and the old answer is still given after it |
| CacheCoherence.ColonsMixTables | core/pkg/orm/orm.plugin.cache.go:379 | With a colon in a table name a write drops another table's keys |
| CacheRuns.QueryAloneIsQuery | core/pkg/orm/orm.plugin.cache.go:158-329 | The six steps of a query that nothing comes between: what they leave in the cache |
| CacheRuns.WriteAloneIsWrite | core/pkg/orm/orm.plugin.cache.go:374-396 | The steps of a write that nothing comes between leave the same in whatever order they delete the keys |
| CacheRuns.WriteAloneDropsNothing | core/pkg/orm/orm.plugin.cache.go:236-329 | A write without a flag for its kind has nothing to drop, and a creation that affects no row does nothing |
| CacheKeys.DriverDeletesAll | core/pkg/orm/orm.plugin.cache.driver.memory.go:88-100 | When no two queries are between reading and setting one list of keys, the driver's deletion leaves no result of its prefix but those being stored |
| CacheKeys.OverlappingStoresForgetKeys | core/pkg/orm/orm.plugin.cache.driver.memory.go:52-58 | Two queries that both read the list before either sets it leave a result that nobody has recorded and the driver's deletion leaves in place |
| QueryCache.KeysDiffer | core/pkg/orm/orm.plugin.cache.driver.memory.go:102-108 | Different queries have different keys, and data keys are never SQL keys |
| CacheObject.CachePlugin.Set | core/pkg/orm/orm.plugin.cache.driver.memory.go:18-67 | Data, text and the list of keys are stored |
| CacheObject.CachePlugin.Get | core/pkg/orm/orm.plugin.cache.driver.memory.go:69-86 | A live entry's rows |
| CacheObject.CachePlugin.Delete | core/pkg/orm/orm.plugin.cache.driver.memory.go:88-100 | The loop deletes the recorded keys |
| CacheObject.CachePlugin.DeleteCacheByTable | core/pkg/orm/orm.plugin.cache.go:374-396 | The loop deletes the live keys of the table and no other |
| CacheObject.CachePlugin.Before | core/pkg/orm/orm.plugin.cache.go:158-232 | The hook before a query answers it exactly when there is a live result |
| CacheObject.CachePlugin.AfterQuery | core/pkg/orm/orm.plugin.cache.go:234-329 | The hook after a query stores its rows, if there are any, with what they were read from |
| CacheObject.CachePlugin.Query | core/pkg/orm/orm.plugin.cache.go:158-329 | A query with both hooks is the machine's steps of a query in order |
| CacheObject.CachePlugin.Write | core/pkg/orm/orm.plugin.cache.go:236-329 | A write with its hook is the machine's steps of a write |
| G711Codec.AlawBytesSurvive | core/pkg/audio/g711codec.go:35-106 | Every A-law byte is the encoding of the sample it stands for |
| G711Codec.UlawBytesSurvive | core/pkg/audio/g711codec.go:58-140 | So is every mu-law byte but 0x7F, which becomes 0xFF |
| G711Codec.AlawError | core/pkg/audio/g711codec.go:74-106 | A-law is off by at most max(8, 2^(seg+2)) on every sample |
| G711Codec.UlawError | core/pkg/audio/g711codec.go:109-140 | mu-law is off by at most 2^(seg+2) on every sample it does not clip |
| G711Codec.AlawMonotone | core/pkg/audio/g711codec.go:35-106 | Encoding and decoding keeps the order of samples |
| G711Codec.UlawMonotone | core/pkg/audio/g711codec.go:58-140 | also for mu-law, clipping included |
| G711Stream.StreamSettles | core/pkg/audio/g711codec.go:179-224 | Decoding any stream to PCM bytes and encoding these changes only the mu-law byte 0x7F |
| G711Stream.SecondTripIsIdentity | core/pkg/audio/g711codec.go:179-224 | A second trip changes nothing |
| G711Stream.SamplesStayClose | core/pkg/audio/g711codec.go:143-176 | The error bounds and the order hold for streams |
| G711Stream.DecodeToBytes | core/pkg/audio/g711codec.go:179-198 | The loops write two little-endian bytes per decoded sample |
| G711Stream.EncodeBytes | core/pkg/audio/g711codec.go:201-224 | An odd number of bytes is an error; otherwise pairs are joined and encoded |
| G711Stream.SearchLoop | core/pkg/audio/g711codec.go:25-32 | The loop finds the first segment that holds the value |

## Left out

- `ConditionBuild`: SQL's `BETWEEN ... AND` and connectives glued to words inside hand-written SQL are read by this project's own reader, which knows neither; letter case is folded on ASCII only.
- A condition item whose hand-written query is the empty string, which the program compiles with an unvalidated column; the compiler and the idempotence theorem cover it, the meaning theorem does not.
- `llike`, `jin` or `notin` with a single value: the operator's name is emitted as SQL text without a standard meaning; the text and its arguments are covered, its meaning is the database's.
- JSON membership asked of an unnamed dialect ends in a panic in the program; here it is an error of its own.
- `validateOriginalQuery`, which the program no longer calls.
- `Raw` and row-level hooks, the Redis driver and model-less statements of the query cache; rows are values, so callers that change a cached result are not seen.
- The line reader over a stream with its limit on line length; the decoder reads from a string.
- `SdpDecoder.Decoder`: sessions and media sections are values, so that the last section is replaced rather than changed through a pointer; errors keep their kind, line and text but not their message.
- Rounding of sub-second durations to float seconds; durations are written by whole seconds.
- Overflow of the throttle's slot arithmetic, which is beyond 292 years.
- The throttle's idle sweeper is the removal step taken at any time, for any entry ever made.
- The order in which the goroutines that the throttle has started get to run; the model is about the order and time of their starts.
- What the upload queue does after it is stopped, its unused monitor, and its map of task ids, which is written and never read.
- A panic inside an upload: the program recovers and offers a nil result, which a reader of the result channel then dereferences; in the model every upload ends in a result.
- `UploadRetry.ProcessTask`: contexts are the flag that the deadline had passed after a try.
- The queue's stable identity of a task is a serial number; adding the same task object twice counts as two tasks.
- Blacklisting, client ids and the unique-id set of the gatekeeper; a blacklisted or rate-limited request is an abort of its guard at any point.
- Several gatekeepers with different lifetimes over one store, and several processes, which do not share the lock.
- Keys of 24 or 32 bytes, for which the program panics, since the initial vector must have the length of a block.
- `RateLimit`: the limit does not change during a run, and the store's clock is the program's.
- Keys of different SQL types that the database would call equal are different keys of a bulk update.
- `BulkStatement`: CASE expressions are read by this project's own reader.
- `CategoryObject.Category.FindParents`: when the parents of an item meet a cycle the program does not return; the method is for the others, and `AncestryEnds` says which these are.
- Category lists with string ids, and with id 0, which leaves a nil slot on which building fails.
- `BulkTheorems.ExecutedOneByOne`: a sufficient condition, for raw SQL too; the exact condition is `ExecutedOneByOneExactly`, for values that do not depend on the row.
- `ConditionSymbols.TruthKeptExactly`: for other trees the condition is exact for how the text is read (`CompiledTextMeansTree`); its truth can be kept by accident (`AbsorbedSymbolKeepsTruth`).
- Writes in a transaction whose commit comes after the hook; the hook then drops keys before the change is visible.
- Permissions, models, sockets, RPC, configuration and vendor clients, which would only add easy members.
