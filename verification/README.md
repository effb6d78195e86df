# FXP: a verified model of the FIX bridge and the matching core

FXP takes orders over FIX 4.4 and matches them. A bridge written in Go frames and validates FIX messages, keeps
each session's sequence numbers and its sent frames on disk, repairs gaps by resend requests and routes market
data. A core written in Rust logs every input before executing it, matches orders in price-time order with hidden
quantity and self-trade prevention, reports executions and remembers each order's status.

This project models both and proves what they promise. The parts and their central theorems:

- **Wire format.** A built frame is read back exactly when its fields are sendable, and whatever is read prints
  back to the bytes consumed (`Codec`, `CodecLoops`, `Decimal`).
- **Repeating groups.** The validator accepts exactly the yields of the dictionary's grammar (`Dictionary`,
  `GroupGrammar`, `DictionaryLoops`).
- **Session.** Over every run deliveries are ordered, resend requests never overlap, sent numbers are stored and
  never repeated, and the reorder buffer is bounded. Over all connections of a session nothing is numbered or
  delivered twice between resets (`Session`, `SessionSafety`, `Reconnects`, `SessionObject`).
- **Gap repair, end to end through bytes.** The answer to a resend request is the one tiling of the requested
  range. The peer that reads it ends in step and has delivered exactly what it missed, with messages buffered
  exactly when the answer is aligned with them (`Resend`, `Retransmit`, `GapRepair`, `Positions`,
  `BufferedRepair`, `SessionGaps`, `StuckRepair`).
- **Durable store.** The file store refines the in-memory store over every sequence of operations, crashes are
  atomic, numbers are never reused across crashes, and an epoch reset killed any number of times ends whole
  (`Framing`, `FileStore`, `StoreRefinement`, `StoreCrash`, `EpochReset`, `StoreObject`).
- **Event log.** Reopening after a crash at any byte rebuilds the engines of the acknowledged inputs (`EventLog`,
  `Journal`, `EngineReplay`, `JournalObject`).
- **Matching.** The book stays in price-time order and uncrossed, quantities are conserved, orders with and
  without hidden quantity trade as the repository's simple reference matchers say, and fill-or-kill is all or
  nothing (`OrderBook`, `BookSafety`, `BookTrace`, `SliceBook`, `BookRefinement`, `RefBook`, `PlainRefinement`,
  `FillOrKill`).
- **Reporting.** Accounts and book agree after every run, nothing follows a terminal report, trades are numbered
  without a gap, and averages are fair (`Accounting`, `Engine`, `EngineObject`).
- **Order status.** The bounded cache shows the last report of every order it holds and forgets no open order; fed
  by the engine, it shows what each order really has left (`StatusCache`, `EngineStatus`).
- **Prices and symbol rules.** Decimal prices are parsed exactly or rounded half away from zero, and both
  programs read the same configuration (`Prices`, `SymbolRules`, `SymbolConfig`, `Arithmetic`).
- **Market data.** Each request gets one snapshot and then its increments (`MarketData`).

Values and their functions are the specification. Classes (`Builder`, `Endpoint`, `FileStoreObject`,
`JournalObject`, `Core`, `Reference`, `SliceReference`, `StatusHistory`, `Router`) carry the state the programs update in place, and
each method states its whole effect as that specification applied to the old state.

Parameters stand for what the programs take from outside: checksums, clocks, the encoding of order messages, the
registry's answer to a logon, whether a disk write or a queue insertion succeeds, and whether a field satisfies
its data type.

## Model

| member | source | states |
|---|---|---|
| `Decimal.AtoiOfItoa` | fix_bridge/codec/builder.go:74-82 | a printed int64 is read back as itself, the most negative one included |
| `Codec.ParseSerialized` | fix_bridge/codec/parser.go:297-349 | every carriable field list, length-prefixed data with embedded delimiters included, is parsed back from its own text |
| `Codec.ParsedSerializes` | fix_bridge/codec/parser.go:268-349 | every body that parses is exactly the text of the fields it parsed to, so no two field lists share a body |
| `Codec.Accepted` | fix_bridge/codec/parser.go:162-266 | an accepted frame is its version, the length of its body in decimal, a body within the limit with MsgType first and no checksum inside, and the true checksum; it is of this version exactly when tag 8 says so |
| `Codec.FramedIsRead` | fix_bridge/codec/parser.go:162-266 | conversely every such frame, followed by anything, is read as its fields and leaves the rest |
| `Codec.ReadIsExact` | fix_bridge/codec/parser.go:162-266 | printing what was read gives the consumed bytes, none more and none fewer |
| `Codec.ReadBuilt` | fix_bridge/codec/builder.go:104-140 | a built frame in front of any bytes is read as its own fields, leaving those bytes, if and only if the fields are sendable |
| `Codec.EmptyDataIsLost` | fix_bridge/codec/builder.go:104-118 | whatever surrounds it, a length field whose data field is empty makes a built frame unreadable as its own fields |
| `CodecLoops.SetThenGet` | fix_bridge/codec/builder.go:56-66 | setting a field updates that tag's reading unless a duplicate shadows it, and no other tag's |
| `CodecLoops.Builder.constructor` | fix_bridge/codec/builder.go:45-54 | a new builder holds the standard header |
| `CodecLoops.Builder.Set` | fix_bridge/codec/builder.go:56-66 | the in-place loop replaces the first occurrence or appends |
| `CodecLoops.Builder.Append` | fix_bridge/codec/builder.go:68-72 | a repeated tag is added at the end and replaces nothing |
| `CodecLoops.Builder.Build` | fix_bridge/codec/builder.go:104-136 | the loops over fields and bytes produce the frame the round trip is about |
| `CodecLoops.CheckSum` | fix_bridge/codec/builder.go:126-134 | the running sum is the byte sum modulo 256 |
| `CodecLoops.ReadFields` | fix_bridge/codec/parser.go:297-349 | the field loop accepts and returns what the grammar of bodies says |
| `Dictionary.FlattenWellFormed` | fix_bridge/codec/dictionary.go:165-175 | expanding components keeps every nested group's rules well formed and non-empty |
| `GroupGrammar.MissingIffDemanded` | fix_bridge/codec/dictionary.go:176-203 | the search reports nothing missing exactly when every required field, of every touched component, is present |
| `GroupGrammar.PresentIsTouched` | fix_bridge/codec/dictionary.go:176-186 | a component counts as present exactly when one of the fields under it, at any depth, was seen |
| `GroupGrammar.SoundScope` | fix_bridge/codec/dictionary.go:310-388 | whatever the recursive scan accepts is the yield of a tree of the grammar, followed by what it left |
| `GroupGrammar.CompleteScope` | fix_bridge/codec/dictionary.go:310-388 | every tree's yield is accepted and exactly its fields are consumed, nested groups included |
| `GroupGrammar.AcceptsExactlyTheGrammar` | fix_bridge/codec/dictionary.go:310-388 | in strict mode a message is accepted if and only if some tree of the grammar yields it |
| `GroupGrammar.WholeMessage` | fix_bridge/codec/dictionary.go:310-388 | at the top level an accepted message has no field left over |
| `DictionaryLoops.FlattenRules` | fix_bridge/codec/dictionary.go:165-175 | the appending loop expands components in place and in order |
| `DictionaryLoops.Instance` | fix_bridge/codec/dictionary.go:310-388 | the scanning loop gives the verdict and the stopping place of the recursive scan |
| `Resend.TilingUnique` | fix_bridge/session/session.go:945-987 | a range has at most one division into replays and maximal gap fills |
| `Resend.AnswerIsTheTiling` | fix_bridge/session/session.go:945-987 | the answer to a resend request, after clamping, is that one division: every number once, replayed exactly when it can be |
| `Resend.QueueAcceptsSplit` | fix_bridge/session/session.go:945-987 | sending a batch in two parts gets as far as sending it at once |
| `Resend.Answer` | fix_bridge/session/session.go:955-987 | the loop with its pending gap sends the tiling up to the first refused frame and says whether that was all |
| `Retransmit.ReplayReads` | fix_bridge/session/session.go:1003-1022 | the peer reads a replay with its old number and type, the duplicate flag and the original sending time |
| `Retransmit.GapFillReads` | fix_bridge/session/session.go:945-987 | the peer reads a gap fill's first number and the number to expect next |
| `Retransmit.ReplayKeepsBusiness` | fix_bridge/session/session.go:1003-1022 | the peer gets every non-empty business field of the stored message, in order and unchanged |
| `Retransmit.ReplaySendable` | fix_bridge/session/session.go:989-1022 | a sent frame can be retransmitted if and only if its stored body leaves room for the duplicate flag and the original sending time |
| `SessionSafety.DispatchOneKeeps` | fix_bridge/session/session.go:355-545 | every frame, whatever it holds and however it is answered, keeps the session's invariants, also when it closes the connection |
| `SessionSafety.DispatchKeeps` | fix_bridge/session/session.go:342-353 | after a frame and the drain of the buffer the invariants hold and the expected number is not waiting |
| `SessionSafety.BufferAfterDispatch` | fix_bridge/session/session.go:438-478 | between frames the buffer holds at most 64 messages and 256 KiB, all within 4096 above the expected number |
| `SessionSafety.LogonKeeps` | fix_bridge/session/session.go:615-750 | every logon, refused, resumed, reset or with a gap, keeps the invariants |
| `SessionSafety.RunIsSafe` | fix_bridge/session/session.go:218-545 | over every run, its closing included: deliveries strictly ordered, requests never overlapping, every queued frame stored under a number used once per epoch, buffer bounded |
| `SessionSafety.InitialIsGood` | fix_bridge/session/session.go:142-172 | a new connection satisfies what the run theorem asks for |
| `Reconnects.RunSince` | fix_bridge/session/session.go:734-747 | on a connection that took up a stored session, numbering goes on from the store, the store follows every number used, and a message is delivered only after its number was stored as received |
| `Reconnects.LifeIsSafe` | fix_bridge/session/registry.go:66-90 | over any sequence of connections, ended in any way: between resets no number is queued twice and no message delivered twice, all in order, and every queued frame is still stored |
| `Reconnects.FromFreshStore` | fix_bridge/session/registry.go:66-90 | the same from a session's first connection on |
| `SessionGaps.BecomesStale` | fix_bridge/session/session.go:377-385 | exactly when a finished resend request stays marked outstanding |
| `SessionGaps.StaysTracked` | fix_bridge/session/session.go:377-385 | what is waited for stays asked for, in the log of requests, unless a message without identity carries the last number asked for |
| `SessionGaps.GapIsCovered` | fix_bridge/session/session.go:904-922 | when a message reveals a gap, the expected number lies in a request of the log afterwards if and only if what was waited for before had been asked for |
| `SessionGaps.NamedRunsAsk` | fix_bridge/session/session.go:904-922 | over every run whose messages name sender and target, whatever is waited for has been asked for |
| `SessionGaps.NeverAsked` | fix_bridge/session/session.go:904-922 | over every run from the failing state, as long as the expected number stays missing it is not asked for |
| `SessionGaps.RunStocked` | fix_bridge/session/session.go:438-478 | which messages the buffer can hold, over every run |
| `SessionGaps.ResendSuppressed` | fix_bridge/session/session.go:377-385 | the family of states and messages after which a missing number is not asked for, whatever happens while it is expected |
| `GapRepair.StreamIsRead` | fix_bridge/session/session.go:304-340 | frames written back to back are read as exactly the messages they carry |
| `GapRepair.GapIsRepaired` | fix_bridge/session/session.go:479-545 | reading the bytes of the answer, the receiver ends at the sender's next number, has delivered exactly the missing application messages once and in order, and has no request outstanding |
| `Positions.PositionReachesEnd` | fix_bridge/session/session.go:342-353 | jumps and buffered runs get past the whole answer if and only if no gap fill starts at a buffered number without the buffer leading through all it covers |
| `Positions.GivesWhatIsDue` | fix_bridge/session/session.go:342-353 | what is then handed on is each application message once and in order, from the buffer where it was buffered and from the answer otherwise |
| `BufferedRepair.BufferedIsSteady` | fix_bridge/session/session.go:438-545 | of what a session buffers only a message with its sending time out of bounds ends the drain |
| `BufferedRepair.DrainRuns` | fix_bridge/session/session.go:342-353 | the drain takes the buffered messages, gap fills included, from the expected number on, stops where they end and delivers what they hold |
| `BufferedRepair.FeedPosition` | fix_bridge/session/session.go:342-353 | where the receiver stands after the answer and what it has delivered, computed from the answer and the buffer |
| `BufferedRepair.RepairedIffAligned` | fix_bridge/session/session.go:438-448 | with messages buffered, the bytes of the answer repair the gap if and only if its gap fills are aligned with the buffer, and then every application message has been delivered once and in order |
| `StuckRepair.RepairIsTried` | fix_bridge/session/session.go:438-448 | a concrete receiver, peer and answer that satisfy every condition of the repair theorem |
| `StuckRepair.RepairGetsStuck` | fix_bridge/session/session.go:438-448 | that receiver reads the whole answer and still expects 3 while its peer is at 4 |
| `StuckRepair.ReplayOutgrows` | fix_bridge/session/session.go:1003-1022 | an order whose body has exactly the 1048576 bytes a logged-on receiver accepts, and whose retransmission it does not |
| `StuckRepair.GapIsNotAskedFor` | fix_bridge/session/session.go:377-385 | a concrete session in which 3 and 4 are missing and, whatever happens while 3 is expected, not asked for |
| `SessionObject.WeightOf` | fix_bridge/session/session.go:449-478 | the byte count of the buffer is the sum over its messages, in any order |
| `SessionObject.Endpoint.Transmit` | fix_bridge/session/session.go:218-256 | number, store, then queue, closing on the first refusal |
| `SessionObject.Endpoint.ServeResendRequest` | fix_bridge/session/session.go:945-987 | the resend loop on the live session answers with the tiling |
| `SessionObject.Endpoint.Discard` | fix_bridge/session/session.go:780-793 | deleting while iterating removes exactly the passed numbers |
| `SessionObject.Endpoint.MoveTo` | fix_bridge/session/session.go:780-793 | advance, discard, persist, with the store's refusal handed on |
| `SessionObject.Endpoint.AskForResend` | fix_bridge/session/session.go:904-922 | asks from the expected number unless a request is marked outstanding |
| `SessionObject.Endpoint.JumpTo` | fix_bridge/session/session.go:924-943 | SequenceReset forward, or the reject for a number at or below |
| `SessionObject.Endpoint.LogOn` | fix_bridge/session/session.go:615-701 | the whole logon sequence on the live fields |
| `SessionObject.Endpoint.TakeOne` | fix_bridge/session/session.go:355-545 | one frame on the live fields is one step of the specification |
| `SessionObject.Endpoint.Take` | fix_bridge/session/session.go:342-353 | the drain loop on the live fields is the recursive drain the theorems are about |
| `Framing.UnsignedOfBigEndian` | fix_bridge/session/filestore.go:244-262 | big-endian words of any width are read back |
| `Framing.ScanEncoded` | fix_bridge/session/filestore.go:147-186 | records written back to back and followed by an unreadable tail are found whole, and the tail's start is known |
| `FileStore.RecordFound` | fix_bridge/session/filestore.go:244-262 | an appended record is found whatever follows it |
| `FileStore.TornRecord` | fix_bridge/session/filestore.go:147-186 | a record cut at any byte is not read, whatever the checksum |
| `FileStore.IndexReads` | fix_bridge/session/filestore.go:346-366 | every indexed place holds the newest frame of its number, and exactly the recorded numbers are indexed |
| `FileStore.SeqNumsRoundTrip` | fix_bridge/session/filestore.go:187-202 | the number file is read back as written |
| `StoreRefinement.ReopenSame` | fix_bridge/session/filestore.go:103-145 | reopening gives the same store, byte for byte |
| `StoreRefinement.CompactRepresents` | fix_bridge/session/filestore.go:312-344 | compaction keeps exactly the retained frames and the store stays representable |
| `StoreRefinement.SaveRepresents` | fix_bridge/session/filestore.go:216-241 | a save with or without compaction leaves a log that reopens to the same store |
| `StoreRefinement.StepMirrors` | fix_bridge/session/store.go:33-70 | one operation on both stores keeps them showing the same |
| `StoreRefinement.SourceIsSound` | fix_bridge/session/filestore.go:244-262 | the record and number formats in use meet what the refinement asks of formats |
| `StoreRefinement.FileRefinesMemory` | fix_bridge/session/filestore.go:103-397 | over every sequence of saves, inbound updates, resets and reopenings from an empty directory, the file store shows what the in-memory store shows |
| `StoreRefinement.RecoveredIffWithinLimit` | fix_bridge/session/filestore.go:216-241 | recovery returns what was saved if and only if every frame is within the record limit |
| `StoreRefinement.OversizedHidesRest` | fix_bridge/session/filestore.go:147-186 | one oversized frame hides every later record |
| `StoreCrash.CutSave` | fix_bridge/session/filestore.go:216-262 | a save cut at any byte leaves exactly the store before |
| `StoreCrash.WholeSave` | fix_bridge/session/filestore.go:216-241 | a record written whole counts although the number file does not mention it yet |
| `StoreCrash.CrashIsAtomic` | fix_bridge/session/filestore.go:216-397 | killed at any point of any operation but inside a reset, the store reopens as before or after it |
| `StoreCrash.HalfResetAtomicIff` | fix_bridge/session/filestore.go:383-397 | a reset killed half way is atomic if and only if the store had nothing to lose |
| `StoreCrash.HalfResetExample` | fix_bridge/session/filestore.go:383-397 | a store with one frame that comes back with the old numbers and without the frame |
| `StoreCrash.NumbersNeverReused` | fix_bridge/session/filestore.go:103-397 | however often the process is killed, no outbound number is used twice between resets and every retained frame is still returned |
| `StoreCrash.FreshNumbersNeverReused` | fix_bridge/session/filestore.go:103-397 | the same from an empty directory with the file formats in use |
| `EpochReset.AdvanceIsAtomic` | fix_bridge/session/store_epoch.go:27-111 | killed after any disk step and again any number of times while opening, the store ends whole: old or fresh, decided by the marker alone, nothing cleared before it is archived |
| `EpochReset.EpochsNeverGoBack` | fix_bridge/session/store_epoch.go:27-67 | advancing reaches the requested epoch and never a smaller one |
| `EpochReset.AdvanceIsIdempotent` | fix_bridge/session/store_epoch.go:27-67 | repeating the request, or asking for an older epoch, changes nothing |
| `EpochReset.CrashedEpoch` | fix_bridge/session/store_epoch.go:27-111 | a killed advance leaves the old epoch or the requested one |
| `EpochReset.SourceReadsFresh` | fix_bridge/session/store_epoch.go:91-111 | the literal number file of a reset is read as 1 and 1 |
| `StoreObject.RecoverLog` | fix_bridge/session/filestore.go:147-186 | the recovery loop's index, highest number and cut position |
| `StoreObject.RecoverIsScan` | fix_bridge/session/filestore.go:147-186 | that loop finds exactly the records of the scan and cuts where they end |
| `StoreObject.CopyNewest` | fix_bridge/session/filestore.go:312-344 | the compaction loop writes the retained records in order and indexes them |
| `StoreObject.FileStoreObject.Reopen` | fix_bridge/session/filestore.go:103-145 | opening finishes a pending reset, recovers, resumes the numbers, or fails |
| `StoreObject.FileStoreObject.Keep` | fix_bridge/session/filestore.go:216-241 | a save on the live files is the save the refinement is about |
| `StoreObject.FileStoreObject.CompactLog` | fix_bridge/session/filestore.go:312-344 | the live log is replaced by the compacted one |
| `StoreObject.FileStoreObject.Clear` | fix_bridge/session/filestore.go:383-397 | a completed reset empties log and index and restarts the numbers |
| `StoreObject.FileStoreObject.AdvanceTo` | fix_bridge/session/store_epoch.go:27-67 | the live files go through the steps the crash theorem stops between |
| `StoreObject.MemoryStoreObject.Perform` | fix_bridge/session/store.go:33-70 | the in-memory store is the yardstick of the refinement |
| `MarketData.OwedCount` | fix_bridge/md_subscriptions.go:66-84 | a snapshot goes exactly once to each request owed one |
| `MarketData.StreamingCount` | fix_bridge/md_subscriptions.go:86-96 | an increment goes exactly once to each streaming request that had its snapshot |
| `MarketData.ServedDue` | fix_bridge/md_subscriptions.go:66-84 | a served snapshot ends one-time requests and moves streaming ones on to increments |
| `MarketData.RunIsProper` | fix_bridge/md_subscriptions.go:28-104 | over every run without a disturbing undo each request is served one snapshot, then increments if it streams, then nothing |
| `MarketData.RunNoEmpty` | fix_bridge/md_subscriptions.go:98-104 | no symbol ever keeps an empty list |
| `MarketData.UndoRestores` | fix_bridge/md_subscriptions.go:28-50 | an undo right after its request restores everything, replaced requests included |
| `MarketData.UndoProperIff` | fix_bridge/md_subscriptions.go:44-50 | a later undo is proper for another request if and only if that one got no snapshot and did not leave in between |
| `MarketData.SecondSnapshot` | fix_bridge/md_subscriptions.go:44-50 | a run of two requests and an undo in which one request gets two snapshots |
| `MarketData.ServeInPlace` | fix_bridge/md_subscriptions.go:66-84 | the filtering pass that writes over the list it reads keeps and serves the right requests |
| `MarketData.Router.AskFor` | fix_bridge/md_subscriptions.go:28-50 | replaces the request of the same id in each symbol and saves what an undo needs |
| `MarketData.Router.Undo` | fix_bridge/md_subscriptions.go:44-50 | puts the saved lists back |
| `MarketData.Router.LeaveFor` | fix_bridge/md_subscriptions.go:53-64 | removes the request from the named symbols, or from all when none is named |
| `MarketData.Router.SnapshotTargets` | fix_bridge/md_subscriptions.go:66-84 | the live router serves what is owed and moves on |
| `MarketData.Router.IncrementalTargets` | fix_bridge/md_subscriptions.go:86-96 | the live router lists the streaming requests and changes nothing |
| `Prices.SplitsExactly` | go_gateway/symbolconfig/config.go:118-141 | a text is a price exactly when, trimmed, it is an optional minus, digits, and optionally a point and digits |
| `Prices.ParseRounds` | go_gateway/symbolconfig/config.go:118-173 | with rounding, a price is the number denoted, rounded half away from zero, and refused exactly when beyond int64 |
| `Prices.ParseIsStrict` | go_gateway/symbolconfig/config.go:118-173 | without rounding, a price is accepted exactly when it is a whole number of units within int64 |
| `Prices.RoundedIsNearest` | go_gateway/symbolconfig/config.go:142-173 | the rounded price is never more than half a unit away |
| `Prices.ParseIsMonotone` | go_gateway/symbolconfig/config.go:118-173 | a text denoting a larger number, sign included, never parses to a smaller price |
| `Prices.ParseIsOdd` | go_gateway/symbolconfig/config.go:118-173 | changing the sign of the text changes the sign of the price |
| `Prices.FormatThenParse` | go_gateway/symbolconfig/config.go:178-192 | a formatted int64 at any scale is parsed back in both modes |
| `SymbolRules.SameRows` | go_gateway/symbolconfig/config.go:96-103 | gateway and core accept the same rules although they compute the smallest order in different ways with wrap-around |
| `SymbolRules.AcceptedIffTradable` | fxp_core/src/symbol_config.rs:140-155 | a rule is accepted if and only if some quantity is valid under it |
| `SymbolConfig.ParseText` | go_gateway/symbolconfig/config.go:61-109 | the row loop with its duplicates and comments reads the configuration or refuses |
| `SymbolConfig.LinesAgree` | fxp_core/src/symbol_config.rs:110-167 | the core's way of cutting lines and the gateway's give the same configuration |
| `SymbolConfig.SameConfigurations` | go_gateway/symbolconfig/config.go:61-109 | over every text both programs read the same configuration or both refuse |
| `SymbolConfig.SplitJoin` | fxp_core/src/symbol_config.rs:99-109 | splitting undoes joining |
| `SymbolConfig.ParsedIsAdmitted` | fxp_core/src/symbol_config.rs:110-167 | whatever was parsed holds only printable symbols and accepted rules |
| `SymbolConfig.CanonicalRoundTrip` | fxp_core/src/symbol_config.rs:99-109 | the canonical text of a parsed configuration parses to that configuration |
| `EventLog.DecodedIffReplayable` | fxp_core/src/event_log.rs:49-98 | a logged input is read back as itself if and only if it is replayable, and otherwise not at all |
| `EventLog.FrameFound` | fxp_core/src/event_log.rs:116-157 | a frame is found whatever follows it |
| `EventLog.FrameTorn` | fxp_core/src/event_log.rs:128-157 | a frame cut at any byte is not read |
| `EventLog.OpenAfter` | fxp_core/src/event_log.rs:174-262 | opening finds exactly the intact records and cuts the file where they end |
| `EventLog.CrashInAppend` | fxp_core/src/event_log.rs:265-293 | after a crash at any byte of an append, opening finds the acknowledged records, or those and the one in flight |
| `EventLog.CutHeader` | fxp_core/src/event_log.rs:174-262 | a file cut inside its header can be opened if and only if all or nothing of the header is there |
| `EventLog.CutHeaderExample` | fxp_core/src/event_log.rs:174-262 | a new log killed after one byte cannot be opened |
| `Journal.ApplyFollows` | fxp_core/src/event_log.rs:572-590 | one acknowledged input keeps the log replaying to the live engines |
| `Journal.ReopenAfterCrash` | fxp_core/src/event_log.rs:341-386 | after any run and a crash at any byte, reopening gives the acknowledged engines, or those with the input in flight, and the journal can crash again |
| `Journal.ReopensIffReplayable` | fxp_core/src/event_log.rs:572-590 | after an acknowledged input the journal reopens if and only if that input is replayable |
| `Journal.UnreplayableExample` | fxp_core/src/event_log.rs:572-590 | on a new journal in the format in use an order filed under another symbol than its own is accepted, and the journal cannot be opened any more |
| `Journal.UnreplayableBlocksReopen` | fxp_core/src/event_log.rs:61-98 | one such input makes the whole journal impossible to reopen |
| `JournalObject.CollectRecords` | fxp_core/src/event_log.rs:174-262 | the loop over records finds them all and their end |
| `JournalObject.OpenFile` | fxp_core/src/event_log.rs:174-262 | header, configuration, records and torn tail, or the refusal |
| `JournalObject.JournalObject.AppendRecord` | fxp_core/src/event_log.rs:265-293 | a partial write fails the log for good |
| `JournalObject.JournalObject.ApplyRequest` | fxp_core/src/event_log.rs:572-590 | nothing is executed that was not logged |
| `JournalObject.JournalObject.ReplayRecords` | fxp_core/src/event_log.rs:341-386 | replay executes every record for the detached owner or fails |
| `EngineReplay.EngineIsBlind` | fxp_core/src/engine.rs:252-293 | routing handles do not influence what the matching engine does |
| `EngineReplay.RunProcesses` | fxp_core/src/event_log.rs:572-590 | after any run of the journal each symbol's engine is the one that processing its own entries and cancels leads to, no input passed over |
| `EngineReplay.EngineReopens` | fxp_core/src/event_log.rs:605-648 | reopening after a crash at any byte rebuilds the exact books, accounts, trade numbers and execution-id counter, and they are what processing the acknowledged inputs from the empty engine gives |
| `OrderBook.ExecuteValid` | fxp_core/src/order_book/stops.rs:173-202 | no order of quantity zero and no slice larger than its order is ever in the book |
| `BookSafety.ExecuteOrderly` | fxp_core/src/order_book/matcher.rs:96-310 | whatever an incoming order does, the book stays in price-time order and is not left crossed |
| `BookSafety.CancelOrderly` | fxp_core/src/order_book/order_book.rs:117-146 | a cancel keeps that |
| `BookTrace.ExecuteAccounts` | fxp_core/src/order_book/matcher.rs:96-530 | conservation: every trade and every prevented quantity is backed by what both orders hold at that moment, and what is left is what the book holds |
| `BookTrace.CancelAccounts` | fxp_core/src/order_book/order_book.rs:117-146 | a cancel takes away one order and nothing else |
| `FillOrKill.CoveredIsFilled` | fxp_core/src/order_book/matcher.rs:319-398 | what the look-ahead promises the sweep delivers, refreshed slices and own orders included |
| `FillOrKill.RefusedIsNotFilled` | fxp_core/src/order_book/matcher.rs:319-398 | what the look-ahead refuses the sweep would not have filled by trades alone |
| `FillOrKill.AllOrNothing` | fxp_core/src/order_book/matcher.rs:319-398 | a fill-or-kill order trades exactly as an immediate one would if that fills it whole without a self match, and otherwise changes nothing |
| `RefBook.NoneSooner` | fxp_core/src/lib.rs:1389-1411 | the reference matcher's choice is a candidate no other candidate beats |
| `RefBook.MatchLoop` | fxp_core/src/lib.rs:1389-1424 | the reference loop fills from best to worst |
| `RefBook.Reference.Submit` | fxp_core/src/lib.rs:1380-1436 | fills, what stays and what rests of a submitted order |
| `RefBook.Reference.Cancel` | fxp_core/src/lib.rs:1438-1440 | the order is gone, the rest is as it was |
| `SliceBook.FillLoop` | fxp_core/src/order_book/stops.rs:325-357 | the reference loop that takes slice against slice from the first best order and puts a refreshed one at the end |
| `SliceBook.Probe` | fxp_core/src/order_book/stops.rs:309-320 | counting by removing best orders one by one gives the sum of all that cross |
| `SliceBook.SliceReference.Submit` | fxp_core/src/order_book/stops.rs:303-364 | fills, what stays and what rests of a limit, immediate, market or fill-or-kill order |
| `SliceBook.SliceReference.Cancel` | fxp_core/src/order_book/stops.rs:395-399 | the order is gone, the rest is as it was |
| `BookRefinement.ReferenceConsumes` | fxp_core/src/order_book/stops.rs:283-357 | the unsorted reference list, hidden slices included, consumes the opposite side in price-time order |
| `BookRefinement.SweepConsumes` | fxp_core/src/order_book/matcher.rs:226-310 | an immediate or market sweep over orders with or without hidden quantity consumes it the same way |
| `BookRefinement.PassiveConsumes` | fxp_core/src/order_book/matcher.rs:96-224 | so does adding an order, itself with or without hidden quantity, and crossing the book |
| `BookRefinement.CoveredIff` | fxp_core/src/order_book/matcher.rs:319-363 | the look-ahead says covered exactly when the quantity within the limit suffices |
| `BookRefinement.BookRefinesReference` | fxp_core/src/order_book/stops.rs:274-364 | from empty books every run of limits with or without hidden quantity, immediate, market and fill-or-kill orders and cancels gives the fills of the reference matcher, and the book holds its orders, quantities and slices |
| `PlainRefinement.SameMatch` | fxp_core/src/lib.rs:1389-1424 | on plain limits both reference matchers fill alike |
| `PlainRefinement.BookRefinesPlain` | fxp_core/src/lib.rs:1380-1440 | from empty books every run of plain limits and cancels gives the fills of the plain reference matcher |
| `Accounting.MergeIsFaithful` | fxp_core/src/engine.rs:1328-1450 | the separate lists of fills and prevented matches merge back to the order in which the book changed |
| `Accounting.EventsAgree` | fxp_core/src/engine.rs:1175-1207 | accounts that agree with the book agree after every event |
| `Engine.RunKeeps` | fxp_core/src/engine.rs:443-1033 | over every run the book is orderly, ids are unique and accounts agree with the book |
| `Engine.BookAndAccountsAgree` | fxp_core/src/engine.rs:443-1033 | after any run an order has an account exactly when it rests, and its leaves are the resting quantity |
| `Engine.NothingFollowsTerminal` | fxp_core/src/engine.rs:1328-1450 | in everything one request causes, no report on an order follows its terminal one |
| `Engine.TradesOfRun` | fxp_core/src/engine.rs:1328-1450 | the published trades of a run are its prints, with their prices, sides and quantities |
| `Engine.TradesAreNumbered` | fxp_core/src/engine.rs:1328-1450 | those trades are numbered 1, 2, 3, and so on over the whole run |
| `Engine.ReportedAveragesAreFair` | fxp_core/src/engine.rs:1092-1103 | over a whole run every reported average lies between the lowest and highest price that order traded at |
| `EngineObject.InsertBehind` | fxp_core/src/order_book/order_book.rs:88-114 | a new order goes behind its price |
| `EngineObject.Refresh` | fxp_core/src/order_book/order_book.rs:251-266 | a used-up slice is replaced from the reserve with a new arrival |
| `EngineObject.CoverScan` | fxp_core/src/order_book/matcher.rs:319-363 | the look-ahead loop over whole price levels |
| `EngineObject.ListsReported` | fxp_core/src/engine.rs:1328-1450 | the two lists the matcher fills are what the reporting loop needs |
| `EngineObject.Core.MatchOrders` | fxp_core/src/order_book/matcher.rs:96-224 | the crossing loop on the live book |
| `EngineObject.Core.SweepBook` | fxp_core/src/order_book/matcher.rs:228-310 | the aggressive loop on the live book |
| `EngineObject.Core.ReportExecution` | fxp_core/src/engine.rs:1328-1450 | the reporting loops on the live accounts |
| `EngineObject.Core.ExecuteInto` | fxp_core/src/order_book/stops.rs:173-209 | an order of any kind on the live book |
| `EngineObject.Core.SubmitOrder` | fxp_core/src/engine.rs:443-1033 | a new order on the live engine is one step of the runs the theorems are about |
| `EngineObject.Core.WithdrawOrder` | fxp_core/src/engine.rs:443-1033 | so is a cancel by the order's sender |
| `StatusCache.RememberShows` | fxp_core/src/engine.rs:320-358 | taking reports in, once or twice, leaves the last of them |
| `StatusCache.TrimKeeps` | fxp_core/src/engine.rs:320-358 | eviction changes no entry and removes no open one |
| `StatusCache.EndedAreBounded` | fxp_core/src/engine.rs:320-358 | at most the limit of ended orders is kept |
| `StatusCache.CallKeeps` | fxp_core/src/engine.rs:252-293 | every public call keeps entries equal to the last report emitted |
| `StatusCache.CacheIsFaithful` | fxp_core/src/engine.rs:252-358 | after any sequence of calls every entry shows the last report about its order |
| `StatusCache.NothingOpenForgotten` | fxp_core/src/engine.rs:252-358 | after any sequence of calls every order with something open is in the cache, with its last report |
| `EngineStatus.RunInStep` | fxp_core/src/engine.rs:252-358 | over every run of entries and cancels the engine numbers its reports and opens orders as the cache needs, and the last report of each order shows what its account has left |
| `EngineStatus.StatusIsTrue` | fxp_core/src/engine.rs:252-358 | after any run of entries and cancels every live order is in the cache, and whatever entry the cache shows has the leaves of the live account, none if there is none |
| `StatusCache.StatusHistory.Handle` | fxp_core/src/engine.rs:252-293 | the tick's pass, the binding and the pass over everything emitted, on the live cache |

## Findings

Each is a place where the code does not do what it is for. The witness is a concrete input, the last column the
exact condition under which the code does meet the property.

| where | what happens | witness | exactly when it works |
|---|---|---|---|
| fix_bridge/session/session.go:377-385 | a message rejected for its identity consumes its number without clearing a finished resend request, so the next gap is not asked for | `StuckRepair.GapIsNotAskedFor`, family `SessionGaps.ResendSuppressed` | `SessionGaps.StaysTracked`, `SessionGaps.GapIsCovered` |
| fix_bridge/session/session.go:438-448 | a gap fill whose first number was already taken from the buffer is dropped as a duplicate, and the receiver stays behind | `StuckRepair.RepairGetsStuck` | `BufferedRepair.RepairedIffAligned` |
| fix_bridge/session/filestore.go:383-397 | a reset killed after the log was cut comes back with old numbers and no frames | `StoreCrash.HalfResetExample` | `StoreCrash.HalfResetAtomicIff` |
| fix_bridge/session/filestore.go:216-262 | a frame above 16 MiB is saved but not recovered, nor is any record after it | `StoreRefinement.OversizedHidesRest` | `StoreRefinement.RecoveredIffWithinLimit` |
| fix_bridge/codec/builder.go:104-136 | empty values are left out, so a length tag can lose its data field and the frame is not read back | `Codec.EmptyDataIsLost` | `Codec.ReadBuilt` |
| fix_bridge/session/session.go:1003-1022 | a retransmission is longer than the stored frame and can exceed the receiver's limit | `StuckRepair.ReplayOutgrows` | `Retransmit.ReplaySendable` |
| fix_bridge/md_subscriptions.go:44-50 | an undo (fix_bridge/main.go:649) after another request was served puts that request back as owed, and it gets a second snapshot | `MarketData.SecondSnapshot` | `MarketData.UndoProperIff` |
| fxp_core/src/event_log.rs:572-590 | an acknowledged input that cannot be decoded blocks every later opening of the journal. This concerns the API: the server (fxp_core/src/server.rs:69-112) files every message under its own symbol with the wall clock | `Journal.UnreplayableExample` with `Journal.UnreplayableBlocksReopen` | `Journal.ReopensIffReplayable` |
| fxp_core/src/event_log.rs:174-262 | a new log file killed inside its header can never be opened | `EventLog.CutHeaderExample` | `EventLog.CutHeader` |

## Left out

- Heartbeat and logon timers, test-request timeouts, session schedules and waiting for the peer's logout.
- Text and HeartBtInt contents of administrative messages; only fields that decide behaviour are kept.
- The parser's search for the next frame after garbled bytes; a garbled frame ends the reading of a stream here.
- The registry's table of sessions: one session's entry is free or held, and its store is what the last connection left.
- A connection that logs on under a second session key after it was closed, and sends after a store was released.
- The limit on retained frames in the session theorems; it is part of the store theorems.
- Fsync modes and disk errors that do not kill the process; every completed write is taken as durable.
- Number texts other than those the store writes itself, and white space around the epoch and marker texts.
- Sequence numbers beyond int64; theorems over runs bound the number of operations accordingly.
- Per-field data types, enumerations and time zones of the dictionary: one parameter says whether a field is acceptable.
- GroupGrammar.AcceptsExactlyTheGrammar: for rules whose nested tags are set apart, and in strict mode, because the lenient mode skips unknown fields and has no grammar.
- Stop orders and their cascade, auctions, trading phases, expiry, mass cancel and replace requests.
- Market-data contents and book updates; order routing between symbols and owners beyond the routing handle.
- The core keeps price levels in a tree and order quantities in side tables; here a side is one list in priority order and each order carries its quantities.
- BookRefinement.BookRefinesReference: without stops and replaces, which are not modelled, and without self-trade prevention, which the reference matcher does not know; hidden quantity belongs to orders that rest, as the engine demands (fxp_core/src/engine.rs:2059-2084).
- StatusCache.NothingOpenForgotten: takes the numbering of reports and the rule that an order's first open report comes with its entry as conditions, which EngineStatus.RunInStep proves of the engine for entries and cancels.
- Answers to status queries.
- EngineReplay.EngineReopens: for entry and cancel inputs; the engine's clock, controls and schedule are parameters of the journal theorem only.
- StoreCrash.CrashIsAtomic: excludes the half-done reset, which StoreCrash.HalfResetAtomicIff decides.
- MarketData.RunIsProper: excludes undos that disturb another request, which MarketData.UndoProperIff decides; concurrent callers are modelled as commands in the order of the lock.
- BufferedRepair.RepairedIffAligned: for buffered gap fills that pass over what the sender would not send again either, and buffered messages that do not end the session; BufferedRepair.BufferedIsSteady says which those are.
- GapRepair.GapIsRepaired: for an answer sent whole and a store that accepts every write; refused writes are covered by SessionSafety.RunIsSafe.
- Text is a sequence of code points; UTF-8 encoding is not modelled.
