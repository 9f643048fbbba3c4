# SuiFleet adapters: a Dafny model

SuiFleet's Python adapters move messages, media, documents and measurements between a device and
its services. Each of them keeps state across crashes or transforms data in a way that must lose
nothing. This project models that logic and proves what it promises, for all inputs and all runs.

| file | what it models |
|---|---|
| `Journal.dfy`, `Manager.dfy` | the function manager: a durable journal with deduplication, pruning and recovery, and a dispatcher with FIFO admission, bounded queues and back pressure |
| `Spool.dfy` | the video spool and its upload session, which retires only a contiguous persisted prefix |
| `AnnexB.dfy`, `Ebml.dfy`, `Media.dfy`, `Bytes.dfy` | the streaming Annex-B splitter, the EBML and Matroska writer, the AVCC walk |
| `Json.dfy`, `Merging.dfy`, `Shadow.dfy` | device shadows: merge, delta, patch and the versioned store |
| `Streams.dfy`, `Firehose.dfy` | the sequence-numbered stream with eviction, and the checkpointed exporter that reads it |
| `Metrics.dfy` | the metrics queue |
| `LogBatching.dfy`, `LogExport.dfy`, `Greedy.dfy`, `Utf8.dfy` | the splitting and batching of logs, the log spool and its uploads, why greedy is optimal |
| `Topics.dfy`, `BridgeLoops.dfy`, `Glob.dfy`, `Text.dfy` | MQTT filters and their overlap, bridge mappings and exactly when they loop, the `*` matcher |
| `Framing.dfy`, `Sessions.dfy` | MQTT packet framing and persistent QoS 1 sessions |

**Form.** Code that updates fields or loops over changing variables is a class or a method, proved
against a function on values; what the source promises is then proved about that function over all
runs. A run is a list of events from the source's own operations in any interleaving, crashes
included. A crash drops the volatile fields and keeps the durable ones. The histories that the
theorems speak about (everything ever accepted, issued, sent or acknowledged) are fields of the
world that a run transforms and do not influence it.

**What the outside does** is arbitrary: service answers, what a broker delivers, whether a call
fails, clock readings, the order of reports from invocation threads. Sizes of serialised JSON and of
request bodies and SHA-256 digests are functions passed in, of which nothing is assumed. Function
names, subjects and metric namespaces are only compared, so they are numbers; table rows are
numbered from 0.

**Findings**, each with its input and its exact condition:

- A pruning of the journal is two statements. Cut short between them, it leaves published rows
  without their message, and a redelivery of that message is refused by the uniqueness of (key,
  function) instead of being recorded or acknowledged (`RefusedExactly`; reached from the empty
  journal in `RefusalIsReachable`). A step takes in one message of every subject before it prunes, so
  a step that is handed such a delivery on any subject raises if the backlog lets it get there
  (`StepOnce`). Nothing but the end of a prune, or the message routed to other functions, gets past
  it (`RefusedForever`).
- A checkpoint save that fails after the rename leaves the file ahead of the exporter
  (`FileCanLead`). Its number then goes back in a later step if and only if a shorter success can
  follow, because the exporter is not stopped and the next message it can send comes before that
  number, or a power loss can undo the rename, because a smaller number was not yet superseded by a
  sync (`FileCanFall`). The exporter's own checkpoint rises in every run without a power loss
  (`CheckpointRises`), and can fall in the next step if and only if a power loss may bring back less
  than it remembers (`CheckpointCanFall`), which a restart after such a save makes possible. No such
  number ever passes anything unacknowledged (`NoSilentLoss`).
- A QoS 1 message goes missing exactly when a packet id comes round again while it is still
  unacknowledged, which a client that never acknowledges brings about (`Conservation`,
  `ReuseIsReachable`).
- A bridge loop goes unnoticed where prefix and filter together are not a valid filter: an accepted
  pair takes back in what it sends if and only if that is so, the prefix has no wildcard and is not
  shielded, and the incoming filter overlaps the prefix text followed by what the outgoing wildcard
  may stand for (`ReimportExact`; an instance in `ReimportWithoutValidProduct`).
- JSON equality identifies 1 and 1.0, and 0.0 and -0.0, so a patch can miss its target
  (`PatchCanMiss`, `PatchMissesFloatAndSign`). It reaches exactly the target if and only if no stored value is equal to the wanted one without being it
  (`PatchExact`, `PatchUpdateExact`), which documents of whole numbers never are (`IntegralAgrees`).

## Model

| member | source | states |
|---|---|---|
| `InvocationJournal.StepKeeps` | scripts/lambda_manager.py:259-301 | every accept, start, complete, publish, recover and each half of a prune keeps the journal's invariant: message rows carry what was accepted, the newest 10,000 are there, (key, function) is unique, no issued row is missing unless published, unpublished rows have their message |
| `InvocationJournal.RunKeeps` | scripts/lambda_manager.py:235-301 | the invariant survives every interleaving, and nothing once accepted, issued, published or acknowledged is forgotten |
| `InvocationJournal.EveryRunIsGood` | scripts/lambda_manager.py:238-301 | it holds after every run from the empty journal |
| `InvocationJournal.ExactlyOneRow` | scripts/lambda_manager.py:259-271 | a retained message has exactly one invocation row for each function it was routed to |
| `InvocationJournal.AcknowledgedIsHandled` | scripts/lambda_manager.py:682-703 | an acknowledged message was recorded; exactly the functions it was routed to were issued a row for it, one each; and each such row is published or still there with its message |
| `InvocationJournal.NeverLost` | scripts/lambda_manager.py:281-301 | after any run, any row is there with its message, key and function, or was published |
| `InvocationJournal.RedeliveryIsDuplicate` | scripts/lambda_manager.py:259-265 | a redelivery changes nothing while its message is among the newest 10,000 accepted or has an unpublished row |
| `InvocationJournal.RouteAllRecords` | scripts/lambda_manager.py:266-271 | an accepted message is recorded with exactly its targets, one new row each, in one transaction |
| `InvocationJournal.RefusedExactly` | scripts/lambda_manager.py:259-274 | a delivery is refused if and only if its key is gone from the inbox while a published row of one of its targets is left |
| `InvocationJournal.OrphansOnlyFromPruning` | scripts/lambda_manager.py:259-301 | no step but the first half of a prune leaves a row without its message |
| `InvocationJournal.RefusedAfterCutShort` | scripts/lambda_manager.py:298-301 | after a prune cut short, a redelivery of what it forgot is refused |
| `InvocationJournal.RefusalIsReachable` | scripts/lambda_manager.py:259-301 | such a world is reached from the empty journal by a run of 10,005 events |
| `InvocationJournal.RefusedForever` | scripts/lambda_manager.py:259-301 | in every run without the second half of a prune and without this key under other targets, whatever else is taken in, run, published or restarted, a refused delivery stays refused and gets no acknowledgement |
| `InvocationJournal.Journal.Accept` | scripts/lambda_manager.py:259-274 | records a new message and its rows together, reports a known key as a duplicate, and on a clash leaves the tables as they were |
| `InvocationJournal.Journal.Prune` | scripts/lambda_manager.py:298-301 | both deletions, relative to the largest message number present; no row is left without its message |
| `Manager.RouteTo` | scripts/lambda_manager.py:87-89 | exactly the targets subscribed to the source and subject, in order and each once |
| `Manager.LifeKeeps` | scripts/lambda_manager.py:640-721 | every report, collection, start, refusal, intake, publication and prune keeps: counters equal running rows within the slots, per function starts in row order and pending rows after all started ones; outstanding rows grow only to within the bound |
| `Manager.LifetimeKeeps` | scripts/lambda_manager.py:647-738 | this holds in every reachable state of a manager lifetime, and outstanding rows that start within max_pending - 1 plus the number of functions stay within it |
| `Manager.LifetimeBegins` | scripts/lambda_manager.py:605-605 | a lifetime after any crash begins in such a state with the same outstanding rows |
| `Manager.NextIsFirst` | scripts/lambda_manager.py:80-84 | a row that admission invokes is the first pending one of its function |
| `Manager.PassQueues` | scripts/lambda_manager.py:664-667 | a queued row stays within the function's queue and is queued only while all slots are taken |
| `Manager.PassInvokes` | scripts/lambda_manager.py:671-672 | an admitted row is the oldest of its function with a slot free, so it may start |
| `Manager.PassDeclines` | scripts/lambda_manager.py:661-670 | a row turned away leaves the rest of the pass justified |
| `Manager.PassEnds` | scripts/lambda_manager.py:656-680 | after the pass each function has at most max_queue pending rows, and any only while every slot is taken |
| `Manager.IntakeWithin` | scripts/lambda_manager.py:699-702 | an intake adds at most one row per configured function, and what is acknowledged is recorded |
| `Manager.Manager.constructor` | scripts/lambda_manager.py:564-609 | a manager starts from a recovered journal with nothing running |
| `Manager.Manager.Report` | scripts/lambda_manager.py:640-645 | a report waits to be collected and touches neither journal nor counters |
| `Manager.Manager.CollectOne` | scripts/lambda_manager.py:653-654 | the slot of a reported row is freed as its outcome is recorded |
| `Manager.Manager.CollectAll` | scripts/lambda_manager.py:647-654 | whatever is reported meanwhile, it ends with no report left, every row still there and none less outstanding |
| `Manager.Manager.BeginOne` | scripts/lambda_manager.py:671-672 | the row runs and the counter counts it |
| `Manager.Manager.DeclineOne` | scripts/lambda_manager.py:661-670 | a pending row is completed without running |
| `Manager.Manager.Dispatch` | scripts/lambda_manager.py:656-680 | from any reachable state and with reports arriving during the pass: queues within bounds, rows waiting only while all slots are taken, no new outstanding rows |
| `Manager.Manager.TakeIn` | scripts/lambda_manager.py:682-703 | only a proper message changes the journal, by its routed targets; it raises if and only if the acknowledgement is lost or the record refused, and otherwise the key is acknowledged; at most one row per function becomes outstanding |
| `Manager.Manager.PublishOne` | scripts/lambda_manager.py:719-719 | a completed row becomes published |
| `Manager.Manager.PublishAll` | scripts/lambda_manager.py:705-721 | publishing keeps every queue within its bound and adds nothing outstanding |
| `Manager.Manager.PruneAll` | scripts/lambda_manager.py:735-737 | so does pruning |
| `Manager.Manager.IntakeOne` | scripts/lambda_manager.py:729-733 | one subject's turn raises on a refused delivery if the backlog allows an intake, and leaves a refused delivery of another subject refused |
| `Manager.Manager.IntakeAll` | scripts/lambda_manager.py:729-733 | intake never takes the outstanding rows past their bound, and with a refused delivery on any subject it raises, if the backlog has room for the subjects before |
| `Manager.Manager.StepOnce` | scripts/lambda_manager.py:723-738 | a whole step, with reports arriving at any time, ends dispatched unless it raised and keeps outstanding rows within their bound; with a refused delivery on any subject, and room for those before, it raises and leaves it refused |
| `Spool.VideoSpool.Enqueue` | scripts/kvs_video.py:198-219 | queued, duplicate, overlap, full or invalid as the verdict on the encoded fragment says; anything but queued leaves the spool unchanged; the fragment is well formed, as the runs below require |
| `Spool.VideoSpool.HandleAck` | scripts/kvs_video.py:410-447 | one acknowledgement line, with every refusal, and the retirement of the contiguous persisted prefix |
| `Spool.StepKeeps` | scripts/kvs_video.py:336-456 | every enqueue, session start, send, acknowledgement and crash keeps the spool's invariant |
| `Spool.SpoolSafety` | scripts/kvs_video.py:336-456 | after any run: retained fragments are a suffix of all ever queued, every removed one was sent and acknowledged PERSISTED by a line that the session accepted, quotas hold, fragments never overlap |
| `Spool.SendKeeps` | scripts/kvs_video.py:383-393 | a listed fragment not yet sent is always still stored and intact, so the sender never fails on it |
| `Spool.ReplayIsHarmless` | scripts/kvs_video.py:204-210 | after any run, a fragment that starts within anything ever queued is a duplicate or refused and changes nothing |
| `Spool.CompleteRetiresAll` | scripts/kvs_video.py:448-450 | a session that counted as many persisted fragments as it listed has retired them all |
| `AnnexB.NextIsLeftmost` | scripts/kvs_h264_source.py:22-22 | no start code begins before the one found |
| `AnnexB.Reassembles` | scripts/kvs_h264_source.py:22-26 | the units with their start codes put back are the input |
| `AnnexB.ScanExtend` | scripts/kvs_h264_source.py:19-28 | units found in a buffer stay the units when bytes are appended, and scanning on from the held bytes gives the rest |
| `AnnexB.HeldIsLast` | scripts/kvs_h264_source.py:31-33 | scanned again, the trimmed buffer is one unit from its front, so the offset computed before trimming is right |
| `AnnexB.Between` | scripts/kvs_h264_source.py:22-28 | one scan yields the finished units and holds the last start code on |
| `AnnexB.Turn` | scripts/kvs_h264_source.py:20-28 | one block read: what is yielded and held is what the whole input so far gives |
| `AnnexB.LastTurn` | scripts/kvs_h264_source.py:31-36 | the end of input: the last unit completes the split, or the input was truncated |
| `AnnexB.Nals` | scripts/kvs_h264_source.py:17-36 | for every chunking: without an error the yielded units are the leftmost start-code split of the whole input, they are a beginning of it in any case, and it succeeds if and only if the input is delimited and within the limit |
| `Ebml.VintRoundTrip` | scripts/kvs_video.py:103-107 | a written size is read back, whatever follows (RFC 8794, section 4) |
| `Ebml.VintIsShortest` | scripts/kvs_video.py:103-107 | no non-reserved encoding of the number is shorter (RFC 8794, section 6) |
| `Ebml.SizeFromLeast` | scripts/kvs_video.py:104-107 | whenever some size up to eight holds the number below the reserved value, the least such size is chosen |
| `Ebml.ElemRoundTrip` | scripts/kvs_video.py:110-111 | an element is read back with what follows it |
| `Bytes.FromUint` | scripts/kvs_video.py:114-115 | an unsigned integer is read back from its bytes |
| `Bytes.UintIsShortest` | scripts/kvs_video.py:114-115 | in no more bytes than any that hold it |
| `Media.UnitsOfJoin` | scripts/kvs_h264_source.py:67-72 | walking what the source joins gives its units back |
| `Media.JoinOfUnits` | scripts/kvs_video.py:144-153 | an accepted access unit is exactly the join of its units |
| `Media.WalkIsExact` | scripts/kvs_video.py:144-153 | the walk accepts a list of units if and only if the data is its join and every unit is good |
| `Media.Walk` | scripts/kvs_video.py:144-153 | the loop refuses exactly what has no such list and otherwise gives the units' types in order |
| `Media.CheckFrame` | scripts/kvs_video.py:137-155 | a frame passes if and only if its time, keyframe flag and units are as required |
| `Media.Cluster` | scripts/kvs_video.py:129-160 | accepted if and only if all frames and the encoded size fit; the result is the first and last time and the cluster's bytes |
| `Media.ClusterRoundTrip` | scripts/kvs_video.py:156-160 | a cluster parses back to exactly the frames given |
| `Media.SourceUnitFits` | scripts/kvs_h264_source.py:70-78 | a unit list of the source passes as a frame if and only if it holds a picture, with the keyframe flag the source computes |
| `Json.EqualIsIdentical` | scripts/greengrass_compat.py:486-496 | on values of whole numbers JSON equality is identity |
| `Merging.MergeInto` | scripts/greengrass_compat.py:521-538 | the loop over the patch's keys computes the merge |
| `Merging.MergeIdempotent` | scripts/greengrass_compat.py:521-538 | merging any patch twice is merging it once |
| `Merging.NothingLeft` | scripts/greengrass_compat.py:525-535 | a patch that empties an object would have created none |
| `Merging.MergeKeepsClean` | scripts/greengrass_compat.py:521-538 | a document without nulls and empty objects stays so |
| `Merging.MergeKeepsDepth` | scripts/greengrass_compat.py:477-483 | and within the depth of both |
| `Merging.DeltaConverges` | scripts/greengrass_compat.py:541-551 | merging the delta into the reported document makes the delta empty |
| `Merging.PatchReaches` | scripts/greengrass_compat.py:826-836 | merging the patch into any document gives a document equal to the target, if that has no nulls or empty objects |
| `Merging.PatchExact` | scripts/greengrass_compat.py:826-836 | and exactly the target if and only if no stored value is equal to the wanted one, where not both are objects, without being it |
| `Merging.IntegralAgrees` | scripts/greengrass_compat.py:486-496 | which documents of whole numbers never are |
| `Shadow.ShadowStore.UpdateShadow` | scripts/greengrass_compat.py:588-621 | the checks in order, the merge by section and the view answered |
| `Shadow.RunKeeps` | scripts/greengrass_compat.py:554-621 | every reachable document has no null, no empty object outside arrays and sections at most eight deep |
| `Shadow.RefusedChangesNothing` | scripts/greengrass_compat.py:569-621 | a caller that gets an error, whichever check raised it and also after the merge was made, can rely on the store being as it was |
| `Shadow.VersionCountsChanges` | scripts/greengrass_compat.py:584-617 | the version of a name counts its successful updates and deletes, across deletion and re-creation |
| `Shadow.PatchUpdate` | scripts/greengrass_compat.py:586-621 | updating with the patch to a clean target is refused with no change or leaves a document equal to it |
| `Shadow.PatchUpdateExact` | scripts/greengrass_compat.py:586-621 | an accepted update leaves exactly the target if and only if the stored document agrees with it in that sense |
| `Shadow.PatchCanMiss` | scripts/greengrass_compat.py:834-835 | a shadow that desires one number and is patched towards any other that is equal and not identical keeps the first |
| `Shadow.PatchMissesFloatAndSign` | scripts/greengrass_compat.py:486-496 | 1 and 1.0 are such numbers, and so are 0.0 and -0.0 |
| `Shadow.ReportingTheDelta` | scripts/greengrass_compat.py:561-567 | for every reachable document, merging its delta into what is reported leaves no delta |
| `Streams.RemainingIsShortest` | scripts/greengrass_compat.py:663-667 | eviction takes the shortest prefix that makes room |
| `Streams.AppendKeeps` | scripts/greengrass_compat.py:658-673 | an append keeps consecutive numbers and the size limit; rejecting evicts nothing, overwriting the shortest sufficient prefix |
| `Streams.ReadMeaning` | scripts/greengrass_compat.py:674-683 | a read answers the consecutive numbers from its start, too few, or an explicit eviction |
| `Streams.StepKeeps` | scripts/greengrass_compat.py:635-693 | every operation keeps the ring; a poll is told of an eviction if and only if its cursor fell behind |
| `Streams.RunKeeps` | scripts/greengrass_compat.py:631-693 | over all runs a reader that resumes after its last message has seen every number once and in order |
| `Streams.EveryRunIsGood` | scripts/greengrass_compat.py:631-693 | after every run on a new stream this holds, the retained messages are the consecutive newest ones within the size, and the next read tells of an eviction if and only if the reader has fallen behind |
| `Streams.StreamStore.Create` | scripts/greengrass_compat.py:644-653 | creation with its refusals |
| `Streams.StreamStore.AppendTo` | scripts/greengrass_compat.py:654-673 | the eviction loop does what the ring's append says |
| `Streams.StreamStore.RestartAll` | scripts/greengrass_compat.py:637-642 | memory streams are emptied and their numbers go on |
| `Firehose.Least` | scripts/firehose_export.py:138-138 | the first message read from a cursor is the least assigned number from there |
| `Firehose.Look` | scripts/firehose_export.py:132-162 | a record is taken only where the cursor is not evicted and the record and batch limits hold, and collecting stops without an error only where nothing is left or the next line has no room |
| `Firehose.TakeIsNext` | scripts/firehose_export.py:147-166 | what is taken while the stream moves on is the next assigned number of the stream afterwards |
| `Firehose.Exporter.Collect` | scripts/firehose_export.py:129-166 | a batch of at most 500 records and 4 MiB holds the lines of all messages assigned from the checkpoint to its end; it takes something only if the stream was neither evicted ahead nor corrupt when it began; and it is as long as it can be: with fewer records and no error, nothing more was there or the next line does not fit |
| `Firehose.Exporter.Settle` | scripts/firehose_export.py:172-191 | file and memory move over the accepted prefix of a clear answer, as far as the save succeeds, and otherwise not at all |
| `Firehose.Exporter.Export` | scripts/firehose_export.py:122-191 | one export is one attempt of the runs below, with what the service acknowledged; an eviction ahead raises; idle means nothing was readable |
| `Firehose.AdvanceIsSafe` | scripts/firehose_export.py:172-188 | everything the checkpoint passes over was acknowledged with a record id |
| `Firehose.StepKeeps` | scripts/firehose_export.py:104-191 | appends, evictions, restarts, power losses and attempts with any answer and save keep this for the checkpoint in memory, in the file and in what a power loss may leave of it |
| `Firehose.NoSilentLoss` | scripts/firehose_export.py:104-191 | over every run with crashes and power losses everything assigned at or below the exporter's checkpoint, the file's, or one that a power loss may bring back, was acknowledged |
| `Firehose.EveryRunIsSafe` | scripts/firehose_export.py:90-191 | this holds in every run of an exporter that has saved nothing, on any stream |
| `Firehose.CheckpointRises` | scripts/firehose_export.py:104-191 | the exporter's checkpoint only rises in a run without a power loss, and also in one without a mere process restart where no power loss can bring back less than it remembers |
| `Firehose.CheckpointCanFall` | scripts/firehose_export.py:104-120 | it can fall in the next step if and only if a power loss may bring back less than it remembers |
| `Firehose.EvictionStops` | scripts/firehose_export.py:136-137 | from an eviction ahead on, every run acknowledges and saves nothing more until a restart finds a file that is further on, and never, whatever a power loss leaves of the file, if all of that is behind too |
| `Firehose.FileCanFall` | scripts/firehose_export.py:104-191 | the file's number can go back in the next step if and only if nothing is evicted ahead or corrupt and the next message is one that can be sent and comes before that number, or a power loss may bring back a smaller one |
| `Firehose.FileCanLead` | scripts/firehose_export.py:111-117 | one save that fails after the rename leads there, and with a restart to where the checkpoint can fall |
| `Firehose.StreamEvolves` | scripts/greengrass_compat.py:657-673 | the reference stream moves as the exporter assumes |
| `Firehose.StreamReadsLog` | scripts/greengrass_compat.py:674-683 | and answers its reads so |
| `Metrics.DeleteIsWithout` | scripts/cloudwatch_metrics.py:283-284 | deleting a batch by its ids removes exactly the first rows of its namespace |
| `Metrics.PutSound` | scripts/cloudwatch_metrics.py:241-247 | after a put the retention holds and every stored entry fits alone |
| `Metrics.FormBatch` | scripts/cloudwatch_metrics.py:266-271 | a batch is never empty, has at most 20 entries, fits, and is the longest such run |
| `Metrics.StepKeeps` | scripts/cloudwatch_metrics.py:230-287 | every put and every answered batch keeps the account and the order |
| `Metrics.RunKeeps` | scripts/cloudwatch_metrics.py:230-287 | over every run the account and the order are kept; without crashes each delivery is counted once |
| `Metrics.EveryRunIsGood` | scripts/cloudwatch_metrics.py:230-287 | after every run from an empty queue accepted = delivered + rejected + dropped + buffered, buffered is within the retention, and what each namespace retains is the end of what it had accepted, in order; without crashes each delivery is counted once |
| `Metrics.Exporter.Accept` | scripts/cloudwatch_metrics.py:230-248 | accepted if and only if well formed and sendable alone; the namespace gives up its oldest beyond the retention |
| `Metrics.Exporter.Send` | scripts/cloudwatch_metrics.py:265-286 | one batch: deleted when answered for good, counted when refused, held back when unavailable, other namespaces untouched |
| `Metrics.Exporter.Drain` | scripts/cloudwatch_metrics.py:264-286 | a namespace ends empty or held back |
| `Metrics.Exporter.Pass` | scripts/cloudwatch_metrics.py:261-286 | every namespace ends empty or held back and none held back is called |
| `Metrics.Exporter.Tick` | scripts/cloudwatch_metrics.py:250-287 | terminates, and does so if and only if the interval is over or a full batch is due |
| `Metrics.Namespaces` | scripts/cloudwatch_metrics.py:251-252 | exactly the namespaces with rows, each once |
| `Utf8.DecodeEncode` | scripts/greengrass_managed.py:398-405 | encoded text is decoded to itself (RFC 3629, section 3) |
| `Utf8.Boundary` | scripts/greengrass_managed.py:401-404 | a cut before a byte that begins a character splits the text there |
| `LogBatching.CutPoint` | scripts/greengrass_managed.py:400-402 | the cut is the last character boundary within the limit, and not at the front |
| `LogBatching.Split` | scripts/greengrass_managed.py:396-405 | the parts put together are the line, each fits, and no other such list of parts is shorter |
| `LogBatching.Batches` | scripts/greengrass_managed.py:436-450 | fails if and only if an event is too large; otherwise a partition in order within count, bytes and one day, and no other such partition has fewer batches |
| `Greedy.FewestPieces` | scripts/greengrass_managed.py:396-450 | for any limit that slices inherit, filling each piece before the next gives the fewest pieces |
| `LogExport.StepKeeps` | scripts/greengrass_managed.py:465-512 | every line logged and every tick with any answers keeps the spool within its limit and every number given out in one of three places: spooled, acknowledged or dropped |
| `LogExport.RunKeeps` | scripts/greengrass_managed.py:452-512 | so does every run |
| `LogExport.EveryEventAccountedFor` | scripts/greengrass_managed.py:452-512 | after every run from an empty spool, offered = acknowledged + dropped + spooled, and no event is in two of these places |
| `LogExport.SortKeeps` | scripts/greengrass_managed.py:497-498 | the sort keeps exactly the events of a source and puts them in order of time, equal times in order of arrival |
| `LogExport.PrefixInOrder` | scripts/greengrass_managed.py:497-510 | what is acknowledged of a source comes before whatever is not |
| `LogExport.Upload` | scripts/greengrass_managed.py:500-510 | the batches of one source are put up to the first refused; what was acknowledged is a beginning of its events |
| `LogExport.FinishedNext` | scripts/greengrass_managed.py:496-510 | the sources so far are all sent if and only if they were before and this one is acknowledged to its end |
| `LogExport.LogsExport.Log` | scripts/greengrass_managed.py:465-489 | a line that is not admitted changes nothing; any other is stored in parts that put together are the line, or dropped whole if and only if it is larger than the spool |
| `LogExport.LogsExport.MakeRoom` | scripts/greengrass_managed.py:486-488 | the oldest events go until the rest fits, and each is counted |
| `LogExport.LogsExport.Tick` | scripts/greengrass_managed.py:492-512 | nothing is put before the interval is over; each put holds spooled events of one source in order and within the limits; what leaves the spool is exactly what was acknowledged, for each source in order; and the spool ends empty if and only if no put was refused |
| `Topics.FilterMatchesMeaning` | scripts/greengrass_compat.py:436-447 | the loop decides what MQTT 3.1.1 section 4.7 means by a match |
| `Topics.OverlapComplete` | scripts/greengrass_compat.py:777-787 | two filters that some topic matches overlap |
| `Topics.OverlapExact` | scripts/greengrass_compat.py:777-787 | on level lists, overlap if and only if some list of plain levels matches both |
| `Topics.FirstRefusal` | scripts/greengrass_compat.py:803-817 | mappings pass if and only if each does |
| `Topics.PrefixKeepsMatch` | scripts/greengrass_compat.py:819-819 | a match survives a common prefix where the results are valid |
| `Topics.NeverReimported` | scripts/greengrass_compat.py:794-823 | an accepted mapping set never takes a message back from the link it was exported to |
| `Topics.ReimportWithoutValidProduct` | scripts/greengrass_compat.py:818-822 | an accepted pair that does, where prefix and filter together are not a valid filter |
| `BridgeLoops.LoopExact` | scripts/greengrass_compat.py:818-822 | on levels of any length: the prefix, the outgoing filter and the incoming filter loop if and only if some topic goes round |
| `BridgeLoops.ReimportExact` | scripts/greengrass_compat.py:794-823 | an accepted pair takes back in what it sends if and only if its product is no valid filter, its prefix is plain and not shielded, and the levels loop |
| `Globbing.LeftmostServes` | scripts/aws_iot_harness.py:48-52 | if any place for the next part works, the leftmost does |
| `Globbing.MatchesByParts` | scripts/greengrass_compat.py:450-453 | the meaning of `*` is that the parts between stars occur in order |
| `Globbing.Glob` | scripts/aws_iot_harness.py:41-53 | the greedy matcher accepts exactly the texts that the meaning of `*` accepts |
| `Framing.Encode` | scripts/aws_iot_harness.py:56-64 | the loop writes the packet with its remaining length |
| `Framing.ParseEncode` | scripts/aws_iot_harness.py:263-279 | an encoded packet followed by anything is read as exactly that packet and the rest (MQTT 3.1.1, section 2.2.3) |
| `Framing.ParseExtend` | scripts/aws_iot_harness.py:263-279 | bytes that arrive later do not change a packet already read |
| `Framing.PrefixParsesToNothing` | scripts/aws_iot_harness.py:263-279 | no proper beginning of a packet is taken for one |
| `Framing.DecodeLength` | scripts/aws_iot_harness.py:267-276 | the loop finds the remaining length if and only if it is complete |
| `Framing.Decode` | scripts/aws_iot_harness.py:263-279 | the packet and the number of bytes used, or nothing if it is not complete |
| `Framing.PacketsOfEncoded` | scripts/aws_iot_harness.py:254-262 | a stream of encoded packets is read as those packets |
| `Framing.Drain` | scripts/aws_iot_harness.py:254-261 | all complete packets of the buffer are handled in order until one closes the connection |
| `Framing.Serve` | scripts/aws_iot_harness.py:237-261 | for every chunking the packets handled are those of the whole input, up to one that closes |
| `Sessions.Session.Deliver` | scripts/aws_iot_harness.py:393-400 | queued offline; online sent under the next packet id |
| `Sessions.Session.Connect` | scripts/aws_iot_harness.py:319-337 | what is in flight is resent, then the queue is delivered |
| `Sessions.StepKeeps` | scripts/aws_iot_harness.py:289-400 | no message is ever in two places, and one goes missing in a step if and only if a packet id in flight is reused |
| `Sessions.Conservation` | scripts/aws_iot_harness.py:289-400 | over every run each routed message is exactly one of acknowledged, in flight or queued, if and only if no packet id was reused in flight |
| `Sessions.ReconnectResends` | scripts/aws_iot_harness.py:332-336 | a reconnect after any run resends exactly what is in flight, before the queue |
| `Sessions.ResentInOrder` | scripts/aws_iot_harness.py:332-333 | in the order of packet ids |
| `Sessions.ReuseIsReachable` | scripts/aws_iot_harness.py:397-399 | a client that acknowledges nothing brings a reuse about |

## Left out

- Process spawning, signals, workers and their backoff, sockets, TLS, SigV4, HTTP and credentials: effects outside the logic; only their results enter.
- `load_config`, `translate_recipe`, `_metric_valid`, `validate_profile` and other lists of independent field checks: which configurations and fields are well formed is not modelled; a malformed message, metric or log line is a flag here.
- `nested_within`, `read_line`, `parse_response` and the contents of requests and envelopes: how a function's answer becomes a status is not modelled; a completed row carries its status only.
- `access_units` and `records` beyond the bytes of one access unit, `encode_record`, `mkv_header`: grouping by delimiter and constant headers.
- `MetricsExport.apply`: the reference model's operation table around the queueing that is modelled.
- LogExport.LogsExport.Log: unknown sources, level filtering and redaction are not modelled; a line arrives admitted or not, already redacted. The spool limit and the interval do not change during a run.
- Retry and publish backoff and the pruning interval: when a publish or prune is tried is arbitrary.
- MQTT sessions: clean-session connects, subscriptions and policies, and the parsing of CONNECT.
- Client-device authorization, component lifecycle, deployments and everything on chain.
- Merging.MergeInto: returns the merged document instead of changing the target in place, so aliasing between target and result is not captured.
- Media.Cluster: the fragment limit is taken between 1 KiB and 8 MiB, which the configuration checks before any cluster is built.
- Metrics.Exporter.Tick: the monotonic clock is taken to be non-negative at a tick, and the retention and interval do not change during a run.
- Topics.OverlapExact: is about level lists; the rule for topics that begin with `$` and the 65535-byte limit are not part of it.
- Topics.NeverReimported: holds where prefix and filter together are a valid filter, which is what the source checks before looking for a loop.
- Shadow.PatchUpdate: equality of documents is the source's own, which does not tell 1 from 1.0 or 0.0 from -0.0; `PatchUpdateExact` says when it is identity. Not-a-number values and infinities are not part of the JSON model.
- Utf8.DecodeEncode: text holds Unicode scalar values only; lone surrogates, which Python strings can hold, are not modelled.
- Manager.Manager.StepOnce: the clock-driven choices, whether a publish or a prune is due, are inputs.
- Journal keys are pairs of subject and number; the text form that joins them with `#` is not modelled, and no configured subject contains `#`.
- BridgeLoops.ReimportExact: that a looping pair does re-import is stated for prefixes of up to 64,000 bytes, because a longer one may leave no room for a topic within MQTT's 65,535; `LoopExact` has no such bound.
- LogBatching.Batches: an event carries its day beside its time; how a time becomes a UTC day, with Python's rounding to microseconds, is not modelled.
- Field updates of the tables that only link a method to its transition (`Journal.Start`, `VideoSpool.SendNext`, `Session.Puback` and the like) are proved but not listed above.
