# yuan: a Dafny model of file synchronisation, worker supervision, service placement and logging

This project models four parts of the repository and proves what they promise.

* **filesync** (`release/filesync`), a two-peer file synchroniser in the style of rsync. The
  layers are modelled one on top of the other: text tokens and framing (`Text`), the weak checksum
  and the delta engine (`Checksum`, `Delta`, `DeltaStream`), manifests and need lists (`Protocol`,
  `NeedList`), trees of directories and files (`Files`), the sender and the receiver (`Sender`,
  `SenderObject`, `Receiver`, `ReceiverObject`), their composition (`Refinement`, `Transfer`), the
  decision what to fetch and delete (`Decision`), one direction of a round and whole runs of two
  peers (`HalfRounds`, `Convergence`), what a round loses (`Losses`) and what stops it (`Obstacles`),
  the responder's session (`Session`, `SessionInvariant`, `SessionObject`, `Exchange`, `RoundOnWire`),
  the initiator (`Initiator`), and the two of them talking to each other for one round (`Dialogue`) or
  many (`TextRuns`).
* **The supervisor of worker processes** (`core/app/src/bootstrap.cpp`): restart windows, backoff,
  suppression and the circuit breaker (`Supervisor`, `SupervisorRuns`, `SupervisorObject`) and the
  polling loop around them (`SupervisorPolls`).
* **Service placement and endpoint planning** (`core/app/src/worker_plan.cpp`,
  `core/app/src/endpoint_manager.cpp`): `Placement`, `Endpoints` and their composition
  `ServicePlan`.
* **The asynchronous log appender** (`logger/src/async_appender.cpp`): `Appender`, a state machine
  over every access to shared state, and `Wakeups`, which counts sleeping threads and notifications.

`Wrappers`, `Sequences` and `Arithmetic` hold an option type, a result type and small facts.
`dafny verify dfyconfig.toml` checks the whole project.

## Main results

* `Dialogue.RoundOfTalk` and `Dialogue.RoundOverText`: the initiator and the responder are two
  machines, each fed what the other writes. They finish a round if and only if it is not obstructed;
  then the text, cut into packets in any way the buffer limit allows, is read on both sides as what
  was meant, and leaves two trees that agree. `TextRuns.TextIsRun`: any number of such rounds is a run.
* `Obstacles.RoundCompletes`: the exact condition, known before the round, under which it can be
  completed: nothing is to be deleted below a file that is to stay. `Obstacles.StuckForGood`: a round
  refused for that reason is refused again until somebody edits a tree.
* `Convergence.RunConverges`: after any number of completed rounds, with arbitrary edits in between,
  both manifests and both saved states are equal, and each path holds the entry that one rule gives.
  The rule follows the tree: a deletion takes what lies below, and a file replaces a directory with
  all it held. `Losses.OwnRuleIff` says exactly when a path keeps what its own history alone would give.
* `Transfer.TransferIff` and `Transfer.TransferRefines`, with `Transfer.FinalAt`, `Transfer.TargetsReached` and
  `Transfer.OthersUntouched`: the receiver accepts the sender's lines exactly when no deletion meets a
  file above its path; then it reports completion exactly once, at END, and the tree is, path by path, what the last request touching it makes of it.
* `Delta.RoundTripsIff`: for every basis, the emitted operations rebuild every source from it if and
  only if a condition on the basis holds, which every file of at most 2^32 blocks meets
  (`Delta.FewBlocksWrapHome`).
* `Transfer.AcceptedBasisCopies`: whatever basis an accepted need list names, every COPY and DATA
  line derived from it passes the receiver's checks.
* `Receiver.RunContent`, `Receiver.RunKeepsTree`, `Receiver.EndIsExact`: what any accepted transcript
  can do to a tree.
* `SupervisorPolls.PollBudget`, over `SupervisorRuns.RespawnBudget`; `SupervisorRuns.OpensOnlyOnBurst`
  and `SupervisorRuns.NoRespawnWhileHeld`: quantitative bounds over every timed run and every sequence
  of polls.
* `ServicePlan.ValidIffNoClash`, `ServicePlan.ReuseIffShared`: the endpoint plan described in terms of
  the service definitions alone.
* `Appender.NothingLost`, `Appender.EmptyAfterStop`, `Appender.FlushSeesAll`: conservation, drain
  and flush under every interleaving; `Wakeups.SleepersLeft`: exactly how many appenders a stop leaves
  asleep.

## Modelling decisions

* Digests are a parameter `Sums(weak, strong)`. `Delta.Adler` is the instance with the real weak
  checksum; `Files.RealConfigIsValid` shows that the results apply to it. SHA-256 is an arbitrary
  function; where a law needs it, "no collision among the pieces involved" is a hypothesis.
* A `std::string` is a `string` of octets; a throw is `Err`. A `std::map` is walked in any order that
  meets a directory before what it holds; `Files.SortedAncestorsFirst` shows that the real one does.
* The file system is a map from paths to directories and files with bytes and a modification time.
  Creating a file makes the directories that lead to it, and fails below a file; deleting a path
  takes all below it, and fails below a file, as `remove_all` does in the GNU C++ library on Linux;
  putting a file where a directory stood takes all below it. A scan does not descend into
  excluded directories. The temporary file of an open transfer is `temp`; backup copies live only
  inside one step.
* A peer that keeps its state between rounds is a `World`. Edits between rounds are unrestricted.
* `waitpid`, `fork` and the clock are parameters of the supervisor's steps. The clock is positive
  and never runs backwards.

## Findings

* When deletions are on and one peer replaces a synchronised directory by a file, the round fails: the
  saved entries below are still deleted one by one, and the deletion of a path below a file is an error
  (`release/filesync/filesync_transfer.cpp:461-466`). Nothing has been saved by then, so every later round
  fails at the same line. `Obstacles.ReplacedIsRefused` is an input, `Obstacles.RoundCompletes` the exact
  condition, `Obstacles.StuckForGood` the repetition, and `Dialogue.RefusedOverText` what the peer sees.
* A file that was added to a directory is lost when the peer has deleted that directory: the deletion
  is decided from the directory's own history and takes everything below. `Losses.NewFileLost` is such
  an input, and `Losses.OwnRuleIff` the exact condition (`release/filesync/filesync_transfer.cpp:461-466`).
* The responder saves its state before the initiator has fetched. If the connection is lost after any
  number of the initiator's requests, the next round deletes what only the responder has, exactly when
  deletions are propagated; a new file of the responder is lost exactly if it had not been fetched yet
  (`Losses.CutRoundLoses`, `Losses.NewFileAtCut`; `release/filesync/filesync_peer.cpp:150-168`).
* In the multi-process supervisor the worker whose exit opens the circuit gets no restart scheduled, so
  it never runs again (`SupervisorRuns.OpenerNeverRestarts`; `core/app/src/bootstrap.cpp:1307-1326`).
  `SupervisorRuns.PendingIff` says exactly when an exit schedules a restart, `SupervisorRuns.LostIffOpener`
  that within the budget only the opener goes without, and `SupervisorRuns.OpenerLeftBehind` is a run
  in which one worker is left behind while another, already waiting, runs again.
* An empty token makes every manifest unreadable, and one name that the peer does not consider safe,
  such as `a:b`, makes the whole manifest unreadable. `Protocol.ManifestRoundTrip` states the round
  trip with this exact condition.
* Block indices are 32-bit. `Delta.RoundTripsIff` gives the exact condition under which a delta against
  a larger file still works, and `Delta.WideFileFails` a file of 2^32 + 1 bytes for which it does not.
  On the wire the limit of a million blocks comes first (`Decision.NeedSurvivesWire`).
* The documentation says that `keep_both` keeps the local file and stores the remote version under
  a `.conflict.` name with a date. The code renames the local file to `.conflict.<mtime>` and
  installs the remote one (`release/filesync/filesync_transfer.cpp:361-366`). `Receiver.FinishExact`
  states what is left, `Receiver.LocalNeverStays` that the documented rule holds exactly when there is
  nothing to keep, and `Receiver.KeepBothSwaps` shows one input.
* The documentation says that a path is deleted only if it still exists locally. `send_need` also
  asks for the deletion of saved paths that are already gone on both sides (`Decision.RequestsExact`
  says which deletions are asked). Such a deletion changes nothing, and is accepted exactly when the
  path is wanted and no file stands above it (`Losses.AbsentDelete`): it is harmless where the directory
  is gone (`Losses.GoneWithDirectory`) and refused where a file took its place (`Losses.GoneUnderFile`).
* DELETE lines are filtered as files even when they name directories, so an include filter can make
  the receiver refuse a deletion that it decided itself (`Losses.DeleteAccepted`, with the exact
  condition, and `Losses.DeleteRefused`, with an input). `HalfRounds.Aligned` excludes include filters
  for this reason.
* Two services registered under one name share a named port although neither is replicated
  (`ServicePlan.NamesakesShare`). `ServicePlan.ReuseIffShared` gives the exact condition;
  `ServicePlan.ReuseIffReplicated` is what it becomes when names are unique.
* A flush that began while the appender was running and returns after `stop` may return while another
  flush still holds an item (`Appender.FlushReturnsEarly`; `Appender.FlushSees` and
  `Appender.FlushSeesAll` give the exact condition; `logger/src/async_appender.cpp:99-118`).
* `stop` does not notify appenders that sleep for room in the queue, so more sleepers than pending
  notifications means sleepers that are never woken (`Wakeups.SleepersLeft`, the exact number;
  `Wakeups.OneLeftBehind`, an input; `logger/src/async_appender.cpp:28-41`).

## Model

| member | source | states |
|---|---|---|
| Text.QuoteToken | release/filesync/filesync_common.h:100-112 | the loop computes the quoting function, and unquoting gives the value back |
| Text.UnquoteToken | release/filesync/filesync_common.h:121-138 | the loop computes the unquoting function, error cases included |
| Text.UnquoteQuote | release/filesync/filesync_common.h:100-138 | unquoting undoes quoting on every octet string |
| Text.QuoteIsWord | release/filesync/filesync_common.h:100-112 | a quoted token holds no white space, and is empty only for the empty token |
| Text.SplitLine | release/filesync/filesync_common.h:140-148 | the loop yields the maximal runs of non-space characters in order |
| Text.SplitJoin | release/filesync/filesync_common.h:140-148 | words joined by single spaces split into exactly those words |
| Text.NumberDecimal | release/filesync/filesync_protocol.cpp:10-17 | a printed number is read back, or refused exactly when it exceeds 64 bits |
| Text.DecodeHex | release/filesync/filesync_common.h:161-176 | the loop computes the decoding function; odd lengths and bad digits are refused |
| Text.HexRoundTrip | release/filesync/filesync_common.h:150-176 | decoding undoes encoding; the text is one word of twice the length |
| Text.IsSafeRelativePath | release/filesync/filesync_common.h:59-79 | accepts exactly the paths without control characters, drive marks, backslashes, or a component that is empty or ends in a dot or space |
| Text.FramesSplitAnywhere | release/filesync/filesync_peer.cpp:138-143 | the complete lines of a stream, and what is left over, do not depend on where it is cut |
| Text.FramesOfWire | release/filesync/filesync_peer.cpp:138-143 | lines that were written one after another are the frames that are read |
| Checksum.WeakChecksum | release/filesync/filesync_delta.cpp:12-23 | the loop packs the two closed-form sums modulo 65521 without leaving 32 bits |
| Checksum.HalvesRecoverable | release/filesync/filesync_delta.cpp:22-22 | both sums can be read back from the packed value |
| Checksum.SlideByOne | release/filesync/filesync_delta.cpp:14-23 | sliding by one byte updates both sums from their old values alone |
| Delta.CreateSignature | release/filesync/filesync_delta.cpp:28-56 | reading block by block yields the signature, and block size zero is refused |
| Delta.SignatureTiles | release/filesync/filesync_delta.cpp:43-51 | the blocks are consecutive, disjoint, non-empty pieces that cover the file exactly when every index fits 32 bits |
| Delta.ParserArithmetic | release/filesync/filesync_protocol.cpp:114-136 | the 64-bit product and difference that give a block its place and size never wrap |
| Delta.CopyArithmetic | release/filesync/filesync_delta.cpp:102-104 | the 64-bit offset of a copy from a tiling never wraps |
| Delta.TileBounds | release/filesync/filesync_protocol.cpp:131-138 | every block of a tiling lies inside the file |
| Delta.CopiesBounded | release/filesync/filesync_delta.cpp:97-104 | every copy derived from any tiling is non-empty and inside the tiled file |
| Delta.WrittenIsLength | release/filesync/filesync_delta.cpp:80-138 | whatever the signature, the operations write as many bytes as the source has |
| Delta.KeyedLookup | release/filesync/filesync_delta.cpp:72-95 | the first strong match under a (weak, size) key is the first block in file order that agrees in size, weak and strong sum |
| Delta.MatchIsBlock | release/filesync/filesync_delta.cpp:85-104 | without collisions, a match names a piece of the basis equal to the window, for every basis that meets the condition of the round trip |
| Delta.OperationsRebuild | release/filesync/filesync_delta.cpp:80-138 | applying the operations to such a basis rebuilds pending bytes and source exactly |
| Delta.RoundTripsIff | release/filesync/filesync_delta.cpp:42-104 | every source is rebuilt from a basis if and only if each block that first occurs at an index past 32 bits also stands at the offset of its wrapped index |
| Delta.FewBlocksWrapHome | release/filesync/filesync_delta.cpp:42-45 | every file of at most 2^32 blocks meets the condition of the round trip |
| Delta.OnlyLastWraps | release/filesync/filesync_delta.cpp:42-45 | past 2^32 blocks only the short last block can meet that condition, as a prefix of the block it wraps to |
| Delta.WideFileFails | release/filesync/filesync_delta.cpp:42-104 | a file of 2^32 + 1 one-byte blocks whose delta copies the wrong byte |
| Delta.DataBounded | release/filesync/filesync_delta.cpp:123-138 | every data operation is non-empty and within the limit the receiver enforces |
| Delta.BlockAlwaysFound | release/filesync/filesync_delta.cpp:84-95 | a window equal to a basis block is always matched |
| Delta.SelfDelta | release/filesync/filesync_delta.cpp:80-109 | a file against its own signature yields one copy per block and no data |
| DeltaStream.OperationStream.constructor | release/filesync/filesync_delta.cpp:61-78 | a new stream has all operations of the source still to give |
| DeltaStream.OperationStream.BuildIndex | release/filesync/filesync_delta.cpp:72-74 | the index holds, under each key, the blocks with that key in file order |
| DeltaStream.OperationStream.FindMatch | release/filesync/filesync_delta.cpp:84-95 | the indexed search finds what a scan of all blocks finds first |
| DeltaStream.OperationStream.Slide | release/filesync/filesync_delta.cpp:111-121 | exactly the first unread byte is gone, and a short window still means exhausted input |
| DeltaStream.OperationStream.Next | release/filesync/filesync_delta.cpp:80-129 | each call returns the head of the remaining operations and leaves the tail; it stops exactly when none remain |
| Protocol.EntryRoundTrip | release/filesync/filesync_protocol.cpp:25-40 | a printed entry is read back, with a missing hash as a dash, exactly when its path is safe and its metadata valid |
| Protocol.ParseManifest | release/filesync/filesync_protocol.cpp:59-79 | the loop computes the manifest function: greeting, count, distinct safe paths, valid metadata |
| Protocol.EncodeManifest | release/filesync/filesync_protocol.cpp:195-207 | the loop writes greeting, count, one line per entry and END |
| Protocol.ManifestRoundTrip | release/filesync/filesync_protocol.cpp:59-79 | the printed manifest is read back if and only if the token is not empty and every path is safe with valid metadata; one bad entry refuses it all |
| Protocol.TakeEndFrame | release/filesync/filesync_protocol.cpp:186-193 | cuts just after the first END line, keeps every byte, and finds one exactly when there is one |
| Protocol.ManifestFrame | release/filesync/filesync_protocol.cpp:186-207 | in a printed manifest followed by any bytes, the first END line is the manifest's own |
| Protocol.NoEarlyEnd | release/filesync/filesync_protocol.cpp:186-193 | lines that are not END contain no END line anywhere in their text |
| Protocol.EntriesAreCounted | release/filesync/filesync_protocol.cpp:69-77 | accepted entry lines add exactly that many distinct paths |
| NeedList.ParseNeed | release/filesync/filesync_protocol.cpp:80-149 | the parser computes the need function, every refusal included |
| NeedList.ReadBody | release/filesync/filesync_protocol.cpp:90-145 | the walk over the lines computes the request list and refuses repeated paths |
| NeedList.ReadNext | release/filesync/filesync_protocol.cpp:91-145 | one request that was not seen before is read, and the walk goes on after it |
| NeedList.ReadRequest | release/filesync/filesync_protocol.cpp:91-144 | one request is read and the walk stops on its last line |
| NeedList.ReadSignature | release/filesync/filesync_protocol.cpp:106-141 | the block size, hash and count checks and the block records are those of the specification |
| NeedList.NeedAccepted | release/filesync/filesync_protocol.cpp:80-149 | whatever is accepted has distinct safe paths, a bounded count, and bases that tile their files |
| NeedList.NeedRoundTrip | release/filesync/filesync_protocol.cpp:41-52 | every list of distinct good requests is read back exactly |
| Decision.SendNeed | release/filesync/filesync_transfer.cpp:18-85 | writes the need message of the decided requests |
| Decision.Decide | release/filesync/filesync_transfer.cpp:25-57 | the two loops select the fetched and the dropped paths, in walking order |
| Decision.RequestsExact | release/filesync/filesync_transfer.cpp:25-74 | no path is requested twice or both fetched and deleted; each request is justified and each justified path is requested, with its basis |
| Decision.NeedSurvivesWire | release/filesync/filesync_transfer.cpp:59-84 | what `send_need` writes is split, accepted and recovered exactly if and only if the list and its signatures are within the limits |
| Files.ConflictIsInternal | release/filesync/filesync_scan.cpp:18-23 | a kept conflict copy is never scanned or transferred |
| Files.SortedAncestorsFirst | release/filesync/filesync_model.h:44-44 | names in lexicographic order come after the directories that hold them |
| Files.RealConfigIsValid | release/filesync/filesync_delta.cpp:12-23 | the real weak checksum meets the assumptions on configurations |
| SenderObject.FileSender.constructor | release/filesync/filesync_transfer.cpp:102-107 | a new sender has the whole transfer still to give |
| SenderObject.FileSender.NextLine | release/filesync/filesync_transfer.cpp:109-202 | each call gives the next line of the transfer, nothing after its end, and an error exactly where the transfer breaks off |
| SenderObject.FileSender.NextRequest | release/filesync/filesync_transfer.cpp:137-193 | starts the next request with its first line |
| SenderObject.FileSender.NextFull | release/filesync/filesync_transfer.cpp:204-216 | gives the next chunk or moves on to the end line |
| SenderObject.FileSender.NextDelta | release/filesync/filesync_transfer.cpp:218-232 | gives the next operation or moves on to the end line |
| Receiver.ApplyKeepsInv | release/filesync/filesync_transfer.cpp:401-563 | an accepted line keeps temporary length equal to bytes counted and within the size, directories above the open file, and the open basis byte for byte |
| Receiver.OnlyVerifiedContent | release/filesync/filesync_transfer.cpp:338-399 | content changes only to a verified file, the directories that lead to it, a named directory or deletion with all below, or a kept conflict copy |
| Receiver.FinishExact | release/filesync/filesync_transfer.cpp:338-399 | a finished transfer leaves the received file at its path, nothing below, and the old file under the conflict name exactly when it is displaced |
| Receiver.LocalNeverStays | release/filesync/filesync_transfer.cpp:361-366 | the documented rule that the local file stays holds exactly when there was no differing file to keep |
| Receiver.KeepBothSwaps | release/filesync/filesync_transfer.cpp:361-366 | one input at which the documented rule fails |
| Receiver.RunTracks | release/filesync/filesync_transfer.cpp:401-563 | the counters and the open file are what the accepted transcript says |
| Receiver.EndIsExact | release/filesync/filesync_transfer.cpp:403-409 | END is accepted only after exactly the declared number of entries since FILES |
| Receiver.RunContent | release/filesync/filesync_transfer.cpp:401-563 | after any accepted transcript a visible file is the old one or has the size and digest announced for its path |
| Receiver.RunKeepsTree | release/filesync/filesync_transfer.cpp:401-563 | after any accepted transcript every entry still has directories above it |
| ReceiverObject.Receiver.constructor | release/filesync/filesync_transfer.cpp:268-268 | a new receiver is idle on the given tree |
| ReceiverObject.Receiver.Begin | release/filesync/filesync_transfer.cpp:301-336 | opens a transfer exactly when the header, path, hash and basis are acceptable and no file stands above, and only makes directories |
| ReceiverObject.Receiver.Finish | release/filesync/filesync_transfer.cpp:338-399 | verifies size and digest, replaces the target and all below it, keeps the loser when asked and possible, and counts the entry |
| ReceiverObject.Receiver.ApplyLine | release/filesync/filesync_transfer.cpp:401-563 | accepts exactly the lines of the specification, with its state and completion flag |
| ReceiverObject.Receiver.Reset | release/filesync/filesync_transfer.cpp:293-299 | clears the open file and the batch counters only |
| Refinement.ChunksWrite | release/filesync/filesync_transfer.cpp:204-216 | the chunks of a file make the receiver write exactly its bytes |
| Refinement.OperationsWrite | release/filesync/filesync_transfer.cpp:218-232 | operations that rebuild some bytes make the receiver write exactly those bytes |
| Refinement.EveryLineAccepted | release/filesync/filesync_transfer.cpp:508-560 | every copy and data line made against any tiling is accepted by a receiver whose file is at least as long, and as many bytes arrive as the source has |
| Refinement.FullRefines | release/filesync/filesync_transfer.cpp:180-216 | a full transfer is accepted and puts the source file at its path |
| Refinement.DeltaRefines | release/filesync/filesync_transfer.cpp:173-232 | a delta transfer against the current basis is accepted and puts the source file at its path |
| Transfer.AcceptedBasisCopies | release/filesync/filesync_protocol.cpp:106-141 | the same for any basis in any accepted need list |
| Transfer.TransferRefines | release/filesync/filesync_transfer.cpp:109-232 | where every request can be served in the tree it meets, every sender line is accepted, only the last reports completion, and the tree is the prescribed one |
| Transfer.TransferIff | release/filesync/filesync_transfer.cpp:401-563 | a list that can be served but for files above deletions is accepted if and only if no deletion meets a file above its path, and is otherwise refused at one line |
| Transfer.FinalAt | release/filesync/filesync_transfer.cpp:401-563 | each path ends as the last request that touches it, or a directory above it, leaves it |
| Transfer.TargetsReached | release/filesync/filesync_transfer.cpp:137-193 | a requested file ends as the source has it if and only if no later request removes a directory above it |
| Transfer.OthersUntouched | release/filesync/filesync_transfer.cpp:401-563 | every visible path that no request touches, directly or from above, is unchanged |
| HalfRounds.ListServable | release/filesync/filesync_transfer.cpp:25-74 | the decided requests are all accepted, whatever is nested in what, if and only if nothing is to be deleted below a file that stays once everything is fetched |
| HalfRounds.HalfRoundAt | release/filesync/filesync_transfer.cpp:25-57 | a completed half round leaves the peer's entry where it is fetched, nothing where it or a directory above is dropped or replaced by a file, and the old entry elsewhere |
| Convergence.RoundAt | release/filesync/filesync_transfer.cpp:25-57 | after a completed round both peers hold what the outcome rule gives at every visible path |
| Convergence.RoundConverges | release/filesync/filesync_peer.cpp:247-303 | manifests and saved states agree after a completed round |
| Convergence.RunConverges | release/filesync/filesync_peer.cpp:247-303 | they agree after every completed round of every run, whatever is edited in between, with deletions on or off |
| Convergence.QuietRound | release/filesync/filesync_transfer.cpp:25-57 | with no edits since the last round neither half requests anything, include filters or not |
| Convergence.RoundEqualContent | release/filesync/filesync_transfer.cpp:38-40 | if equal metadata meant equal bytes before, the visible trees are equal byte for byte after |
| Session.WalksExist | release/filesync/filesync_model.h:44-44 | every set of names has an order that meets directories before what they hold, so walks exist |
| Losses.OwnRuleIff | release/filesync/filesync_transfer.cpp:25-57 | after a completed round a path holds what its own history says, on both peers, if and only if no deletion and no file above it sweeps it away |
| Losses.NewFileLost | release/filesync/filesync_transfer.cpp:451-466 | a new file in a directory that the peer has deleted is gone from both peers |
| Losses.DeleteAccepted | release/filesync/filesync_transfer.cpp:451-466 | a decided deletion is accepted when it comes back, and takes all below, if and only if the include filters accept the path as a file and no file stands above it |
| Losses.DeleteRefused | release/filesync/filesync_transfer.cpp:451-459 | an input at which a decided deletion is refused |
| Losses.AbsentDelete | release/filesync/filesync_transfer.cpp:47-57 | a decided deletion of a path already gone changes nothing, and is accepted under the same condition |
| Losses.GoneWithDirectory | release/filesync/filesync_transfer.cpp:47-57 | an input where such a deletion is accepted |
| Losses.GoneUnderFile | release/filesync/filesync_transfer.cpp:461-466 | an input where it is refused |
| Losses.CutRoundLoses | release/filesync/filesync_peer.cpp:150-168 | after a round cut at any request of the second transfer, what only the responder has survives the next round if and only if deletions are off |
| Losses.NewFileAtCut | release/filesync/filesync_peer.cpp:150-168 | a new file of the responder is such an entry exactly if it had not been fetched before the cut |
| Obstacles.RoundCompletes | release/filesync/filesync_transfer.cpp:451-466 | a round can be completed if and only if nothing is to be deleted below a file that is to stay, and always with deletions off |
| Obstacles.HalfRoundIff | release/filesync/filesync_transfer.cpp:451-466 | the same for one direction |
| Obstacles.AbortedIff | release/filesync/filesync_transfer.cpp:451-466 | the responder stops at a refused deletion exactly when its half is not clear |
| Obstacles.StuckForGood | release/filesync/filesync_peer.cpp:150-168 | the world in which it stopped is obstructed again, since nothing was saved |
| Obstacles.ReplacedIsRefused | release/filesync/filesync_transfer.cpp:451-466 | an input: a synchronised directory replaced by a file on the initiator |
| Session.ProcessAppend | release/filesync/filesync_peer.cpp:138-193 | frames may be handled in two portions without changing state or output |
| Session.PacketsDoNotMatter | release/filesync/filesync_peer.cpp:128-143 | within the buffer limit, packets have the effect of their concatenated bytes |
| SessionInvariant.ProcessKeepsInv | release/filesync/filesync_peer.cpp:145-149 | over every frame sequence the flags and counters are those of the frames of the current round |
| SessionInvariant.NeedOnlyFromCompleteManifest | release/filesync/filesync_peer.cpp:145-149 | a need list is computed only after one matching greeting, one header, and exactly the declared number of distinct entries |
| SessionObject.InboundConnection.OnRead | release/filesync/filesync_peer.cpp:128-194 | the buffer loop has the effect of receiving the packet in the specification |
| Exchange.ManifestExchanged | release/filesync/filesync_peer.cpp:145-149 | a manifest message is read as the sender's scan and answered with the need list |
| Exchange.FilesExchanged | release/filesync/filesync_peer.cpp:150-168 | an accepted transfer is applied, saved and answered with a manifest |
| Exchange.FilesRefused | release/filesync/filesync_peer.cpp:150-168 | a refused transfer closes the connection and nothing is answered |
| Exchange.NeedExchanged | release/filesync/filesync_peer.cpp:169-179 | a need message is answered with exactly the sender's lines for it |
| Exchange.AckExchanged | release/filesync/filesync_peer.cpp:180-187 | an acknowledgement is answered and the session waits for the next round |
| Initiator.NeedHeard | release/filesync/filesync_peer.cpp:262-272 | the initiator answers a need message with exactly the files it asks for |
| Initiator.ManifestHeard | release/filesync/filesync_peer.cpp:285-299 | the initiator reads the reverse manifest as the responder's scan, after the greeting and with the declared count, and answers with its need list |
| Initiator.FilesHeard | release/filesync/filesync_peer.cpp:300-301 | an accepted transfer is applied and acknowledged |
| Initiator.FilesNotHeard | release/filesync/filesync_peer.cpp:300-301 | a refused transfer ends the round for the initiator too |
| Dialogue.InitiatorSends | release/filesync/filesync_peer.cpp:262-272 | the initiator parses the responder's list to what the responder decided |
| Dialogue.InitiatorAsks | release/filesync/filesync_peer.cpp:285-299 | the initiator learns the responder's new scan and asks for what it decides |
| Dialogue.RoundOfTalk | release/filesync/filesync_peer.cpp:247-303 | two machines that exchange their answers finish the round, saved and in agreement, if and only if it is not obstructed |
| Dialogue.RoundOverText | release/filesync/filesync_peer.cpp:247-303 | the same over bytes in packets, for a round that is not obstructed: each side writes exactly what the other must read to write its own part |
| Dialogue.RefusedOverText | release/filesync/filesync_peer.cpp:150-168 | where the first half is not clear the responder closes the connection after its need list |
| TextRuns.TextIsRun | release/filesync/filesync_peer.cpp:247-303 | any number of rounds of text, each over its own packets from where the last one left the peers, is a run in which every round is performed |
| SupervisorRuns.RunKeepsInv | core/app/src/bootstrap.cpp:1249-1403 | in every reachable state attempts stay within the limit, suppressed implies pending, and running excludes pending |
| SupervisorRuns.WindowsApart | core/app/src/bootstrap.cpp:1332-1337 | successive restart windows of a worker start at least one window length apart |
| SupervisorRuns.RunPaid | core/app/src/bootstrap.cpp:1332-1398 | every respawn is charged to a counted restart, a window opening or a circuit recovery |
| SupervisorRuns.RespawnBudget | core/app/src/bootstrap.cpp:1332-1398 | respawns by a time are at most (limit + 1) per elapsed window plus the circuit recoveries |
| SupervisorRuns.RunBursts | core/app/src/bootstrap.cpp:1299-1305 | the failure count is the number of abnormal exits in the current failure window |
| SupervisorRuns.OpensOnlyOnBurst | core/app/src/bootstrap.cpp:1299-1326 | the circuit opens only on a threshold of abnormal exits within one failure window, and for the full backoff |
| SupervisorRuns.NoRespawnWhileHeld | core/app/src/bootstrap.cpp:1410-1440 | no worker is respawned until the circuit backoff after the latest opening has passed |
| SupervisorRuns.OpenerNeverRestarts | core/app/src/bootstrap.cpp:1307-1326 | the worker whose exit opens the circuit never runs again |
| SupervisorRuns.PendingIff | core/app/src/bootstrap.cpp:1264-1399 | an exit leaves its worker waiting for a restart exactly when it is abnormal, before shutdown, does not open the circuit, restarts are on and the budget is not spent |
| SupervisorRuns.LostIffOpener | core/app/src/bootstrap.cpp:1307-1326 | within the budget an abnormal exit abandons its worker for good if and only if it opens the circuit |
| SupervisorRuns.OpenerLeftBehind | core/app/src/bootstrap.cpp:1307-1326 | a run in which the opener is abandoned and a worker that was already waiting runs again |
| SupervisorPolls.ReapIsRun | core/app/src/bootstrap.cpp:1252-1263 | a reaping pass is a run of exit events in worker order that brings no worker back |
| SupervisorPolls.PollIsRun | core/app/src/bootstrap.cpp:376-396 | a poll is a timed run with the same forks and recoveries |
| SupervisorPolls.PollsAreRun | core/app/src/bootstrap.cpp:376-396 | any sequence of polls with clock readings in order is one timed run to the last state |
| SupervisorPolls.PollBudget | core/app/src/bootstrap.cpp:1332-1398 | after any polls a worker has been forked at most (limit + 1) times per elapsed window plus the circuit recoveries |
| SupervisorPolls.PollsKeepInv | core/app/src/bootstrap.cpp:376-396 | after any polls the invariant of runs holds |
| SupervisorObject.WorkerSupervisor.ReapWorkerProcesses | core/app/src/bootstrap.cpp:1249-1403 | reaps, in order, each running worker that was reported to have exited |
| SupervisorObject.WorkerSupervisor.ReapOne | core/app/src/bootstrap.cpp:1264-1399 | one exit changes the records and circuit fields as the step function says |
| SupervisorObject.WorkerSupervisor.OpenCircuit | core/app/src/bootstrap.cpp:1309-1320 | opening holds every pending restart until the reset time |
| SupervisorObject.WorkerSupervisor.ScheduleRestart | core/app/src/bootstrap.cpp:1332-1398 | a failed worker is scheduled, suppressed until its window ends, or given up |
| SupervisorObject.WorkerSupervisor.StartDueWorkerRestarts | core/app/src/bootstrap.cpp:1405-1506 | closes the circuit when due and starts exactly the due restarts |
| SupervisorObject.WorkerSupervisor.StartIfDue | core/app/src/bootstrap.cpp:1427-1506 | one worker in the pass: started when due, reported when outside the plan |
| SupervisorObject.WorkerSupervisor.StartWorkerProcess | core/app/src/bootstrap.cpp:1434-1495 | one due worker is started, rescheduled after a failed fork, or dropped when it is outside the plan |
| SupervisorObject.WorkerSupervisor.CloseCircuit | core/app/src/bootstrap.cpp:1415-1425 | recovery opens a fresh failure window and releases suppressed restarts |
| SupervisorObject.WorkerSupervisor.PollWorkers | core/app/src/bootstrap.cpp:376-396 | reaps, starts what is due, and begins shutdown once a worker was given up |
| Placement.BuildWorkerPlan | core/app/src/worker_plan.cpp:44-103 | worker i has index i and the final count, data workers come first, and each worker holds what the services give it |
| Placement.PlaceService | core/app/src/worker_plan.cpp:56-95 | one service is laid out according to its mode and nothing else moves |
| Placement.PlacedOnce | core/app/src/worker_plan.cpp:44-103 | each instance index of a service occurs exactly once on its home worker and nowhere else, and no other instance occurs at all |
| Placement.HomeExists | core/app/src/worker_plan.cpp:44-103 | the home of every instance is a worker of the plan, dedicated exactly when the service is |
| Placement.PlacedDescribed | core/app/src/worker_plan.cpp:28-40 | every placed instance carries its own definition and its service's instance count |
| Placement.DedicatedAlone | core/app/src/worker_plan.cpp:79-90 | a dedicated worker holds exactly one instance, of a dedicated service |
| Placement.ShardsBalanced | core/app/src/worker_plan.cpp:71-78 | shard counts of a service on two data workers differ by at most one |
| Endpoints.AnalyzeBinding | core/app/src/endpoint_manager.cpp:82-105 | the two sets tell whether two owners differ in worker or instance, and the flag whether all share one service name |
| Endpoints.ClassifyBinding | core/app/src/endpoint_manager.cpp:121-147 | the strategy and diagnostic are those of the specification |
| Endpoints.BuildPlan | core/app/src/endpoint_manager.cpp:192-246 | the bindings are the grouped claims, classified; the diagnostics are the missing definitions and then the contested keys |
| Endpoints.ClaimEndpoint | core/app/src/endpoint_manager.cpp:209-234 | the hash index finds the binding that a search would find |
| Endpoints.GroupingCorrect | core/app/src/endpoint_manager.cpp:197-236 | named ports have one binding each, owned by exactly the claims on it in order; each claim on port zero has a binding of its own |
| Endpoints.ServiceInstanceRequiresReusePort | core/app/src/endpoint_manager.cpp:248-270 | true exactly when some shared binding is owned by that instance under its service's name |
| ServicePlan.PortZeroIsPrivate | core/app/src/endpoint_manager.cpp:212-214 | a port-zero binding is private and has one owner |
| ServicePlan.ValidIffUncontested | core/app/src/endpoint_manager.cpp:182-190 | any endpoint plan is rejected exactly when a definition is missing or a named port is replicated under several names |
| ServicePlan.ValidIffNoClash | core/app/src/endpoint_manager.cpp:192-246 | the plan of a built worker plan is rejected exactly when two placed services of different names listen on one named port |
| ServicePlan.ReuseIffShared | core/app/src/endpoint_manager.cpp:248-270 | in an accepted plan an instance shares its port exactly when another instance, of its service or of a namesake, listens on a named port of its service |
| ServicePlan.ReuseIffReplicated | core/app/src/endpoint_manager.cpp:248-270 | in an accepted plan with unique names an instance shares its port exactly when its service listens on a named port and runs more than once |
| ServicePlan.NamesakesShare | core/app/src/endpoint_manager.cpp:139-142 | two services of one name, each run once, are accepted and must share their port |
| Appender.RunKeepsInv | logger/src/async_appender.cpp:28-118 | the lock, flag, bound, drain and conservation invariants hold after every interleaving |
| Appender.NothingLost | logger/src/async_appender.cpp:43-118 | each appended item is in exactly one place, items leave in the order they entered, and the bound holds |
| Appender.EmptyAfterStop | logger/src/async_appender.cpp:28-41 | once stop has returned the queue is empty and stays so |
| Appender.FlushSees | logger/src/async_appender.cpp:99-118 | whenever a flush returns, every pushed item is delivered but for those that another thread has popped and still holds |
| Appender.FlushSeesAll | logger/src/async_appender.cpp:99-105 | a flush that waited has seen everything delivered if and only if no other flush holds an item, and always while the appender is running |
| Appender.FlushReturnsEarly | logger/src/async_appender.cpp:99-118 | a run in which a flush returns after stop while another holds an item |
| Appender.WorkerAlwaysFinds | logger/src/async_appender.cpp:74-86 | the worker never takes from an empty queue |
| Wakeups.SleepersLeft | logger/src/async_appender.cpp:28-97 | the appenders asleep for good after a stop are exactly the sleepers beyond the notifications still to come |
| Wakeups.AtLeastLeft | logger/src/async_appender.cpp:28-97 | a thread just falling asleep at the stop can only add to them |
| Wakeups.SettledIffStuck | logger/src/async_appender.cpp:28-118 | after a stop nothing but a new caller can move exactly when the run has settled |
| Wakeups.RunsSettle | logger/src/async_appender.cpp:28-118 | after a stop every run settles after a bounded number of steps |
| Wakeups.OneLeftBehind | logger/src/async_appender.cpp:28-62 | three appends to a queue of one and a stop: one appender is never woken |

## Left out

- SHA-256 and the digest cache: an arbitrary function stands for the digest.
- Glob patterns, symbolic links and the mapping of remote prefixes: a configuration has a set of excluded and of wanted names, and both peers use the same names.
- Convergence.RunConverges: asks for equal filters without include filters, safe names, nonzero modification times, 64-bit sizes, and no directory that bears a temporary or conflict name, in a tree or in the saved state; with include filters a deletion can be refused, as described under Findings.
- Input and output errors, partial renames and files that change while they are read: every file operation succeeds atomically or refuses because a file or directory is in its way.
- Time zones and precision of modification times: a time is a natural number, and a file announced with time zero gets a time from the parameter `writeTime`.
- Receiver.ApplyKeepsInv: bytes received plus a block size is not wrapped at 64 bits.
- Other C++ libraries than the GNU one, where `remove_all` below a file may report success.
- Dialogue.RoundOverText: the line, entry and buffer limits are hypotheses, and the initiator, a coroutine in the source, is a machine on values.
- Sockets, coroutines, batching and flushing of output: a transfer is drained before the next frame is handled.
- The one-way modes: `receive_only` is a branch of the session; the `send_only` exit of the initiator is not modelled.
- The older `encode_need` printer: the current one is modelled.
- Protocol.EntryRoundTrip: asks for a name that is not empty and an octet string; a scan lists no other.
- Events, logging, supervisor state and reason codes, signals, shutdown liveness and the in-process worker path of the bootstrap.
- SupervisorRuns.RespawnBudget: asks for a positive restart window, since without one a worker that reaches its limit is given up.
- SupervisorPolls.PollBudget: asks for a positive restart window for the same reason.
- The wording of endpoint diagnostics: a diagnostic is a value that names the missing definition or the contested key.
- Appender.FlushSeesAll: covers one start and stop, and not a flush that began before start.
- Wakeups.SleepersLeft: counts threads and notifications without following single items, and does not model spurious wake-ups.
- Integer widths of counters and indices in placement, endpoints and the appender.
- Configuration, command lines, Redis, MySQL, RPC, MQTT, SSH and the other services of the repository: input and output plumbing or easy members.
