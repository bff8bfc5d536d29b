# A verified model of p.haul

p.haul moves a running process tree from a source host to a target host. The source process drives
the migration and calls the target over a small RPC; memory travels over a second socket, written
by CRIU's page streams and by tar archives. Many steps can fail, on either host or in between, and
the interesting question is what a failure leaves behind: is the tree still running somewhere, on
how many hosts, with which memory, with which disks, and are the images still there?

This project models the protocol core in Dafny and proves, for every run, what it keeps.

## How the model is laid out

| file | models |
|---|---|
| `Prelude.dfy` | `Option` and `Result`; an exception is a `Failure` |
| `Images.dfy` | the image directories of one host, and how memory is resolved through parent links |
| `CriuSession.dfy` | requests to CRIU, the connection, and the pre-dump, dump and restore loops |
| `Target.dfy` | the service on the target: its RPC methods and the disconnect |
| `Progress.dfy` | the rule that ends the iterations, and the bound on the data sent |
| `Live.dfy` | a live migration as a state machine: driver, both hosts, connection, failures |
| `LiveSafety.dfy` | who executes the tree, and that no failure costs the images |
| `LiveKeep.dfy` | on which host the images are kept in the end |
| `LiveEnds.dfy` | how a run ends, the statements it made on the file systems, and the connection |
| `LiveChecks.dfy` | exactly when the compatibility checks are made and passed |
| `LiveCalls.dfy` | no call uses what was not created |
| `LiveLoop.dfy` | how many pre-dumps a run makes |
| `LiveTrace.dfy` | the language of RPC traces, and which archive was unpacked |
| `LiveRuns.dfy` | concrete runs that show what the theorems allow |
| `LiveSocket.dfy` | what a live run puts on the memory socket |
| `LiveImages.dfy` | directories in lockstep; pre-copy is exact |
| `LiveScript.dfy` | a run under given circumstances, and what it asks of CRIU |
| `Worker.dfy` | the live driver as an imperative class; each of its runs is a history of `Live` |
| `Restart.dfy`, `RestartWorker.dfy` | the same for restart mode, with the Virtuozzo hauler |
| `MemSocket.dfy` | the memory socket: archives and page streams one after the other |
| `Rpc.dfy` | client and server of the RPC as asynchronous steps, and the server loop |
| `SharedDisk.dfy` | the fork of a shared disk's delta chain, and its resolution |
| `ProcTree.dfy` | `unflatten` of the web interface |
| `DiskArgs.dfy` | the disk arguments on the command line |

**Runs.** `Live` and `Restart` describe a run by its history: a sequence of events, each a step of
the driver with the way it turned out, or something that happens elsewhere (the tree writes to its
memory, the connection breaks, the target notices, the source process ends or is killed anywhere). `Possible` says which
histories can happen and `After` gives the state reached. A theorem about all possible histories is
a theorem about every failure script and every schedule of memory writes. `Worker` and
`RestartWorker` are the drivers as written, with their loops and early exits; their invariant is
that the log so far is a possible history that leads to the present state, so the theorems apply to
them, and `Migrate` states the result. What a driver does not decide itself (whether a statement
raises, what becomes of a call, what CRIU answers, what happens elsewhere in the meantime) is given in
advance, statement by statement, as its `script`; every event a driver logs must be what the script makes
of that statement (`LiveScript.Fits`), so a driver cannot pass over a statement or its outcome.

**Contracts of the surroundings.** These are assumptions, stated where they are used:

* CRIU (`Live.Written`, `Live.TreeAfter`, `CriuSession`): a dump without a parent writes all pages;
  one with a parent and memory tracking writes at least the pages changed since the last tracked
  dump; notifications are sent only for requests that ask for them; an un-acked `post-dump` keeps
  the tree frozen, the ack terminates it, and losing the connection thaws it. A restore that fails
  before its last answer leaves nothing running.
* tarfile (`MemSocket`): an archive is its members, two zero blocks, and zeros up to a multiple of
  10240; the reader stops once it has seen the first zero block.
* libploop (`SharedDisk`): a snapshot puts a new writable delta on top, deleting one merges its
  delta with the one above; each operation happens entirely or not at all.
* RPC (`Rpc`): the object behind the server is deterministic, and one `recv` returns one whole message
  whenever it fits the buffer, although the socket is a stream.

## Results that deserve attention

* Live mode ends with exactly one executing copy if and only if none of four things happened: the
  reply to a successful restore was lost, a hook of the hauler raised after the tree was up, the
  ack did not reach CRIU, or the source process died between restore and ack. Otherwise it ends with
  two (`LiveSafety.OneCopyAtTheEnd`). That the source is never terminated without a restored target
  needs no assumption (`LiveSafety.NoLoss`).
* The target may restore from images that were not fully unpacked, and the source then gives up its
  tree: `LiveRuns.RestoredFromPartialImages` is such a run. The images are complete if and only if the
  archive of the images was unpacked (`LiveTrace.CompleteIffUnpacked`, `LiveImages.NothingLost`).
* A restart migration can end with two copies without any error being reported, because the Virtuozzo
  hauler does not look at the exit status of its stop command (`Restart.IgnoredStopMakesTwo`), and
  with none, when the fallback start on the source fails or the source process dies after the stop
  (`Restart.FailedFallbackMakesNone`, `Restart.DeathMakesNone`). How many copies there are is determined
  exactly for every history by `Restart.WhoRuns`, and when there is exactly one at the end by
  `Restart.OneCopyAtTheEnd`.
* A live run returns exactly if the target reported the restore, and raises exactly if a statement
  raised before that (`LiveEnds.ReturnsIffReported`); the hauler undoes the migration exactly if the
  run raised after the file systems were stopped (`LiveEnds.HookLanguage`).
* `discard_unread_input` does not always align the memory socket. It reads up to the next multiple
  of the record size; if the first zero block of an archive ends a record and the reads stop exactly
  there, the whole record that begins with the second zero block stays on the socket. Framing holds
  for every chunking if and only if no archive is like that (`MemSocket.FramedIffLucky`); in a live run
  only the archive of cpuinfo matters (`LiveSocket.LiveRunsStayAligned`). The comment
  in the source speaks only of unread padding.
* If preparing a shared disk fails, `migration_fail` raises on that disk, because the guid it asks
  for was never set. Every chain is still the original one unless it was the snapshot of the copied
  descriptor that failed; then that disk keeps one delta too many (`SharedDisk.PHaulFs.HandOver`).
* A kernel that cannot dump cpuinfo waives the version check as well: `LiveRuns.UncheckedRun` asks for both
  checks and succeeds without either. Past that point of a run each check was passed if and only if it
  was not skipped, not forced and not waived in this way (`LiveChecks.ChecksAreMade`).
* A path with a comma cannot be passed in the list of deltas, while colons do no harm
  (`DiskArgs.FdfsRoundTrip`).
* The constant for the number of iterations is 8, and up to nine are made (`LiveLoop.PreDumpCount`,
  `LiveRuns.NinePreDumps`).

## Model

| member | source | states |
|---|---|---|
| LiveSafety.NoLoss | phaul/iters.py:223-243 | in every reachable state the source tree is terminated only if `post-dump` was acked, and then the target has restored and runs the tree; no assumption on replies, hooks or acks |
| LiveSafety.NeverBoth | phaul/iters.py:215-255 | both hosts execute at once only after one of the orphaning incidents |
| LiveSafety.OneCopyAtTheEnd | phaul/iters.py:215-255 | once the source process has ended, by itself or killed anywhere, one copy executes if no orphaning incident happened, and two if one did |
| LiveSafety.EndingIsTruthful | phaul/iters.py:215-255 | if the driver raised, or died before the ack went out, the source tree executes and was not given up; if it returned, or the ack had gone out, the target's does; the other host executes too exactly in the orphaned runs |
| LiveSafety.OnlyAckTerminates | phaul/iters.py:232-243 | the source tree is given up if and only if an ack of `post-dump` was sent, and the driver's last step before that ack was a restore that the target reported as done |
| LiveRuns.LostReplyMakesTwo | phaul/iters.py:232-236 | a concrete run in which only the reply to the restore is lost and two copies execute at the end |
| LiveRuns.DeathBeforeAckMakesTwo | phaul/iters.py:232-239 | a concrete run in which only the source process dies, between restore and ack, and two copies execute |
| LiveRuns.RestoredFromPartialImages | phaul/images.py:43-51 | a concrete run in which the archive is not unpacked, the target restores all the same, and the source tree is terminated |
| LiveSafety.ImagesOutliveFailure | phaul/images.py:82-111 | no host has removed its images in any reachable state unless the target has restored, whatever `keep_images` says and wherever the run is cut off |
| LiveKeep.SourceImages | phaul/images.py:98-111 | the source has removed its images if and only if it closed them at the end of a run and was not told to keep them |
| LiveKeep.TargetImages | phaul/service.py:29-47 | a target that has restored has removed its images if and only if it handled the disconnect and was not told to keep them; one that has not removes nothing, and once a disconnect closed its store keeps the images whatever it was told |
| LiveImages.PrecopyIsExact | phaul/iters.py:188-221 | for any number of pre-dumps and any writes in between, the memory resolved through the parent links of the target's last directory is the memory at the freeze; n-1 links lead to the first directory (for haulers that use the page server for the final dump) |
| LiveImages.NothingLost | phaul/iters.py:215-243 | when the source tree was terminated, the target runs a restored tree, its page images hold exactly the memory at the freeze, and its other images are complete if and only if the archive of the images was unpacked |
| LiveImages.DumpIsExact | phaul/criu_req.py:51-68 | one more dump with the right parent on both sides keeps the chain of directories exact |
| LiveImages.DirectoriesInLockstep | phaul/images.py:116-123 | the target's iteration index is its image counter, which exceeds the source's by 0 or 1 and equals it at `end_iter`; unless the driver has raised, directories are exactly 1..n on both hosts and the last is the current one |
| LiveImages.ParentNeedsTracking | phaul/images.py:137-141 | at every dump, for any hauler, the counter is at least 1; there is a parent link exactly above 1, it names the directory before, which exists, and it is only used under memory tracking |
| LiveImages.ServerHasParent | phaul/criu_req.py:90-105 | a page server that waits on the target has no parent for directory 1 and otherwise the directory before; both exist unless the driver has raised |
| LiveImages.RestoreFollowsDump | phaul/iters.py:215-232 | for any hauler, the restore is asked for, and a run returns, only after a final dump froze the tree |
| LiveImages.ChainLength | phaul/images.py:137-141 | parent links lead from directory k to the first in k-1 steps |
| LiveEnds.ReturnsIffReported | phaul/iters.py:158-255 | a run that has ended returned if and only if the target reported the restore as done, and raised if and only if some statement, listed kind by kind, raised before such a report |
| LiveEnds.HookLanguage | phaul/iters.py:176-249 | a run that returned started the file systems' migration, continued it once per pre-dump and stopped it, in this order; one that raised did a first part of that, and `migration_fail` was called, once and last, exactly if the stop was reached |
| LiveEnds.ConnectionEndsOnce | phaul/xem_rpc.py:28-34 | in every history a call is served only while the connection is intact, and the target handles the disconnect at most once and only after it broke |
| LiveTrace.TraceLanguage | phaul/iters.py:167-255 | the calls of every run are a prefix of setup, options, the checks that options and kernel ask for (all of them once the driver is past them), one start/end pair per pre-dump (one more only if the loop was broken off), the final pair, images, restore, optional completion, restore time |
| LiveCalls.ServedWhenReady | phaul/service.py:49-135 | whenever the target serves a call, the hauler, image store, current directory, CRIU connection or receiving thread that its body uses exist and no notification is pending |
| LiveTrace.CompleteIffUnpacked | phaul/images.py:43-51 | when the restore is asked for, the last two calls have received the archive of the images; from then on, and wherever the target runs the tree, its images are complete if and only if that archive, not the one of cpuinfo, was unpacked |
| LiveSocket.SyncImages | phaul/images.py:146-168 | source and target together: the images are complete exactly if the thread unpacked the archive, and then it has read every member that was sent |
| LiveSocket.LiveRunsStayAligned | phaul/images.py:146-189 | in a live run every reader on the memory socket starts at its own segment, whatever the sizes and chunks, if and only if the first segment is not an unlucky archive, which only that of cpuinfo can be |
| LiveChecks.ChecksAreMade | phaul/iters.py:94-124 | in every history: a check was passed only if it was neither skipped, forced nor waived by `ENOTSUP`, and once the driver is past the checks, if and only if it was not |
| LiveChecks.NothingMovesUnchecked | phaul/iters.py:94-124 | whenever the tree is frozen, terminated or running on the target, exactly the checks that are not skipped, forced or waived have been passed |
| LiveRuns.UncheckedRun | phaul/iters.py:102-117 | a concrete run with both checks enabled and nothing forced that succeeds without either, because CRIU cannot dump cpuinfo |
| LiveTrace.NoCpuinfoNoChecks | phaul/iters.py:94-124 | after `ENOTSUP` on dumping cpuinfo neither of the two compatibility checks is ever called |
| LiveLoop.PreDumpCount | phaul/iters.py:188-213 | no run makes more than nine pre-dumps; one that has left the loop made none without tracking, and with it at least one, and stopped at the first that meets the declarative stop condition |
| LiveRuns.NinePreDumps | phaul/iters.py:320-340 | a concrete run that makes nine pre-dumps of a hundred pages each |
| LiveLoop.DivisorInRuns | phaul/iters.py:364-366 | the divisor of the growth rate is above the minimum page count whenever it is used |
| LiveLoop.PagesBound | phaul/iters.py:188-213 | all pre-dumps but the last together send at most the geometric sum of the first |
| Progress.GrowRateBound | phaul/iters.py:364-366 | the floored growth rate exceeds ten percent exactly if the value reached 111 percent of the previous one |
| Progress.LiveDecision | phaul/iters.py:320-340 | in plain numbers: the live loop goes on exactly from 65 pages, below 111 percent of the round before, up to index 7 |
| Progress.RestartDecision | phaul/iters.py:342-362 | the restart loop goes on exactly from 1048577 bytes, below 111 percent of the round before, up to index 7 |
| Progress.CheckIsStop | phaul/iters.py:320-362 | the progress check fails exactly where the declarative stop condition holds |
| Progress.StopsLeast | phaul/iters.py:320-362 | for any limit: a loop that stopped did so at the one and only index where the condition holds, after at most limit + 1 iterations |
| Progress.GeometricBound | phaul/iters.py:320-366 | for any limit and minimum: n iterations that all went on grew by less than 111 percent each, and 11·100^(n-1)·sum is at most first·(111^n - 100^n) |
| Worker.PhaulIterWorker.Migrate | phaul/iters.py:158-255 | a whole run of the live driver, under any circumstances, is a possible history in which every statement turned out as they say; it returns exactly if the target reported the restore, and raises exactly if a statement raised before; it leaves one copy, two if orphaned; the requests on the CRIU connection are numbered, those for dumps form a chain of parents, and as many pre-dumps were answered as made as the log has successful ones |
| LiveScript.RequestsMade | phaul/criu_req.py:51-87 | in every run given by a script: the k-th request has log number k; the j-th request for a dump has no parent if it is the first and otherwise directory j, pre-dumps only with tracking and without notifications, the final dump last and with them; successful pre-dumps in the log are as many as those CRIU answered as made |
| Worker.PhaulIterWorker.PreDumpLoop | phaul/iters.py:188-213 | the loop ends after one to nine rounds ready for the final dump, or with an exception; no round divides by zero |
| Worker.PhaulIterWorker.PreDumpPages | phaul/iters.py:197-198 | exactly one pre-dump request goes to CRIU, for the directory just made, and the round goes on if and only if the answer is a successful pre-dump |
| Worker.PhaulIterWorker.CheckUsePreDumps | phaul/iters.py:137-156 | an explicit setting is obeyed and CRIU is not asked; with auto detection one feature request goes out and pre-dumps are used exactly if its answer reports memory tracking and the hauler can pre-dump; the connection tracks memory exactly if they are |
| Worker.PhaulIterWorker.DumpCpuinfo | phaul/iters.py:100-107 | one cpuinfo request goes out; `ENOTSUP` in an answer of its type forces the rest of the run, a successful one leads on, and everything else, no answer included, ends it |
| Worker.PhaulIterWorker.CallTarget | phaul/xem_rpc_client.py:15-28 | a call moves the driver as its reply, or its failure, says; it gives the reply exactly if the connection was intact and did not break before it, and raises otherwise |
| Worker.PhaulIterWorker.FinalDump | phaul/iters.py:217-219 | exactly one dump request goes to CRIU, unless what the hauler does before raises; it succeeds if and only if CRIU's notifications end in `post-dump` and what the hauler does afterwards does not raise, and then `post-dump` is pending and not acked |
| Worker.PhaulIterWorker.AckDump | phaul/iters.py:239-243 | the source tree is given up exactly if the ack was sent, over the session that held `post-dump`; the clean-up goes on exactly if an answer of a right type came |
| CriuSession.CriuPredump | phaul/criu_cr.py:12-17 | success exactly on a successful answer of the right type; the messages on the wire are exactly the pre-dump request of the current directory, with parent link, tracking flag and log number and without notifications, and the answer; nothing is pending |
| CriuSession.CriuDump | phaul/criu_cr.py:20-43 | returns normally exactly if the answers drive it to its end, with `post-dump` left pending; it acks no `post-dump`; it sends exactly one request, which asks for notifications and carries parent link, tracking flag and log number |
| CriuSession.DumpEndsMeans | phaul/criu_cr.py:24-43 | the dump loop is driven to its normal end exactly by a run of notifications, none of whose hooks raises, up to the first `post-dump` |
| CriuSession.CriuRestore | phaul/criu_cr.py:46-80 | the tree is up exactly if the root is mounted and the answers drive the loop to its end, and then nothing is pending; it succeeds exactly if the last hook returns, too; exactly one request, for notifications, goes out, and none if the root is not mounted |
| CriuSession.RestoreEndsMeans | phaul/criu_cr.py:55-78 | the restore loop is driven to that end exactly by a run of notifications without a network lock, none of whose hooks raises, up to a successful answer |
| CriuSession.Exchange | phaul/criu_api.py:57-83 | one message sent when allowed and at most one received: at most one notification is pending, and acking `post-dump` is what terminates the tree |
| CriuSession.DisciplineMeans | phaul/criu_api.py:57-83 | the session is in order if and only if every ack follows a notification and every notification but a last one is followed by its ack; what is pending is the last message if it is a notification |
| CriuSession.KilledMeans | phaul/criu_cr.py:28-34 | in a session in order, the dumped tree was terminated if and only if an ack follows a `post-dump` notification |
| CriuSession.CriuConn.SendReq | phaul/criu_api.py:66-75 | each request carries the current log number and tracking flag, and an answer of another type raises |
| CriuSession.MakePageServerReq | phaul/criu_req.py:90-105 | the page server request keeps the connection open, asks for no notifications and has the parent link of the target's image store |
| CriuSession.MakeDumpReq | phaul/criu_req.py:77-87 | the dump request asks for notifications and has the parent link of the source's image store |
| Target.PhaulService.RpcSetup | phaul/service.py:49-62 | which step raises decides the outcome, and the outcome the new state in full |
| Target.PhaulService.RpcStartIter | phaul/service.py:71-86 | raises exactly if the directory cannot be made or CRIU does not start the page server that was asked for; nothing is sent without a need for it or after a failed directory, and otherwise exactly the page-server request of the new directory; the server that waits has that directory and that parent link; a failure leaves the index moved |
| Target.PhaulService.RpcRestoreFromImages | phaul/service.py:117-122 | the call returns, and `restored` is set, exactly if the hauler's images are in place, CRIU's notifications end in success and every hook returns; the tree runs without it exactly if only the last hook raised; one restore request, for notifications, goes out once images and root are in place, and nothing before |
| Target.PhaulService.RpcCheckCpuinfo | phaul/service.py:97-102 | exactly one cpuinfo request goes out and the verdict is CRIU's answer; no answer or one of another type raises, and the session is left with nothing pending |
| Target.PhaulService.OnDisconnect | phaul/service.py:29-47 | the connection is closed, an un-restored tree ends in restart mode if the stop took effect, and images of an un-restored tree are kept; a raising hook cuts it short |
| Images.PhaulImages.NewImageDir | phaul/images.py:116-123 | the counter moves also when the directory cannot be made; success exactly if it did not exist and could be made |
| Images.ValueFrame | phaul/images.py:137-141 | what a page resolves to from a directory depends only on the directories up to it |
| Restart.StartFollowsStop | phaul/iters.py:290-309 | when the target starts the tree the source has asked for its stop and unmounting, and each took effect if and only if no failed status of it was ignored |
| Restart.OneCopyAtTheEnd | phaul/iters.py:257-318 | exactly when one copy is left: after a run that returned, if a failed stop was ignored just when `nostart` was given; after one that raised or died, if the tree was kept or started again on the source just when no start took hold on the target; after one that raised, that is a lost reply, or a raising start nobody stopped |
| Restart.CalmRuns | phaul/iters.py:257-318 | without an incident there are never two copies, and a run that was not killed ends with one on the source if it raised and on the target if it returned, with none under `nostart` |
| Restart.SuccessfulEnd | phaul/iters.py:257-318 | a run that returned has one copy too many exactly if it ignored a failed stop |
| Restart.WhoRuns | phaul/service.py:29-38 | after every history, exactly: the source executes if its tree was not stopped or was started again; the target if a start returned, or raised with the tree running and no stop of the disconnect took effect; hence the number of copies |
| Restart.IgnoredStopMakesTwo | phaul/p_haul_vz.py:364-374 | a concrete run in which only the stop command fails and two copies execute |
| Restart.LostReplyMakesTwo | phaul/iters.py:304-310 | a concrete run in which only the reply to the start is lost and two copies execute |
| Restart.FailedFallbackMakesNone | phaul/iters.py:307-310 | a concrete run in which the final sync and then the fallback start on the source fail and no copy executes |
| Restart.DeathMakesNone | phaul/iters.py:290-304 | a concrete run in which the source process dies between stop and start and no copy executes |
| Restart.IncidentsMayLeaveOne | phaul/iters.py:292-310 | a concrete run with a stop and a fallback that both do nothing, which still ends with one copy |
| Restart.TransferCount | phaul/iters.py:272-288 | the tree is stopped only after one to nine transfers, the last being the first to meet the stop condition; no division by zero |
| Restart.BytesBound | phaul/iters.py:272-288 | all transfers of the loop but the last together send at most the geometric sum of the first |
| Restart.TraceLanguage | phaul/iters.py:257-318 | the calls are a prefix of setup, options, start unless `nostart`, completion; the target has what each call uses |
| Restart.StatementLanguage | phaul/iters.py:257-318 | what a run does, in order: one that returned set up, transferred the file systems once per counted transfer, stopped the tree, synced, unmounted, started on the target unless `nostart`, completed; one that raised did a first part of that up to the stop of the tree, or got further and then undid the migration and started the tree on the source |
| RestartWorker.RestartDriver.Migrate | phaul/iters.py:257-318 | a whole run of the restart driver, under any circumstances, is a possible history in which every statement turned out as they say; the number of copies at its end is determined by that history exactly; if it returns there is one too many exactly if a failed stop was ignored; without an incident the tree runs on the source if it raises, on the target if it returns |
| RestartWorker.RestartDriver.TransferLoop | phaul/iters.py:272-288 | the loop ends after one to nine transfers, or with an exception, before anything is stopped |
| RestartWorker.VzHauler.StopTree | phaul/p_haul_vz.py:364-374 | raises only if the command could not be run, and then nothing was stopped; otherwise the flag is set as asked, whatever the command achieved |
| RestartWorker.VzHauler.UmountRoot | phaul/p_haul_vz.py:327-336 | nothing is done unless the flag says mounted; the flag is cleared whatever the command achieved |
| MemSocket.FramedIffLucky | phaul/util.py:31-42 | for any sequence of archives and page streams: every reader starts at the first byte of its own segment however the reads are chunked, if and only if no archive has its first zero block at the end of a record |
| MemSocket.AlignedUnlessExact | phaul/util.py:31-42 | discarding reaches the end of the archive unless the reader stopped exactly at the end of a record after the first zero block, and then one record is left |
| MemSocket.AnUnluckyArchive | phaul/util.py:31-42 | a concrete archive and read size that leave a record on the socket |
| MemSocket.UntarThreadRun | phaul/images.py:43-51 | for every chunking: the archive is unpacked if and only if no exception follows one of the reads; then it was read completely and the socket is empty except in the exact case; a failed one leaves the rest unread |
| MemSocket.Converse | phaul/images.py:146-189 | over a whole run every reader before the first failing one got exactly what was sent for it, without an exception; the first to fail had an archive on which unpacking raised, exactly if one of its reads was followed by an exception, or an unlucky one of which it read just what is needed |
| MemSocket.ImgTar.Close | phaul/images.py:54-67 | what goes over the socket is the members, the end mark and the padding of one archive |
| Rpc.RefinesDirectCalls | phaul/xem_rpc_client.py:15-28 | however client and server interleave, the calls that returned gave what direct calls in that order give, if and only if every reply fitted the buffer |
| Rpc.AnswersAreRight | phaul/xem_rpc_client.py:15-28 | however client and server interleave: a call's answer is garbage exactly from the first reply on that does not fit the buffer; before that a call returns or raises exactly what the object made by the last `init_rpc` answers after the calls since then and this one, and `init_rpc`, unknown commands and kinds exactly what they must |
| Rpc.ExecutedInOrder | phaul/xem_rpc.py:36-54 | the calls executed are exactly those handled after the first `init_rpc`, each once and in order |
| Rpc.OneInFlight | phaul/xem_rpc.py:28-54 | at most one message is in flight; a waiting client is served or has its reply on the way unless a request that did not fit, or the stop descriptor, has ended the server |
| Rpc.InitComesFirst | phaul/xem_rpc.py:36-45 | when the server executes a call, an `init_rpc` was handled before |
| Rpc.BeforeInit | phaul/xem_rpc.py:38-40 | a call before the first `init_rpc` raises at the client |
| Rpc.DisconnectOnce | phaul/xem_rpc.py:28-34 | the service is told of the end of the stream at most once, after the client closed, and exactly if an `init_rpc` was sent |
| Rpc.RpcServer.Work | phaul/xem_rpc.py:28-58 | one message: the reply is the right one for everything handled so far, spelled out without the server's state, an exception as a reply; a message that does not fit the buffer ends the server |
| Rpc.RpcServer.Loop | phaul/xem_rpc.py:93-102 | the loop ends exactly at the stop descriptor or at a message that does not fit while the stream is open; the messages until then, or until the end of the stream, are answered in order as direct calls are |
| Rpc.RpcProxy.Call | phaul/xem_rpc_client.py:15-28 | the value returned, or the exception raised, is the right answer to that very call after all that was handled before, and the first long reply spoils it and every later call; there is no answer exactly if the message is longer than 16384 |
| SharedDisk.HandOverKeepsOneSide | phaul/fs_haul_ploop.py:42-62 | for any interleaving of writes by both hosts after the fork: restoring gives the original chain with the source's writes only, completing gives the original chain with the target's writes only |
| SharedDisk.MergeResolves | phaul/fs_haul_ploop.py:38-39 | merging the fork of one side gives back the very chain of before, with that side's writes |
| SharedDisk.Fork | phaul/fs_haul_ploop.py:47-51 | after `prepare` the two descriptors share every delta of before and each has its own empty one on top |
| SharedDisk.EachReadsItsOwn | phaul/fs_haul_ploop.py:47-51 | after the fork each host reads what was there before and its own writes, not the other's |
| SharedDisk.SharedPloop.Prepare | phaul/fs_haul_ploop.py:47-51 | forks the chain exactly if none of its three steps fails; otherwise it leaves it original unless the snapshot of the copy failed, and never sets the backup guid |
| SharedDisk.SharedPloop.Restore | phaul/fs_haul_ploop.py:53-56 | succeeds, with the original chain and the source's writes, exactly if the disk was prepared and neither rename nor merge fails; raises and changes nothing if the guid was not set or the rename fails; if the merge fails the disk reads right through one delta too many |
| SharedDisk.PHaulFs.HandOver | phaul/p_haul_vz.py:338-350 | for any number of disks and any accesses of both hosts, what fails determines the ending and the stage each single disk is left in, whatever raises and where; if nothing does, all disks read as the winner left them, on their original chains; if `stop_migration` raised, earlier disks are restored, later ones untouched, and the chains are all original exactly if the failing step was not the snapshot of a copy |
| SharedDisk.PHaulFs.StopMigration | phaul/fs_haul_ploop.py:114-122 | succeeds exactly if nothing fails, with every disk forked; otherwise earlier disks are forked, later ones untouched, and it names the first that failed |
| ProcTree.Unflatten | webgui/procs.py:85-106 | in place: with unique ids every placed process, and the root, has exactly the input processes that name it as parent, in input order, as children; the returned list is exactly the processes without a parent chain to the root, in input order; with repeated ids the child lists are the tree of the recursive specification; terminates on every input with empty child lists, cyclic ones included |
| ProcTree.Claim | webgui/procs.py:92-98 | the first loop appends exactly the processes that name the root as parent, in input order, and returns exactly the others, in input order |
| ProcTree.ChildrenExact | webgui/procs.py:85-106 | with unique ids every node of the tree has as children exactly the input processes whose parent it is, in input order |
| ProcTree.ChildrenInOrder | webgui/procs.py:92-98 | the specified children of a process are exactly the processes that name it as parent, each once, in the order of the input |
| ProcTree.RemainderIsUnreached | webgui/procs.py:85-106 | the remainder is, in input order, exactly the processes without a parent chain to the root, the tree exactly the others |
| ProcTree.RemainderInOrder | webgui/procs.py:85-106 | the specified remainder is in the order of the input and holds exactly the processes without a parent chain to the root |
| ProcTree.Conserves | webgui/procs.py:85-106 | the nodes below the root and the remainder are together the input, as a multiset |
| ProcTree.BuildLinked | webgui/procs.py:94-98 | every child in the tree names its parent node as parent |
| DiskArgs.FdfsRoundTrip | phaul/p_haul_vz.py:413-433 | printing a list of deltas and parsing it gives it back with absolute paths if and only if no path contains a comma |
| DiskArgs.NatConcat | phaul/p_haul_vz.py:428-431 | a descriptor number is read in decimal, most significant digit first: digits put before a number count for ten to the number of its digits |
| DiskArgs.DisksRoundTrip | phaul/p_haul_vz.py:435-455 | a list of secondary disks comes back if and only if no uuid contains a comma or a colon |
| DiskArgs.AbsoluteInPrivate | phaul/fs_haul_ploop.py:25-35 | an absolute path is unchanged; another one becomes the private area, one slash unless that ends in one or is empty, and the path; with an absolute private area the result is absolute and doing it twice changes nothing |
| DiskArgs.ParseFdfsArg | phaul/p_haul_vz.py:413-433 | the parsing loop gives the list of all parsed parts, or raises if one does not parse |
| DiskArgs.ParseSecondaryDisksArg | phaul/p_haul_vz.py:435-455 | the same for secondary disks, where a part must have exactly three fields |

## Left out

- LiveImages.PrecopyIsExact: covers haulers whose final dump uses the page server, because without one the pages of the final dump travel in the archive of images and the contents of archives are not interpreted.
- LiveImages.NothingLost: the same restriction.
- MemSocket.Converse: ends at the first reader that leaves the socket out of step, because what a tar or page reader makes of foreign bytes is not defined.
- Rpc.RefinesDirectCalls: after a reply that does not fit the buffer every later answer is taken to be garbage; which garbage is not modelled.
- Worker.PhaulIterWorker.Migrate: runs to the end of the source process; a process killed in between is an event of `Live` and is covered by the theorems there. The same holds for `RestartWorker.RestartDriver.Migrate` and `Restart`.
- ProcTree.Unflatten: takes a list that holds every process object once and not the root, with empty child lists, as the caller builds it; process ids may repeat except where `ProcTree.ChildrenExact` says so.
- Sockets, file descriptors, subprocesses, threads as such, protobuf encoding, and `repr`/`eval` of messages.
- The insides of CRIU, libploop, tarfile, vzctl and rsync; only the contracts above.
- CRIU dying on its own between `post-dump` and the ack, other than as an ack that is not delivered.
- The Docker hauler, which dumps and restores by an external tool and holds no `post-dump`, and the subtree hauler; the runc, lxc and pid haulers and the shared file system are a hauler whose hooks may fail.
- The final restore of the Virtuozzo hauler, which runs `vzctl restore` and not the restore loop of `CriuSession`; in `Live` it is the same call with the same outcomes.
- A restart migration with another hauler: its FS driver returns no statistics, so it ends in the FS loop, before anything is stopped.
- The Virtuozzo hauler's extra images, cgroup maps, network locks and configuration parsing.
- Request fields that carry no state between calls: pid, working directory, deduplication, cgroup controllers, timeouts; of image paths only the number of the directory is kept.
- Versions are compared by the target and only the answer is modelled.
- Statistics, logging, timing and the argument parser.
- `int()` of a string with spaces, and of numbers written with a suffix.
- RPC commands other than `init_rpc` that happen to name an attribute of the server socket.
- Two shared-disk options naming the same disk; the disks are taken to be distinct.
- The web interface apart from `unflatten`.
