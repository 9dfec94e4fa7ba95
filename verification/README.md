# changes-client: verified models of its matchers, logs, locks and engine

changes-client runs the commands of a build step inside a container and reports to a server. This
project models the parts of it whose correctness is not visible from one function at a time, and
proves what they promise. `dafny verify dfyconfig.toml` checks everything.

| file | subject |
|---|---|
| `Utf8.dfy`, `Options.dfy`, `Texts.dfy` | bytes, UTF-8 as RFC 3629 section 4 defines it and Go decodes it, concatenation |
| `GlobPattern.dfy` | the pattern grammar of the blacklist and the parser spread over `matchChunk` and `getEsc` |
| `GlobMatch.dfy` | `scanChunk`, `matchChunk`, `fnMatch` with their loops |
| `GlobScan.dfy`, `GlobTheorems.dfy`, `GlobExact.dfy` | what those loops achieve |
| `GlobMeaning.dfy`, `GlobErrors.dfy` | what a pattern matches and when it errs, said without the parser and the matcher |
| `Blacklist.dfy` | the prefix fast path and the removal of blacklisted files from a tree |
| `Sanitize.dfy` | `fmtSanitize` |
| `LogStream.dfy`, `Rendezvous.dfy` | `WriteStream`, and the closable log with its reader |
| `FileLog.dfy`, `FileLogRound.dfy`, `FileLogShutdown.dfy` | the tailed log file, its reading loop, and its shutdown handshake |
| `Reporter.dfy` | retries, the bounded queue and its drain |
| `Lockfile.dfy` | the link-based lock between processes |
| `Executor.dfy`, `Lxc.dfy` | the registry of running containers, and one client that keeps it |
| `Engine.dfy`, `BuildPlan.dfy` | the command loop, and the build around it with the abort race |
| `BuildReport.dfy`, `BuildPanic.dfy` | build, log and reporter queue together, up to the exit of the program or a panic |
| `BuildStatuses.dfy` | what the server has been told of job and commands by then |

Sequential code is modelled as methods with the loops of the source (`FnMatch`, `WriteStream`,
`ReadRound`, `TryLock`, `ExecuteCommands`, ...). Code that runs in several goroutines or processes is
a step relation over an explicit state, one event for each action that others can observe; a theorem
about runs holds for every interleaving. `FileLogRound.ReadRound`, `BuildPlan.RunEngine`, the class
`Lxc.Client` and the class `Lockfile.LockDir` are the sequential code of one goroutine or process,
proved to be runs of those machines. Timers, the scheduler, I/O results, LXC and the server are
parameters or free choices.

## Results worth knowing

- First-fit placement of chunks is exact precisely on names without code points from U+0800 on
  (`ExactOnNarrowNamesOnly`). On any other name some well-formed pattern such as `*?*?` is answered
  false although a split of the bytes exists; with only literals between stars every name is exact.
  The declarative matcher lets a star stop at any byte, as the code does, so `*??` matches a name of
  one three-byte rune in both.
- `fnMatch` returns ErrBadPattern exactly if the terms before the first malformed one match a proper
  prefix of the name, on narrow names and for patterns without a star before that term
  (`ErrorMeaning`, `ErrorsExactly`); on every name, exactly if those terms followed by `?*` match it
  (`ErrorsLikeProbe`). So a malformed pattern can go unnoticed on names that fail earlier.
- `fmtSanitize` preserves the rendered text precisely on valid UTF-8: a malformed byte is rewritten
  to U+FFFD (`MeaningPreserved`).
- `FileLog.Shutdown` of the source is documented to block until remaining contents are sent. After
  StartReporting that holds for the first call (`FirstShutdownDelivers`), and for every call that begins before the reader
  has finished its last round of reading (`ShutdownDelivers`); from every later state on it fails for
  the next write (`LateShutdownMisses`), so in particular once a Shutdown has returned
  (`SecondShutdownMisses`). At return, what is covered is exactly what the reader has read.
- The owner check and the removal in `TryLock` are two steps, and a leftover file can then put two
  processes in possession, although none dies (`SplitCleanupRaces`). Two processes cannot both hold the
  lock if every removal finds the very file that was judged (`ExclusionWhenCleanupIsCurrent`); runs that
  begin without a lock file and in which no process dies, and runs in which check and removal are one
  step, are among these. A run leaves no way to two holders, other than by a further cleanup, exactly if
  it has no cleanup while the lock is held (`ExclusiveExactly`).
- The registry of running containers can lose one in three ways: `Executor.Clean` removes the file
  before it opens and kills the container; a file that Clean could not read is overwritten by the next
  `Register`; and `Shutdown` gives up the executor file even if the kept container could not be
  registered. Each does happen (`LostByClean`, `LostByRegister`, `LostByKeeping`), and the registry is
  complete exactly when none of them does (`RegistryExactly`).
- An abort shuts the adapter down while the command goroutine goes on. As long as the adapter is up, and
  in every build that is not aborted, what is reported about commands is the beginning of one trace
  (`ReportsFollowTrace`). When the adapter of an aborted build is about to go down, something else can
  still come to be reported if and only if a call of adapter.Run is under way or ahead
  (`DeviationExactly`); what was reported before stays (`EarlierReportsStay`).
- After an abort the command goroutine may send on the queue that `RunBuildPlan` has closed, which
  panics. Some interleaving of a build does so if and only if the build has a command
  (`PanicFromStart`); once a build has its result it can happen if and only if this goroutine has a
  status left to send, which only an abort leaves behind (`PanicExactly`). Without a panic the program
  comes to rest only at its exit, with everything sent attempted (`RestsOnlyAtExit`), the payloads of
  all acknowledged writes to the log among it (`EverythingReported`). After a build that was not
  aborted, the server has been told of each command that was reached how it began and ended, and of
  nothing else (`BuildIsTold`).
- With fewer than one retry configured `SendPayload` returns nil without posting (`SendPayload`).

## Model

| member | source | states |
|---|---|---|
| Utf8.DecodeEncode | common/blacklist/match.go:129 | decoding what encoding wrote gives back the rune and its width, whatever follows |
| Utf8.EncodeDecode | common/blacklist/match.go:209-212 | every decoding not reported as malformed is a scalar value whose encoding is the bytes consumed |
| Utf8.DecodeMeaning | common/blacklist/match.go:209-212 | against the bit patterns of RFC 3629 section 3: a code point whose bits are at the front is decoded, in its width; without one a single byte gives U+FFFD |
| GlobPattern.ParsePrint | common/blacklist/match.go:17-32 | every pattern the documented grammar generates is parsed, to the meaning of its syntax tree |
| GlobPattern.Unparse | common/blacklist/match.go:121-218 | every pattern that parses is generated by the grammar, from a tree with the same meaning |
| GlobPattern.WellFormedIsGrammatical | common/blacklist/match.go:17-36 | the patterns accepted are exactly those of the grammar, with a leading '!' read as negation and malformed UTF-8 in a class refused |
| GlobMatch.ScanChunk | common/blacklist/match.go:88-116 | the two loops cut the pattern where the scanning function says: stars, chunk, and a rest that begins with a star |
| GlobMatch.ScanClass | common/blacklist/match.go:143-165 | the class loop errs exactly when the class is malformed, and otherwise decides membership in its ranges and finds its end |
| GlobMatch.MatchChunk | common/blacklist/match.go:121-194 | one pass over chunk and name gives fit with remainder, misfit, or malformed, with lazy parsing; every access is in bounds |
| GlobMatch.FnMatch | common/blacklist/match.go:41-84 | the verdict of greedy placement, with at most one call of matchChunk per chunk and per byte of the name |
| GlobScan.ScannersAgree | common/blacklist/match.go:88-116 | cutting with scanChunk and parsing the chunks one by one equals parsing the whole pattern once, for well-formed and malformed patterns alike |
| GlobScan.ParseScan | common/blacklist/match.go:88-116 | one cut: the pattern parses exactly when chunk and rest do, the tokens concatenate, and the chunk holds no star token |
| GlobScan.NoLiteralStar | common/blacklist/match.go:109-112 | wherever matchChunk stands in a chunk of any pattern, the next byte is not an unescaped star outside a class |
| GlobTheorems.RunSound | common/blacklist/match.go:41-84 | for every byte name a match implies that the whole pattern is well formed and a split of the name witnesses it |
| GlobTheorems.ErrorsAreMalformed | common/blacklist/match.go:34-36 | ErrBadPattern is returned only for patterns outside the grammar |
| GlobTheorems.FitOrder | common/blacklist/match.go:51-79 | the exchange step: laid at an earlier place a chunk does not end later, on narrow names or for literal chunks |
| GlobTheorems.RunComplete | common/blacklist/match.go:41-84 | committing to the first fit loses no match, on narrow names or with literals between stars |
| GlobExact.AsciiIsNarrow | common/blacklist/match.go:129 | every ASCII name is narrow |
| GlobExact.FnMatchExact | common/blacklist/match.go:16-84 | the answer is true exactly when the pattern is well formed and the declarative matcher accepts the whole name; well-formed patterns never err |
| GlobExact.WitnessAccepts | common/blacklist/match.go:64-80 | for a name with a rune of three or four bytes the declarative matcher accepts a certain well-formed pattern |
| GlobExact.WitnessMisses | common/blacklist/match.go:64-80 | and fnMatch answers false on it |
| GlobExact.ExactOnNarrowNamesOnly | common/blacklist/match.go:41-84 | fnMatch agrees with the declarative matcher on every pattern if and only if the name is narrow |
| GlobMeaning.VerdictMeaning | common/blacklist/match.go:16-84 | a pattern printed from syntax trees matches exactly if its terms, one after the other, take all of the name: a star any bytes, '?' a rune, a class a rune in (or, negated, outside) its bounds, anything else its byte; otherwise the answer is (false, nil) |
| GlobMeaning.MatchedMeans | common/blacklist/match.go:41-84 | for every name a match means that the terms take all of it |
| GlobMeaning.StarAlone | common/blacklist/match.go:47-50 | the byte 42 matches every name |
| GlobMeaning.AnyAlone | common/blacklist/match.go:170-173 | the byte 63 matches exactly the names of one rune |
| GlobMeaning.ByteAlone | common/blacklist/match.go:175-190 | a byte after 92, and any byte but 42, 63, 91 and 92, matches exactly itself |
| GlobMeaning.ClassTerms | common/blacklist/match.go:127-168 | byte by byte, 91, an optional 33, members with 92 as escape and 45 between bounds, 93: matches exactly the names of one rune that lies between some bounds, or between none if negated |
| GlobMeaning.ClassOfRune | common/blacklist/match.go:161-168 | every class against every scalar value: matched exactly if the value is within some bounds, or within none if the class is negated |
| GlobErrors.ChunkMeaning | common/blacklist/match.go:121-194 | matchChunk gives the remainder exactly if the terms of the chunk take what is before it; a chunk that breaks off errs exactly if the terms before the break take a proper prefix |
| GlobErrors.ErrorsLikeProbe | common/blacklist/match.go:41-84 | for every name and wherever a pattern breaks off: ErrBadPattern exactly if the terms before, followed by a '?' and a star, match |
| GlobErrors.ErrorMeaning | common/blacklist/match.go:134-137 | ErrBadPattern exactly if the terms before the first malformed one take a proper prefix of the name, on narrow names and with literals between stars |
| GlobErrors.ErrorMeaningStarless | common/blacklist/match.go:134-137 | and on every name if no star stands before the malformed term |
| GlobErrors.ErrorsExactly | common/blacklist/match.go:34-36 | of any pattern on a narrow name: ErrBadPattern exactly if it breaks off after terms that take a proper prefix of the name |
| GlobErrors.BrokenClass | common/blacklist/match.go:134-165 | a class is malformed if nothing, a dash, a closing bracket, a lone backslash or malformed UTF-8 follows its opening, or if no bracket closes it |
| GlobErrors.BrokenHead | common/blacklist/match.go:175-182 | a malformed term is a class or a lone backslash at the end |
| GlobErrors.BadFromTheStart | common/blacklist/match.go:122-137 | a pattern malformed from the start errs on every name but the empty one |
| Blacklist.NewMatcher | common/blacklist/blacklist.go:43-54 | entries in order, each with the longest prefix of its pattern without the bytes of *, ?, [ and backslash |
| Blacklist.PrefixMismatch | common/blacklist/blacklist.go:58-62 | a path without the plain prefix makes fnMatch answer (false, nil), even on a malformed pattern |
| Blacklist.Match | common/blacklist/blacklist.go:56-68 | same boolean and error as fnMatch on every pattern in order |
| Blacklist.SlowMatchDecides | common/blacklist/blacklist.go:57-67 | the first pattern that matches or errs decides, and there is none exactly when the answer is (false, nil) |
| Blacklist.BlacklistMeaning | common/blacklist/blacklist.go:56-68 | on well-formed lists and narrow paths: no error, and a match exactly if some pattern accepts the path |
| Blacklist.SplitRelPath | common/blacklist/blacklist.go:103-108 | splitting the relative path of a node at its slashes gives back the path of the node; the root is "." |
| Blacklist.QuoteDecides | common/blacklist/match.go:175-190 | a fully escaped text matches itself and nothing else |
| Blacklist.PlainDecides | common/blacklist/match.go:185-190 | a text without meta characters matches itself and nothing else |
| Blacklist.NamesDoom | common/blacklist/blacklist.go:97-137 | a list of names, escaped or plain, dooms exactly what lies at or below the paths into which they split |
| Blacklist.CollectMatches | common/blacklist/blacklist.go:97-118 | the walk errs exactly if it cannot read or a pattern errs; otherwise it collects exactly the blacklisted paths and counts every node |
| Blacklist.RemoveMatches | common/blacklist/blacklist.go:122-137 | only paths below a match go, even on failure; on success every match is gone; paths gone already are no error |
| Blacklist.RemoveBlacklistedFiles | common/blacklist/blacklist.go:71-140 | success leaves exactly the paths with no blacklisted ancestor-or-self, which for a list of names is all but what lies at or below the paths they name; a walk or match error leaves the tree unchanged; failures remove nothing else |
| Sanitize.FmtSanitize | common/sentry/sentry.go:121-151 | the rune loop with one buffer and arguments overwritten in place computes the translation |
| Sanitize.NilExactly | common/sentry/sentry.go:128-150 | nil exactly when a verb is unsupported, a lone percent sign ends the message, or verbs and arguments differ in number |
| Sanitize.OneVerb | common/sentry/sentry.go:128-150 | byte by byte: %q, %v, %d and %s with one argument become %s with its rendering, %% stays, and every other pair, or another number of arguments, gives nil |
| Sanitize.OneByte | common/sentry/sentry.go:142-146 | a single byte stays as it is, unless it is a percent sign, which gives nil, or no UTF-8, which gives EF BF BD |
| Sanitize.MeaningPreserved | common/sentry/sentry.go:119-151 | both messages render, and to the same text if and only if the original is valid UTF-8 |
| Sanitize.SanitizedIsFixed | common/sentry/sentry.go:119-151 | the result uses only %s and %%, is valid UTF-8, and sanitizes to itself |
| LogStream.ReadLines | client/log.go:128-145 | lines that end at each byte 10 and nowhere else, then what is left with the error; together they are the stream |
| LogStream.FillPayload | client/log.go:95-120 | one payload: lines in order, ended by nothing but the threshold, the timer or the end of the stream, and not yet at the threshold before its last line; every select takes one line, except that one won by the timer takes none and ends the payload |
| LogStream.WriteStream | client/log.go:87-126 | the chunks concatenate to the stream plus error text, none is empty, all but the last end in a newline, each was below the threshold before its last line; at every tick a chunk ends with the last line taken by then, and every other chunk but the last reaches the threshold |
| Rendezvous.PushedAndHeld | client/log.go:43-78 | in every state of every run the pushed chunks plus the one in hand are exactly the acknowledged payloads, once each, in rendezvous order |
| Rendezvous.ReturnedMeansDelivered | engine/engine.go:126-131 | when Run has returned, exactly the payloads whose write returned nil were pushed, once each and in order |
| Rendezvous.ReturnedIsFinal | engine/engine.go:162-165 | nothing is pushed or acknowledged after Run has returned |
| Rendezvous.WriteCarriesPayload | client/log.go:43-53 | a call of write carries its text in all later states, is answered once, and is refused only after Close |
| Rendezvous.DeliveryHappens | client/log.go:43-78 | for every list of texts some run acknowledges all of them, pushes them in order and returns |
| Rendezvous.CloseDrains | client/log.go:36-53 | after Close every step but a new write makes progress, and the log rests only with no writer blocked and Run returned |
| Rendezvous.WritersMeet | client/log.go:43-53 | before Close a blocked writer can always go on after at most one push |
| FileLogRound.ReadRound | client/filelog/filelog.go:128-154 | the reading loop as written is a stretch of steps of the machine, for every pattern of short reads, errors and failing pushes; all chunks but the last are full, the round stops at the first failed push or read, and otherwise pushes exactly the rest of the file |
| FileLog.RunKeepsInv | client/filelog/filelog.go:72-160 | handshake, delivery and drain invariants hold in every state of every interleaving |
| FileLog.PushedIsPrefix | client/filelog/filelog.go:131-154 | at every moment the pushed chunks are a prefix of the bytes written, each non-empty and shorter than 81920 bytes |
| FileLog.TickDelivers | client/filelog/filelog.go:123-154 | in every run, at the end of the round of reading that a tick starts everything written before the tick is pushed, unless a push or read has failed, and the reader waits again |
| FileLogShutdown.TickCanDeliver | client/filelog/filelog.go:123-154 | from every reachable state in which the reader waits, a tick can lead to the whole file being pushed |
| FileLog.FirstShutdownDelivers | client/filelog/filelog.go:89-116 | once StartReporting has returned, the first call of Shutdown returns only when everything written before the call is pushed, barring failures |
| FileLog.ShutdownDelivers | client/filelog/filelog.go:89-116 | at any return what was written before the call is pushed exactly if the reader has come that far, and it has for every call that began before the last round of reading was over |
| FileLogShutdown.LateShutdownMisses | client/filelog/filelog.go:94-101 | from every state in which the last round is over, one write and one Shutdown lead to a return with the write not pushed and no failure |
| FileLogShutdown.SecondShutdownMisses | client/filelog/filelog.go:89-116 | every run in which a Shutdown has returned after StartReporting continues to one in which the next write is missed by the next call |
| FileLogShutdown.LateShutdownHappens | client/filelog/filelog.go:72-116 | a whole run without any failure, of one StartReporting and two calls of Shutdown, that misses what is written between the calls |
| FileLog.NothingAfterFailedPush | client/filelog/filelog.go:136-153 | once a push has failed nothing is pushed in any later state |
| FileLog.HandshakeIsSafe | client/filelog/filelog.go:72-120 | shutdownComplete is closed at most once, the reader took exactly one token before it ends, the file is not read after close, no reader starts after a completed Shutdown |
| FileLogShutdown.ShutdownCanReturn | client/filelog/filelog.go:91-116 | from every reachable state a pending Shutdown can be brought to return if pushes return |
| Reporter.SendPayload | client/reporter/defaultreporter.go:130-184 | between one and the configured number of posts, stopping at the first status from 200 to 299; an error exactly if the last allowed post fails |
| Reporter.AttemptedInOrder | client/reporter/defaultreporter.go:187-192 | payloads are attempted in the order the channel took them, none repeated, with bounded backlog |
| Reporter.ShutdownFlushes | client/reporter/defaultreporter.go:208-215 | when Shutdown returns, every payload sent has been attempted |
| Reporter.ShutdownEnds | client/reporter/defaultreporter.go:187-215 | after the close every step but a new send makes progress, and rest means that Shutdown has returned |
| Reporter.ProducersProceed | client/reporter/defaultreporter.go:187-206 | before the close, in every state of every run, a blocked producer can go on while there is room, and otherwise the sender has a step that makes room |
| Lockfile.LockDir.Inspect | common/lockfile/lockfile.go:121-135 | GetOwner as TryLock uses it is one reading and one probing of the step relation: a live owner or an error ends the attempt, a dead or invalid one leads to the removal of the file that was judged |
| Lockfile.LockDir.TryLock | common/lockfile/lockfile.go:97-156 | a run of the step relation, with the answer decided by lock file and I/O errors: a live owner keeps its lock, and only one makes it busy; a free lock is taken, and a stale or junk one in a second attempt; the lock path afterwards |
| Lockfile.ExclusionWhenCleanupIsCurrent | common/lockfile/lockfile.go:97-161 | in all runs with crashes and from any leftover file: if each removal finds the file that was judged, there is at most one holder, and the path is its inode |
| Lockfile.ExclusiveExactly | common/lockfile/lockfile.go:97-161 | over all runs with crashes: no state of a run leads to two holders without a further cleanup, if and only if no cleanup of the run happens while a process holds the lock |
| Lockfile.ExclusionWithoutCrashes | common/lockfile/lockfile.go:97-161 | in every run that begins without a lock file and in which no process dies there is at most one holder, and the path is its inode |
| Lockfile.ExclusionWithAtomicCleanup | common/lockfile/lockfile.go:137-153 | with crashes, if owner check and removal are one step, there is at most one live holder and it is not displaced |
| Lockfile.SplitCleanupRaces | common/lockfile/lockfile.go:137-155 | a run of the two-step cleanup that ends with two holders |
| Lockfile.CrashRaces | common/lockfile/lockfile.go:137-155 | a run from a directory without a lock file in which the first holder crashes and two others end up holding the lock |
| Lxc.Client.Clean | adapter/lxc/executor.go:36-95 | an unreadable file is left alone; otherwise the file goes unless it cannot be removed, and the leftover stops exactly if it can be opened and killed |
| Lxc.Client.Launch | adapter/lxc/container.go:325-397 | a run of the machine; the container runs exactly if creation, registration and start succeed, and then it is named in the executor's file, whatever fails later; files, definitions and other containers are decided by the outcomes, the leftover stops exactly if it could be killed |
| Lxc.Client.Destroy | adapter/lxc/container.go:632-655 | a run of the machine: stop, destroy, and only then give up the executor file; an error leaves file and definition; without an open container nothing happens |
| Lxc.Client.Shutdown | adapter/lxc/adapter.go:160-191 | a run of the machine; a container not to be kept is stopped and destroyed as far as the outcomes allow, and the error, files, definitions and running containers follow from them; a kept one stays and gets a file of its own; what still runs is named in a file, unless a kept one could not be registered |
| Executor.RegistryExactly | adapter/lxc/executor.go:36-129 | over all runs on any executors with crashes between any two steps: every running container is named in a file at every moment, if and only if the only file of one is never removed by Clean without killing it, overwritten by Register, or given up for a kept container |
| Executor.LostByClean | adapter/lxc/executor.go:47-59 | a run in which the leftover of a crashed run cannot be opened after its file is gone, and runs on unnamed |
| Executor.LostByRegister | adapter/lxc/executor.go:45-107 | a run in which the unreadable file of a crashed run is overwritten, and its container runs on unnamed |
| Executor.LostByKeeping | adapter/lxc/adapter.go:167-184 | a run in which a kept container gets no file of its own, and runs on unnamed |
| Executor.RegistryWhenCallsSucceed | adapter/lxc/container.go:325-397 | if executor files can be read, leftovers opened and killed, and kept containers registered, the registry is complete in every state |
| Executor.OneContainerPerExecutor | adapter/lxc/executor.go:32-35 | then an executor has at most one running container that is not kept, and none from Clean until its own container starts |
| Engine.ExecuteCommands | engine/engine.go:168-237 | the trace is the blocks of the commands up to the first that does not go well; passed exactly if all go well; failed exactly if a command that is no infra_setup one fails after such; an error exactly with infra_failed |
| Engine.CommandTrace | engine/engine.go:168-237 | a command is run exactly if all before it went well; in the trace it has its story once, in progress, run, finished with its return code, published or not, before the next one starts |
| Engine.ReturnCodes | engine/engine.go:192-214 | a command that is run is reported finished once: with 0 and its output if asked for on success, with 1 on failure, with 255 if it could not be run |
| BuildPlan.RunEngine | engine/engine.go:125-166 | the main goroutine as written is a run of the machine, whichever ready case its select takes; the answers decide the result; the effects on reporter and adapter are listed in their order |
| BuildPlan.AwaitCommands | engine/engine.go:314-351 | waiting for the commands or the abort, then the snapshot: aborted exactly if the signal wins the select, else the result of the commands and of a snapshot attempted exactly if wanted and passed |
| BuildPlan.ResultIsCoherent | engine/engine.go:125-166 | in every interleaving the effects come in one order; unless aborted the whole trace is reported and decides the result, together with the snapshot, which is captured only after the commands passed |
| BuildPlan.ReportsFollowTrace | engine/engine.go:314-331 | as long as the adapter is up, and for good in a build that is not aborted, the events reported about commands are the beginning of the one trace of the build |
| BuildPlan.CommandsFollowAnswers | engine/engine.go:314-331 | in every state the events reported about commands are the beginning of the trace of every world that agrees with the answers given so far, and a result offered is its result |
| BuildPlan.DeviationExactly | engine/engine.go:301-331 | in every run, when the adapter of an aborted build is about to go down: something else than the trace can come to be reported if and only if a call of adapter.Run is under way or ahead |
| BuildPlan.OnlyAbortDeviates | engine/engine.go:301-331 | what is reported departs from the trace only in an aborted build and only once its adapter is down |
| BuildPlan.EarlierReportsStay | engine/engine.go:314-331 | what has been reported before the adapter goes down stays in all later states, and is the beginning of the trace |
| BuildPlan.AbortChangesReport | engine/engine.go:301-331 | from the start some interleaving has something else than the trace reported, if and only if the build has a command |
| BuildPlan.BuildIsBounded | engine/engine.go:249-352 | however the goroutines interleave, a build takes at most four steps for every command and fourteen more, signals aside |
| BuildPlan.BuildRestsWhenDone | engine/engine.go:314-331 | the build rests only when Run has returned; after an abort the command goroutine stays blocked on its result |
| BuildPanic.PanicFromStart | engine/engine.go:76-104 | whatever the capacity of the queue, some interleaving of a build panics if and only if the build has a command |
| BuildPanic.PanicExactly | engine/engine.go:76-104 | in every interleaving of build, queue and log, once the build has a result: a send on the closed queue can still happen if and only if the command goroutine has a status left to send or is sending one; then the build was aborted |
| BuildPanic.RestsOnlyAtExit | engine/engine.go:76-104 | without a panic the joined goroutines come to rest only when the queue is shut down, with no writer to the log blocked and everything sent attempted |
| BuildReport.OnlyAbortedPanics | client/reporter/defaultreporter.go:51-52 | a panic happens only in an aborted build, and only after Run has returned |
| BuildReport.EverythingReported | client/reporter/defaultreporter.go:187-215 | when the program exits without a panic, and so after every build that was not aborted, everything sent has been attempted, and the chunks sent are the payloads of exactly the acknowledged writes to the log |
| BuildReport.ReportedInOrder | reporter/mesos/reporter.go:28-76 | the statuses sent are those of the commands and the chunks sent those the reader of the log has pushed, in their order, and the payloads of each goroutine are attempted in the order in which it sent them |
| BuildStatuses.StatusesSent | reporter/mesos/reporter.go:28-76 | at every moment the statuses sent are exactly beginning and end of each command so far and of the job, and the chunks sent exactly those pushed |
| BuildStatuses.BuildIsTold | engine/engine.go:125-237 | at the exit after a prepared build that was not aborted, posting has been attempted of beginning and end of the job and, of exactly the commands that were reached, of beginning and return code |

## Left out

- HTTP, YAML, Sentry transport, S3, metrics, flags and image handling: library plumbing; their outcomes are free choices.
- Windows, where a backslash does not escape: the other platforms' behaviour is modelled.
- The order of filepath.Walk and symbolic links: the walk visits every node once in an order left open, and trees have no links.
- GlobExact.FnMatchExact: on names that are not narrow with '?' or a class between stars it does not decide each pattern; soundness and the exact set of names are proved instead.
- GlobErrors.ErrorMeaning: on names that are not narrow, with '?' or a class between stars, an error is tied to fnMatch on another pattern (`ErrorsLikeProbe`), not to the declarative matcher.
- LogStream.WriteStream: assumes a positive threshold; with zero or less the loop of the source never ends.
- LogStream.FillPayload: the timer schedule is finite, after which lines arrive.
- FileLogRound.ReadRound: the file does not grow during the method; growth during a round is covered by the step relation.
- Lockfile.LockDir.TryLock: no other process acts during the call; the step relation has them.
- Lockfile: pid reuse; a pid that has died is not used again.
- Executor: names of executors and of containers are disjoint, container names are not reused, and one run at a time uses an executor, as the source assumes; the temporary snapshot executor names an image and no running container, and executors without a name are not used.
- Executor: a file cut short is taken to name no container.
- Lxc.Client: nobody else acts on the host meanwhile; the step relation has the other executors.
- Reporter: PushSnapshotImageStatus posts outside the queue, by SendPayload alone.
- Reporter: a payload's number of posts is in SendPayload, not repeated in the queue machine.
- BuildPlan: the replacement of the configured snapshot id by the flag, and the second interrupt that exits the process.
- Engine: failure to create the command script.
- BuildReport: a goroutine does not wait for its own writes to the log, which come from outside the model; payloads of the infrastructure log and image statuses, which do not go through the queue; how often a payload is posted.
