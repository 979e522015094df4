# Skaffen, verified

Skaffen is an agent that talks to language models, local tools and remote MCP servers. This project models the parts
of it whose correctness is an argument rather than a reading, and proves that argument in Dafny 4.11.
`dafny verify dfyconfig.toml` checks everything.

| files | what they model |
|---|---|
| `RemoteModel`, `RemoteLog`, `RemoteInvariant`, `RemoteRequestProof`, `RemoteLifecycleProof`, `RemoteHandleProof`, `RemoteTheorems`, `RemoteProgress`, `RemoteSchedules`, `RemoteCalls`, `RemoteTokens`, `RemoteReconnects` | one remote server connection: its credentials, refreshes, 401 retries, consent flow, reconnects and shutdown, as a transition system over any number of goroutines |
| `Redaction`, `Redactor` | credentials in shared storage, and taking them out of text |
| `CapReader` | the body reader that stops at a limit |
| `Vectors`, `PageRankTheory`, `GraphRows`, `CompressedRows`, `PageRank`, `PageRankMeaning` | personalised PageRank over compressed rows |
| `RepoMap`, `RepoMapText`, `TokenEstimate` | the file graph, the map's text and fitting it into a budget |
| `TopK` | the k best messages with a min-heap |
| `Messages`, `ToolExecution`, `AutoCompact`, `AgentLoop` | the agent loop: running tool calls, estimating and compacting the conversation |
| `ExperimentLog`, `ExperimentStore` | experiment segments and their replay |
| `Reordering` | permutations and reorder mutations |
| `Pareto` | quality signals and their front |
| `SessionHistory` | saved conversations and their replay |

How to read the remote model. A `State` holds the shared fields and a program counter for every goroutine: requests,
the connecting call, the shutdown sequence, reconnecting callers. `Next` is one step of one of them: taking or
releasing `tokMu` or the reconnect lock, a compare-and-swap, an atomic load or store, one message sent or received.
`Run` follows a schedule, and `Reachable` means that some schedule leads there from any number of goroutines. The
server, the user, the clock and every context are the environment: it may grant, refuse, rotate, lose a reply, end a
context or overflow a body whenever it likes. A token's hash is taken to identify the token. `RemoteLog` records what
the server could observe, and the theorems speak about that log, the stored bytes and the opened clients.

Elsewhere a loop over mutable state is a method proved against a specification function, and the lemmas are about that
function. Orders that Go leaves open (map iteration, goroutine scheduling, unstable sorting, partial reads) are chosen
arbitrarily in the methods, so their contracts hold for every order. A `char` stands for a byte, and reals stand for
floats.

## Model

| member | source | states |
|---|---|---|
| RemoteTheorems.RefreshSafety | internal/mcp/remote.go:343-457 | in every interleaving: after a refresh that was sent and failed none is sent again, refreshes never overlap, with an always-rotating server no refresh token is sent twice, and a 401 never refreshes a minted token that no request was accepted with; unless the server mints a token again that was accepted before, not even one that was not accepted since its mint |
| RemoteSchedules.ReissuedTokenRefreshedUnproven | internal/mcp/remote.go:365-408 | the exception is needed for every token: a schedule in which it is minted again, a request accepted before that clears the new mark, and the next 401 refreshes it though nothing was accepted since its mint |
| RemoteTheorems.EndedCallerStops | internal/mcp/remote.go:79-92 | a caller whose context had ended before its token call never gets past the lock |
| RemoteTheorems.EndedCallerIsInert | internal/mcp/remote.go:343-392 | such a caller sends nothing, leaves no failure and changes nothing shared |
| RemoteTheorems.FirstFailureStays | internal/mcp/remote.go:169-172 | the first recorded failure is final, whatever any goroutine does later |
| RemoteTheorems.HandedTokensAreIssued | internal/mcp/remote.go:343-392 | a request is only ever given a token the server issued, never an empty or wiped one |
| RemoteCalls.DueTokenIsRefreshed | internal/mcp/remote.go:343-360 | over every schedule of everybody else: a request that keeps tokMu from finding its token about to expire up to being sent, with the remote not closing, is sent with what exactly one refresh minted, and that refresh was sent with the refresh token held before |
| RemoteCalls.OtherTokenIsSentAsItIs | internal/mcp/remote.go:358-364 | if its token is not about to expire, or the remote is closing, it is sent with the token held before, and nothing was refreshed |
| RemoteSchedules.DueTokenCanBeRefreshed | internal/mcp/remote.go:346-364 | for any two tokens, a schedule in which a request finds the first about to expire and is sent with the second, which its refresh minted |
| RemoteCalls.RejectedTokenIsReplaced | internal/mcp/remote.go:366-392 | over every schedule a retry that keeps tokMu carries either the token that was already there, if it differs from the rejected one, or what exactly one refresh minted that this 401 caused |
| RemoteCalls.AcceptedTokenIsProven | internal/mcp/remote.go:404-409 | over every schedule: when a request sent with the newest minted token is answered, and not by a 401, then by the time it is over the mark that calls this token unproven is gone, and it never comes back |
| RemoteCalls.NoTokenCallAfterFailure | internal/mcp/remote.go:537-540 | once the remote has failed, a request that begins is turned away before it asks for a token, in every continuation |
| RemoteCalls.NothingSentAfterFailure | internal/mcp/remote.go:354-356 | nor is one that was still waiting for its token ever sent |
| RemoteCalls.OnlyDeletesAfterClosing | internal/mcp/remote.go:541-544 | once the remote is closing, no request that had not looked before is sent in any continuation but a session DELETE, and none refreshes |
| RemoteCalls.NoNewRefreshAfterClosing | internal/mcp/remote.go:358-384 | nor does any request that had not found before that it has to refresh, whether its token expires or a 401 rejects it, ever begin one |
| RemoteCalls.EndedContextSendsNoRefresh | internal/mcp/remote.go:425-431 | a request whose context has ended sends no refresh any more, up to its end |
| RemoteCalls.FatalAnswersFail | internal/mcp/remote.go:383-448 | a fresh token rejected, no refresh token, a lost, empty or out-of-scope reply, a 401 after a retry or to a request that cannot be sent again, a refused answer and one too long fail the remote: once that request is over it has a failure, and unless there was one before, this one |
| RemoteCalls.DeleteChangesNothing | internal/mcp/remote.go:570-575 | no answer to a session DELETE changes anything |
| RemoteTokens.TokensAreNewest | internal/mcp/remote.go:424-457 | in every reachable state each refresh was sent with the refresh token issued last, a reply that brings none leaving the one before; the held access token is the one issued last; and so is the refresh token while the lock is free, nothing failed and nothing is zeroed |
| RemoteTokens.HandedTokenIsNewest | internal/mcp/remote.go:343-392 | a request is only ever given the access token issued last |
| RemoteTokens.RefusedReplyIsWiped | internal/mcp/oauth.go:515-545 | a refresh reply that is empty, not of the bearer type or out of scope is never installed, its storage is wiped, and out of scope wipes the held tokens too |
| RemoteTokens.RefusedGrantIsWiped | internal/mcp/oauth.go:515-545 | the consent flow's first reply is treated alike |
| RemoteTheorems.FreeTokenIsLive | internal/mcp/remote.go:431-456 | while the lock is free, nothing failed and nothing is zeroed, the held access token's storage is live |
| RemoteRequestProof.InstallConserves | internal/mcp/remote.go:436-456 | a granted refresh moves every storage of the old and new set into the new set or the retired ones, losing and inventing none |
| RemoteTheorems.LiveCredentialsAreOwned | internal/mcp/oauth.go:528-545 | every storage that still holds a credential belongs to the token set, the retired ones, the client secret, the redactor or a goroutine that is at work on it |
| RemoteTheorems.RedactorKnowsCredentials | internal/mcp/oauth.go:194-202 | until it closes the redactor can still scrub every value it was given and every live credential |
| RemoteLog.AcceptedAfterItsMint | internal/mcp/remote.go:395-408 | if no accepted token is minted again, an acceptance of the newest minted token happened after it was minted |
| RemoteLog.AcceptedMeansProven | internal/mcp/remote.go:365-408 | so for any such history a 401 that refreshes only accepted tokens refreshes only those accepted since their mint; servers whose mints are distinct are among them |
| RemoteTheorems.WipeComesLast | internal/mcp/remote.go:292-339 | the wipe begins only when Close has returned, no connect is in flight and, unless a pending shutdown of a published remote got in first, no background close either |
| RemoteSchedules.BackgroundCanRunDuringWipe | internal/mcp/manager_remote.go:303-330 | the exception happens: a schedule in which a reconnect that had begun to dial puts its client in during the wipe, and the old one is closed in the background |
| RemoteProgress.BackgroundAfterWipeExactlyWhen | internal/mcp/manager_remote.go:272-330 | from the wipe on a client is closed in the background in some continuation if and only if a pending shutdown of a published remote got in first and one is being closed already, or the handle is open and a reconnect has got as far as dialing |
| RemoteTheorems.NothingRisesAfterWipe | internal/mcp/remote.go:192-246 | no connect can begin again in any continuation of the wipe, and no background close unless a pending shutdown got in first and one was under way or a reconnect had got as far as dialing |
| RemoteTheorems.DoneMeansEmpty | internal/mcp/secret.go:124-132 | when shutdown is over every storage ever issued is empty and the redactor is closed and holds nothing |
| RemoteTheorems.NothingAfterShutdown | internal/mcp/remote.go:206-246 | no continuation of a finished shutdown stores, installs or revives a credential |
| RemoteTheorems.ReconnectsAreBounded | internal/mcp/manager_remote.go:272-330 | all reconnecting callers together dial at most three times, and the generation never exceeds the reconnect count |
| RemoteTheorems.StaleCallerReusesClient | internal/mcp/manager_remote.go:278-300 | a caller that failed on a replaced client is given the current one and dials nothing |
| RemoteReconnects.GenerationNamesClient | internal/mcp/manager_remote.go:303-330 | over any run a published handle has another client only under a later generation, unless it was closed |
| RemoteReconnects.ReplacesOnlyWhatFailed | internal/mcp/manager_remote.go:286-330 | a caller that goes on to dial replaces the very client its generation stood for, whatever happened since its snapshot |
| RemoteReconnects.AnswerIsCurrent | internal/mcp/manager_remote.go:286-330 | the client a caller is given is the handle's, unless the handle has been closed since |
| RemoteSchedules.CallerReconnects | internal/mcp/manager_remote.go:303-330 | a schedule in which a caller is given the client it dialed, under the next generation, with the old client being closed |
| RemoteSchedules.CallerIsServed | internal/mcp/manager_remote.go:286-330 | from any state in which a caller finds its generation current, nothing down, failed or closing and fewer than three reconnects made, its own steps alone can replace the client: it is given the one it dialed, under the next generation |
| RemoteReconnects.NoNewDials | internal/mcp/manager_remote.go:294-301 | in every continuation: after Manager.Shutdown set its flag, and after a failure, at most the caller that had looked before dials once more; once the remote is closing nobody does |
| RemoteReconnects.NoNewSessions | internal/mcp/remote.go:206-265 | likewise for sessions: after a failure, and after closing, only those who had looked at it before still open one; a remote without tokens that is closing installs none, unless connect is just doing so; ConnectRemote does not begin again, and then its remote stays not pending |
| RemoteReconnects.LateSessionIsClosed | internal/mcp/remote.go:236-245 | a session that opens while shutdown has begun is closed by connect itself, in every continuation and before any credential is wiped |
| RemoteReconnects.PendingIsOver | internal/mcp/manager_remote.go:131-159 | once ConnectRemote is over its remote is not pending |
| RemoteTheorems.ClientsAreAccountedFor | internal/mcp/manager_remote.go:303-330 | every client ever opened is closed or exactly one party has it, except that a failing ConnectRemote still has the client it gave to its own shutdown |
| RemoteTheorems.ClosedHandleStaysEmpty | internal/mcp/manager_remote.go:161-176 | after the handle's shutdown it has no client in any continuation |
| RemoteTheorems.AllClosedExactlyUnless | internal/mcp/manager_remote.go:350-369 | for any number of Manager.Shutdown calls: when everybody is done, every client is closed if and only if shutdown was first entered neither for a published remote that was still pending nor by a Manager.Shutdown that overtook the one with the client |
| RemoteSchedules.SessionCanStayOpen | internal/mcp/manager_remote.go:131-159 | a concrete schedule through the pending window: a complete shutdown that leaves a session open |
| RemoteSchedules.SessionCanStayOpenLate | internal/mcp/manager.go:335-354 | and one with nothing pending: two overlapping calls of Manager.Shutdown leave a session open |
| RemoteTheorems.NothingWipedBeforeClose | internal/mcp/remote.go:285-339 | until Close has returned, nothing is zeroed and the redactor is open |
| RemoteTheorems.DeleteGetsItsToken | internal/mcp/remote.go:529-575 | Close's session DELETE is turned away only for a recorded failure or for want of a token, never refreshes, and step by step is given the live token |
| RemoteProgress.ShutdownCanFinish | internal/mcp/remote.go:292-339 | from every reachable state in which shutdown has begun some continuation finishes it: tokMu, Close with its DELETE waiting for tokMu, the joins and sync.Once never wait for each other for good |
| Redactor.SecretData.Zero | internal/mcp/secret.go:46-54 | overwrites every byte in place before it drops the storage, so no copy can reveal it |
| Redactor.NewSecret | internal/mcp/secret.go:26-31 | an empty value gets no storage, any other its own |
| Redactor.Redactor.Add | internal/mcp/secret.go:77-89 | registers a credential, or wipes it once the redactor is closed |
| Redactor.Redactor.Snapshot | internal/mcp/secret.go:99-110 | what is read under the lock is exactly what is known, or the news that the redactor is closed |
| Redactor.Redactor.Scrub | internal/mcp/secret.go:95-121 | the result holds no credential known under the lock that cannot touch the marker; a closed redactor withholds non-empty text |
| Redactor.ScrubWith | internal/mcp/secret.go:111-120 | works from the values read under the lock alone, whatever happens to the redactor meanwhile, and replaces them in some longest-first order |
| Redactor.Redactor.Zero | internal/mcp/secret.go:124-132 | every credential held is overwritten byte by byte, forgotten, and the redactor stays closed |
| Redaction.ReplaceCreatesNone | internal/mcp/secret.go:115-119 | a replacement removes its value and creates no occurrence of any value that cannot touch the marker |
| Redaction.RedactionIsSafeExactlyWhen | internal/mcp/secret.go:91-121 | a credential is absent from every redacted text, whatever else is redacted with it, if and only if it cannot touch the marker: lie over an end of it, over all of it or inside it |
| Redaction.WordListIsSafeExactlyWhen | internal/mcp/secret.go:91-121 | for one list of bracket-free credentials: redaction with it leaks none, over all texts, if and only if none occurs in the marker's word |
| Redaction.BracketsCanLeak | internal/mcp/secret.go:111-119 | an example: a credential with a bracket is completed by another one's marker and leaks |
| Redaction.WordsAreRedactedWhole | internal/mcp/secret.go:91-94 | longest first leaves no tail: in text made of separated words each credential becomes one marker and every other word stays |
| CapReader.Reader.Read | internal/mcp/remote.go:500-527 | what is handed out is the front of the data and never exceeds the limit; too large is reported only for data that is longer, and always once the limit is spent and another byte arrives |
| PageRank.Graph.Link | internal/repomap/pagerank.go:19-28 | adds to the weight of one edge and to no other, and makes both ends nodes |
| PageRank.TeleportVector | internal/repomap/pagerank.go:61-82 | the wanted nodes in proportion, or uniform when there is none |
| PageRank.OutWeights | internal/repomap/pagerank.go:84-90 | every node's total outgoing weight, for every map order |
| PageRank.RowPointers | internal/repomap/pagerank.go:96-112 | row i starts where the edges of the rows before it end |
| PageRank.Compress | internal/repomap/pagerank.go:92-124 | for every map order the arrays hold each edge exactly once, in its source's row, divided by the row's total |
| PageRank.Round | internal/repomap/pagerank.go:141-166 | one pass over the arrays is one step of the surfer's walk |
| PageRank.Graph.Rank | internal/repomap/pagerank.go:42-187 | one rank per node in ascending order, equal to the k-th iterate of the walk, for the first k whose step is below the tolerance, or the hundredth |
| GraphRows.OutWeightIsPositive | internal/repomap/pagerank.go:126-132 | with positive weights a node has no outgoing weight exactly when it has no outgoing edge |
| GraphRows.WalkIsProper | internal/repomap/pagerank.go:61-132 | with positive weights and non-negative personalisation every row and the jump vector are probability distributions |
| CompressedRows.ScatterAddsRow | internal/repomap/pagerank.go:162-165 | scattering a row's stretch adds exactly its divided row |
| CompressedRows.FlowSplits | internal/repomap/pagerank.go:142-153 | spreading the dangling mass by the jump vector is what following those nodes' rows would do |
| PageRankTheory.StepConserves | internal/repomap/pagerank.go:148-166 | a step turns total mass m into 1 - alpha + alpha m |
| PageRankTheory.RanksAreDistribution | internal/repomap/pagerank.go:134-187 | after every iteration ranks are non-negative, sum to one, and are at least 1 - alpha times the jump weight |
| PageRankTheory.StepContracts | internal/repomap/pagerank.go:141-166 | a step brings any two vectors closer in L1 by the factor alpha |
| PageRankTheory.DiffsShrink | internal/repomap/pagerank.go:168-182 | the k-th difference is at most 2 alpha^(k-1) |
| PageRankTheory.NearStationary | internal/repomap/pagerank.go:168-182 | an iterate is within alpha/(1-alpha) times its last difference of any stationary vector |
| PageRankTheory.StationaryIsUnique | internal/repomap/pagerank.go:33-40 | there is at most one stationary vector |
| PageRank.RanksAreAccurate | internal/repomap/pagerank.go:141-182 | the ranks returned are a distribution with that floor, and within alpha/(1-alpha) times the tolerance of the stationary vector when the loop stopped early |
| PageRank.StopsByRound | internal/repomap/pagerank.go:141-182 | the loop stops by round m once 2 alpha^(m-1) is below the tolerance |
| PageRankMeaning.RanksSolveTheEquation | internal/repomap/pagerank.go:42-187 | without the arrays and the walk: there are a jump vector, rows and rounds such that the jump is in proportion to the weights asked for, or uniform when they add up to nothing; each row is in proportion to the node's edge weights, or the jump when it has none; the first round is uniform and each next one is (1 - alpha) times the jump plus alpha times the inflow; and the ranks are the hundredth round or the first that moved less than the tolerance |
| PageRankMeaning.AskedNodesHaveAFloor | internal/repomap/pagerank.go:61-82 | every rank is at least 1 - alpha times the node's share of the weights asked for |
| PageRankMeaning.TeleportIsAsAsked | internal/repomap/pagerank.go:61-82 | the jump vector times the sum of the weights asked for is each node's weight, and with no sum it is one over the number of nodes |
| RepoMap.FormatMap | internal/repomap/extract.go:202-254 | groups by directory in order of first appearance, each symbol once, cut after the first group that exceeds the limit |
| RepoMap.CollectGroups | internal/repomap/extract.go:207-230 | the order list holds each directory once and the group map exactly its symbols |
| RepoMap.TextGrows | internal/repomap/extract.go:215-251 | one more definition only inserts text somewhere |
| RepoMap.PrefixesCostMore | internal/repomap/element.go:175-200 | a longer prefix never renders to fewer tokens |
| RepoMap.BinarySearchFit | internal/repomap/element.go:178-200 | the rendering of the longest prefix that fits the budget, or nothing when not even one definition fits |
| RepoMapText.MapSays | internal/repomap/extract.go:202-254 | what FormatMap's result says: the header; each directory once, in order of first appearance; below it for every definition of that directory and no other its line (two spaces and func with its scope, func, or type, by its kind), each different line once, in order of first appearance; an empty line; all of it, or up to the first directory with which it gets too long; no newline at the end |
| RepoMapText.RenderingSays | internal/repomap/extract.go:202-254 | without a limit, and so in whatever is fitted into a budget, all directories and definitions are there |
| RepoMap.GetID | internal/repomap/element.go:135-144 | names stay in one-to-one correspondence with the ids given out |
| RepoMap.BuildFileGraph | internal/repomap/element.go:129-153 | a node for exactly the files named, and between two files as much weight as there are references |
| TopK.Down | internal/session/scoring.go:83-91 | sinking restores heap order from a position on and keeps the elements |
| TopK.Init | internal/session/scoring.go:81-83 | the result is a min-heap of the same elements |
| TopK.Best | internal/session/scoring.go:61-104 | exactly k strictly increasing positions, none beaten by a position left out; all positions in order when k covers them |
| Messages.CountMessageTokens | internal/agentloop/loop.go:861-888 | what a message weighs, block by block |
| Messages.EstimateMessageTokens | internal/agentloop/loop.go:828-835 | what a list of messages weighs, counted from scratch |
| Messages.BlockWeighs | internal/agentloop/loop.go:861-888 | a token for every four whole bytes of a text, a result, a name or an input, at least one unless it is empty; 1600 for an image; nothing for other kinds |
| Messages.WeightAddsUp | internal/agentloop/loop.go:828-888 | one more block anywhere adds its weight to the whole list's |
| ToolExecution.PartitionToolCalls | internal/agentloop/loop.go:444-472 | the batches flatten back to the calls, unsafe calls stand alone, and no two safe batches are neighbours |
| ToolExecution.PartitionIsUnique | internal/agentloop/loop.go:442-472 | no other partition has these properties |
| ToolExecution.SlotAnswersItsCall | internal/agentloop/loop.go:413-440 | exactly when a call may run, and that its slot always carries its own ID and an error unless it ran without panic |
| ToolExecution.BlockSays | internal/agentloop/loop.go:410-440 | what each block of a turn's message says: a denial with the tool's name and the reason; the answer with its error flag, whole up to 30000 bytes and otherwise its first and last 15000 with the number left out between; or what was raised |
| ToolExecution.TruncateForContext | internal/agentloop/loop.go:818-824 | short text is untouched; long text keeps its head and its tail |
| ToolExecution.ExecuteBatchParallel | internal/agentloop/loop.go:489-543 | for every schedule the history grows by one start and one later end of each call and nothing else, never with more than ten open; each call's slot is written once, with what it answered with the history behind it when it ended, and no other slot changes |
| ToolExecution.ExecuteBatchSerial | internal/agentloop/loop.go:474-487 | each call ends right after its start with nothing else open; the first that panics ends the process, with those before it recorded and none after it started |
| ToolExecution.ExecuteTools | internal/agentloop/loop.go:361-408 | the message has one block per call, written once: the denial, or what the call answered with the history behind it; exactly the allowed calls started and ended, once each, never more than ten at once; a call to run alone did so; a call is over before one in a later batch starts; and there is no message exactly when a call run alone panicked |
| ToolExecution.UnsafeCallsExclude | internal/agentloop/loop.go:442-472 | over a whole turn an unsafe call overlaps no other: each other one is over before it starts or starts after it is over |
| ToolExecution.EverySlotAnswersItsCall | internal/agentloop/loop.go:361-408 | block i is a tool result that carries call i's ID, whatever the order, the approvals and the tools |
| ToolExecution.ScheduleDoesNotShow | internal/agentloop/loop.go:356-408 | when no tool's answer depends on what else ran, the calls taken strictly one by one give the same message, or go down, and they go down if and only if an allowed call panics |
| ToolExecution.GoesDownEitherWay | internal/agentloop/loop.go:474-487 | and a turn that a tool takes down goes down one by one as well |
| AutoCompact.MicroCompact | internal/agentloop/autocompact.go:135-187 | stubs the old long results in a copy; the list passed in and everything it points to is unchanged, and is returned itself when there is nothing to stub |
| AutoCompact.CompactionIsIdempotent | internal/agentloop/autocompact.go:148-172 | stubbing twice is stubbing once |
| AutoCompact.CompactionKeepsShape | internal/agentloop/autocompact.go:159-185 | length, roles, tool-use IDs, error flags, short blocks and the recent messages stay |
| AutoCompact.MicroDrop | internal/agentloop/autocompact.go:156-171 | what is reported as freed never exceeds the real drop of the estimate, and falls short of it by at most one token a stub |
| AutoCompact.Snip | internal/agentloop/autocompact.go:194-220 | a marker and the recent messages; freed is the drop of the estimate, or zero |
| AutoCompact.AutoCompactMessages | internal/agentloop/autocompact.go:230-282 | stubbing, snipping only if that was not enough, and the hook's messages in front |
| AutoCompact.RecentMessagesSurvive | internal/agentloop/autocompact.go:222-282 | for every threshold and every hook the last messages come through unchanged, at the end and in order |
| AutoCompact.CompactedHolds | internal/agentloop/autocompact.go:156-282 | what the compacted list is, block by block: the hook's messages, then either the stubbed list or the marker and the recent messages; a stub stands for exactly the old results of more than 200 bytes and names their length |
| Messages.DecimalStandsFor | internal/agentloop/autocompact.go:167-169 | the length in a stub is written in decimal digits that stand for it |
| AutoCompact.ReportedSavingIsReal | internal/agentloop/autocompact.go:237-259 | over both layers the real drop is at most a token a stub above what is reported; what is reported is really gone if and only if stubbing was enough or the marker weighs no more than what it replaces and what stubbing did not report |
| AutoCompact.ReportedSavingCanBeUnreal | internal/agentloop/autocompact.go:237-259 | one old result of 300 bytes before the recent messages: 67 tokens are reported as freed where 45 went |
| AgentLoop.Loop.EstimateCached | internal/agentloop/loop.go:837-858 | the cached total plus the weight of the messages past the cache, or a recount when the list has shrunk |
| AgentLoop.EstimateIsExactWhen | internal/agentloop/loop.go:837-858 | that estimate equals the full recount if and only if the cache stands for the front of the list |
| AgentLoop.ReusedLoopMiscounts | internal/agentloop/loop.go:119-143 | two runs of one loop: the second one's first request repeats the estimate of the first conversation |
| AgentLoop.Loop.MakeRoom | internal/agentloop/loop.go:143-181 | tries to compact if and only if that is enabled, the breaker is closed and the estimate has reached the threshold; has compacted if and only if something was freed, and then measures the new list from scratch |
| AgentLoop.Loop.TakeTurn | internal/agentloop/loop.go:131-238 | one turn: the request due for this conversation, window, cache and breaker, then the grown conversation |
| AgentLoop.Loop.Act | internal/agentloop/loop.go:210-232 | the conversation grows by the answer and, when tools were asked for, one message that answers each call as the calls ran in a lawful history |
| AgentLoop.TurnSays | internal/agentloop/loop.go:321-335 | after a turn the conversation is the one sent, one message of the assistant (a text block with the text unless it is empty, then one tool_use block per call with its ID, name and input, and nothing else) and, if it stopped for its tools, one of the user with one result per call that carries its ID |
| AgentLoop.Loop.Run | internal/agentloop/loop.go:119-318 | over every run: each request is the one due, each turn's conversation is the one sent before plus the answer and its tool results, the cache and the breaker are left as the last request leaves them, and the run ends with the first turn that does not go on |
| AgentLoop.RunSays | internal/agentloop/loop.go:210-232 | so every request of a run but the first is made from a conversation that holds what was sent before and then what the model said |
| AgentLoop.RequestsFit | internal/agentloop/loop.go:143-188 | every request of a run: an attempt to compact exactly when the weight reaches the window less the output reserve (at least zero) and the buffer; a compacted list that is as it should be, any other the whole one; and the budget is the window less 8192 and the weight, at least zero |
| AgentLoop.RecentAlwaysSent | internal/agentloop/loop.go:145-206 | in every request of a run the recent part of the conversation is sent as it is |
| AgentLoop.MeasuredExactlyWhen | internal/agentloop/loop.go:131-188 | for every request of a run: the decision to compact is made on the exact weight if and only if the cache stood for the front of the first conversation or an earlier request was compacted, and the request carries the exact recount and budget if and only if that or it was compacted itself |
| AgentLoop.RunMeasuredExactlyWhen | internal/agentloop/loop.go:131-188 | so every request of a run does if and only if the first one was compacted or the cache stood for the front of its conversation |
| AgentLoop.NewLoopIsExact | internal/agentloop/loop.go:131-188 | and a new loop decides and measures every request of its first run exactly |
| AgentLoop.TrippedForGood | internal/agentloop/autocompact.go:68-86 | once the breaker has tripped it stays so over the rest of the run: nothing is compacted and everything is sent |
| AgentLoop.BreakerCounts | internal/agentloop/autocompact.go:68-86 | the breaker counts the failed attempts since the last one that succeeded, which sets it to zero |
| AgentLoop.FailuresAreBounded | internal/agentloop/autocompact.go:68-86 | attempts that fail never carry the breaker past the failure at which it trips |
| ExperimentStore.Segment.LogExperiment | internal/experiment/store.go:322-365 | memory stays what a replay of the log gives if and only if the record was written, synced and can be scanned, or nothing was written; an unsynced record puts the log one record ahead for good, one too long to scan makes it unloadable, and an error never changes memory |
| ExperimentStore.Segment.SetPendingMutations | internal/experiment/store.go:291-301 | the mutations not yet completed, in order |
| ExperimentStore.Segment.NextMutation | internal/experiment/store.go:303-313 | nothing left means that every mutation given is completed; and when repeated names were logged often enough, the answer is the first one given that is not completed |
| ExperimentStore.Segment.Close | internal/experiment/store.go:405-419 | once its summary is written, synced or not, the log never loads again |
| ExperimentStore.LoadSegment | internal/experiment/store.go:122-231 | rebuilds exactly the replayed state, or says why there is none: the file does not open, a summary, a line too long to scan, or no segment |
| ExperimentStore.OpenSegment | internal/experiment/store.go:82-120 | resumes what the log holds, or starts a segment; a new one is in step with its log if and only if its line can be scanned and the log had no summary and no line too long before |
| ExperimentLog.ReplayMeans | internal/experiment/store.go:139-230 | a log loads if and only if it has a segment and neither a summary nor a line too long to scan, and the first of these says why not; the state counts the records since the last segment, its kept and discarded ones and the failures at the end, and takes its best value from the last kept one |
| ExperimentLog.NoiseChangesNothing | internal/experiment/store.go:144-166 | lines that do not decode change nothing, wherever they stand |
| ExperimentLog.StopsForGood | internal/experiment/store.go:202-214 | once a summary or a line too long to scan is written no later segment of that log can be loaded |
| ExperimentLog.PendingSurvivesReplayExactlyWhen | internal/experiment/store.go:291-362 | the live pending list equals the replayed one if and only if every logged name was logged at least as often as the list repeats it |
| ExperimentLog.UniqueNamesSurviveReplay | internal/experiment/store.go:291-362 | so with unique mutation IDs they are always equal |
| ExperimentStore.PendingMatchesReplayExactlyWhen | internal/experiment/store.go:291-362 | the same about a live segment that is in step with its log, after any calls |
| Reordering.Permutations | internal/experiment/mutation.go:301-323 | n! lists, every order of the items and nothing else, by key, each once when the items differ |
| Reordering.BelowIsLexicographic | internal/experiment/mutation.go:317-322 | keys are compared as Go compares strings: a proper prefix is below, and otherwise the first difference decides |
| Reordering.KeyJoins | internal/experiment/mutation.go:317-322 | a key is the items with commas between them |
| Reordering.ExpandReorder | internal/experiment/mutation.go:207-241 | an error below two items; otherwise the first orders by key, as many as the limit allows, without those that share the original's key |
| Reordering.TriesAreTheFirst | internal/experiment/mutation.go:207-241 | so they come in key order, as many as the limit or n! less the first ones with the original's key, none left out comes before one tried, and each comes once when the items differ |
| Reordering.KeyIsInjective | internal/experiment/mutation.go:222-228 | without commas the key tells orders apart |
| Reordering.AllOthersAreTriedExactlyWhen | internal/experiment/mutation.go:221-239 | with room for all, every other order is tried if and only if none shares the original's key |
| Reordering.AllOthersFitExactlyWhen | internal/experiment/mutation.go:216-239 | for different items and any limit: every other order is tried if and only if none shares the original's key and there is room for all orders, or for all but one and the original is the last |
| Reordering.TheTriesAreDetermined | internal/experiment/mutation.go:317-322 | for different items the sort's freedom does not show in the keys of what is tried and, without commas, in anything |
| Reordering.CommaFreeItemsTryAllOthers | internal/experiment/mutation.go:207-241 | items without commas: all other orders and never the original |
| Reordering.CommasHideAnOrder | internal/experiment/mutation.go:222-228 | two items with a comma: their other order is in no result, whatever the limit |
| Pareto.DominatesSignal | internal/mutations/signal.go:69-86 | at least as good on all six scores and better on one |
| Pareto.DominatesMeans | internal/mutations/signal.go:47-86 | what that means: efficiency, approval rate and success no less, turns, error rate and denial rate no more, and one of these better |
| Pareto.DominanceIsStrictOrder | internal/mutations/signal.go:69-86 | no signal dominates itself, and dominance is transitive |
| Pareto.ParetoFront | internal/mutations/signal.go:88-108 | the undominated signals, in order |
| Pareto.FrontIsCompleteAndSound | internal/mutations/signal.go:88-108 | every signal outside the front is dominated by a member of it, and no member is dominated by any signal |
| Pareto.FrontIsIdempotent | internal/mutations/signal.go:88-108 | the front of the front is the front |
| SessionHistory.TruncateOnceIsEnough | internal/session/session.go:335-349 | truncating before an append does not show after truncating again |
| SessionHistory.SavesTruncateOnce | internal/session/session.go:228-250 | any run of saves gives the history that one truncation at the end gives |
| SessionHistory.JsonlSession.Save | internal/session/session.go:228-250 | memory and log stay in step if and only if the record was written and can be scanned, or nothing was written and truncation drops just what the turn added |
| SessionHistory.JsonlSession.Load | internal/session/session.go:252-296 | the replayed history truncated once, in step with the log; no change when there is no file or it does not open; after a line too long to scan an error, and the lines before it at full length |

## Left out

- HTTP, TLS, URL parsing, discovery, callback handling, JSON and file access, clocks, subprocesses: their answers are inputs. Line decoding is a datatype of line kinds.
- Contexts: which context a goroutine uses is not modelled, only that it may end at any moment; so nothing is claimed about when a cancelled call returns.
- A context that ends between the redirect and the callback's receipt leaves an authorization code in the listener; the code's storage is modelled from its receipt on.
- The retired credentials are a set of storages rather than a list of token sets.
- The hash in the fresh mark is taken to be injective, so a hash collision between two tokens is not modelled.
- Revocation after a refusal for scope (internal/mcp/oauth.go:536-537 and 569-588) and the request budget's size are not modelled.
- RemoteProgress.ShutdownCanFinish: some continuation finishes; fairness of the scheduler, and so that every continuation does, is not modelled. The closes of a background goroutine, of ConnectRemote and of a dropped reconnect are one step each; only the Close that doShutdown waits for is modelled with its DELETE.
- Redaction.RedactionIsSafeExactlyWhen: the condition is exact over all lists; one particular list may be safe for a credential that can touch the marker. For one list it is exact only without brackets. A leak may need two credentials of one length in an unlucky order, which sort.Slice leaves open.
- Redactor.Redactor.Scrub: is stated for one goroutine between two lock operations; interleavings with Add and Zero are covered because the part after the unlock reads nothing shared.
- PageRank.Graph.Rank: requires positive edge weights, as every caller in the repository gives; with a zero total the program divides by zero. Rounding, infinities and NaN are not modelled.
- Node ids and counters are unbounded, not 32 or 64 bits wide; lengths are bounded only where a stub's length matters.
- RepoMap.FormatMap: takes the directory of a file as given rather than computing it from the path. The definitions' ranking and the tag extraction are not modelled.
- The token heuristic lives outside the repository; it is taken as one token per four bytes, at least one for non-empty text, as internal/agentloop/loop.go:869-880 has it.
- TopK.Best: requires k of at least one unless k covers all, and each message's index to be its position; with k of zero the program fails. The heap library's sift is written out.
- ToolExecution.GateToolCall: the quoting of a tool's name in a denial is exact for names without special characters. Stream events and post-tool hooks are not modelled.
- ToolExecution.ScheduleDoesNotShow: a panic in a parallel batch becomes an error block where the one-by-one run ends the process, so the two messages are the same only when no allowed call panics; the lemma says so.
- ToolExecution.ExecuteTools: a tool's answer may depend on everything that started and ended before, which covers interference and cancellation of siblings; a tool's effects outside its answer are not modelled.
- AgentLoop.Loop.Run: sessions are a list copied at the start; a session that shares its slice with the loop is not modelled. Routing, budgets, evidence, streaming and session persistence are not part of this model.
- ExperimentStore.Segment.LogExperiment: a torn line that swallows the next record, and the truncation of torn lines, are not modelled. Nor is a line that is a JSON null, which the program treats as valid and then truncates.
- Reordering.ExpandReorder: IDs, descriptions and parameters of the mutations, and the other mutation kinds, which expand one by one, are not modelled.
- SessionHistory.JsonlSession.Save: a write that fails half way and leaves a torn line is not modelled; a failed sync is. In-memory compaction and message replacement, which are never written to the log, are not modelled.
- Respawning of local servers, trust rules, the phase machine, model routing, sandbox paths, search caches, hooks, the terminal interface and the TypeScript packages are not modelled.
