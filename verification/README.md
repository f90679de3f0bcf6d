# Postline, modelled and proved in Dafny

Postline is a multi-agent message runtime. Agents talk over threads; every thread has a call stack, every agent a
memory, and everything that happens is a record in a segmented journal from which the whole state can be rebuilt.
This project models that core, and the tools around it that have laws of their own, and proves what the parts promise
to each other. `dafny verify dfyconfig.toml` checks all of it.

## What is modelled

- **The program** (`World`, `Transition`, `Routing`, `Program`): domains, agents, snapshots and threads; `preprocess`,
  `apply`, `commit`, `resolve`. Values and functions say what each step does; the class `ProgramState.Program` does it in
  place, loop by loop, and is proved equal to them.
- **What its steps come to** (`Addresses`, `Outcomes`, `Tags`): what an address denotes, how each message is routed and
  which error it is rewound for, what clones, snapshots and their instances are, and where tags travel, in terms of the
  headers and the state before and after.
- **Its invariants** (`Soundness`, `Preservation`, `Growth`, `Preprocess`, `Accounting`): the chain of frames, scopes of
  endpoints, the domain tree, the baton that passes from sender to recipient, obligation counts, the pending flag.
- **Memory and forks** (`History`, `Memories`, `Recall`): what a clone or snapshot inherits, and what `updateMemory` sends.
- **Runs** (`Runs`, `Conservation`, `Turns`): all of this over every sequence of messages, commits and deaths; and short
  runs at which an expected property fails (`Snapshots`, `Witnesses`).
- **Parties with their own view**: adapters' stacks (`Service`, `Coupling`, `Conversation`, `Interleaving`), the user interface's pending
  gate (`Ui`, `Gating`), the observer's mirror and journal replay (`Records`, `Mirror`, `Commands`, `Runtime`, `Observer`),
  what requests to the runtime agent leave behind (`Requests`), and the main loop that dispatches what adapters say, rewinds
  for the dead and recalls memories (`Sessions`).
- **The journal** (`AccessIds`, `Decimals`, `Framing`, `Journal`): addresses, framed records, chains of segments.
- **The patch tool** (`Trees`, `Planning`, `Meanings`, `Rollbacks`, `Patching`, `Hunks`, `PatchParser`, `PatchGrammar`): planner,
  actions, rollback, hunks, parser, what a patch means for the files, and which texts are patches;
  and its older rollback file (`ByteStrings`, `Utf8`, `SafePaths`, `RollbackCodec`).
- **The text format** (`Headers`, `Lists`, `Multipart`, `PrintedForm`): headers, header lists and multipart bodies.

A failed `CHECK` aborts the original, so it appears as a precondition. The theorems about runs say when it holds: the CHECKs on
who speaks where never fail for the agent whose turn it is, and those on what it says, and on the snapshot it may call, are
stated as conditions on the message and the program before it is routed (`Turns.HolderIsEnabled`, `Preprocess.CallCommitsExactly`).
Errors that the original reports are values. Pointers are indices into tables, and that `domains[i].id == i` and
`agents[i].id == i` hold is part of the invariant. JSON text and checksums are any inverse pair and any function.

## What turned out differently from what one would expect

Each of these is stated as a lemma, and where the expected property holds under a condition, with that exact condition.

- A snapshot can be called if and only if both entry agents bear names of members of its template and nobody has taken the
  name its instance will get (`Preprocess.CallCommitsExactly`, `Snapshots.InstantiableExactly`); otherwise the runtime aborts. A
  domain made by plain `create_domain` fails the first (`Snapshots.PlainSnapshotCannotBeCalled`), and whoever makes a domain of
  the foreseeable name spoils the second (`Snapshots.TakenNameBlocksInstance`, `Witnesses.SnapshotNameCanBeTaken`).
- A link written by hand with an anchor that lies ahead lets later messages of the source into the fork
  (`History.HandWrittenAnchorLeaks`, `Witnesses.AnchorAheadLeaks`). Anchors taken by the runtime never do.
- A child domain that has been detached can still be called by name from its parent, so the frame's domain then belongs to
  another thread, which doc/ACTOR.md rules out (`Preprocess.CallStaysOnThreadExactly`, `Witnesses.DetachedChildCanBeCalled`).
- A data message sent by the user leaves the interface pending with nothing to clear it (`Gating.UserDataWouldBlock`,
  `Witnesses.UserRecordBlocks`).
- A death while the user is to speak can leave the thread's pending flag wrong (`Accounting.DeathKeepsPendingExactly`,
  `Witnesses.DeathCanLeaveFlagWrong`), and the rewind can go to an agent that is not the one expected next
  (`Accounting.DeathPassesTurnExactly`).
- An answer from an agent that was cloned on the way does not carry the name the caller addressed, which the caller's
  `LinearService` insists on, since nothing sets `On-Behalf-Of`; nor, in general, does the answer of a domain's or a snapshot's
  entry agent (`Conversation.AnswersMatchExactly`, `Witnesses.CloneAnswerIsRefused`).
- A patch that plans well can still fail half-way when one of its paths lies below another
  (`Planning.PlannedActionsSucceedExactly`, `Planning.NestedPathsCanFail`). What it did until then can always be taken back
  (`Rollbacks.PlannedRunIsUndone`), although the record never covers the action that failed.
- One header that ends in the multipart delimiter breaks the splitting of the whole body, because only bodies are checked
  for it (`Multipart.SplitInvertsImportExactly`, `Multipart.SubjectCanBreakSplitting`).
- A message's thinking text is printed in front of its first header line without a line break, so a part that carries one is read
  back with a field of another name, or not at all. Headers and body come back if and only if the text is blank
  (`Headers.TextInFrontExactly`, `Multipart.PartsReadBackExactly`, `Multipart.ThinkingSpoilsHeaders`).
- doc/PATCH.md says empty path components are collapsed; the code still rejects `.//a`, because after the leading `./` is
  gone the path is absolute (`SafePaths.LeadingDotSlashIsDropped`).

## Model

| member | source | states |
|---|---|---|
| `ProgramState.Program.constructor` | include/postline/program.h:249-271 | The initial program is exactly the hard-coded world: one global domain of three agents entered by the user, and one thread. |
| `ProgramState.Program.CreateAgent` | include/postline/program.h:330-336 | A new agent gets the next id and joins its domain under its name; nothing else changes. |
| `ProgramState.Program.CreateDomain` | include/postline/program.h:338-347 | A new domain shares its parent's thread, is listed by it, and is entered from the user to the runtime. |
| `ProgramState.Program.CreateSnapshotDomain` | include/postline/program.h:349-361 | An instance gets the template's members in order and the entry named by it. |
| `ProgramState.Program.CreateThread` | include/postline/program.h:208-212 | A new thread detaches its root domain and owns it. |
| `ProgramState.Program.CreateSnapshot` | include/postline/program.h:157-166 | A snapshot records each member with a link to the live agent and its anchor, and the entry by name. |
| `ProgramState.Program.Commit` | src/program.cpp:655-710 | Each structural operation changes the state in place exactly as its specification says and returns the entity made. |
| `ProgramState.Program.Rewind` | src/program.cpp:617-627 | The popping loop leaves the specified prefix of the stack, gives back one obligation per dropped frame, and returns the agent that called the lowest of them. |
| `ProgramState.Program.ApplyRouted` | src/program.cpp:591-653 | One routed record applied in place equals the specified transition of the whole state, recipient included; what that is for stacks, memories, tags, turns and obligations is told by `Preservation`, `Outcomes`, `Tags` and `Accounting`. |
| `ProgramState.Program.Apply` | src/program.cpp:562-653 | Any record applied in place equals one step of replay. |
| `Soundness.ExpectedInScope` | src/program.cpp:409-429 | The endpoint whose turn it is always exists, and its agent lives in that endpoint's domain or in the global one. |
| `Soundness.ClimbEndsAtThreadRoot` | include/postline/program.h:130-155 | Walking parents from any domain ends at the root of that domain's own thread. |
| `Soundness.FaithfulIsApplicable` | src/program.cpp:602-632 | A context that preprocess may produce passes every CHECK of apply. |
| `Preservation.ApplyKeepsSound` | src/program.cpp:602-653 | Calls, returns, rewinds and data keep the frame chain, the scopes and the domain tree. |
| `Preservation.DeathKeepsSound` | src/program.cpp:362-384 | The rewind made for a dead agent can always be applied and keeps the same invariants. |
| `Preservation.RecipientHoldsTurn` | src/program.cpp:409-424 | Baton passing: the recipient apply returns is the one agent the next preprocess on that thread expects. |
| `Outcomes.DeliveredToTurn` | src/program.cpp:594-653 | A routed record is handed to the agent whose turn it then is, a data record to nobody. |
| `Outcomes.RecordIsRemembered` | src/program.cpp:594-648 | A record is remembered by its sender as sent and by whoever's turn it then is as received, in this order where they are the same; a data record by its sender alone. |
| `Growth.CommitKeepsSound` | include/postline/program.h:325-368 | Every operation the runtime issues keeps all invariants and leaves existing agents, stacks and entries alone. |
| `Growth.FreshDomainMayDetach` | src/runtime.cpp:151-163 | The thread that create_domain asks for right after making the domain may be created. |
| `Preprocess.LookupInScope` | src/program.cpp:241-278 | What a name resolves to is in scope of the domain it was looked up from, and an agent found bears that name. |
| `Preprocess.ResolveInScope` | src/program.cpp:227-294 | The same with detach and clone prefixes. |
| `Preprocess.RouteCallIsFaithful` | src/program.cpp:495-539 | After the commits a call asks for, the program is sound and the call's two endpoints are in scope. |
| `Preprocess.ClassifyIsFaithful` | src/program.cpp:386-559 | Whatever a message holds, preprocess ends in a context from the expected sender that apply accepts. |
| `Preprocess.HolderMaySend` | src/program.cpp:396-429 | The agent whose turn it is passes the thread and domain CHECKs, so line 428 cannot fail. |
| `Preprocess.CallStaysOnThreadExactly` | src/program.cpp:522-531 | The callee's domain belongs to the calling thread if and only if the address is not a detached child domain. |
| `Preprocess.CallCommitsExactly` | include/postline/program.h:330-361 | Whatever the address, the CHECKs of the commits a call asks for pass if and only if it leads to no snapshot, or to one that names members as its entry and whose instance's name is free. |
| `Preprocess.MessageCommitsExactly` | src/program.cpp:453-539 | The same for every message: only a call that is accepted as one can fail such a CHECK. |
| `Addresses.LookupExactly` | src/program.cpp:244-277 | A name denotes a member of the domain, failing that a global member, failing that a child domain, failing that a snapshot; look-up finds that one and no other. |
| `Addresses.ResolveExactly` | src/program.cpp:227-294 | Whatever the prefixes: `&` reaches only domains and snapshots, a clone is made if and only if `*` or the agent asks for one, and only of agents. |
| `Outcomes.ReplyReturnsExactly` | src/program.cpp:418-471 | A message returns if and only if its sender is expected, it is no record, and its In-Reply-To names the message on top of the stack; data, calls and rewinds likewise. |
| `Outcomes.ErrorsExactly` | src/program.cpp:421-483 | Each error before the address is read is reported if and only if its own condition on sender, headers and stack holds. |
| `Outcomes.AskingExactly` | src/program.cpp:495-539 | What a call comes to by what its address denotes: each of the three errors if and only if its condition holds, and the callee otherwise. |
| `Outcomes.SpeakerPassesExactly` | src/program.cpp:396-428 | The CHECKs on the sender pass if and only if it is global, or speaks on its domain's thread and, when it is expected, from its domain. |
| `Outcomes.WordsPassExactly` | src/program.cpp:430-446 | The CHECKs on the message pass if and only if its tags are not repeated, or, for an expected record, it has no recipient and answers nothing. |
| `Outcomes.CloneIsACopy` | src/program.cpp:503-516 | An accepted call to a clone leaves one new agent with the source's service, comment and history, its flags but the clone flag, and its name with the number appended; nothing of its own yet. |
| `Outcomes.CloneAnswersToItsName` | src/program.cpp:503-520 | A later message to the clone's name from there reaches it and clones nothing, if and only if the name begins with neither prefix. |
| `Outcomes.InstanceIsACopy` | include/postline/program.h:349-361 | An instance is a child of the caller's domain under the default name whose members are those of the snapshot, in order and fresh; nothing else changes. |
| `Outcomes.InstanceEntry` | include/postline/program.h:354-359 | It is entered and left at the members the snapshot names, and at no others. |
| `Outcomes.SnapshotFreezes` | include/postline/program.h:157-166 | A snapshot keeps every member's name, comment, service, flags and history of the moment, and the names of both entry agents. |
| `Outcomes.StampNamesSender` | src/program.cpp:430-453 | A message goes out under its sender's name, another name it gave is kept as the original one, a record loses its tags, and all else is passed on. |
| `Outcomes.DeathSpeaksFromHome` | src/program.cpp:362-384 | A death is rewound by the dead agent from its home, on the thread found by climbing from there. |
| `Accounting.ApplyKeepsObligations` | src/program.cpp:602-627 | Each agent's obligation count stays the number of frames, over all threads, whose callee it is. |
| `Accounting.GrowthKeepsObligations` | src/program.cpp:655-710 | Structural growth keeps the same count. |
| `Accounting.RewindKeepsLongestCatchingPrefix` | src/program.cpp:617-627 | A rewind from the expected sender leaves the longest prefix of the stack whose expected sender catches, or nothing. |
| `Accounting.RewindReachesCatcher` | include/postline/program.h:264-266 | A rewind from the expected sender always ends at an agent that catches. |
| `Accounting.ApplyKeepsPending` | src/program.cpp:641-646 | After every preprocessed record a thread is pending exactly when the user is not expected to speak on it. |
| `Accounting.DeathKeepsPendingExactly` | src/program.cpp:641-646 | After a death the flag stays right if and only if the user was not expected, or the dead agent catches, or the stack is empty, or the user made a call after whose caller nobody on the stack catches. |
| `Accounting.DeathPassesTurnExactly` | src/program.cpp:362-384 | After a death the recipient of the rewind is the agent expected next if and only if a call was waiting and the dead agent does not catch, or it was the dead agent's turn. |
| `Tags.RecordMovesTagsExactly` | src/program.cpp:594-640 | After any record an agent has its tags and those of the record if and only if the record is a call or a return and the agent its sender or recipient; otherwise just its own. |
| `Tags.DeathMovesNoTags` | src/program.cpp:617-640 | The rewind of a death moves no tags. |
| `Tags.CommitMovesNoTags` | src/program.cpp:655-710 | Structural operations move none, and new agents have none. |
| `Tags.OfferedTags` | src/program.cpp:541-553 | What a call, a return or a record offers is what its sender holds and, from the user, what it asks for. |
| `Tags.SpeakingMovesTags` | src/program.cpp:541-640 | One spoken message: sender and recipient of a call or return end with what they had and what was offered, a clone made for it included; nobody else's tags change. |
| `Tags.RecipientHoldsOffer` | src/program.cpp:541-640 | After a call or a return the recipient holds every tag the sender held and all the user proposed. |
| `Tags.TagsNeverShrink` | src/program.cpp:633-640 | Over every run nobody loses a tag. |
| `Tags.TagsComeFromUser` | src/program.cpp:541-640 | Over every run each tag anybody holds was held before it or proposed by the user in the course of it. |
| `Tags.ReachableTagsComeFromUser` | src/program.cpp:541-640 | So in any reachable program every tag was proposed by the user. |
| `History.ForkStartsWithHistory` | include/postline/program.h:104-113 | A link taken from an agent denotes exactly that agent's history, also when its own memory is empty. |
| `History.ForkIsFrozen` | include/postline/program.h:95-113 | Later states that only add later ids leave what a link denotes unchanged. |
| `History.HandWrittenAnchorLeaks` | src/runtime.cpp:103-110 | A message remembered by the source stays out of a link's history if and only if its id lies beyond the anchor. |
| `History.HistoryIsOrdered` | src/runtime.cpp:304-311 | Histories never decrease in unmarked id, ancestors' memories included. |
| `Memories.ApplyKeepsMemory` | src/program.cpp:594-648 | Every record keeps memories ordered and anchors below the ids to come. |
| `Memories.CommitKeepsMemory` | src/program.cpp:503-516 | So does every operation, cloning and snapshots included. |
| `Recall.SendSegment` | src/runtime.cpp:308-321 | The loop with its early break sends exactly the cut memory, filtered to ids below the end. |
| `Recall.CollectLinks` | src/runtime.cpp:290-301 | The walk to the ancestors ends, and its links denote exactly the agent's history. |
| `Recall.UpdateMemory` | src/runtime.cpp:286-324 | An agent with the memory flag is sent its whole history below the end between two markers, any other agent nothing, whatever its links, as long as no anchor carries the receiving bit; `Recall.AgentRecallsHistory` tells it entry by entry. |
| `Recall.MemoryIsRecallable` | src/runtime.cpp:304-306 | In every state of a run the CHECK on anchors passes, and memories are in order. |
| `Recall.RecallIsOrdered` | src/runtime.cpp:304-322 | What is sent never decreases in id and stays below the end. |
| `Recall.WholeHistoryIsOrdered` | src/runtime.cpp:286-301 | An agent's whole history never decreases in unmarked id. |
| `Recall.RecallIsHistory` | src/runtime.cpp:302-322 | What is sent is the history itself, entry by entry with its direction, up to the first entry that is not below the end. |
| `Recall.RecalledExactly` | src/runtime.cpp:308-321 | In any order of ids, an entry is sent if and only if its unmarked id lies below the end. |
| `Recall.AgentRecallsHistory` | src/runtime.cpp:286-324 | In every state of a run the adapter of an agent is told exactly the part of the agent's history that is below the end. |
| `Runs.StartIsValid` | include/postline/program.h:249-271 | The initial program satisfies all invariants with an empty log. |
| `Runs.StepKeepsValid` | src/program.cpp:386-722 | Every message, commit or death keeps all of them, and memories and traces are functions of the log of routed records. |
| `Runs.EveryRunIsValid` | src/runtime.cpp:336-417 | The same over every run. |
| `Runs.ReachableIsValid` | src/runtime.cpp:336-417 | So they hold in every state reachable from the initial program. |
| `Conservation.MessagesAreConserved` | src/program.cpp:594-648 | Every routed record is once in one trace, once unmarked in its sender's memory and once marked in its recipient's, and nowhere else; a data record is only in its producer's memory. |
| `Conservation.ForksStayFrozen` | include/postline/program.h:95-113 | Over every run a link of the right kind denotes the same history. |
| `Conservation.ForksBeginWithSourceHistory` | src/program.cpp:503-515 | Any agent that ever carries the link taken from a source has exactly the source's history of that moment, followed by its own memory. |
| `Turns.HolderIsEnabled` | src/program.cpp:396-453 | Whoever holds the turn passes all CHECKs if and only if the headers and tags it may set are in order and the snapshot it calls, if any, can be instantiated. |
| `Turns.SpeakingKeepsOrderly` | src/program.cpp:641-646 | When the holder speaks, the turn passes to the recipient and to nobody else on any thread. |
| `Ui.UI.Send` | include/postline/ui.h:66-87 | A send raises one thread's flag and queues the message for that thread. |
| `Ui.UI.Syscall` | include/postline/ui.h:39-64 | A syscall does the same and asks for the result. |
| `Ui.UI.OnMessage` | include/postline/ui.h:89-134 | A delivery lowers exactly that flag and hands the message over if it was asked for. |
| `Ui.GateMovesOneFlag` | include/postline/ui.h:66-126 | Raising and lowering move one thread's flag and no other. |
| `Ui.GateKeepsOthers` | include/postline/ui.h:39-126 | A gate that is raised remembers who waits for the result, and all other gates stay as they were. |
| `Gating.ActsPass` | include/postline/ui.h:107-114 | While the gate is exact no CHECK fails: user messages are expected, and deliveries find their thread pending. |
| `Gating.GatesStayExact` | include/postline/ui.h:66-126 | Over every run a thread is pending at the interface exactly when a user message for it is queued or somebody else is to speak. |
| `Gating.UserDataWouldBlock` | src/program.cpp:430-446 | A data message from the user is accepted and leaves the flag up with nobody to answer. |
| `Service.LinearService.OnMessage` | include/postline/service.h:55-141 | One delivery changes the stack and stamps the responses exactly as specified, alternation included. |
| `Coupling.DeliveryCompletesView` | include/postline/service.h:60-81 | The recipient's CHECKs pass on delivery, and afterwards every local stack is the view of the call stack. |
| `Coupling.HandoverKeepsCoupling` | src/program.cpp:602-616 | Applying and delivering one call or return re-establishes the coupling for the whole team. |
| `Coupling.ResponseIsRouted` | src/program.cpp:458-539 | A response to the caller is classified as a return and any other as a call, never as a rewind. |
| `Conversation.ActKeepsCoupling` | include/postline/service.h:55-141 | One round of the user, a service or the runtime passes every CHECK and keeps the coupling; so does any message between others on another thread. |
| `Conversation.LocalStacksRefineGlobal` | include/postline/service.h:53-141 | Over every run, whatever is said on other threads meanwhile, the stack of each service of a thread's team is exactly the thread's frames seen from it, in order and with matching message ids. |
| `Conversation.FreshLineIsCoupled` | include/postline/program.h:249-271 | At the start nobody owes anything, whoever is to serve the thread. |
| `Interleaving.EveryStackRefines` | include/postline/service.h:53-141 | The same for any number of threads at once, each served by a team of its own, in whatever order they take turns. |
| `Interleaving.ActIsElsewhere` | src/program.cpp:395-407 | An act on one thread passes its CHECKs and leaves the coupling of every other thread alone. |
| `Interleaving.EmptyHallIsCoupled` | include/postline/program.h:249-271 | Such a run may start with nobody serving yet. |
| `Service.AnsweringLeavesStack` | include/postline/service.h:55-141 | A service that answers at once is left with the stack it had, and answers the same whatever is on it. |
| `Service.ResponsesAreStamped` | include/postline/service.h:107-135 | Everything sent goes out under the service's own address on the thread of the call; only the last message has a recipient, and it is a reply to the caller or a response to the call. |
| `Service.ReplyIsTakenExactly` | include/postline/service.h:60-81 | A reply is taken if and only if a call is waiting and the reply comes from whom was called or on behalf of them; any other message is a call and always taken. |
| `Service.AnswerRestoresStack` | include/postline/service.h:60-140 | A call made and its answer leave the stack as it was. |
| `Conversation.RoundIsOneByOne` | include/postline/service.h:92-140 | Emitting data and a routed response in one round equals emitting them one by one. |
| `Conversation.AnswersMatchExactly` | include/postline/service.h:64-70 | Whatever an address leads to, the callee bears that very name if and only if it is a plain name of an agent that is not cloned, or the name of the entry agent of the domain or snapshot addressed. |
| `Records.LoadAfterSave` | src/program.cpp:297-360 | Loading a saved context gives it back. |
| `Records.StoredExactly` | src/program.cpp:297-330 | What is stored is the number of the action, the positions of thread and endpoints, and a target for calls alone. |
| `Records.ReplayConcat` | include/postline/journal.h:73-90 | Replaying two journals in turn is replaying their concatenation. |
| `Mirror.CallCommutes` | src/program.cpp:608-648 | Applying a call and then a commit that stands apart from it equals the other order, on the whole state. |
| `Mirror.SnapshotCommutesExactly` | include/postline/program.h:157-166 | A snapshot commutes with a call if and only if neither caller nor callee is a member of the snapshotted domain. |
| `Mirror.HandlerCommutes` | src/observer.cpp:32-42 | The same for all commits made while one call is handled. |
| `Commands.RequestIssues` | src/runtime.cpp:93-191 | Every operation a request leads to passes its CHECKs when its turn comes and stands apart from the call being answered. |
| `Commands.BatchIssues` | src/runtime.cpp:103-126 | The checks made for a whole batch of agents up front stay good while its members join one by one. |
| `Requests.BatchIsAcceptedExactly` | src/runtime.cpp:54-117 | A batch is accepted if and only if every request names an agent by a plain address or gives a link to one, and bears a name new in the domain and the batch. |
| `Requests.BatchIsAsAsked` | src/runtime.cpp:52-128 | Every agent of an accepted batch is there under the name asked for, with the comment, service and flags given or else its source's, or empty ones; a copy starts with its source's history, another with what its link denotes. |
| `Requests.DomainIsAsAsked` | src/runtime.cpp:130-166 | A domain made on request is an empty child by the chosen name, on a thread of its own if and only if that was asked for; a taken name changes nothing. |
| `Requests.SnapshotIsAsAsked` | src/runtime.cpp:168-191 | A snapshot made on request is of the child named, under a name that is new; otherwise nothing changes. |
| `RuntimeState.Runtime.constructor` | include/postline/runtime.h:45-57 | A runtime started on a journal shows its replay, as do the observers. |
| `RuntimeState.Runtime.Syscall` | src/runtime.cpp:193-199 | A commit is journalled, applied and handed out, in that order. |
| `RuntimeState.Runtime.Preprocess` | src/program.cpp:386-559 | The branches decide exactly the specified context and issue exactly the specified commits; `Outcomes` tells them from headers and address. |
| `RuntimeState.Runtime.CmdCreateAgents` | src/runtime.cpp:93-128 | All or nothing: the batch is committed if and only if every request may join; `Requests.BatchIsAsAsked` tells what is then there. |
| `RuntimeState.Runtime.CmdCreateDomain` | src/runtime.cpp:130-166 | A fresh name makes a domain, and a thread where asked; a taken one changes nothing. |
| `RuntimeState.Runtime.CmdCreateSnapshot` | src/runtime.cpp:168-191 | A fresh name and an existing child make a snapshot; anything else changes nothing. |
| `RuntimeState.Runtime.Dispatch` | src/runtime.cpp:371-416 | Before and after every dispatched message both the journal and what the observers were handed, in its different order, replay to the live state, which is the specified one with the handler's commits. |
| `RuntimeState.Runtime.DispatchDeath` | src/runtime.cpp:355-416 | The same for the rewind of an agent whose process has died. |
| `RuntimeState.BothOrdersRebuild` | src/runtime.cpp:385-415 | The two orders of one message and its handler's commits rebuild the same program. |
| `Sessions.Session.constructor` | include/postline/runtime.h:45-57 | A main loop started on a journal accounts for every message in it. |
| `Sessions.StartIsAccounted` | include/postline/program.h:249-271 | An empty journal is one it may be started on. |
| `Sessions.TodosInOrder` | src/runtime.cpp:340-369 | What a round collects of one list of events and then another is what it collects of each, in order. |
| `Sessions.EventIsAnswered` | src/runtime.cpp:350-368 | Of one event: the adapter's messages in order, or one rewind for a death, or nothing for the user's. |
| `Sessions.Session.Collect` | src/runtime.cpp:340-369 | Each event yields its messages in order or one rewind made on the spot; the user's death only stops the loop. |
| `Sessions.Session.Welcome` | src/runtime.cpp:398-412 | An adapter just started is sent its agent's history before the record at hand, and every id in it reads a routed or data record of the journal. |
| `Sessions.Session.Take` | src/runtime.cpp:371-416 | One item leaves exactly the record, the recipient and the program its message or rewind asks for; an adapter not running is started and told its agent's history, others nothing; and live state, journal, observers, obligations, traces and memories agree again, one record further. |
| `Sessions.Session.Round` | src/runtime.cpp:336-417 | A whole round serves everything collected in order, each item from the program and the adapters the one before it left, with one record in the journal for each, and stops early only where a CHECK fails or the journal is full. |
| `Sessions.FirstRecordBringsHistory` | src/runtime.cpp:390-413 | In a round an adapter is told its agent's history exactly once, ahead of the first record for an agent that was not running, if it has the memory flag and its anchors can be read. |
| `Sessions.MessageKeepsAccounted` | src/runtime.cpp:371-416 | One message with its handler's commits keeps obligations, memories and traces in agreement with the log, whatever links the request holds. |
| `Sessions.RequestIsTimely` | src/runtime.cpp:60-70 | Links a request leaves to the runtime always point back. |
| `Sessions.AccountedWithAnchors` | src/runtime.cpp:336-417 | Where all anchors point back, what the loop keeps is exactly the invariant of runs. |
| `Sessions.RewindStays` | src/program.cpp:362-384 | A rewind made when a death was noticed is the one that would be made when its turn comes. |
| `Sessions.HistoryIsRecallable` | src/runtime.cpp:304-320 | Everything an agent remembers or inherits is in the journal under its unmarked id. |
| `Sessions.RestartIsAccounted` | include/postline/runtime.h:45-57 | The journal a session leaves restarts one with the same state and log. |
| `ObserverState.Observer.Consume` | src/observer.cpp:27-30 | A record handed over is queued behind the others. |
| `ObserverState.Observer.Process` | src/observer.cpp:32-42 | Afterwards the mirror and the cache are the replay of everything received. |
| `ObserverState.Observer.GetMessage` | src/observer.cpp:19-25 | Look-ups ignore the receiving bit. |
| `ObserverState.CacheFindsRecords` | src/observer.cpp:40-40 | Every record of a log with distinct ids is found under its id. |
| `ObserverState.MirrorEqualsLive` | src/observer.cpp:32-42 | A mirror that has processed all it was handed equals the live program and the replay of the journal. |
| `Snapshots.InstantiableExactly` | include/postline/program.h:354-359 | The template taken of a domain finds its entry if and only if both entry agents bear names of the domain's own members. |
| `Snapshots.TakenNameBlocksInstance` | include/postline/program.h:338-351 | In any program a domain of the next instance's name may be created first, and then calling any snapshot from there fails a CHECK. |
| `Snapshots.PlainSnapshotCannotBeCalled` | include/postline/program.h:344-360 | A snapshot of a domain just created resolves, and its instantiation fails a CHECK. |
| `Witnesses.SnapshotNameCanBeTaken` | include/postline/program.h:338-351 | A run after which a snapshot can be called, and one commit later cannot. |
| `Witnesses.DeathCanLeaveFlagWrong` | src/program.cpp:641-646 | A run at whose end a death hands the turn to an agent while the thread is not marked pending. |
| `Witnesses.DetachedChildCanBeCalled` | src/program.cpp:522-531 | A run at whose end the turn on one thread belongs to a domain of another. |
| `Witnesses.UserRecordBlocks` | src/program.cpp:430-446 | From the start, a data message of the user leaves the gate up with nothing queued or owed. |
| `Witnesses.CloneAnswerIsRefused` | include/postline/service.h:64-70 | A run in which the runtime accepts a clone's answer and the caller's service refuses it. |
| `Witnesses.AnchorAheadLeaks` | src/runtime.cpp:103-126 | A request with an anchor ahead is accepted, and the agent made inherits a message that comes later. |
| `AccessIds.SplitAfterMake` | src/common.cpp:131-149 | Segment and offset come back out of an id, marked or not. |
| `AccessIds.MakeAfterSplit` | src/common.cpp:131-149 | Every issued id is made of its own segment and offset. |
| `AccessIds.LayoutIsFixed` | src/common.cpp:131-158 | Forty bits of offset, sixteen of segment, and the mark in the sign bit. |
| `AccessIds.OrderIsLexicographic` | src/common.cpp:131-138 | Ids are ordered by segment, then offset. |
| `AccessIds.ReceivingLaws` | src/common.cpp:151-162 | Marking is undone by unmarking, is injective, and never yields an issued id. |
| `AccessIds.MarkIsReversibleExactly` | src/common.cpp:151-158 | Among non-negative ids only the largest cannot be unmarked. |
| `Decimals.ParseAfterPrint` | src/common.cpp:41-53 | Every 64-bit id is parsed back from its decimal form. |
| `Decimals.ParseExactly` | src/common.cpp:41-53 | Text is read as a number if and only if it is digits, with a minus sign or without, that fit 64 bits; all other text is read as -1. |
| `Framing.ReadBack` | src/common.cpp:173-242 | A framed record reads back wherever it stands in a file. |
| `Framing.FrameIsLaidOut` | src/common.cpp:173-190 | A record is the four letters, the sizes of header text and body and their checksum as little-endian words, and the two themselves. |
| `Framing.ReadExactly` | src/common.cpp:214-242 | A record is read if and only if one stands there: magic number, sizes within bounds, checksum, a header that parses, and the whole of its text and body. |
| `Framing.ReadIsStable` | src/common.cpp:214-242 | What has been read does not depend on what is appended later. |
| `Journals.Journal.constructor` | include/postline/journal.h:51-102 | Opening creates the segment if asked and replays exactly the list of the chain it resumes. |
| `Journals.Journal.DiscoverChain` | include/postline/journal.h:32-48 | The roots are followed to the oldest segment, and no path is seen twice. |
| `Journals.Journal.Append` | include/postline/journal.h:111-117 | The record is stamped with a new largest id and ends the list; a read-only journal changes nothing and answers -1. |
| `Journals.StampMovesIdOnly` | include/postline/journal.h:111-117 | A message is journalled as it is but for its id, and only the last stamp counts. |
| `Journals.Journal.Read` | include/postline/journal.h:119-126 | Every id of the list, marked or not, reads its own record. |
| `Journals.CreatedKeepsList` | include/postline/journal.h:21-48 | A new segment replays the list of the chain it resumes. |
| `Journals.AppendedExtendsList` | include/postline/journal.h:73-117 | An append extends what is replayed by one record under the id of its place. |
| `Journals.ListIsIndexed` | include/postline/journal.h:119-126 | The replayed list is strictly ordered by id and agrees with random access. |
| `Journals.IdsOutliveGrowth` | include/postline/journal.h:73-126 | However files grow and chains branch, a chain keeps its segments and every id its record. |
| `Journals.RunsKeepList` | include/postline/journal.h:51-117 | After any appends over any restarts, replay yields what was there followed by all appended records in order, each stamped with its id. |
| `Journals.JournalIsAList` | include/postline/journal.h:51-126 | From nothing, a run ends with an ordered index of all it appended, and what was readable half-way stays readable under the same ids. |
| `Trees.UndoInvertsApply` | python/shell/apply_patch.py:116-227 | Each of the five actions, once it has succeeded, is undone exactly. |
| `Trees.RollbackAtEveryPrefix` | python/shell/apply_patch.py:503-537 | After the first k actions, rolling back what is on record restores the original tree. |
| `Trees.RedoInvertsUndo` | python/shell/apply_patch.py:116-227 | Undoing an action succeeds only where doing it again gives back the tree it was undone on, so nothing else is taken back. |
| `Trees.TakenBackExactly` | python/shell/apply_patch.py:523-537 | A run of actions can be taken back from a tree if and only if the tree is what they leave of some tree, and that is the tree it is taken back to. |
| `Rollbacks.PlannedRunIsUndone` | python/shell/apply_patch.py:423-537 | Whatever patch was planned on one tree and is carried out on any other, wherever the run stops, rolling back what is on record restores the tree it was carried out on. |
| `Rollbacks.PatchIsTakenBack` | python/shell/apply_patch.py:231-355 | The same from the lines of a patch: the actions of a parsed and planned patch load from the record as they were written. |
| `Rollbacks.LoadedExactly` | python/shell/apply_patch.py:241-261 | Only actions on safe paths are loaded from a record, and they are loaded as written if and only if all its paths are safe and normal. |
| `Planning.PlannedActionsSucceedExactly` | python/shell/apply_patch.py:439-485 | On the tree it was planned on a patch goes through if and only if no destination clashes with the plan so far, and then leaves the original overlaid with the planned files and directories. |
| `Planning.UnnestedPatchGoesThrough` | python/shell/apply_patch.py:481-485 | A planned patch none of whose paths lies above another always goes through. |
| `Planning.NestedPathsCanFail` | python/shell/apply_patch.py:423-447 | Adding a/b and then a is planned and fails. |
| `Planning.NestedPathsCanSucceed` | python/shell/apply_patch.py:411-454 | Adding a, deleting it and adding a/b goes through. |
| `Meanings.StepReads` | python/shell/apply_patch.py:439-478 | Planned over, an added path reads as its lines joined, a removed path and a moved source as absent, an updated path or a destination as the old content with the hunks applied, and every other path as before. |
| `Meanings.StepIsAcceptedExactly` | python/shell/apply_patch.py:401-471 | An operation is planned if and only if what it reads is there, where it writes nothing is, its hunks apply, and no original file stands where its directories go. |
| `Meanings.PlanDoes` | python/shell/apply_patch.py:481-485 | A whole plan stands for what its operations do to the files one after the other. |
| `Meanings.PatchDoesWhatItSays` | python/shell/apply_patch.py:439-520 | A patch whose actions go through leaves exactly the files its operations ask for, and the old directories with those on the way to the files it adds or moves. |
| `Patching.Planner.EnsureParentDirs` | python/shell/apply_patch.py:423-437 | The loop asks for exactly the ancestors that neither the tree nor the plan has, outermost first. |
| `Patching.Planner.PlanOp` | python/shell/apply_patch.py:439-478 | One operation updates overlay, directories and actions as specified, and is refused exactly when specified; `Meanings.StepReads` tells what that does. |
| `Patching.PlanActions` | python/shell/apply_patch.py:481-485 | The planned actions are those of the specification. |
| `Patching.Workspace.ApplyActions` | python/shell/apply_patch.py:503-520 | Wherever the run stops, the record counts exactly the actions done and the tree is what they left. |
| `Patching.Workspace.Rollback` | python/shell/apply_patch.py:523-537 | A record of another version, with an unsafe path or a count out of range is refused and changes nothing; otherwise what is on record is taken back, last action first, and if that stops, the record says how many actions are left and the next of them is the one that failed. |
| `Patching.RestoredExactly` | python/shell/apply_patch.py:523-537 | A tree is restored if and only if the version is known, the record loads, its count is in range and that many of its actions lead to the tree from another, which is the one restored. |
| `Patching.RecordRestores` | python/shell/apply_patch.py:503-537 | The record that applying a parsed and planned patch leaves always rolls back to the tree it found. |
| `Hunks.JoinAfterSplit` | python/shell/apply_patch.py:358-391 | Splitting into lines and joining gives the content back. |
| `Hunks.SplitAfterJoinExactly` | python/shell/apply_patch.py:358-391 | Joined lines split into the same lines if and only if each is one line, marked at its end unless it is the last, and no carriage return meets a line feed. |
| `Hunks.FindUnique` | python/shell/apply_patch.py:362-373 | The scan finds the position of the only match, or reports none or several. |
| `Hunks.ApplyHunks` | python/shell/apply_patch.py:376-391 | The hunks are applied one after the other as specified. |
| `Hunks.HunkReplacesTheOnlyBlock` | python/shell/apply_patch.py:376-391 | A hunk applies if and only if its old block occurs exactly once, and replaces that block. |
| `Hunks.ReversedHunkTakesBack` | python/shell/apply_patch.py:376-391 | The reversed hunk takes the change back if and only if the new block occurs exactly once. |
| `Hunks.ContextSurroundsChange` | python/shell/apply_patch.py:379-388 | Context belongs to both sides of a hunk, removed lines to the old one, added lines to the new one. |
| `Hunks.HunksInOrder` | python/shell/apply_patch.py:376-391 | Hunks apply one after the other, each to what those before it left; none change nothing. |
| `Hunks.AddingNeedsEmptyFile` | python/shell/apply_patch.py:362-366 | A hunk that only adds applies if and only if the file is empty. |
| `Hunks.UpdateReplacesTheOnlyBlock` | python/shell/apply_patch.py:376-391 | From bytes to bytes, one hunk replaces the only block like its old side, or the update is refused. |
| `PatchParser.ParsePatch` | python/shell/apply_patch.py:264-355 | The nested loops accept exactly the patches of a line-by-line grammar and yield its operations. |
| `PatchParser.CommentsAreIgnored` | python/shell/apply_patch.py:30-31 | Comment lines make no difference wherever they stand. |
| `PatchParser.PatchReadsBack` | python/shell/apply_patch.py:264-355 | A printed patch parses to the operations it was printed from, whatever its payload lines hold. |
| `PatchParser.PatchFileReadsBack` | python/shell/apply_patch.py:264-266 | The same through the bytes of a patch file whose lines stay separate in that sense, lines ended by a carriage return alone included. |
| `PatchGrammar.ParsedExactly` | python/shell/apply_patch.py:264-355 | Lines are accepted if and only if, comments aside, they spell operations out between the two sentinels with nothing after; these are then the operations read. |
| `PatchGrammar.LineEndsAreStripped` | python/shell/apply_patch.py:22-27 | A line feed, with a carriage return before it or without, is no part of a marker. |
| `PatchGrammar.HashLineIsSkipped` | python/shell/apply_patch.py:30-31 | A line that begins with `#` may stand anywhere and changes nothing. |
| `Utf8.IsValidUtf8` | src/shell/obsolete/apply_patch.cpp:114-158 | The scanner accepts exactly the concatenations of the encodings of section 3 of RFC 3629. |
| `Utf8.ValidExactly` | src/shell/obsolete/apply_patch.cpp:114-158 | A valid string is the encoding of exactly one sequence of characters. |
| `SafePaths.Normalize` | src/shell/obsolete/apply_patch.cpp:160-198 | The loops compute the specified normal form or reject the path. |
| `SafePaths.ResultIsNormal` | src/shell/obsolete/apply_patch.cpp:160-198 | What comes out is valid UTF-8, relative, and free of empty, dot and dot-dot components, backslashes and NUL. |
| `SafePaths.LeadingDotSlashIsDropped` | src/shell/obsolete/apply_patch.cpp:165-191 | A leading dot and slash make no difference, and whatever starts with a slash after them is rejected. |
| `SafePaths.SafePathIsANormalForm` | src/shell/obsolete/apply_patch.cpp:160-198 | The fixed points are exactly the normal paths, and normalising twice is normalising once. |
| `SafePaths.SafePathExactly` | src/shell/obsolete/apply_patch.cpp:160-198 | A path is accepted if and only if it is UTF-8 without NUL and without dot-dot, and past any leading dots begins with a good component; its components are then the good ones in order. |
| `RollbackCodec.Buffer.WriteRecord` | src/shell/obsolete/apply_patch.cpp:886-905 | The buffer ends up holding the specified bytes. |
| `RollbackCodec.Reader.ReadU64` | src/shell/obsolete/apply_patch.cpp:827-837 | Eight bytes are read low byte first, or the record is truncated. |
| `RollbackCodec.Reader.ReadRecord` | src/shell/obsolete/apply_patch.cpp:907-943 | The loops read exactly what the specification reads, or reject the record. |
| `RollbackCodec.DeserializeAfterSerialize` | src/shell/obsolete/apply_patch.cpp:886-943 | Reading a written record normalises its paths, and fails when one is unsafe or the count too large. |
| `RollbackCodec.RoundTripExactly` | src/shell/obsolete/apply_patch.cpp:886-943 | A record survives if and only if its paths are normal and its count is in range. |
| `RollbackCodec.FileIsReadExactly` | src/shell/obsolete/apply_patch.cpp:827-943 | Bytes are read if and only if they are what some record is written as, with safe paths and its count in range; what is read is that record with its paths normalised, and no bytes are left over. |
| `RollbackCodec.FormatIsFixed` | src/shell/obsolete/apply_patch.cpp:886-905 | A file begins with its name and version, and an action with the number of its kind. |
| `ByteStrings.GetAfterPut` | src/shell/obsolete/apply_patch.cpp:820-837 | A number that fits its width is read back. |
| `ByteStrings.PutAfterGet` | src/shell/obsolete/apply_patch.cpp:820-837 | Bytes are those of the number read from them. |
| `Headers.ReadHeaders` | src/parser.cpp:108-158 | The loop yields the specified fields and leaves the specified body. |
| `Headers.ParsedFieldsArePlain` | src/parser.cpp:130-157 | Parsed names and values are trimmed and free of newlines, names also of colons. |
| `Headers.HeadersReadBackExactly` | src/parser.cpp:108-158 | Printed fields and the body behind them come back if and only if every field is plain in that sense. |
| `Headers.AnyLineIsRead` | src/parser.cpp:112-157 | However its blanks are set, a line with a colon gives its name and value, also as the last one without an end. |
| `Headers.OtherLinesEnd` | src/parser.cpp:117-146 | A blank line ends the headers, and any other line without a colon is an error. |
| `Headers.TextInFrontExactly` | src/parser.cpp:329-361 | With some text printed in front of them, plain fields and the body come back if and only if the text is blank. |
| `Lists.ParseList` | src/parser.cpp:53-83 | The loop yields exactly the trimmed pieces between commas, empty ones left out, in lower case where asked. |
| `Lists.ListReadsBackExactly` | src/parser.cpp:310-322 | A printed list is read back if and only if its items are trimmed, not empty and free of commas. |
| `Lists.CasedExactly` | src/parser.cpp:38-50 | In lower case no capital is left and everything else is as it was. |
| `Lists.AnyItemIsRead` | src/parser.cpp:53-83 | However its blanks are set, the text up to a comma or the end gives one trimmed item, or none if it is blank. |
| `Lists.CasedItems` | src/parser.cpp:64-81 | Where asked, every item is in lower case, and nothing else changes. |
| `Multipart.WriteHeaders` | src/parser.cpp:329-361 | The loops print the thinking text and then the canonical fields in order and the others. |
| `Multipart.PrintedExactly` | src/parser.cpp:329-361 | In full form a field is printed if and only if it is a member of the header that is neither hidden nor null. |
| `PrintedForm.FullFormExactly` | src/parser.cpp:329-361 | All members come out but the four kept back and those without a value. |
| `PrintedForm.CompactFormExactly` | src/parser.cpp:342-352 | In compact form only From, To, Cc and Subject come out. |
| `PrintedForm.PrintedInOrder` | src/parser.cpp:342-361 | The six named fields come first in their own order, the others after them in the order of the header. |
| `PrintedForm.ItemsAreJoined` | src/parser.cpp:310-327 | Lists are joined by a comma and a space. |
| `PrintedForm.ThinkingGoesFirst` | src/parser.cpp:335-341 | A thinking text goes out in front of everything as it is, and nothing does without one. |
| `Multipart.ImportMultipartBody` | src/parser.cpp:453-467 | The body written is a boundary line before every part and one at the end. |
| `Multipart.SplitBody` | src/parser.cpp:434-448 | The loop yields the specified pieces between boundary lines. |
| `Multipart.SplitInvertsImportExactly` | src/parser.cpp:431-467 | Splitting gives back exactly the written parts, whatever bodies end in, if and only if no part's header lines contain a boundary line. |
| `Multipart.BoundaryEndsALine` | src/parser.cpp:459-461 | Among plain fields that happens if and only if a printed line ends in the dashed delimiter. |
| `Multipart.PartsReadBackExactly` | src/parser.cpp:364-467 | Whatever parts may be written, as many come back, field by field with their bodies intact, if and only if each has plain fields, no line ending in the dashed delimiter, and no thinking text but blanks. |
| `Multipart.SubjectCanBreakSplitting` | src/parser.cpp:453-467 | A part whose subject is the dashed delimiter passes all checks and is split wrongly. |
| `Multipart.ThinkingSpoilsHeaders` | src/parser.cpp:335-341 | A thinking text joins the name of the first field, and alone makes the part unreadable. |

## Left out

- Domains, agents and threads are rows of tables held in fields of one object, not heap objects of their own, so aliasing between pointers is not modelled.
- Members of a domain are kept in the order they joined; the original's hash map has no fixed order.
- Processes, pipes, sockets, polling, creating drivers, the `dead` flag and the early return for an agent without a service.
- `ProgramState.Program.Commit`: leaves out `begin_shutdown` and `end_shutdown`, which belong to the shutdown drain, as does the drain itself.
- `ProgramState.Program.Apply`: leaves out the branch for old records without a context.
- `RuntimeState.Runtime.Dispatch`: the runtime agent's handler answers calls only; a rewind or reply delivered to it commits nothing here.
- `Sessions.Session.Welcome`: the memory is sent after the record has been handed to the observers, in the original just before; neither sees the other.
- `Sessions.Session.Round`: the poller's events are given; starting a process cannot fail.
- The `Postline-Cloned-To`, `Original-From` and `Is-Receiving` headers beyond what routing and recall need, and the informational fields of a stored context.
- Messages whose type is the reserved commit type but which come from an adapter.
- Thread names, dumps, accounting of costs, and locks and condition variables: each locked section is one step.
- Command-line and JSON parsing of requests to the runtime; a request arrives as a value.
- `Conversation.LocalStacksRefineGlobal`: is about a thread whose services use plain names of their own team, set no reply headers, serve no other thread and do not die, because the original breaks the correspondence otherwise; only the runtime agent, which answers at once, may serve several.
- `Interleaving.EveryStackRefines`: likewise, for teams that share nobody but the user and the runtime agent.
- `Service.LinearService.OnMessage`: leaves out the CHECK that a handler's data record carries no stored context, a header messages do not have here.
- `Gating.GatesStayExact`: is about agents that speak only when a message was delivered to them and do not die, and users that send routed messages.
- `RuntimeState.Runtime.Append`: numbers records by offset in one open segment; chains of segments are in `Journals`.
- Existing files of a chain whose last record is cut short: opening them aborts in the original, and is a precondition here.
- File modes, fsync, temporary files, symbolic links, pickling, and the directory that holds rollback files: a tree maps paths to contents or directories, and a write is one step.
- `Planning.PlannedActionsSucceedExactly`: is about a tree that nobody else changes between planning and applying; `Rollbacks.PlannedRunIsUndone` is about any.
- `Rollbacks.PlannedRunIsUndone`: is about a tree that nobody else changes between applying and rolling back.
- `PatchParser.PatchReadsBack`: excludes paths whose last byte is a carriage return, which merges with the line end.
- The full e-mail parser that looks for `From:` in model output, and the compact rendering of parts.
- Terminal and web front ends, adapters for models, search and forums.
