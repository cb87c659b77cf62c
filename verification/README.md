# AgentVerse, modelled and verified in Dafny

AgentVerse runs language-model agents: a loop asks a model for its next step, runs the
tools it calls, and stops for human approval where a policy demands it; sessions are
stored, cached, consolidated into long-term memory and cleaned up; requests go to
providers behind a circuit breaker. This project models the parts of it that are
protocols or program transformations, and proves what they promise over every input,
every run and every interleaving.

Run it with `dafny verify dfyconfig.toml`.

## How the files hang together

**Strict schemas** (`Json`, `StrictSchema`, `StrictRewriter`, `StrictShape`,
`StrictDocuments`, `StrictPlain`, `SchemaMeaning`, `SchemaExact`, `SchemaSound`,
`SchemaFamilies`). The rewriter turns the JSON Schema of a tool into a closed dialect in
which every property is required, or rejects it. `StrictSchema` is the rewrite as
functions, `StrictRewriter` the same rewrite with the loops and insertions of the source,
equal to the functions on every input. `StrictShape` and `StrictDocuments` say when it
fails, what it leaves at every node, and what it does not change; `StrictPlain` says so in
terms of the JSON alone. `SchemaMeaning` gives schemas their meaning (draft-07 of JSON
Schema Validation: sections 6.1.1, 6.4.1, 6.4.2, 6.5.3 to 6.5.6 and 6.7, with `$ref` and a
fuel for it). Regular expressions and the keywords that the rewriter does not know are
parameters of that meaning; a parameter sees which subschemas of its keywords, references
included, accept which values, so that `if` or `contains` are among them. `SchemaExact`
says precisely what a rewritten schema means, for every schema; `SchemaSound` when that is
a narrowing, and `SchemaFamilies`, for whole families of schemas, exactly when it is.

**The loop and approvals** (`Text`, `Messages`, `Hitl`, `Cycle`, `React`, `ReactTheorems`,
`ReactBuffers`, `AgentSteps`, `AgentObject`, `AgentTurns`, `AgentRuns`, `AgentApprovals`,
`AgentChains`, `OpenAi`, `AgentOnTheWire`). A `World` supplies the model's replies and the
results of tool batches; results may be dropped, reordered or repeated at will. `React` is
the loop, as a function of the world and as the loop of the source; `ReactBuffers` says
what each buffer tells the model and where a run ends. `AgentSteps` is a session's life
around it, invocation with its cached history, suspension for approval, resumption, phase
changes and reloads of the skills, as functions over the whole state, and `AgentObject` a
class whose methods equal them; `AgentTurns` says what one invocation or resumption shows
the model and leaves behind. `AgentRuns` proves safety over every history of commands on
any number of sessions, and `AgentApprovals` what becomes of an approval command by
command; `AgentChains` follows an invocation through its suspensions to the answer that
ends it. `OpenAi` is the translation to the wire and back, and `AgentOnTheWire` puts the
two together. Resuming looks only at the stored state of the session, so the approval
queue is no part of these theorems; the read, check and clear of that state count as one
step, and approval ids are fresh.

**Durable transcript, workers and cache** (`Consolidation`, `SessionStore`,
`WorkingMemory`, `CacheFront`, `CachedSession`). One session is a state machine over rows,
watermark and log; appends, worker steps, crashes and cleanups come in any order.
`SessionStore` is the table for all sessions, with the SQL statements as operations on it,
and the two workers; an operation on one session moves that session's state machine by the
matching step and no other, and a tick of either worker says what it does to each.
`WorkingMemory` is the cache, `CacheFront` the way an invocation uses it, `CachedSession`
the state machine of one session behind it.

**Requests to providers** (`CircuitBreaking`, `Backoff`, `Connections`,
`ConnectionTheorems`, `Fallbacks`, `ConnectionPool`). Every wait of a request is a moment
at which time passes and other requests touch the shared breakers.

**Small cores**: `RateLimiting`, `Milestones`, `ExpandEnv`, `Routing`, `ToolSearch` and
`Registry`. `Wrappers` holds `Option` and the like, `Results` the `Result`.

## Where the code and its documentation differ

- README.md:261 of the repository says that unconsolidated messages are never lost.
  New sequence numbers are one more than the highest number that is left, so when a
  cleanup removes the newest row the next message gets a number at or below the
  watermark, is never consolidated, and the next cleanup may delete it.
  `Consolidation.RunThatLosesAMessage` is such a run. The guarantee is proved for all
  runs in which cleanup never removes a session's highest row;
  `Consolidation.CleanupKeepsNumberingExactly` says exactly which cleanups those are
  and `Consolidation.AppendIsProtectedExactly` exactly which appends stay protected.
- The comment at avs-core/src/model/connection_manager.rs:192-193 promises the
  fallback when the circuit is open or all retries are exhausted. The code also falls
  back at once on any other unsuccessful status
  (`Fallbacks.ServerErrorSkipsRetries`), and does not fall back on an unreadable body
  or an invalid response (`Fallbacks.UnreadableAnswerIsFinal`).
  `Fallbacks.FallbackConsultedExactly` says exactly when it does.
- A body that cannot be read is not recorded on the breaker at all;
  `ConnectionTheorems.GenerateIsBounded` counts those sends apart.
- The milestone scheduler reports the end of the last phase of each name; a phase
  whose name is used again later does not count (`Milestones.RepeatedNameHidesItsEnd`).
  `Milestones.ProjectEndsLastExactly` says exactly for which inputs a phase ends after
  the project does.
- Copying a registry with a name listed twice indexes that tool twice, so a search of
  the copy can find it twice (`Registry.CopyFindsAToolTwice`).
  `Registry.CopyIsDistinctExactly` and `Registry.FoundTwiceExactly` say exactly when.
- The rewriter overwrites `required`: a required name that `properties` does not list
  is lost (`SchemaSound.UnlistedRequiredNameIsLost`, `SchemaFamilies.UnlistedNameWidens`),
  and objects and lists nested to any depth are rewritten soundly exactly when every
  object node lists the names that it requires
  (`SchemaFamilies.SoundExactlyWhenEveryNodeListsItsNames`). It also rewrites below
  `oneOf`, and behind references below `not` or `if`, where narrowing a part can widen the
  whole (`SchemaFamilies.OverlappingBranchesWiden`,
  `SchemaFamilies.ReferenceBelowNotWidens`, `SchemaFamilies.ReferenceBelowIfWidens`).
- An approver is shown the first call of a batch that needs approval. Changed arguments
  go to the first call of the batch all the same, whichever was shown
  (`AgentApprovals.ModifiedRunsAnotherCall`); the shown call is among those that run
  exactly when the batch was approved or that call is first in it
  (`AgentApprovals.ModifiedRunsTheAskedCallExactly`).
- A plain approval runs the whole batch, with calls that need approval and that nobody was
  asked about, unless none comes after the shown one
  (`AgentApprovals.OnlyTheAskedCallRunsExactly`). One of them can be
  `request_checkpoint` (`AgentApprovals.ApprovalRunsACheckpointToo`), although
  wiki/hitl.md:154-157 says that its `execute` never runs. A batch that stops at a
  checkpoint is dropped with all its other calls
  (`AgentApprovals.CheckpointsDropTheirBatch`).
- avs-hitl/src/policy.rs:77-79 says that a skill's mandatory tools are called and
  approved before an invocation may finish, and avs-hitl/src/context.rs:13-16 that a
  resumed run may go without because that has happened by then. But a run is also
  suspended for other tools, and an approver may reject: an answer can come although no
  mandatory tool was ever called (`AgentChains.RunThatSkipsAMandatoryTool`). From the
  invocation to the answer, over any suspensions, the promise is kept exactly when one of
  them stopped a batch with a mandatory call, a checkpoint included, and was not rejected
  (`AgentChains.AnswersFollowMandatoryCallsExactly`).
- An invocation or a phase change of a suspended session may raise another approval and
  overwrite the first one, which can then no longer be decided
  (`AgentApprovals.ApprovalIsLost`). An invocation does so exactly when, within its
  iterations, the replies come to a call that needs approval before anything else ends the
  run (`AgentApprovals.InvocationEndsExactly`), and
  `AgentApprovals.ApprovalStaysPendingExactly` says for every command when an approval
  outlives it.

## Model

| member | source | states |
|---|---|---|
| StrictRewriter.ToStrictSchema | avs-tools/src/strict_schema.rs:67-79 | the in-place rewrite with its loops over definitions, variants and keys gives, on every input, the result or the first error of the rewrite as a function |
| StrictRewriter.StrictifyNode | avs-tools/src/strict_schema.rs:82-149 | one node and all below it, error order included |
| StrictRewriter.EnsureNullableOrReject | avs-tools/src/strict_schema.rs:152-188 | a concrete type or a null variant stays, a bare reference is refused, an untyped schema becomes explicitly nullable |
| StrictDocuments.ToStrictFailsExactlyOnDefects | avs-tools/src/strict_schema.rs:82-188 | an error if and only if some reached node is an open dictionary or an ambiguous optional reference; the reported place holds that very defect |
| StrictPlain.OpenDictionariesAreRefused | avs-tools/src/strict_schema.rs:87-94 | an open dictionary is reported if and only if `additionalProperties` of the reported node is an object or true, and no node of an accepted schema has either |
| StrictPlain.AmbiguousReferencesAreRefused | avs-tools/src/strict_schema.rs:152-179 | an ambiguous reference is reported only at a property that is not required and has `$ref` or `allOf`, no type and no branch that says null; no accepted schema has such a property |
| StrictPlain.OpenMapIsRefused | avs-tools/src/strict_schema.rs:87-94 | an object that is open to any property is refused at the root |
| StrictDocuments.ToStrictCloses | avs-tools/src/strict_schema.rs:82-150 | output and input have the same nodes; each object node of the output is closed and requires exactly its properties, and everything else in it is kept |
| StrictPlain.ObjectNodesAreClosed | avs-tools/src/strict_schema.rs:108-149 | every object node of an accepted schema, by its type or its properties, keeps its property names, forbids all others and requires them all, once each and sorted |
| StrictPlain.TypesAreAddedExactly | avs-tools/src/strict_schema.rs:152-187 | a property that is not required, has no type and does not say null gets the list of all six types; every other node keeps its type |
| StrictDocuments.ToStrictFixesExactlyStrictDocuments | avs-tools/src/strict_schema.rs:108-149 | the documents returned unchanged are exactly those that are strict already |
| StrictDocuments.ToStrictIsIdempotent | avs-tools/src/strict_schema.rs:67-79 | a second pass returns the same schema |
| SchemaMeaning.NullableMeansTheSame | avs-tools/src/strict_schema.rs:180-187 | making an untyped schema explicitly nullable does not change which values it accepts |
| SchemaExact.ToStrictIsExact | avs-tools/src/strict_schema.rs:67-188 | for every schema, value and vocabulary of further keywords: the output accepts the value exactly when the input does with every reached object closed and all its properties required |
| SchemaSound.ToStrictIsSound | avs-tools/src/strict_schema.rs:67-188 | with every required name listed, disjoint `oneOf` branches, and no reference below a `not` or below a keyword that the rewriter does not know, whatever the output accepts the input accepts |
| SchemaSound.SoundExactlyWhenRequiredNamesAreListed | avs-tools/src/strict_schema.rs:121-149 | for a schema whose root is an object node and whose rewrite accepts some object, the other hypotheses given: the rewrite is sound if and only if every name that the root requires is listed |
| SchemaFamilies.SoundExactlyWhenEveryNodeListsItsNames | avs-tools/src/strict_schema.rs:121-149 | for objects and lists nested to any depth, open or closed, typed or not, and without a further hypothesis: the rewrite is sound if and only if every object node lists each name that it requires |
| SchemaFamilies.ObjectSoundExactlyWhenListed | avs-tools/src/strict_schema.rs:140-147 | for a single object schema: if and only if the required names are among the listed ones |
| SchemaFamilies.UnlistedNameWidens | avs-tools/src/strict_schema.rs:140-147 | a schema that lists one name and requires another, and an object that only its rewrite accepts |
| SchemaSound.UnlistedRequiredNameIsLost | avs-tools/src/strict_schema.rs:140-147 | no object passes both the output and an input that requires a name it does not list |
| SchemaFamilies.OverlappingBranchesWiden | avs-tools/src/strict_schema.rs:96-102 | for a `oneOf` over two open object schemas, the rewrite is sound if and only if they list the same names |
| SchemaFamilies.ReferenceBelowNotWidens | avs-tools/src/strict_schema.rs:68-77 | for a reference below `not` to an object schema, the rewrite is sound if and only if that schema is strict already |
| SchemaFamilies.ReferenceBelowIfWidens | avs-tools/src/strict_schema.rs:68-77 | the same for a reference below `if`, where the vocabulary applies `if`, `then` and `else` |
| Hitl.FromSystemSkills | avs-hitl/src/policy.rs:36-58 | the policy gates exactly the tools and phases that the trusted skills declare, and gives each id the checkpoints of the last skill that declares any for it |
| Hitl.RequiredToolsAreIntercepted | avs-hitl/src/context.rs:57-100 | every mandatory tool of a fresh run is one that the hook stops |
| Hitl.DeclaredToolsAreRequired | avs-hitl/src/policy.rs:81-98 | a tool is mandatory for a skill exactly when the skill declares it, or declares checkpoints and it is the checkpoint tool |
| Hitl.InterceptsExactly | avs-hitl/src/policy.rs:20-76 | a run stops at the checkpoint tool, at the four tools that are always dangerous and at what its own skill gates, and at nothing else |
| Hitl.NothingIsRequired | avs-hitl/src/context.rs:95-100 | a resumed run, or one without a skill, has to call no tool |
| Hitl.PhaseGatesExactly | avs-hitl/src/policy.rs:47-72 | a phase waits for approval if and only if some skill of its id declares it |
| Cycle.ActionFromResponse | avs-react/src/cycle.rs:46-79 | tool calls in order win over text; blank text does not count; neither is an error |
| Text.WhitespaceCodePoints | avs-react/src/cycle.rs:60 | a character is blank if and only if it is one of the 25 code points that Unicode lists as whitespace |
| Cycle.ReconcileAndOrderResults | avs-react/src/cycle.rs:88-106 | one result per call in call order, a lost one replaced by an error |
| Cycle.ReconciledAnswersEachCall | avs-react/src/cycle.rs:88-106 | under any reordering and loss, a call is answered by its own result if that came back and by the error otherwise |
| Cycle.ToolExchangeWellPaired | avs-react/src/cycle.rs:110-125 | an assistant turn with calls and the tool message built for it are well paired, whatever execution returned |
| Cycle.PrepareBuffer | avs-react/src/cycle.rs:150-177 | the preamble goes before the first message that is not a system message, if there is a preamble |
| Cycle.PreparedWellPaired | avs-react/src/cycle.rs:162-174 | the preamble never separates a tool turn from its answer |
| Cycle.PreparedKeepsMessages | avs-react/src/cycle.rs:162-174 | taking the preamble out again gives the messages back |
| React.ExecuteManyHitl | avs-tools/src/registry.rs:190-211 | the position of the first call that needs approval, or the results of the whole batch |
| React.RunHitl | avs-react/src/react.rs:128-241 | the loop of the source, event for event, is the run function that the theorems are about; what that function shows the model and answers is stated apart by the rows that follow |
| ReactBuffers.EveryOutcomeIsShown | avs-react/src/react.rs:157-231 | each buffer of a run is the one before it and what happened in between: the reply and, for each of its calls, the id with the value it returned or the error it failed with, marked as such, or the error for a lost result; or a text that came too early and the reminder |
| ReactBuffers.RunsStartWithTheirMessages | avs-react/src/react.rs:134-155 | the first buffer is the messages of the run with the preamble before the first that is no system message, and there is one unless no iteration is left or a tool schema is refused |
| ReactBuffers.RunEndsOnItsLastBuffer | avs-react/src/react.rs:163-234 | an interrupt keeps the last buffer that was sent; an answer is every text of the last reply that says something, in order, one to a line |
| ReactTheorems.RunFromKeepsPairing | avs-react/src/react.rs:137-241 | from a well-paired start, every buffer sent to the model and the snapshot of an interrupt are well paired |
| ReactTheorems.RunExecutesOnlyFreeBatches | avs-tools/src/registry.rs:190-211 | a run executes only batches without any call that needs approval; an interrupt holds the stopped batch whole and the position of its first call that needs approval |
| ReactTheorems.RunLength | avs-react/src/react.rs:143-150 | at most as many model calls as iterations are left |
| ReactTheorems.RunWithoutMandatoryCallNeverFinishes | avs-react/src/react.rs:157-234 | while no mandatory tool was called, no reply ends the run with an answer |
| ReactTheorems.FreshRunWithMandatoryToolsNeverFinishes | avs-react/src/react.rs:137-241 | a fresh run with mandatory tools is interrupted or fails within the iteration limit; it never answers |
| ReactTheorems.RunEndsExactly | avs-react/src/react.rs:143-234 | a run is interrupted, or answers, if and only if it comes to a reply that stops it for approval, or answers, within the iterations and after replies that only let it go on: free batches, or texts while a mandatory tool is due |
| AgentObject.Agent.LookUp | avs-agent/src/agent/invoke.rs:202-224 | the history of an invocation: nothing in the first one of a phase, whose opening is used up and whose cached history is evicted; else the cached one while it is warm, or the stored one, which is cached |
| AgentObject.Agent.Invoke | avs-agent/src/agent/invoke.rs:190-388 | the new state of all sessions, of the cache, of approval counter and event log, and the output of an invocation: history looked up, skill routed or refused, run, finished turn stored and then cached |
| AgentTurns.InvocationsAskTheInput | avs-agent/src/agent/invoke.rs:202-342 | the first buffer of an accepted invocation, preamble aside, is the system text, then nothing in a new phase, the cached history while it is warm or the stored transcript, then one user message with the input, after the opening of the phase if there is one; the run is hooked for the skill that the session is left bound to |
| AgentTurns.InvocationsStoreTheTurn | avs-agent/src/agent/invoke.rs:344-371 | answered, an invocation returns what the last reply says, and extends transcript and cache by that input and that answer; suspended, it keeps the last buffer, the calls of the last reply and the tools on offer; otherwise the transcript stays; at most `maxIterations` replies are used |
| AgentObject.Agent.Resume | avs-agent/src/agent/resume.rs:68-159 | the same for a resumption: wrong owner, missing state, wrong approval id, unreadable columns, phase gate with the summary it leaves, tool batch |
| AgentObject.Agent.ResumeToolCalls | avs-agent/src/agent/resume.rs:220-354 | the calls a decision lets through are executed directly, and the observation continues the stored history |
| AgentTurns.ResumptionsTellTheDecision | avs-agent/src/agent/resume.rs:258-341 | after the decision is logged, exactly the calls it lets through run; the next buffer, preamble aside, is the stored history and one user message: the approval or the rejection with its reason at a checkpoint, else for each refused call its name and the reason, or for each result the name and the value or error |
| AgentTurns.CheckpointDecisionsAreTold | avs-agent/src/agent/resume.rs:260-308 | approving and rejecting one checkpoint are told in different words, and a rejection gives its reason |
| AgentTurns.ResumptionsAreSettled | avs-agent/src/agent/resume.rs:343-353 | a resumed run returns what its last reply says, or waits again with the skill and the tools of the first suspension |
| AgentTurns.GateDecisionsAreApplied | avs-agent/src/agent/resume.rs:123-159 | rejecting a phase change keeps skill and opening; any other decision binds the next skill and leaves the summary, or is refused if the skill is not there |
| AgentObject.Agent.HandleToolInterrupt | avs-agent/src/agent/resume.rs:8-66 | what is persisted for an interrupt, and the status change |
| AgentObject.Agent.AdvancePhase | avs-agent/src/agent/routing.rs:81-180 | a parsed transition binds the next skill and leaves its summary for the next invocation, or waits at a gated skill |
| AgentObject.Agent.ReloadSkills | avs-agent/src/agent/routing.rs:182-210 | what is found replaces the loaded skills, and nothing else changes; an unconfigured agent or an unreadable directory is refused |
| AgentRuns.HistorySafe | avs-agent/src/agent/resume.rs:8-354 | the invariant of every history: log, counters, transcripts and stored interrupts fit together |
| AgentRuns.EveryBufferIsWellPaired | avs-react/src/react.rs:128-241 | across any chain of invocations and resumptions, every buffer sent and every persisted snapshot is well paired |
| AgentRuns.GatedCallsRunOnlyWhenApproved | avs-agent/src/agent/resume.rs:258-318 | a call that needs approval executes only after a suspension of its own batch and a resumption with that approval id that did not reject |
| AgentRuns.EachApprovalIsUsedAtMostOnce | avs-agent/src/agent/resume.rs:77-122 | no approval id is raised, resumed or executed twice |
| AgentRuns.StoppedBatchesNeverRunFreely | avs-tools/src/registry.rs:190-211 | no call of a stopped batch runs outside its resumption |
| AgentApprovals.ModifiedRunsTheAskedCallExactly | avs-agent/src/agent/resume.rs:258-308 | every approved execution goes back to a suspension that asked about the first call needing approval; what runs are the calls at the decided positions, with the decided arguments, and the asked call is among them if and only if the batch was approved or that call comes first |
| AgentApprovals.ModifiedRunsAnotherCall | avs-agent/src/agent/resume.rs:283-290 | with two calls of which only the second needs approval, the changed arguments run the first |
| AgentApprovals.OnlyTheAskedCallRunsExactly | avs-agent/src/agent/resume.rs:260-281 | a plain approval runs no other call that needs approval if and only if no later call of the batch needs it |
| AgentApprovals.ApprovalRunsACheckpointToo | avs-agent/src/agent/resume.rs:260-281 | with a call that needs approval before a checkpoint, approving the first executes both |
| AgentApprovals.CheckpointsDropTheirBatch | avs-agent/src/agent/resume.rs:33-41 | no call of a batch that stopped at a checkpoint ever runs, whatever is decided |
| AgentApprovals.ResumptionsCarryTheStoredSkill | avs-agent/src/agent/resume.rs:326-340 | in every reachable state, whatever was bound or reloaded since, a resumed run acts under the gates of the skill that its suspension was raised under |
| AgentApprovals.SkillsOutliveReloads | avs-agent/src/agent/routing.rs:180-182 | over any run, reloads included, a session stays bound to its skill and its invocations act under that skill's gates, until a phase change that applies or its deletion |
| AgentApprovals.InvocationEndsExactly | avs-agent/src/agent/invoke.rs:332-388 | an invocation raises an approval, or answers, if and only if the replies from its first one on come to that |
| AgentApprovals.ApprovalStaysPendingExactly | avs-agent/src/agent/resume.rs:54-57 | in every reachable state, a stored interrupt survives a command if and only if the command does not delete its session, decide it, change to a next phase at a gated skill, or invoke the session with replies that come to a stop |
| AgentApprovals.ApprovalIsLost | avs-agent/src/agent/resume.rs:54-96 | two invocations of a session, each stopped at a blocklisted call, after which the first approval is refused for every decision |
| AgentChains.InvocationsNeverSkipMandatoryTools | avs-agent/src/agent/invoke.rs:332-356 | an invocation bound to a skill with mandatory tools is never simply answered and leaves the transcript alone |
| AgentChains.ResumedRunRunsMandatoryExactly | avs-agent/src/agent/resume.rs:258-340 | a resumption executes a mandatory tool if and only if the decision lets one of the stopped batch run |
| AgentChains.RunThatSkipsAMandatoryTool | avs-hitl/src/policy.rs:77-80 | a chain that is suspended for another tool, rejected, resumed and answered: no mandatory tool was called and no tool has run |
| AgentChains.ApprovedCheckpointIsEnough | avs-hitl/src/policy.rs:77-97 | a chain that is suspended at a mandatory checkpoint, approved, resumed and answered: the promise is kept although no tool has run |
| AgentChains.AnswersFollowMandatoryCallsExactly | avs-hitl/src/policy.rs:77-97 | for an invocation, its resumptions and the answer that ends them, with any commands in between: a mandatory tool was called and not rejected if and only if some suspension stopped a batch with such a call, a checkpoint included, and its resumption did not reject |
| AgentChains.AnsweredChainsWereSuspended | avs-hitl/src/context.rs:95-100 | with mandatory tools, no answer comes without a suspension |
| AgentChains.ChainsRunMandatoryToolsExactly | avs-agent/src/agent/resume.rs:258-318 | over such a chain a mandatory tool executes if and only if some decision lets one run of the batch it is about, which a checkpoint never does |
| AgentApprovals.UnreadableInterruptsAreNeverResumed | avs-agent/src/agent/resume.rs:92-113 | a row left by an older release is refused in the same way at every try, changes nothing, and is never resumed |
| AgentApprovals.SummaryOpensTheNextInvocation | avs-agent/src/agent/invoke.rs:199-221 | the summary of a phase change opens exactly the next invocation, before its input and without older history |
| AgentOnTheWire.ParsedWorldsAreClean | avs-core/src/model/openai_compatible.rs:287-334 | replies that went through the parser meet the hypothesis of the pairing theorems |
| AgentOnTheWire.EveryRequestFollowsTheProtocol | avs-core/src/llm_runner.rs:56-88 | over any history, every request builds, and its wire list answers every tool call at once and in order |
| OpenAi.BuildTextMessage | avs-core/src/model/openai_compatible.rs:127-165 | joined text and the calls in order, or an error for a misplaced tool result |
| OpenAi.BuildMessages | avs-core/src/model/openai_compatible.rs:189-247 | the message part of a request fails exactly on a block that its role may not carry |
| OpenAi.ResultsOnTheWire | avs-core/src/model/openai_compatible.rs:214-241 | a tool message adds one chat message for each of its results, with its id and its text, marked if it is an error |
| OpenAi.TurnsOnTheWireSay | avs-core/src/model/openai_compatible.rs:127-168 | a user or assistant message adds one chat message with its role, its texts one to a line, and its calls with encoded arguments |
| OpenAi.RegroupFlatten | avs-core/src/model/openai_compatible.rs:200-247 | a wire list that follows the protocol has only one reading |
| OpenAi.WellPairedBuffersSurviveTheWire | avs-core/src/model/openai_compatible.rs:127-247 | a well-paired buffer always builds, follows the protocol, and regrouping the wire list gives back its turns |
| OpenAi.ConversationOnTheWire | avs-core/src/llm_runner.rs:62-82 | taking the system messages out does not change the rest of the wire list |
| OpenAi.ParseResponse | avs-core/src/model/openai_compatible.rs:287-334 | text first, then the calls in order with their arguments parsed; an empty reply is an error |
| OpenAi.ParsedRepliesAreClean | avs-core/src/model/openai_compatible.rs:287-334 | a parsed reply is never empty and never carries a tool result |
| OpenAi.RepliesRoundTrip | avs-core/src/model/openai_compatible.rs:127-334 | sending a parsed reply back and parsing it again changes nothing |
| Consolidation.RunKeeps | avs-memory/src/session/sqlite.rs:215-283 | the invariant over every interleaving of appends, worker steps, failures and cleanups that keep the highest row |
| Consolidation.CleanupRemovesOnlyLoggedMessages | avs-memory/src/session/sqlite_maintenance.rs:107-133 | whatever cutoff and stale watermark a cleanup is given, it removes only messages that are in long-term memory |
| Consolidation.CleanupRemovesExactly | avs-memory/src/session/sqlite_maintenance.rs:107-133 | a cleanup removes exactly the rows older than its cutoff and within both watermarks, and changes nothing else |
| Consolidation.NothingIsLost | avs-agent/src/workers.rs:76-108 | every message ever appended is still stored or in long-term memory |
| Consolidation.ConsolidationIsInOrderAtLeastOnce | avs-agent/src/workers.rs:99-106 | the log without adjacent repeats is the transcript up to the watermark plus at most one message, with at most one repeat per failure |
| Consolidation.WatermarkNeverDecreases | avs-memory/src/session/sqlite_maintenance.rs:26-45 | under any steps at all |
| Consolidation.RowsStayOrdered | avs-memory/src/session/sqlite.rs:233-254 | under any steps at all, rows in order of insertion are rows in order of number |
| Consolidation.AppendStoresExactly | avs-memory/src/session/sqlite.rs:215-261 | appended messages stand behind the others, in order, with the time and the next numbers |
| Consolidation.AppendIsProtectedExactly | avs-memory/src/session/sqlite.rs:233-236 | after an append every row at or below the watermark is logged if and only if the highest stored number had reached the watermark |
| Consolidation.CleanupKeepsNumberingExactly | avs-memory/src/session/sqlite_maintenance.rs:122-132 | a cleanup keeps the highest row if and only if that row has not expired; otherwise the next number is at or below the watermark |
| Consolidation.NewestRowRemovedLosesNextMessage | avs-memory/src/session/sqlite_maintenance.rs:107-133 | after any cleanup that removes the highest row, the next message is never loaded and a later cleanup deletes it unlogged |
| Consolidation.RunThatLosesAMessage | avs-memory/src/session/sqlite_maintenance.rs:107-133 | a concrete run from a fresh session after which a message is in neither memory |
| SessionStore.SessionMemory.Append | avs-memory/src/session/sqlite.rs:215-261 | numbers, stamps and inserts all messages of a turn after the highest one, for this session only; an unknown session is refused |
| SessionStore.SessionMemory.LoadMessages | avs-memory/src/session/sqlite.rs:263-283 | the stored messages of the session in ascending order of their numbers |
| SessionStore.SessionMemory.LoadMessagesAboveWatermark | avs-memory/src/session/sqlite_maintenance.rs:47-74 | exactly the rows above the stored watermark, in ascending order of their numbers |
| SessionStore.SessionMemory.AdvanceWatermark | avs-memory/src/session/sqlite_maintenance.rs:26-45 | the larger of the old and the given watermark |
| SessionStore.SessionMemory.CleanupExpiredMessages | avs-memory/src/session/sqlite_maintenance.rs:107-133 | deletes this session's rows that are older than the cutoff and within both watermarks, counts them, and touches nothing else |
| SessionStore.SessionMemory.UpdateStatus | avs-memory/src/session/sqlite.rs:132-150 | status and time of one session, or not found |
| SessionStore.SessionMemory.DeleteEndedSessionsBefore | avs-memory/src/session/sqlite_maintenance.rs:135-145 | deletes exactly the ended sessions last updated before the cutoff, with their messages |
| SessionStore.ConsolidateSession | avs-agent/src/workers.rs:83-107 | one session of a tick: load, wait or write and advance row by row, stop at the first write or advance that is refused |
| SessionStore.SessionTickConsolidates | avs-agent/src/workers.rs:83-107 | that tick logs the rows above the watermark in order, as many as writes were accepted, moves the watermark as far, one row less if an advance was refused, and changes nothing else |
| SessionStore.TurnsConsolidateExactly | avs-agent/src/workers.rs:83-107 | with rows above the watermark and no refusal, all of them are logged and the watermark moves past them if and only if there are at least `batchSize` of them or the session has been idle for `idleTimeout`; otherwise nothing changes; with a refusal, the rows before it |
| SessionStore.TenMessagesAreConsolidated | avs-agent/src/workers.rs:90-98 | a batch of ten is consolidated at once in a busy session, a smaller one only after 1800 idle seconds |
| SessionStore.ConsolidationTick | avs-agent/src/workers.rs:76-110 | the sessions of the query in turn, until the first refused write or advance, which ends the tick for those listed after it; a tick that comes to its end leaves every session of the store as a turn of its own would |
| SessionStore.CleanupTick | avs-agent/src/workers.rs:135-176 | ended sessions go, and every session that is left has been cleaned up at its own watermark |
| SessionStore.OtherSessionsNeedNothing | avs-memory/src/session/sqlite_maintenance.rs:76-92 | a session the maintenance query leaves out has nothing to consolidate and nothing to clean up |
| SessionStore.ListedExactly | avs-memory/src/session/sqlite_maintenance.rs:76-92 | the query lists a session if and only if one of its rows is above the watermark or older than now |
| WorkingMemory.CacheMemory.Load | avs-memory/src/working.rs:50-59 | a hit exactly within the time to live |
| WorkingMemory.CacheMemory.Store | avs-memory/src/working.rs:61-74 | replaces the entry and drops every expired one; no other session's hit changes |
| WorkingMemory.CacheMemory.AppendTurn | avs-memory/src/working.rs:76-98 | extends the entry, even an expired one, or starts one with the turn |
| CacheFront.GetCacheMemory | avs-agent/src/agent/invoke.rs:144-160 | a hit as it is; on a miss the stored transcript, which becomes the entry |
| CacheFront.FinishTurn | avs-agent/src/agent/invoke.rs:366-371 | a finished turn is stored first and cached only if that worked |
| CachedSession.EveryHitIsTheEndOfWhatWasSaid | avs-memory/src/working.rs:50-103 | with one invocation at a time and anything else in between, a hit is what the entry was made of followed by every turn since, hence an end of everything ever appended |
| CachedSession.MissRehydrates | avs-agent/src/agent/invoke.rs:144-160 | after a miss the entry equals the durable transcript at that moment |
| CachedSession.FinishedTurnIsCached | avs-agent/src/agent/invoke.rs:366-371 | whatever was evicted or swept meanwhile, a finished turn ends the next hit |
| CachedSession.OverlappingInvocationsDisagree | avs-agent/src/agent/invoke.rs:366-371 | two overlapping invocations are stored in one order and cached in the other, and the hit is an end of what was said if and only if the two turns read the same |
| CircuitBreaking.CircuitBreaker.CanExecute | avs-core/src/model/connection_manager.rs:44-61 | the answer and the new state, half open once timed out |
| CircuitBreaking.CircuitBreaker.RecordFailure | avs-core/src/model/connection_manager.rs:68-74 | counts, stamps, and opens at the threshold |
| CircuitBreaking.BreakerCountsTheFailureRun | avs-core/src/model/connection_manager.rs:33-75 | over any interleaving the counter is the run of failures since the last success, and the breaker is closed exactly below the threshold |
| CircuitBreaking.RefusedExactlyWhileFailuresAreRecent | avs-core/src/model/connection_manager.rs:44-61 | a request is refused if and only if the failure run has reached the threshold and the last failure is at most the timeout old |
| Backoff.PausesAreBounded | avs-core/src/model/connection_manager.rs:240-249 | the power never overflows, two saturations are one, and no pause exceeds the larger of a minute and the saturated 4096-fold delay |
| Backoff.BackoffGrows | avs-core/src/model/connection_manager.rs:240-243 | up to 32-bit attempt numbers, waiting never gets shorter |
| Backoff.BackoffExactly | avs-core/src/model/connection_manager.rs:240-249 | the first pause is the configured one, each of the next ten doubles as far as 64 bits go, then they stay; a 429 takes four times as long |
| Backoff.RetryAfterExactly | avs-core/src/model/connection_manager.rs:251-255 | the pause that the server asks for counts in full up to a minute, and as a minute beyond |
| ConnectionTheorems.RetriesSleepExactly | avs-core/src/model/connection_manager.rs:329-362 | after a failed send or a 429 that is not the last attempt, the request sleeps next: as many seconds as the server says, at most sixty, or its own backoff |
| ConnectionTheorems.OtherAnswersAreNotRetried | avs-core/src/model/connection_manager.rs:365-418 | any other answer ends the request or leaves it to the fallback, exactly as its status lies within 200 to 299 or not |
| ConnectionPool.Generate | avs-core/src/model/connection_manager.rs:257-444 | the retry loop over breaker objects equals the request function, for any behaviour of servers and of other requests |
| ConnectionPool.Attempt | avs-core/src/model/connection_manager.rs:302-419 | one send and what is recorded and decided after each kind of outcome |
| Fallbacks.FallbackTakesOver | avs-core/src/model/connection_manager.rs:271-443 | a manager with a fallback does exactly what it does without one, and then, if and only if it falls back, what the fallback does from there |
| Fallbacks.FallbackConsultedExactly | avs-core/src/model/connection_manager.rs:271-443 | the fallback is consulted if and only if the breaker refuses, or the request builds and some attempt gets a status that is neither a success nor 429 after failed sends or 429s only, or it builds and every attempt is a failed send or a 429 |
| Fallbacks.ServerErrorSkipsRetries | avs-core/src/model/connection_manager.rs:364-372 | a status of 500 goes to the fallback after one send, with retries left |
| Fallbacks.UnreadableAnswerIsFinal | avs-core/src/model/connection_manager.rs:336-412 | a body that cannot be read or parsed ends the request with an error after one send |
| ConnectionTheorems.GenerateIsBounded | avs-core/src/model/connection_manager.rs:257-444 | over any fallback chain: at most retries plus one sends per manager, at most as many pauses as retries, each bounded, and every told outcome recorded exactly once |
| ConnectionTheorems.AnswersAreOnRecord | avs-core/src/model/connection_manager.rs:373-397 | an answer was parsed from a successful reply to a manager of the chain whose breaker was told of the success last; an error records no success |
| ConnectionTheorems.SharedBreakersCountEveryRequest | avs-core/src/model/connection_manager.rs:271-285 | with requests interleaved on shared breakers, one is turned away exactly when all requests together failed often and recently enough |
| ConnectionTheorems.GeneratedConsistent | avs-core/src/model/connection_manager.rs:257-444 | a request, with whatever others do meanwhile, leaves every breaker where the whole log of steps brings it |
| RateLimiting.RateLimiter.Check | avs-guardrails/src/rate_limiter.rs:29-52 | drops what left the window, answers by what is left, and records an accepted request; other users are untouched |
| RateLimiting.SlidingWindow | avs-guardrails/src/rate_limiter.rs:29-52 | over whole runs with a clock that does not run backwards, no interval of the window's length holds more than the maximum of a user's accepted requests |
| RateLimiting.RefusedExactlyWhenTheWindowIsFull | avs-guardrails/src/rate_limiter.rs:41-49 | a request is refused if and only if the maximum was accepted within the window that ends with it |
| Milestones.Execute | examples/demo-tools/src/milestone_scheduler.rs:46-91 | accepted if and only if every dependency names an earlier phase and no chain of phases leads past the calendar; otherwise the first thing that goes wrong is reported; else each phase begins at the start or at the latest end it depends on, and the project takes the reported whole weeks and the nearest number of months |
| Milestones.ScheduleIsLeast | examples/demo-tools/src/milestone_scheduler.rs:50-80 | the schedule respects the start and all dependencies, and nothing that does begins any phase earlier |
| Milestones.ProjectIsItsLongestFinalChain | examples/demo-tools/src/milestone_scheduler.rs:82-83 | the project takes exactly as long as the longest chain of dependent phases that ends in a phase whose name is not used again |
| Milestones.ProjectEndsLastExactly | examples/demo-tools/src/milestone_scheduler.rs:82-83 | no phase ends after the project if and only if each chain to a phase whose name is used again is matched by one, at least as long, to a phase whose name is not |
| Milestones.DistinctNamesHideNothing | examples/demo-tools/src/milestone_scheduler.rs:11 | with unique names no phase ends after the project |
| Milestones.RepeatedNameHidesItsEnd | examples/demo-tools/src/milestone_scheduler.rs:70-82 | with a name used twice the project can end before one of its phases |
| ExpandEnv.Expand | avs-mcp/src/config.rs:83-98 | the in-place loop with its cursor equals one reading of the original text; values are not expanded again; the first undefined or unclosed variable is the error |
| ExpandEnv.ParseLosesNothing | avs-mcp/src/config.rs:86-95 | the reading prints back to the text |
| ExpandEnv.ParsePrint | avs-mcp/src/config.rs:86-95 | and every expressible template is read back as itself |
| ExpandEnv.PlainTextIsUnchanged | avs-mcp/src/config.rs:83-98 | text without a variable stays as it is |
| ExpandEnv.FirstVariableIsReplaced | avs-mcp/src/config.rs:83-98 | the first variable becomes its value between the text before it and the expansion of the text after it; without a value its name is the error |
| ExpandEnv.OneVariable | avs-mcp/src/config.rs:83-98 | a value is not read again, even if it looks like a variable |
| ExpandEnv.UnclosedVariable | avs-mcp/src/config.rs:87-89 | a variable that is not closed is an error that shows the whole text |
| Routing.ParsePhaseTransition | avs-agent/src/agent/routing.rs:8-59 | the line-popping parser equals the parse function |
| Routing.TransitionExactlyWhenLaidOut | avs-agent/src/agent/routing.rs:8-59 | an output is a transition if and only if its lines are a body ending in text, NEXT_SKILL and SUMMARY, with only blank lines between and after |
| Routing.DirectiveExactly | avs-agent/src/agent/routing.rs:21-46 | a line is a directive with a value if and only if it is the prefix and the value, which has text at both ends, with only whitespace around and between |
| Routing.LinesEndExactly | avs-agent/src/agent/routing.rs:9-10 | a newline ends a line, with or without a carriage return before it |
| Routing.PrintParse | avs-agent/src/agent/routing.rs:8-59 | printing a transition and parsing it is the identity, with any blank lines around the directives and any whitespace after |
| ToolSearch.WordsAreAlphanumeric | avs-tools/src/search.rs:89-95 | tokens are not empty and hold alphanumeric characters only |
| ToolSearch.WordsAreTheText | avs-tools/src/search.rs:89-95 | together the tokens are all alphanumeric characters of the lower-cased text, in order |
| ToolSearch.WordsSeparate | avs-tools/src/registry.rs:88 | a separator between two texts, such as name and description, separates their tokens |
| ToolSearch.TokensAreTheLowerCase | avs-tools/src/search.rs:89-95 | tokens are words, and together the alphanumeric characters of the text in lower case |
| ToolSearch.BM25Index.Insert | avs-tools/src/search.rs:37-46 | the frequency table stays the one recomputed from all documents |
| ToolSearch.HitExactlyWhenATokenIsShared | avs-tools/src/search.rs:59-79 | over the reals, a document scores if and only if it shares a token with the query |
| ToolSearch.OneTokenScores | avs-tools/src/search.rs:64-74 | one token of a query is worth the BM25 formula of its frequency, the length of the document, the average length and the number of documents that hold it |
| ToolSearch.RarerTokensScoreMore | avs-tools/src/search.rs:64-74 | of two tokens that a document holds equally often, the one that fewer documents hold scores more |
| ToolSearch.BM25Index.Search | avs-tools/src/search.rs:48-87 | the scoring loop with its early return gives the best hits, as a function of documents and query |
| ToolSearch.BestAreExactly | avs-tools/src/search.rs:77-83 | a document is among them if and only if it shares a token with the query and fewer than the limit rank before it; they are in descending order, ties in order of registration |
| Registry.ToolRegistry.Register | avs-tools/src/registry.rs:86-95 | registered tools and indexed names stay the same set; each name is indexed once exactly until a name is registered again |
| Registry.ToolRegistry.RegisterIfAbsent | avs-tools/src/registry.rs:69-83 | adds tool and document together, or neither |
| Registry.ToolRegistry.Search | avs-tools/src/registry.rs:279-292 | exactly the best hits of the index, under the names of their documents: none is lost on the way to its tool |
| Registry.FoundTwiceExactly | avs-tools/src/registry.rs:279-292 | a name is found twice if and only if two documents under it are among the best hits |
| Registry.DistinctNamesAreFoundOnce | avs-tools/src/registry.rs:279-292 | with each name indexed once no tool is found twice |
| Registry.ToolRegistry.CopyNamedTools | avs-tools/src/registry.rs:315-336 | a copy holds exactly the named tools, without the spawner if it is excluded, and indexes each as often as it is named |
| Registry.CopyIsDistinctExactly | avs-tools/src/registry.rs:321-334 | a copy indexes each tool once if and only if no tool that it keeps is named twice |
| Registry.CopyFindsAToolTwice | avs-tools/src/registry.rs:321-334 | a tool that a copy names twice is found twice by any query that finds it |

## Left out

- Error paths are sequences of steps; their rendering as text such as `$.a.items` is not modelled.
- `$ref` resolves `#` and `#/definitions/<name>`, without the escapes of JSON pointers. Keywords that the rewriter does not know are a parameter of the meaning; the subschemas such a keyword applies are read with their references rewritten, as they are in the output.
- The SQL engine, JSON encodings of content and skill contexts, UUIDs and tokio scheduling: the statements are operations on a table, encodings are left opaque, ids are fresh, and steps interleave freely.
- The approval queue (`InMemoryQueue`): resuming never consults it. A failed submission and the text that reminds the model of a mandatory tool are parameters.
- The Anthropic and Gemini translators, tool definitions and response formats on the wire.
- The subagent executor, and the Plan and Hierarchical strategies, which ignore the approval hook.
- Output and input guardrails other than the rate limiter, metrics, logging, prompt templates and the wording of error messages.
- SessionStore.ConsolidationTick: nothing else touches the store during the tick; the session state machine lets steps of one session interleave with anything.
- SchemaSound.SoundExactlyWhenRequiredNamesAreListed: the root node only, under the hypotheses of soundness for what is below; nested object nodes are the subject of the family theorem.
- The detached long-term write of an invocation: the log counts only the worker's writes.
- Consolidation.NothingIsLost: deletion of whole sessions is a separate operation of the store and no step of a session's own run.
- CachedSession.EveryHitIsTheEndOfWhatWasSaid: the wall clock that stamps rows does not run backwards, and an invocation is not cancelled between storing and caching its turn.
- AgentObject.Agent.Invoke: whether a cached history is still warm, and whether it is swept away during the run, are part of the request, as the clock and other sessions decide them.
- Milestones.Execute: dates are day numbers up to a last day, whose text form is left out; the months are rounded over the reals, to the nearest number of 4.33 weeks.
- ToolSearch.BM25Index.Search: scores are real numbers, and the logarithm is any function that is positive above one; lower case and the alphanumeric characters are parameters.
- The counter of consecutive failures and row numbers do not overflow.
- The Postgres store, LanceDB and pgvector, connectors, HTTP sidecar, MCP transport and the tools that reach outside.
