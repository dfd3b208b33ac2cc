# Verification of the agent host's kernel

A Dafny model of the protocols and algorithms in the kernel of the agent host,
with proofs of what they promise. `dafny verify dfyconfig.toml` checks all of it.
Nothing was executed: every statement below is proved about the model.

| part | modules |
|---|---|
| classification and its order | Classification, ClassificationService |
| execution security: a forest of executions in a durable store | Provenance, ExecutionSecurity (the operations as functions), ExecutionInvariant, ExecutionRuns, ExecutionEffects (what each operation does), ExecutionService (the service as a class) |
| model calls: the durable journal and the gateway | ModelJournal, ModelGateway |
| authorisation, prompt scans and tool invocations | TrustAuthorizer, ScannerRegistry, ToolInvocation |
| outbound sends under an idempotency key | OutboundSend, OutboundRuns |
| tool catalogs and their leases | ToolCatalogs (state machine), CatalogEffects, ToolService (class) |
| JSON values, schema validation, stable JSON, scan text | JsonValues, JsonSchema, SchemaBounds, StableJson, ScanText, WrittenText, FloatingPoint |
| schedules | Calendar, Cron, Scheduler (state machine), SchedulerEffects, SchedulerCore (class) |
| loop runs | LoopRun, CalmRuns |
| usage | CostLedger |
| versions and connector accounts | EngineRange, ConnectorAccounts, Lexicographic, DecimalNumerals, Text |

## How the program is modelled

What runs between two awaits is one step. The execution service runs its
mutations one after another, so its operations are functions on the state of its
store; the class is proved to do the same in place. The gateway and the invocation of
a tool are classes whose `Await` lets everything else in the host act: executions are
observed and closed, providers, tools and runs come and go, people are asked and
answer, and what is awaited may fail or the process may die. The loop takes a script of
all that happens at its awaits, and is proved to compute a function of it. Sends, catalogs
and schedules are state machines whose events interleave in any order, and the
theorems about them are about every run.

What scanners report, what a person answers and what a provider does are parameters of a
model call and of a tool invocation. A call or an invocation keeps a ghost record of what it can count on
(`course`, `calm`), which is given up exactly where somebody else acts or something that
is awaited fails; while it lasts, the outcome is determined by the parameters.

A state may have history variables, which no step reads: the observations of an
execution, the writes of a journal key and the usage that any process recorded for it,
what reached observers, providers, people and adapters, the starts of callbacks, the
events of a run.

What is taken for granted: calls of `complete` for one execution and operation key
do not overlap, a provider awaits its commit and is silent once it has settled, and
each preparation returns a catalog of its own. A failed write of the execution
store leaves it as it was; a failed write of the model journal or of a send's
record may or may not have happened. Uuids and grant objects are never repeated.
The digest of a request is injective, while a statement about the provenance digest
exhibits a collision of the hash where it would need one. `Buffer.byteLength`,
lower-casing and `JSON.stringify` are parameters with the properties the proofs use:
of the last, that on well-formed stable forms of finite doubles it is injective up to
the sign of zero, which a way of writing can be (WrittenText.FaithfulTextExists).

The meaning of a schema (JsonSchema.Accepts) keeps two conventions of the program: a
nullable schema without a type accepts null whatever else it says
(JsonSchema.NullableSkipsConstant), and a multiple is met with a tolerance of 10^-10 of
the step (JsonSchema.MultipleWithin). Quotients are exact; the program rounds them to
doubles, and one that is rounded to 2^52 or beyond passes in any case
(JsonSchema.LargeQuotientPasses, NonMultiplePasses).

## Where the code does not do what one would expect

Each is proved, with the exact condition under which the code does.

- Comparing JSON values looks members up through the prototype, so a value with an
  own `__proto__` member that is an empty object is taken to be the same as an object
  with another member in its place; and it tells 0 from -0, which parsing JSON can
  deliver (JsonValues.SameJsonExactly, SameUnsignedExactly). The schema validator
  inherits both for `const`, `enum` and `uniqueItems` (JsonSchema.MeaningExactly,
  UnsignedMeaningExactly): the constant 0 rejects -0, and [0, -0] passes as unique
  (JsonSchema.ZeroIsNotNegativeZero).
- The stable form drops own `__proto__` members (StableJson.StableIsEqualityExactly),
  so two requests that differ only in such a member share a digest and a scan text.
- An amount in a currency named like a property that objects inherit is lost or makes
  every summary fail (CostLedger.SummaryExactly); recording then throws after the record
  was added, then and ever after (CostLedger.CostLedger.Record, NeverPublishedAgain).
- A cron expression that names only 29 February fails from some starts
  (Cron.AlwaysOccursExactly).
- A child can be forked from a closed parent, and a parent can be closed while a child is
  open; if the child's result merges it can then never be closed
  (ExecutionRuns.StrandedChildStaysOpen, ChildIsStranded).
- A model input over the capacity of its channel is not refused by the authorizer
  (TrustAuthorizer.ModelInputExactly).
- A caret range whose text has a dash also holds for prereleases of the next series
  (EngineRange.CaretExactly, CaretTakesNextCandidate).
- A pending schedule is displaced when a running cron entry of its key settles
  (Scheduler.PendingUntilExactly, PendingIsDisplaced).
- The cost ledger is in memory and a replay records nothing, so it holds the usage of a
  released result exactly while the process that recorded it goes on
  (ModelGateway.ModelOperation.ReleasedIsBilled, ModelGateway.Serve, ReplayAfterRestart).
- A run that is cancelled while its execution is being closed emits a final output and
  stays cancelled; it completes exactly when no cancel comes there (LoopRun.EndExactly,
  CancelledWithFinalOutput).
- The bound of 64 on the raises of a run is never reached
  (ClassificationService.HistoryIsComplete).

Two limits of what the contracts promise come from the code as well: a model call that
stops between its journal write and its usage record leaves no usage
(ModelGateway.ModelOperation.Settle), and an invocation that joins another's prompt is
held to the reading of the request that raised it (ToolInvocation.ToolHost.Authorize).

## Model

| member | source | states |
|---|---|---|
| Classification.MaxClassification | packages/kernel/src/classification-service.ts:64-74 | the result is one of the levels (public when there are none) and no level is above it |
| ClassificationService.ClassificationService.RaiseTo | packages/kernel/src/classification-service.ts:141-171 | only a strictly higher level is taken over, as the next version and with a record at the end of the history; an unknown run answers with the unclassified snapshot |
| ClassificationService.HistoryIsComplete | packages/kernel/src/classification-service.ts:157-169 | a run has at most three raises, so the history is never cut: it holds every raise, strictly rising, with consecutive versions |
| Provenance.AppendRefines | packages/kernel/src/execution-security.ts:139-172 | appending to the bounded record is appending to the full history: the last 64 entries, the number dropped, and the hash chain over what was dropped |
| Provenance.CountsWholeHistory | packages/kernel/src/execution-security.ts:139-172 | kept plus omitted entries are the whole history |
| Provenance.ChainDeterminesPrefix | packages/kernel/src/execution-security.ts:154-171 | equal chain digests over equally many dropped entries mean equal entries, or exhibit a collision of the hash |
| Provenance.RecordDeterminesHistory | packages/kernel/src/execution-security.ts:139-172 | one bounded record refines two histories only if they are equal, or the hash has a collision |
| ExecutionInvariant.RecordsBounded | packages/kernel/src/execution-security.ts:195-220 | a history raises the classification at most three times after its first entry, so a revision is between one and four |
| ExecutionInvariant.RevisionIdentifiesLevel | packages/kernel/src/execution-security.ts:195-220 | along a growing history level and revision rise together: the revision is unchanged exactly when the level is |
| ExecutionInvariant.FindBySubjectExact | packages/kernel/src/execution-security.ts:687-710 | the subject index finds exactly the context with that owner and subject, and is never inconsistent |
| ExecutionInvariant.BindRootKeepsInv | packages/kernel/src/execution-security.ts:512-581 | binding a root, new or found, keeps the forest, the index, the records, and the flow of classifications |
| ExecutionInvariant.BindChildKeepsInv | packages/kernel/src/execution-security.ts:583-674 | so does binding a child through a grant |
| ExecutionInvariant.ObserveKeepsInv | packages/kernel/src/execution-security.ts:309-333 | so does an observation of an open execution |
| ExecutionInvariant.CloseIntoKeepsInv | packages/kernel/src/execution-security.ts:419-446 | so does closing a child into its open parent, which is then classified at least as high and has heard of the child once |
| ExecutionInvariant.ImportKeepsInv | packages/kernel/src/execution-security.ts:463-510 | so does importing a closed detached child, which is then counted once and dominated |
| ExecutionInvariant.ReachableInv | packages/kernel/src/execution-security.ts:222-754 | every run of operations and restarts keeps the invariant: an acyclic forest with its roots, one context for each owner and subject, classification, revision and bounded record determined by the full history, parents at least as classified as merged and imported children, and each result counted once |
| ExecutionRuns.ChainEndsAtRoot | packages/kernel/src/execution-security.ts:583-674 | the chain of parents is acyclic, stays in the store, has one root recorded throughout, and ends there |
| ExecutionRuns.RunIsLater | packages/kernel/src/execution-security.ts:189-220 | over any run no execution is lost or changes its identity, histories only grow, and a closed execution never changes |
| ExecutionRuns.RevisionGuardsLevel | packages/kernel/src/execution-security.ts:347-375 | between two states of a run the revision is the same exactly when the level is, and moves at most as far as the level rises |
| ExecutionRuns.GrantBindsOnce | packages/kernel/src/execution-security.ts:595-621 | over any run, with restarts, a grant binds at most once |
| ExecutionRuns.CloseSucceedsExactly | packages/kernel/src/execution-security.ts:377-447 | closing succeeds exactly for the owner of an execution that is closed already with the same outcome, or open and detached, a root, or below an open parent; it fails without effect, and repeats without effect |
| ExecutionRuns.ImportIsIdempotent | packages/kernel/src/execution-security.ts:449-510 | importing a result again changes nothing, and the parent is classified at least as high as it |
| ExecutionRuns.StrandedChildStaysOpen | packages/kernel/src/execution-security.ts:604-674 | forking does not ask whether the parent is open, nor closing whether a child is: an open merging child of a closed parent stays open in every run |
| ExecutionRuns.ChildIsStranded | packages/kernel/src/execution-security.ts:377-447 | runs from the empty store that reach this, the parent being closed before the child is bound or after, with any further events |
| ExecutionEffects.RootAsAsked | packages/kernel/src/execution-security.ts:512-581 | a root of a free subject is a new open execution of that owner, at the level and with the first entry that were asked for; nothing else changes |
| ExecutionEffects.RootFoundExactly | packages/kernel/src/execution-security.ts:512-581 | a subject that is taken is found again exactly if it was bound as a root with the same level, seed and flow, and the store stays as it is |
| ExecutionEffects.ChildStartsAtParentLevel | packages/kernel/src/execution-security.ts:583-674 | a grant's one binding of a free subject gives an open execution of the grantee, at the level its parent has at that moment, below the parent and root of the grant |
| ExecutionEffects.ChildFoundExactly | packages/kernel/src/execution-security.ts:595-621 | any other binding through a grant succeeds exactly if the grantee finds its own child of that parent and flow again, which spends the grant; else nothing changes |
| ExecutionEffects.ObserveExactly | packages/kernel/src/execution-security.ts:309-333 | an observation succeeds exactly for the owner of an open execution, whose level is then the higher of the two, whose revision rises exactly if the level does, and whose history has one entry more, the one observed; else nothing changes |
| ExecutionEffects.CloseEffect | packages/kernel/src/execution-security.ts:377-447 | a successful close makes the execution closed as asked, and only a parent that it merges into hears of its level, in one entry |
| ExecutionEffects.ImportExactly | packages/kernel/src/execution-security.ts:449-510 | an import succeeds exactly for the owner of an open parent and its own closed detached child; the first makes the parent hear of the child's level, a repeated one changes nothing |
| ExecutionEffects.LevelsComeFromAbove | packages/kernel/src/execution-security.ts:512-674 | in every run, with restarts, a root's first entry has the level it was bound with, and a child's first entry a level that its parent's history had reached |
| ExecutionService.ExecutionSecurityService.BindRoot | packages/kernel/src/execution-security.ts:512-581 | the method changes the store as the specified operation does, and gives its answer |
| ExecutionService.ExecutionSecurityService.BindChild | packages/kernel/src/execution-security.ts:583-674 | the method changes the store as the specified operation does (whose effect ExecutionEffects states without it), spending the grant only when it binds |
| ExecutionService.ExecutionSecurityService.Observe | packages/kernel/src/execution-security.ts:309-333 | likewise |
| ExecutionService.ExecutionSecurityService.CommitIfCurrent | packages/kernel/src/execution-security.ts:347-375 | it commits exactly when the execution is the caller's, open, and at the expected revision |
| ExecutionService.ExecutionSecurityService.Close | packages/kernel/src/execution-security.ts:377-447 | the method changes the store as the specified operation does, and gives its answer |
| ExecutionService.ExecutionSecurityService.ImportDetachedResult | packages/kernel/src/execution-security.ts:449-510 | likewise |
| ModelJournal.DispatchedAtMostOnce | packages/kernel/src/model-gateway.ts:233-256 | along any path of writes a call is dispatched at most once and released at most once, and not before its phase says so |
| ModelJournal.PhaseNeverReturns | packages/kernel/src/model-gateway.ts:233-256 | phases never go back, and a call past prepared is never prepared again |
| ModelJournal.OneRequestPerKey | packages/kernel/src/model-gateway.ts:569-608 | every write of a key answers one request digest |
| ModelJournal.ReleaseFollowsItsDispatch | packages/kernel/src/model-gateway.ts:1003-1120 | a release follows prepared, dispatched and output-pending of the same registration, with the usage that was recorded |
| ModelGateway.ModelOperation.Prepare | packages/kernel/src/model-gateway.ts:650-684 | the key is prepared for this request under the current registration; a record of another registration is taken over exactly if that one was not revoked and had the same capacity, unless the write fails and the call stops, and is else left as it is |
| ModelGateway.ModelOperation.Authorize | packages/kernel/src/model-gateway.ts:1191-1250 | a stage is allowed if and only if no finding of its report blocks and, for an input that a finding would have reviewed, nobody was asked before and the person who is asked agrees; only such an input asks; an approval keeps the report and the answer |
| ModelGateway.ModelOperation.Renew | packages/kernel/src/model-gateway.ts:738-764 | an input is authorised again at a risen revision, asking only if nobody was asked; a refusal is recorded, and only for a report with a finding |
| ModelGateway.ModelOperation.TryCommit | packages/kernel/src/model-gateway.ts:767-807 | a commit dispatches at exactly the revision and level that were authorised in this call, through a provider still registered; if it does not, the journal is as before and the revision has risen; on an undisturbed course it wins |
| ModelGateway.ModelOperation.Commit | packages/kernel/src/model-gateway.ts:722-820 | the permit loop stops within four rounds, dispatches at most once, leaves the permit consumed or spent, and asks a person at most once together with the first review |
| ModelGateway.ModelOperation.RunProvider | packages/kernel/src/model-gateway.ts:823-908 | a provider that runs may commit once; it holds tokens only after that and within the limit on their bytes; undisturbed, the permit is consumed exactly if the script commits it, and what is held is what is streamed from then on |
| ModelGateway.ModelOperation.Settle | packages/kernel/src/model-gateway.ts:909-1024 | an answer is taken exactly when it is small enough, still wanted, from a provider still registered, and equal to what was streamed, else the call fails with the first of these reasons; a call that comes through has its usage recorded once, one that stops on the way at most once: after the journal write, or before it when the call was withdrawn |
| ModelGateway.ModelOperation.GiveUp | packages/kernel/src/model-gateway.ts:869-899 | a provider that rejects after its dispatch has the usage it reported recorded first, and then the failure; a call that stops between leaves the record dispatched |
| ModelGateway.ModelOperation.ReleaseRound | packages/kernel/src/model-gateway.ts:1071-1155 | after an approval the execution observes the output; then it is released, withheld, or reviewed again at a revision that has risen |
| ModelGateway.ModelOperation.TryRelease | packages/kernel/src/model-gateway.ts:1094-1135 | a release commits at exactly the revision and level that were authorised for output; a blocked one stays after output-pending; else the revision has risen |
| ModelGateway.ModelOperation.ReleaseOutput | packages/kernel/src/model-gateway.ts:1038-1156 | the review loop stops within four rounds, never asks a person, and ends released, denied, failed or stopped |
| ModelGateway.ModelOperation.Deliver | packages/kernel/src/model-gateway.ts:1172-1180 | only what is released is delivered, in order; a delivery that ends delivers all of it |
| ModelGateway.ModelOperation.AnswerFromJournal | packages/kernel/src/model-gateway.ts:565-640 | a record conflicts exactly with a request for another target or digest; otherwise one past prepared answers without a provider, each phase in its own way, and a prepared one does not answer |
| ModelGateway.ModelOperation.Complete | packages/kernel/src/model-gateway.ts:542-1189 | whatever happens at the awaits, and whatever scanners, person and provider say: a blocked input, or one that a person refuses, calls no provider and sends nothing; a blocked output is neither released nor delivered; nothing is denied without cause; a provider is called at most once and only while the key is absent or prepared; past that nothing is written and the record decides the answer; tokens reach the observer only once the journal holds the release, and join to its content; a completion has its usage in the ledger; a person is asked at most once; an aborted call or one for a closed execution does nothing. A call that nobody disturbs has exactly the outcome and the recorded usage that reports, person, provider script and answer determine |
| ModelGateway.ModelOperation.ReleasedIsBilled | packages/kernel/src/cost-ledger.ts:16-33 | the ledger is in memory: it holds the usage of a released result exactly in the process that recorded it |
| ModelGateway.Serve | packages/kernel/src/model-gateway.ts:542-1189 | over any sequence of calls of one key with restarts between them: at most one dispatch, one release, and one usage recorded by all processes together, which a released result always has had; the ledger of a process holds it exactly if that process recorded it; every write is authorised |
| ModelGateway.ReplayAfterRestart | packages/kernel/src/model-gateway.ts:609-620 | a released result that is replayed after a restart is not in the ledger, which the process before had recorded it in |
| TrustAuthorizer.ModelInputExactly | packages/kernel/src/trust-authorizer.ts:122-158 | a model input is refused for a blocking finding, asked about for a review finding unless a person was asked already, and allowed otherwise, whatever the capacity and coverage |
| TrustAuthorizer.ModelOutputNeverAsks | packages/kernel/src/trust-authorizer.ts:122-158 | a model output is refused for a blocking finding, allowed otherwise, and never asked about |
| TrustAuthorizer.SilentlyAllowedExactly | packages/kernel/src/trust-authorizer.ts:86-151 | a tool call or a send goes ahead unasked if and only if policy lets it, neither payload nor run is above the channel, and the scanners cover it and find nothing; it is refused if and only if policy or a blocking finding says so |
| TrustAuthorizer.PersonIsAskedExactly | packages/kernel/src/trust-authorizer.ts:122-160 | a person is asked about a tool call or a send if and only if it is neither refused nor allowed silently and nobody was asked before; after a first prompt it is refused instead |
| TrustAuthorizer.ThreadedAsksOnce | packages/kernel/src/trust-authorizer.ts:86-186 | authorisations that hand on whether a person was asked ask at most once, and not at all if one was |
| TrustAuthorizer.CompletionAsksOnce | packages/kernel/src/model-gateway.ts:698-1059 | all input and output reviews of a completion ask at most once, although the output review starts afresh |
| ToolInvocation.ToolHost.Invoke | packages/kernel/src/tool-service.ts:707-922 | whatever others do at the awaits, with prompts joined or not: an invocation waits for at most one prompt over preflight and review; the tool runs only as the current one of its run, permitted to the caller, at the very level and version its approval committed to, and without a prompt only if nothing is above its channel; the result is returned only after the run was raised to it and, if the tool is external, a review let it through. If nobody disturbs it, the outcome is exactly the one that policy, channel, reports and answers determine |
| ToolInvocation.ToolHost.Resolve | packages/kernel/src/tool-service.ts:713-787 | what is resolved is a current tool that the run's policy allows, for the owner of the run and a classified execution, not aborted; another caller is forbidden; and undisturbed it is resolved whenever the host or the run has a tool of that name which the caller may invoke |
| ToolInvocation.ToolHost.Authorize | packages/kernel/src/trust-authorizer.ts:86-186 | an authorisation decides on the mark read before its awaits and waits for at most one prompt; alone it commits to that reading, joined it commits to that of the request which raised the prompt |
| ToolInvocation.ToolHost.Preflight | packages/kernel/src/tool-service.ts:803-861 | after the preflight the tool may run only if the decision allows it or a person did, the run's mark is still the committed one, and tool and policy are still current; it is refused only for a cause; undisturbed it is allowed exactly if policy, channel and answer let it |
| ToolInvocation.ToolHost.Review | packages/kernel/src/tool-service.ts:962-1003 | the review asks only if the preflight did not; what it lets through has no blocking finding and, unasked, full coverage and nothing found; while the run is the same it is decided at a mark not below the tool's output |
| TrustAuthorizer.Authorizer.Authorize | packages/kernel/src/trust-authorizer.ts:164-186 | equal prompts in flight share one interaction, and only a new one adds a prompt |
| TrustAuthorizer.Authorizer.Settle | packages/kernel/src/trust-authorizer.ts:179-185 | an answered prompt makes way for a new one, and only its own entry |
| ScannerRegistry.SortBySeveritySorts | packages/kernel/src/scanner-registry.ts:338-343 | sorting is a permutation, ordered by severity, and leaves the findings of each severity in their order |
| ScannerRegistry.RunScanner | packages/kernel/src/scanner-registry.ts:305-360 | of the first 512 candidates the well-formed ones are kept by severity up to 64; anything malformed, missing or beyond is a failure |
| ScannerRegistry.WorstExact | packages/kernel/src/scanner-registry.ts:82-93 | the worst action of some findings is at least as bad as each and that of one of them |
| ScannerRegistry.CutKeepsWorst | packages/kernel/src/scanner-registry.ts:338-343 | cutting a sorted list keeps the worst finding |
| ScannerRegistry.CuttingKeepsVerdict | packages/kernel/src/scanner-registry.ts:204-236 | the verdict of the report is the worst of everything the scanners said, raised to review by a failure, an overflow, a cut text, or no scanner at all |
| ScannerRegistry.Scan | packages/kernel/src/scanner-registry.ts:190-236 | the report is assembled from all scanners, and blocks exactly when some finding among those heard blocks |
| OutboundSend.StepKeepsLock | packages/kernel/src/communication-service.ts:1471-1487 | every step keeps the promise chain: each send waits for its predecessor, at most the first may enter, and the map names the last |
| OutboundSend.MutualExclusion | packages/kernel/src/communication-service.ts:1471-1487 | at most one send is inside, and it came before all that wait |
| OutboundSend.FirstComeFirstServed | packages/kernel/src/communication-service.ts:1471-1487 | a send may enter exactly when no earlier one is left |
| OutboundSend.EntryExactlyWhileUsed | packages/kernel/src/communication-service.ts:1482-1485 | the lock map has an entry exactly while somebody holds the lock or waits |
| OutboundSend.AtMostOneSend | packages/kernel/src/communication-service.ts:707-1106 | over all interleavings, crashes and failed writes the adapter is called at most once for a key, and every receipt, new or duplicate, is of that call and for its payload |
| OutboundSend.ReceiptsAgree | packages/kernel/src/communication-service.ts:707-1106 | in every run from the start any two receipts are the same one, for the payload of the only call |
| OutboundSend.UndisturbedSendGoesOut | packages/kernel/src/communication-service.ts:707-1106 | a send that nothing comes between is recorded as pending before the adapter is called, goes out, is recorded as sent, gives its receipt, and leaves no lock behind |
| OutboundSend.RetryIsAnsweredByRecord | packages/kernel/src/communication-service.ts:776-817 | a retry calls no adapter: another payload is a conflict, a sent record gives its receipt, anything else an unknown outcome |
| OutboundSend.ForgottenOnlyUnsent | packages/kernel/src/communication-service.ts:1411-1419 | a record is deleted only while nothing was sent under its key, and keeps its payload afterwards |
| OutboundRuns.SentOnlyIfApproved | packages/kernel/src/communication-service.ts:851-1006 | in every run the adapter is called only by a send that was let through by its screening, recorded after that, and then found still approved with its adapter still registered; with its own payload |
| OutboundRuns.DeniedSendEnds | packages/kernel/src/communication-service.ts:851-930 | an undisturbed send that is denied, or whose screening fails, calls no adapter, leaves no record and no lock, and is told so |
| OutboundRuns.UnrecordedSendEnds | packages/kernel/src/communication-service.ts:932-963 | a send that cannot be recorded calls no adapter |
| OutboundRuns.WithdrawnSendEnds | packages/kernel/src/communication-service.ts:965-1003 | a send whose approval or adapter is gone when it is its turn calls no adapter, and leaves a record only if deleting it fails |
| OutboundRuns.CalledSendEnds | packages/kernel/src/communication-service.ts:1005-1106 | a send that called its adapter is answered with the receipt exactly if there is one and it was recorded, and else throws; the record says sent, unknown or still pending, as adapter and write went |
| OutboundRuns.UnreadableRecordEnds | packages/kernel/src/communication-service.ts:750-774 | a record that cannot be read calls no adapter |
| OutboundRuns.CrashEnds | packages/kernel/src/communication-service.ts:1471-1487 | a crash ends all sends and locks and keeps the record and the calls |
| ToolCatalogs.ReachableInv | packages/kernel/src/tool-service.ts:1102-1298 | every run of registrations, removals, preparations and disposals keeps leases on open catalogs of registered providers, bindings on leases, and every catalog leased or closed once; a closed catalog stays closed |
| ToolCatalogs.LiveBindingIsBacked | packages/kernel/src/tool-service.ts:1253-1277 | a dynamic tool of a live run is backed by an open catalog that the run leases, of a registered provider |
| CatalogEffects.ClosedExactlyOnce | packages/kernel/src/tool-service.ts:1279-1298 | over every run from the start each catalog is closed at most once, not while it is leased, and exactly once if the run it was prepared for was disposed at any point |
| ToolCatalogs.ClosedWhenReleased | packages/kernel/src/tool-service.ts:1279-1298 | a catalog of a released policy is closed, once |
| CatalogEffects.RunIsRegistered | packages/kernel/src/tool-service.ts:540-591 | a run that is registered has a new policy of its own without tools, and nothing else changes |
| CatalogEffects.ProviderIsRemoved | packages/kernel/src/tool-service.ts:1253-1277 | a provider that is removed is gone; exactly what live runs lease from it is taken away and closed once |
| CatalogEffects.RunIsDisposed | packages/kernel/src/tool-service.ts:1279-1290 | a disposal by the run's own policy leaves the run unregistered, its policy released without tools and leases, and closes exactly the catalogs it leased, once; all else stays |
| CatalogEffects.StaleDisposalIsIgnored | packages/kernel/src/tool-service.ts:1279-1290 | a disposal by any other policy changes nothing |
| CatalogEffects.PreparationBegins | packages/kernel/src/tool-service.ts:628-650 | exactly a live run that is neither prepared nor preparing begins to wait for the registrations there are |
| CatalogEffects.PreparationGoesOn | packages/kernel/src/tool-service.ts:1133-1175 | whatever becomes of a catalog, a live run goes on with the next provider and is prepared after the last; a failed one serves nothing |
| CatalogEffects.PreparationEnds | packages/kernel/src/tool-service.ts:1133-1175 | the preparation of a run that is gone ends, with all policies as they were |
| CatalogEffects.LateArrivalIsClosed | packages/kernel/src/tool-service.ts:1133-1148 | a catalog that arrives for a gone run or provider, or cannot be used, is closed once and serves nothing |
| ToolCatalogs.ArrivalInTimeIsLeased | packages/kernel/src/tool-service.ts:1133-1148 | a usable catalog that arrives for a live run from a provider still registered is leased, and serves each acceptable tool whose name was free |
| ToolCatalogs.RemovalTakesOnlyItsOwn | packages/kernel/src/tool-service.ts:1261-1265 | removing a provider takes its tools from every live run and leaves all others as they were |
| ToolCatalogs.AcceptTakes | packages/kernel/src/tool-service.ts:1188-1250 | every acceptable definition has its name bound in the end |
| ToolCatalogs.AcceptBinds | packages/kernel/src/tool-service.ts:1188-1250 | accepting a catalog keeps every binding there was, and every new one is of that catalog |
| ToolService.ToolService.RemoveProvider | packages/kernel/src/tool-service.ts:1253-1277 | the loop over the live runs does what the specified step does to all policies at once |
| ToolService.ToolService.DisposePolicy | packages/kernel/src/tool-service.ts:1279-1290 | the method does the specified step, whose effect CatalogEffects.RunIsDisposed and StaleDisposalIsIgnored state |
| ToolService.ToolService.AcceptCatalog | packages/kernel/src/tool-service.ts:1176-1251 | the loop accepts the definitions in order, leaving out what is unacceptable or taken |
| ToolService.ToolService.CatalogArrived | packages/kernel/src/tool-service.ts:1133-1148 | a catalog that arrives is closed when its run or provider is gone or it cannot be used, and leased otherwise, as specified |
| JsonValues.EqualTreesAreSame | packages/kernel/src/json-schema.ts:64-86 | JSON values that are equal up to key order, with the signs of their zeros, are found to be the same |
| JsonValues.SameAreEqualTrees | packages/kernel/src/json-schema.ts:64-86 | what is found to be the same is equal in this sense, unless the left value has an own empty `__proto__` member |
| JsonValues.SameJsonExactly | packages/kernel/src/json-schema.ts:64-86 | the comparison of a value with every other is JSON equality, for which 0 and -0 are one number, if and only if no object in it has an own `__proto__` member that is an empty object and no number in it is zero |
| JsonValues.SameUnsignedExactly | packages/kernel/src/json-schema.ts:64-86 | with every other value that holds no negative zero it is JSON equality if and only if no object in it has such a member and no number in it is negative zero |
| JsonValues.SameJsonIsNotSymmetric | packages/kernel/src/json-schema.ts:80-83 | the two objects for which the answer depends on the side |
| JsonSchema.NearestIsNear | packages/kernel/src/json-schema.ts:443-448 | a quotient is near some whole number exactly when it is near the rounded one |
| JsonSchema.ValidateUnique | packages/kernel/src/json-schema.ts:463-471 | the double loop finds whether two items at different places are the same |
| JsonSchema.ValidateLocal | packages/kernel/src/json-schema.ts:402-503 | the comparisons that do not look inside a value hold exactly when the assertions do, within the bound on unique items |
| JsonSchema.ValidateSchema | packages/kernel/src/json-schema.ts:372-529 | a value passes if and only if it meets the schema, no visit is deeper than 16, no unique array longer than 1000, and the visits fit into the shared budget; then it costs exactly one unit for each visit |
| JsonSchema.AcceptsIsMeaning | packages/kernel/src/json-schema.ts:372-529 | for a value without such members, and without zeros or with neither it nor the literals of the schema holding a negative zero, meeting the schema with that comparison is meeting it with JSON equality |
| JsonSchema.MeaningExactly | packages/kernel/src/json-schema.ts:372-529 | for a value this holds of all schemas if and only if no object in it has an own empty `__proto__` member and no number in it is zero |
| JsonSchema.UnsignedMeaningExactly | packages/kernel/src/json-schema.ts:372-529 | and of all schemas whose literals hold no negative zero if and only if no object in it has such a member and no number in it is negative zero |
| JsonSchema.ZeroIsNotNegativeZero | packages/kernel/src/json-schema.ts:64-86 | the constant 0 rejects -0, and 0 and -0 pass as unique items, although they are equal JSON numbers |
| JsonSchema.MultipleWithin | packages/kernel/src/json-schema.ts:443-448 | with an exact quotient, a number meets a step exactly when it is a multiple of it, give or take 10^-10 of the step |
| JsonSchema.LargeQuotientPasses | packages/kernel/src/json-schema.ts:443-448 | a quotient that is rounded to a double from 2^52 on always passes, because every such double is whole |
| JsonSchema.NonMultiplePasses | packages/kernel/src/json-schema.ts:443-448 | 2^60 is no multiple of three, and meets that step however its quotient is rounded to such a double |
| JsonSchema.NullableSkipsConstant | packages/kernel/src/json-schema.ts:392-401 | a nullable schema without a type accepts null whatever constant it names |
| SchemaBounds.AssertLiteral | packages/kernel/src/json-schema.ts:107-145 | a literal passes if and only if it is JSON, not too deep or wide, and fits into the budget, of which it takes one unit for each node |
| SchemaBounds.AssertBounded | packages/kernel/src/json-schema.ts:165-345 | a schema passes if and only if it is well shaped and not too deep throughout, its other keywords are known annotations with values of their type, and its nodes fit into the budget |
| SchemaBounds.ValidateAgainstJsonSchema | packages/kernel/src/json-schema.ts:531-552 | success means a bounded schema that the value meets within the limits, and nothing else does |
| StableJson.StableJsonValue | packages/kernel/src/model-gateway.ts:1412-1437 | the loops compute the specified stable form |
| StableJson.StableExists | packages/kernel/src/model-gateway.ts:1424-1436 | there is a stable form exactly when undefined occurs only as the value of a property |
| StableJson.StableKeepsContent | packages/kernel/src/model-gateway.ts:1427-1434 | the stable form has the same content: everything but undefined members and `__proto__` members |
| StableJson.StableExactly | packages/kernel/src/model-gateway.ts:1412-1437 | two values have one stable form if and only if they have the same content up to key order |
| StableJson.StableIsIdempotent | packages/kernel/src/model-gateway.ts:1412-1437 | a stable form is its own stable form |
| StableJson.StableIsEqualityExactly | packages/kernel/src/model-gateway.ts:1427-1434 | compared with values without `__proto__` members, a value shares a stable form with exactly those of the same tree, signs of zeros included, if and only if it has no such member itself |
| ScanText.DecodeEncode | packages/kernel/src/model-gateway.ts:1408-1410 | labelled fields are read back from their text by their lengths in bytes, whatever the values contain |
| ScanText.ReadBack | packages/kernel/src/model-gateway.ts:1354-1389 | model id, messages, tool calls and tools are read back from the text of a request |
| ScanText.TextsExactly | packages/kernel/src/model-gateway.ts:1354-1389 | two requests have one text if and only if it says the same of both |
| ScanText.ModelInputScanText | packages/kernel/src/model-gateway.ts:1354-1389 | the loops build the fields of the request in order, and fail exactly when some value is not JSON |
| ScanText.TextIdentifiesRequest | packages/kernel/src/model-gateway.ts:1354-1389 | when JSON text determines the stable, well-formed values of finite doubles that are written, up to the sign of zero, then requests of such values share a text if and only if they agree up to the stable form of their values, the sign of zero, an empty tool call id and an empty list of calls |
| ScanText.StableIsWritten | packages/kernel/src/model-gateway.ts:1412-1437 | what is written as JSON text is well formed, of finite doubles, and its own stable form |
| ScanText.SameValueExactly | packages/kernel/src/model-gateway.ts:1412-1437 | compared with values without `__proto__` members, a value shares its text with exactly the JSON values equal to it if and only if it has no such member itself |
| ScanText.Utf8Grows | packages/kernel/src/model-gateway.ts:1409-1409 | the length in bytes is one that a longer string has more of, which is all that decoding needs |
| Calendar.DateOfDay | packages/kernel/src/cron.ts:113-121 | a date of the proleptic Gregorian calendar has exactly the day that its year, month and day of month give |
| Calendar.DateRecurs | packages/kernel/src/cron.ts:113-121 | a date that every year has comes again within 366 days |
| Calendar.EpochIsThursday | packages/kernel/src/cron.ts:122-122 | day zero is 1 January 1970 and a Thursday |
| Calendar.WeekdayGoesOn | packages/kernel/src/cron.ts:122-122 | the weekday goes on by one each day, and from Saturday to Sunday |
| Cron.AddRange | packages/kernel/src/cron.ts:102-111 | the loop adds every step-th value of the range and nothing else |
| Cron.ParseField | packages/kernel/src/cron.ts:64-100 | a field is accepted if and only if every part is, the first bad part is the reported one, and the values are those that some part stands for; it never matches nothing |
| Cron.ParseCron | packages/kernel/src/cron.ts:21-47 | five good fields give exactly their values, with seven counted as Sunday |
| Cron.OneMinuteOn | packages/kernel/src/cron.ts:53-59 | setting the minutes to one more is the next whole minute, over hours and days |
| Cron.NextCronOccurrence | packages/kernel/src/cron.ts:49-62 | the result is the least whole minute after the start that matches; it fails if and only if none lies within 1460 days |
| Cron.OccursWithin372Days | packages/kernel/src/cron.ts:49-62 | an expression that names a day every year has occurs in any 372 days |
| Cron.AlwaysOccursExactly | packages/kernel/src/cron.ts:49-62 | the search succeeds from every start if and only if weekdays are restricted, or days are not, or some listed day is in every year in some listed month; else it fails right after 29 February 2024 |
| Scheduler.ReachableInv | packages/kernel/src/scheduler-core.ts:26-273 | every run of operations, timers and settled callbacks keeps the invariant of entries, timers and starts |
| Scheduler.ScheduledAsAsked | packages/kernel/src/scheduler-core.ts:124-165 | what is scheduled is pending at the time that was asked for, with a timer due by then and within the longest delay; a stopped scheduler, a blank id or a taken key changes nothing |
| Scheduler.StartsOnce | packages/kernel/src/scheduler-core.ts:176-196 | an entry starts at most once, and not before its time |
| Scheduler.StartsOnlyWhenDue | packages/kernel/src/scheduler-core.ts:166-179 | only a timer starts an entry, only while it is the pending one of its key, not aborted, not stopped, and due |
| Scheduler.NeverAfterCancel | packages/kernel/src/scheduler-core.ts:67-80 | what was scheduled under a key when it was cancelled never starts after, and is aborted if it was pending or running |
| Scheduler.NeverAfterShutdown | packages/kernel/src/scheduler-core.ts:110-122 | after a shutdown nothing starts |
| Scheduler.FiringsIncrease | packages/kernel/src/scheduler-core.ts:201-221 | the entries of one cron schedule have matching run times, each after the start of every one it follows, under a clock that does not go back |
| Scheduler.EarlyTimerIsArmedAgain | packages/kernel/src/scheduler-core.ts:162-199 | a timer that goes off starts a due entry, and is else armed for the run time or at least one longest delay further on |
| Scheduler.PendingUntilExactly | packages/kernel/src/scheduler-core.ts:201-241 | a pending entry stops being pending exactly by a cancel, a shutdown, its start when it is due, or when the callback of a cron entry of its key, not aborted, settles and a next occurrence is found while the scheduler runs |
| Scheduler.PendingIsDisplaced | packages/kernel/src/scheduler-core.ts:201-221 | a run from the empty scheduler: while the callback of a cron entry runs, another entry is scheduled under its key; when the callback settles, that entry is no longer pending and never starts |
| SchedulerEffects.CancelEndsKey | packages/kernel/src/scheduler-core.ts:67-80 | a cancel ends everything live of its key: aborted, no longer pending or running, without a timer; and leaves every other entry as it was |
| SchedulerEffects.CancelEndsOwner | packages/kernel/src/scheduler-core.ts:82-99 | likewise for everything of an owner |
| SchedulerEffects.ShutdownEndsAll | packages/kernel/src/scheduler-core.ts:110-122 | likewise for everything, and the scheduler is stopped |
| SchedulerEffects.CronIsScheduled | packages/kernel/src/scheduler-core.ts:136-160 | a cron expression that is scheduled has its first occurrence pending, with a timer by then; otherwise nothing changes |
| SchedulerEffects.SettledIsFollowed | packages/kernel/src/scheduler-core.ts:192-221 | a settled cron entry is followed by exactly one entry of its key and expression, at the next occurrence; any other is over |
| SchedulerEffects.LateTimerIsIgnored | packages/kernel/src/scheduler-core.ts:164-198 | a timer of an entry that is no longer pending changes nothing else |
| SchedulerEffects.DueEntryStarts | packages/kernel/src/scheduler-core.ts:176-196 | a due entry starts once now, and leaves its key free while its callback runs |
| SchedulerCore.SchedulerCore.Register | packages/kernel/src/scheduler-core.ts:124-160 | an entry is added if and only if the scheduler runs, the id is not blank and the key is free |
| SchedulerCore.SchedulerCore.Cancel | packages/kernel/src/scheduler-core.ts:67-80 | the loops cancel the pending and the running entries of the key, and report whether there were any |
| SchedulerCore.SchedulerCore.CancelOwned | packages/kernel/src/scheduler-core.ts:82-99 | the loops cancel everything live of an owner |
| SchedulerCore.SchedulerCore.Shutdown | packages/kernel/src/scheduler-core.ts:110-122 | everything live is cancelled, once |
| SchedulerCore.SchedulerCore.OnTimer | packages/kernel/src/scheduler-core.ts:164-198 | a timer does the specified step |
| SchedulerCore.SchedulerCore.OnSettled | packages/kernel/src/scheduler-core.ts:192-221 | a settled cron callback is followed by the next occurrence of its expression, if there is one |
| LoopRun.TerminalIsLast | packages/kernel/src/loop-manager.ts:987-1015 | in the event log no state event follows one of a terminal status |
| LoopRun.StatesOfProperLog | packages/kernel/src/loop-manager.ts:1008-1014 | neighbouring state events differ |
| LoopRun.LoopRun.Update | packages/kernel/src/loop-manager.ts:987-1015 | a terminal status stays; another change is announced by one event, so that the last state event is the status |
| LoopRun.LoopRun.Emit | packages/kernel/src/loop-manager.ts:1027-1045 | the history is the last 256 events, and every subscriber has its window in order and without gaps |
| LoopRun.LoopRun.Subscribe | packages/kernel/src/loop-manager.ts:421-446 | a new subscriber is sent the history, which starts at most 256 events back |
| LoopRun.LoopRun.DeliverNext | packages/kernel/src/loop-manager.ts:1047-1063 | the next event of the chain goes to its subscriber while that is active, and to nobody else |
| LoopRun.LoopRun.Cancel | packages/kernel/src/loop-manager.ts:339-354 | exactly a run that has not ended is cancelled, and its wait ends |
| LoopRun.LoopRun.Resume | packages/kernel/src/loop-manager.ts:370-383 | exactly a paused run, or one about to pause, is resumed |
| LoopRun.LoopRun.WaitAtSafePoint | packages/kernel/src/loop-manager.ts:963-985 | the loop goes on only when the run was not cancelled |
| LoopRun.LoopRun.Complete | packages/kernel/src/loop-manager.ts:528-577 | each request to the model has the next operation key and messages in which every tool call is answered once and in order |
| LoopRun.LoopRun.AnswerCalls | packages/kernel/src/loop-manager.ts:602-679 | all calls of a completion are answered in order before the next request, or the run ends |
| LoopRun.LoopRun.Execute | packages/kernel/src/loop-manager.ts:448-731 | the method does what an execution is specified to do, for every script of what others do at the awaits: at most eight requests, and it ends completed after a final output, failed after a failure event, or cancelled |
| LoopRun.LoopRun.Start | packages/kernel/src/loop-manager.ts:283-303 | a run is executed unless its owner was gone before it started; then it is cancelled and asks the model nothing |
| LoopRun.EndExactly | packages/kernel/src/loop-manager.ts:283-731 | for every script, a run ends completed if and only if it gave a final output and nobody cancelled it in the await that closes its execution; with a cancel there it gives the output and is cancelled; the only output it gives is what the model replied, without tool calls, in the last turn that was asked; it has failed if and only if it says so, and never does both; it is cancelled if its owner was gone before |
| LoopRun.CancelledWithFinalOutput | packages/kernel/src/loop-manager.ts:681-694 | a run that emits a final output and is cancelled in the end |
| LoopRun.TurnAsksOnce | packages/kernel/src/loop-manager.ts:527-584 | a turn asks the model once, unless the run was cancelled before that |
| CalmRuns.CalmRunIsAsExpected | packages/kernel/src/loop-manager.ts:448-731 | a run that nobody interferes with has exactly the status, the event log and the sequence of model requests that the replies and the tools' answers determine, over all turns |
| CalmRuns.PauseIsKept | packages/kernel/src/loop-manager.ts:963-985 | a pause that was requested is entered at the next safe point and lasts until somebody resumes or cancels the run |
| CalmRuns.WaitingIsShown | packages/kernel/src/loop-manager.ts:622-660 | a run whose tool waits for a person says so, and runs again when the tool has answered |
| CalmRuns.PolicyWaitIsShown | packages/kernel/src/loop-manager.ts:548-577 | so does one whose model request waits |
| CalmRuns.FailuresAreThrown | packages/kernel/src/loop-manager.ts:527-697 | a failure of the model or of a tool, and a call of a tool while none may be called, end the turn |
| LoopRun.ActsGo | packages/kernel/src/loop-manager.ts:339-354 | what others do at an await ends no run but by cancelling, and cancels one that has not ended exactly when one of them cancels |
| LoopRun.LoopRun.Turn | packages/kernel/src/loop-manager.ts:527-697 | one turn does what it is specified to do: a request, and an answered round, an end, or a failure |
| LoopRun.LoopRun.Conclude | packages/kernel/src/loop-manager.ts:585-697 | a reply without calls closes the execution and ends the run, the last event being the final output of that reply; otherwise the calls are answered, or the run ends |
| LoopRun.AnsweredRound | packages/kernel/src/loop-manager.ts:603-677 | another fully answered round keeps the conversation fully answered |
| LoopRun.KeysDiffer | packages/kernel/src/loop-manager.ts:536-538 | different turns have different operation keys |
| EngineRange.NumericByLengthThenText | packages/kernel/src/engine-range.ts:69-79 | comparing numeric identifiers by length and then as text is comparing their values, for any number of digits |
| EngineRange.BelowIsStrictOrder | packages/kernel/src/engine-range.ts:38-86 | precedence as in section 11 of Semantic Versioning 2.0.0 is a strict total order of versions |
| EngineRange.ComparePrereleases | packages/kernel/src/engine-range.ts:55-85 | the loop decides which of two prereleases comes first by that precedence |
| EngineRange.Compare | packages/kernel/src/engine-range.ts:38-86 | the comparison is the sign of that precedence, zero only for equal versions |
| EngineRange.ComparatorExactly | packages/kernel/src/engine-range.ts:99-113 | a comparator holds exactly on its side of its version in that precedence |
| EngineRange.CaretExactly | packages/kernel/src/engine-range.ts:131-150 | a caret range holds exactly for what is not below its version and in the same series, or is a prerelease of the end of the series |
| EngineRange.CaretTakesNextCandidate | packages/kernel/src/engine-range.ts:131-208 | the range ^1.2.3-0 is satisfied by 2.0.0-rc and not by 2.0.0 |
| EngineRange.TildeExactly | packages/kernel/src/engine-range.ts:131-150 | a tilde range likewise, for the same major and minor version |
| EngineRange.AlternativesAreIntervals | packages/kernel/src/engine-range.ts:116-159 | an alternative that holds for two versions holds for all between them |
| EngineRange.ReadabilityIgnoresVersion | packages/kernel/src/engine-range.ts:116-159 | whether an alternative can be read does not depend on the version |
| EngineRange.SatisfiedRangesAreValid | packages/kernel/src/engine-range.ts:170-208 | a version satisfies a range if and only if the range is valid, some alternative holds, and a prerelease version meets a range with a dash |
| Lexicographic.LexTotal | packages/kernel/src/engine-range.ts:56-85 | the first difference orders any two different sequences, if their elements are ordered |
| Lexicographic.LexTransitive | packages/kernel/src/engine-range.ts:56-85 | and does so transitively |
| ConnectorAccounts.PatternExactly | packages/contracts/src/index.ts:1368-1368 | the pattern of ids means letters, digits and single dashes, with no dash at an end |
| ConnectorAccounts.SlugIsEmptyOrValid | packages/contracts/src/connector-accounts.ts:24-32 | a slug is empty or a valid id, whatever the name |
| ConnectorAccounts.SlugFixesIds | packages/contracts/src/connector-accounts.ts:24-32 | every valid id is its own slug |
| ConnectorAccounts.SlugSpellsName | packages/contracts/src/connector-accounts.ts:24-32 | a slug spells the letters and digits of the lower-case name in their order, all of them unless it is cut |
| ConnectorAccounts.CandidateIsValid | packages/contracts/src/connector-accounts.ts:48-52 | every numbered candidate is a valid id of at most 32 characters |
| ConnectorAccounts.CandidatesDiffer | packages/contracts/src/connector-accounts.ts:47-52 | different numbers give different candidates, after truncation too |
| ConnectorAccounts.AllocateId | packages/contracts/src/connector-accounts.ts:34-61 | the id is valid, free and not the default one: the slug itself, or the first free candidate, found among the first two more than there are taken ids; it never fails |
| DecimalNumerals.ValueOfDecimal | packages/contracts/src/connector-accounts.ts:48-48 | a number is the value of its decimal numeral |
| CostLedger.CostLedger.Record | packages/kernel/src/cost-ledger.ts:22-32 | exactly an acceptable record is added, at the end; recording then throws exactly when some record is charged in a currency that no summary can name |
| CostLedger.NeverPublishedAgain | packages/kernel/src/cost-ledger.ts:29-32 | once such a record is in, recording throws for good, although it goes on adding |
| CostLedger.Summarize | packages/kernel/src/cost-ledger.ts:59-82 | the summary holds the token totals and what was charged in each currency; there is none exactly when a currency is named like an inherited property other than `__proto__` |
| CostLedger.SummaryExactly | packages/kernel/src/cost-ledger.ts:70-73 | a summary says of every currency what was charged in it if and only if no currency is named like an inherited property |
| CostLedger.TotalsByOperation | packages/kernel/src/cost-ledger.ts:59-69 | the totals are the sums over the operations that the records belong to |
| CostLedger.TotalsOfOperations | packages/kernel/src/cost-ledger.ts:59-69 | when each operation has at most one usage in the ledger, as the gateway proves, the totals count each of those once |
| CostLedger.CachedWithinInput | packages/contracts/src/index.ts:616-624 | cached and written tokens never exceed the input tokens, in total too |

## Left out

- OutboundSend: the lock and the locked part are steps on a value, not methods on the service's maps, because sends interleave at their awaits; one idempotency key at a time, and without attachments, audit entries and message ids.
- ToolCatalogs: preparations that are under way are steps on a value; ToolService has the sections between their awaits in place. Run policies and bindings are values, not objects that others may hold.
- ModelGateway.ModelOperation.Complete: one operation key at a time; the choice among preferred providers is any that fits; a scan report is a parameter, the same in every round of a call; the text of errors is not modelled.
- ExecutionService.ExecutionSecurityService: schema checks of stored contexts, and stores that were tampered with.
- JsonSchema.ValidateSchema: a schema whose keywords have values of the wrong type, values that are not JSON, and the rounding of floating-point quotients; lengths count characters where the program counts UTF-16 code units.
- SchemaBounds.AssertBounded: literals and subschemas are checked in two passes, where the program interleaves them, with the same outcome.
- StableJson.StableJsonValue: members come out in sorted order; the program's objects list integer keys first, which is a function of the same members.
- ScanText.ModelInputScanText: JSON text is a parameter; the text of model outputs, which is built in the same way, is not modelled.
- Cron.NextCronOccurrence: from tokens on, with `Number()` left to the tokens, and for times that a date can hold.
- Scheduler.ReachableInv: listeners and abort handlers that call the scheduler back; an owner or id that contains the separator of the key; a next occurrence that cannot be found ends the schedule, where the program also leaves a rejected promise.
- LoopRun.LoopRun.Execute: the awaits before the first turn are one; the code-act strategy, which loops in the same way over a sandbox; usage figures; a run that stays paused because nobody resumes or cancels it; ids of runs and of interactions.
- EngineRange.SatisfiedRangesAreValid: from the parts of versions and ranges on; splitting their text and the regular expressions are not modelled.
- ConnectorAccounts.AllocateId: a list of taken ids has fewer than 2^32 entries, as arrays do.
- CostLedger.Summarize: amounts are real numbers, without rounding; subscribers.
- ToolInvocation.ToolHost.Invoke: one invocation among any other requests; parsing, the grant to the parent execution and the tool itself are results that may fail; the service has a classification service, executions and scanners.
- TrustAuthorizer.Authorizer: remembered grants are an input of each decision; the wording of prompts.
- ScannerRegistry.Scan: timeouts and errors of scanners are results among others; registration and cancellation.
- Inbound messages and their pruning (packages/kernel/src/communication-service.ts:1108-1469): would add a second record protocol of the same kind.
- Freezing of schemas and outputs in tool-service.ts, `matches` patterns of allowed tools, and audit rings: decided by one branch each.
- Sockets, processes, files, plugins, personas, skills, user interfaces and their schemas: no state that a theorem here is about.
