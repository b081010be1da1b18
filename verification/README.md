# mrmr: verified model of the event engine

mrmr turns outside events into judged, audited effects. This project models its hard guarantees in
Dafny and proves them: the crash-tolerant ingest pipeline, the two source readers and their
checkpoints, the activation of a new configuration, bounded interpretation with its validators, and
three smaller cores (rotating sign-in tokens, evaluation metrics, latency percentiles).

`dafny verify dfyconfig.toml` checks everything.

## How the model is laid out

- `Domain`, `PolicyRules`, `Interpretation`, `Config`, `Validation`: events and lineage, first-match policy, model
  contracts, the configuration validator and exactly what it accepts, routing, and the effect check.
- `RetryLoop`, `SystemOne`, `OpenAIDecision`: the two retry loops, the answer validators, and both
  `Decide` methods.
- `Migrations`: bringing a database up to the supported schema.
- `Store`, `Pipeline`: the tables as a class whose methods are transactions, and the pipeline twice: as
  the `Engine` class, statement by statement, and as the functions `Prepare`, `Perform` and
  `IngestResult` that its methods are proved equal to.
- `Invariants`, `Steps`, `Runs`, `Ingests`, `Confinement`, `Traceability`: the pipeline a third time, as a transition
  system in which any number of ingests interleave at every write and effect, with crashes, lost
  acknowledgements and an operator's stop; what every run keeps; and that a recursive ingest is one of
  its schedules.
- `Effects`: what one ingest leaves in every table and sends out, for each kind of outcome.
- `Offers`: what a source may rely on when it offers an event, whatever else is in flight.
- `Checkpoints`, `JournalRecords`, `Journal`, `JournalPolls`, `JournalRuns`, `Poller`, `PollerRuns`: the
  journal reader and the HTTP poller as classes proved against functions; one poll, with the exact
  conditions of its success; and whole lives of a source as transition systems in which a poll takes one
  record at a time and anything else may be stored in between. Each poll of the classes is proved to be
  a run of those steps.
- `Activation`, `ActivationRuns`, `Attempts`, `Manager`: the activation protocol with restart, as a transition
  system; its promises over every run; what one attempt or startup leaves behind, fault by fault; and the
  manager's methods, each proved to be one statement of it with anything else happening in between.
- `Tokens`, `Metrics`, `Grading`, `Timing`, `Sums`.

Whatever the process cannot control is a parameter of the step it affects: each storage outcome (a write
fails, or succeeds without its acknowledgement), each model, agent and endpoint reply, each generated
identifier, each reading of the stop, and each cancellation check. A statement about every value of such
a parameter is a statement about every such environment. A SHA-256 digest is modelled by the value that
was hashed. Go strings are sequences of bytes; floats are reals.

Four places where a natural reading of the code is not quite true, each with its exact condition:

- The three switches over an outcome (its name, its adapter, the branch executed) test fields in
  different orders. They agree exactly on outcomes that set no notification beside another effect, which
  validation guarantees (`Configuration.SwitchesAgreeIffCoherent`; `Configuration.SwitchesDisagree` is an input).
- The HTTP watermark can move back: if and only if a poll writes it from a batch all of whose
  identifiers lie behind it (`PollerRuns.MovesBackIff`; `PollerRuns.OverlapMovesWatermark` is an input).
  Nothing is lost by it, because everything at or below any watermark ever written is stored
  (`PollerRuns.NoRecordIsSkipped`).
- A journal record counts as delivered once its identity is stored, and POST /api/events accepts any
  source name. An answered offer leaves the record itself under its identity if and only if that identity
  was free or already the record's (`JournalPolls.AnsweredRendersIff`; `JournalPolls.PostedEventTakesIdentity` is an input).
- The diagonal of the confusion matrix counts right categories exactly when no failed case carries the
  reserved label `<invalid>` (`Metrics.DiagonalIsCorrect`; `Metrics.ReservedLabelMisleads` is an input).

## Model

| member | source | states |
|---|---|---|
| PolicyRules.EvaluateEvent | internal/policy/policy.go:106-134 | the returned index is the first rule all of whose conditions match, or -1 when none does, and the outcome is that rule's or the default |
| PolicyRules.SplitJoins | internal/policy/policy.go:139-152 | a dotted path names its fields without loss |
| PolicyRules.LookupNests | internal/policy/policy.go:139-152 | following a path in two legs is following it whole |
| PolicyRules.ModelCannotDecideEventFacts | internal/policy/policy.go:104-134 | conditions on the event's own facts hold or fail whatever the model answered |
| PolicyRules.KeysAddress | internal/policy/policy.go:122-152 | which fact of the event, or which field of the result, each form of key addresses, and which keys address nothing |
| PolicyRules.ConditionsConjoin | internal/policy/policy.go:122-137 | no conditions match everything, and one more condition must address something and match it as well |
| PolicyRules.OutcomeNames | internal/policy/policy.go:66-77 | an outcome that is one thing is named after it, shadow or not |
| Domain.SameDeliveryIff | internal/storage/storage.go:271-300 | two deliveries are one exactly when source and supplied identity agree and, where none was supplied, type, subject and data as well |
| Interpretations.CharactersIff | internal/model/typesafe.go:36-57 | blank text is white space by code point, and an identifier is nonempty ASCII letters, digits, _ and - |
| Interpretations.QuestionIff | internal/model/typesafe.go:54-96 | exactly which instructions and criteria make a question of each kind valid |
| Interpretations.QuestionsIff | internal/model/typesafe.go:18-34 | questions are valid when there are some, each under an identifier and each valid |
| Interpretations.ValueIff | internal/model/model.go:296-330 | exactly which values a field of each type accepts, bounds included, and that listed values are compared as printed |
| Interpretations.ConformsIff | internal/model/model.go:290-338 | an answer conforms exactly when it has the fields of the schema, no more and no fewer, each accepted |
| Configuration.Validate | internal/config/config.go:258-476 | the validator, with its counters, loops and seen-sets, accepts exactly the configurations that satisfy the declarative predicate Valid: dashboard, models, interpretations, filter, agents, sources, monitors and policies |
| Configuration.ValidateDashboard | internal/config/config.go:259-274 | the read-only listener is off, or has a loopback address and a host of at most 253 characters made of lowercase DNS labels |
| Configuration.ValidatePath | internal/filter/filter.go:82-110 | accepts exactly paths that address something comparable: a scalar root alone or a path below a map root, with or without one leading "event." |
| Configuration.ValidateThen | internal/config/config.go:307-373 | an outcome is accepted exactly when at most one effect is set, each is well formed, and one without any is a shadow |
| Configuration.ValidateUnits | internal/config/config.go:423-432 | accepts exactly 1 to 32 distinct well-formed unit names |
| Configuration.ValidateSources | internal/config/config.go:396-447 | accepts exactly well-formed sources with distinct names, and the names seen are exactly theirs |
| Configuration.ValidateMonitors | internal/config/config.go:458-474 | every monitor's policy is checked, accepting exactly when all are sound |
| Configuration.JournalPriority | internal/config/config.go:80-87 | a priority name is found at its own index or is not one of the eight |
| Configuration.SwitchesAgreeIffCoherent | internal/policy/policy.go:66-77 | outcome name, adapter and executed branch agree if and only if a notification is not combined with an action or a delegation |
| Configuration.SwitchesDisagree | internal/policy/policy.go:66-77 | they do disagree: a record with both a notification and an action is named an action and notifies |
| Configuration.ValidationIsSound | internal/config/config.go:258-476 | for every accepted configuration, event and model result: the route is interpretable, the three switches agree, no unsupported or unknown branch is reachable, and an ignore is deliberate |
| Configuration.AcceptedSourcesAreReadable | internal/config/config.go:396-457 | an accepted source has a supported kind, an accepted journal a known priority, scope and units; no two share a name, and every monitor watches one |
| Configuration.PriorityNumbers | internal/config/config.go:80-87 | the eight names and their numbers, and that no other name has one |
| Configuration.RouteOf | internal/runtime/runtime.go:172-181 | a monitor of the source decides interpreter and policy, else an override of the type decides the interpreter, else the configuration decides both |
| Configuration.AdaptersOf | internal/runtime/runtime.go:299-309 | an outcome that is one thing is executed as that and recorded under its means |
| Configuration.AllowedExactly | cmd/mrmr/control_config.go:412-442 | the effect check passes if and only if every outcome a runtime can select does nothing, is a shadow, or is a notification with consent and the stop open whose webhook, if it goes to Discord, resolves |
| Validation.SmallestIsValid | internal/config/config.go:258-476 | one model, one field and nothing to do is a valid configuration |
| Validation.DashboardIff | internal/config/config.go:259-274 | exactly which listener settings keep a valid configuration valid |
| Validation.LabelIff | internal/config/config.go:269-273 | exactly which host labels are accepted |
| Validation.ModelIff | internal/config/config.go:275-287 | exactly which further model does |
| Validation.AgentIff | internal/config/config.go:374-395 | exactly which further agent does: URL, one second to five minutes, model role, capabilities |
| Validation.InterpretationIff | internal/config/config.go:197-256 | exactly what may be asked of each provider |
| Validation.FieldIff | internal/config/config.go:225-241 | exactly which schema fields are accepted |
| Validation.InterpretersIff | internal/config/config.go:288-300 | the default, each type override and each monitor are held to it, a monitor also to a configured source and a valid policy |
| Validation.PolicyIff | internal/config/config.go:458-474 | exactly which further rule and which default keep a valid configuration valid |
| Validation.OutcomeIff | internal/config/config.go:307-373 | exactly which outcomes are valid, shape by shape |
| Validation.FilterIff | internal/filter/filter.go:115-135 | exactly which further filter line keeps a valid configuration valid |
| Validation.PathIff | internal/filter/filter.go:82-110 | exactly which paths can be compared, in either spelling |
| Validation.SourceIff | internal/config/config.go:396-447 | exactly which further source keeps a valid configuration valid |
| Validation.UnitsIff | internal/config/config.go:423-432 | one to thirty-two distinct well-formed names of at most 255 bytes |
| Configuration.AcceptedSpecIsInterpretable | internal/config/config.go:197-256 | an accepted interpretation never reaches the agent-role, unsupported-provider or unsupported-type errors |
| Configuration.AcceptedOutcomeIsSupported | internal/runtime/runtime.go:299-388 | an accepted outcome takes a supported branch of execute and delegate |
| Configuration.EvaluationRoute | internal/config/config.go:164-185 | operation, reading the runtime's fields, and evaluation, reading the configuration, select the same interpreter, model and policy |
| Configuration.AllowedIsConfined | cmd/mrmr/control_config.go:412-442 | a configuration that passes the activation check offers no live effect but notifications, and those only with consent and the stop open, in any policy, paused monitors included |
| RetryLoop.InterpretOpenAI | internal/model/model.go:86-154 | for every budget, endpoint and schema the loop yields a trace in which each post is justified by the reply before it, at most budget posts are made, and the outcome is the last reply's classification |
| RetryLoop.TraceIsDeterministic | internal/model/model.go:86-154 | the trace specification admits exactly one behaviour for each endpoint |
| RetryLoop.TurnsAreBounded | internal/model/model.go:86-154 | at most one correction turn is ever sent, and a dropped response_format never comes back |
| RetryLoop.FormatDroppedExactlyOnRejection | internal/model/model.go:86-154 | a post lacks the response_format exactly when an earlier post that carried it was answered 400 |
| RetryLoop.SecondAnswerIsFinal | internal/model/model.go:86-154 | a second received answer ends the interpretation whatever budget remains, and the first had been rejected |
| RetryLoop.LastReplyDecides | internal/model/model.go:271-338 | success returns only an object with exactly the schema's fields, types, bounds and enums; invalid exactly when the last answer was received and rejected; transport failure exactly when the last post failed |
| RetryLoop.EachReplyDecides | internal/model/model.go:100-154 | of any trace: a conforming object succeeds; a network failure, a status of 500 or more, the first 400 and the first rejected content lead to another post unless the budget is spent or the wait interrupted; anything else ends the loop at once with its own classification |
| RetryLoop.PostCarries | internal/model/model.go:100-154 | a post carries the response_format until one was refused, and the correction turn once some content was rejected |
| RetryLoop.TransientFailuresAreRetried | internal/model/model.go:112-130 | however many transient failures precede it within the budget, a conforming object is asked for by an unchanged post and returned |
| SystemOne.ValidateProbabilities | internal/model/typesafe.go:402-418 | the key count plus lookups accept exactly distributions over the configured keys, in whatever order the keys come |
| SystemOne.ValidateChoice | internal/model/typesafe.go:330-355 | accepts exactly configured choices of maximal probability in a distribution over exactly the options |
| SystemOne.ChosenOptionIsLikely | internal/model/typesafe.go:330-355 | an accepted choice among n options has probability at least 0.99/n - 1e-9 |
| SystemOne.ValidateLegend | internal/model/typesafe.go:371-381 | the lookups plus the count accept exactly the configured legend, although a missing entry reads as the empty string |
| SystemOne.ValidateScore | internal/model/typesafe.go:356-392 | accepts exactly scores in range, within 0.01 of the expected level of a distribution over exactly the levels |
| SystemOne.ValidateAnswer | internal/model/typesafe.go:305-396 | decodes exactly the accepted answers |
| SystemOne.ValidateResponse | internal/model/typesafe.go:274-303 | accepts exactly responses whose answer ids are the configured ones and whose answers are all accepted |
| SystemOne.AcceptedIsJudged | internal/model/decision.go:81-113 | what a caller may assume of an accepted answer after normalization; a yes/no value equals probability >= 0.5 |
| SystemOne.AcceptedAreJudged | internal/model/decision.go:95-111 | after an accepted response no dereference of a missing noul can happen, and every configured question has a judged answer |
| SystemOne.Decide | internal/model/decision.go:81-113 | retry loop included: invalid questions are never sent, valid ones are answered exactly when the loop ends with a body the validators accept; the answers cover exactly the questions, each is that body's own, normalized, and each is judged |
| SystemOne.DelayGrows | internal/model/typesafe.go:200-218 | one turn of the loop takes the k-th wait to the next, which doubles it, honours a longer Retry-After and is capped |
| SystemOne.Interpret | internal/model/typesafe.go:194-231 | at most budget posts, each but the last answered retriably and no wait between them interrupted, every wait exactly as specified, and the outcome the last reply calls for: the decoded answers of a body exactly when the validators accept it |
| SystemOne.EachReplyDecides | internal/model/typesafe.go:194-231 | no reply, a 429 and a status of 500 or more lead to another post unless the budget is spent or the wait interrupted; any other status and every body end the loop, a body as success exactly when it is accepted |
| SystemOne.TransientFailuresAreRetried | internal/model/typesafe.go:207-224 | however many transient failures precede it within the budget, an acceptable body is asked for and its answers returned |
| SystemOne.WaitIsExact | internal/model/typesafe.go:200-218 | each wait is the longest of a quarter second and of every Retry-After so far, each doubled for each failure since, and at most five seconds |
| SystemOne.PlainWaits | internal/model/typesafe.go:193-218 | without a Retry-After the waits are 250, 500, 1000, 2000 and 4000 ms, then 5 s each |
| SystemOne.AnsweredExactly | internal/model/typesafe.go:274-303 | a reply answers the questions exactly when it names its model, has exactly their ids, and each answer is accepted under its wire name |
| SystemOne.DistributionIff | internal/model/typesafe.go:398-418 | probabilities within [0,1], one for each name, adding up to 1 within 0.01 |
| SystemOne.ChoiceIff | internal/model/typesafe.go:330-355 | exactly which choice answers are accepted |
| SystemOne.ScoreIff | internal/model/typesafe.go:356-392 | exactly which score answers are accepted |
| SystemOne.NoulIff | internal/model/typesafe.go:317-329 | exactly which yes-or-no answers are accepted |
| SystemOne.PortableNameIsUnanswered | internal/model/typesafe.go:393-395 | an answer is accepted for a question under its wire name only |
| SystemOne.LevelsAreWeighed | internal/model/typesafe.go:385-391 | the expected level gives each level's probability the weight of its number |
| SystemOne.LevelNames | internal/model/typesafe.go:371-374 | the levels are named by their digits |
| SystemOne.AnswersAreTheReplys | internal/model/decision.go:95-111 | every field of a caller's answer is the reply's, and a yes-or-no value is whether its probability is one half or above |
| OpenAIDecision.BuildSchema | internal/model/decision.go:122-141 | every valid question gets a field admitting exactly its answers |
| OpenAIDecision.AcceptedAssertion | internal/model/decision.go:122-169 | the field built for a question accepts exactly the values that answer it, although enum members are compared as printed |
| OpenAIDecision.ConformingAssertions | internal/model/decision.go:152-169 | an object conforms to the schema exactly when it answers exactly the questions, each admissibly; so no type assertion can fail |
| OpenAIDecision.AdmissibleIff | internal/model/decision.go:122-169 | an admissible answer is an option of its choice, a level of its scale, or a yes or no, and an answer read is the very value given |
| OpenAIDecision.AnswersAreTheObjects | internal/model/decision.go:152-169 | the caller reads an option, a level or a yes or no exactly as the object has it |
| OpenAIDecision.ReadAnswers | internal/model/decision.go:152-169 | every question is answered by exactly the value the model gave |
| OpenAIDecision.SuccessIsTheLastReply | internal/model/model.go:86-154 | the loop succeeds exactly when its last reply is an accepted object, and returns that object, which conforms |
| OpenAIDecision.Decide | internal/model/decision.go:117-171 | retry loop included: invalid questions are never sent, valid ones go out under the schema built for them and are answered exactly when the last reply of the loop's trace conforms to it; every answer is then the very value in that reply, and no assertion fails |
| Migrations.Migrator.Current | internal/storage/storage.go:235-238 | the greatest recorded version, 0 for none |
| Migrations.Migrator.Migrate | internal/storage/storage.go:231-261 | exactly the migrations up to the version reached have run, once each and in order, whatever transaction fails |
| Migrations.OpeningIsForward | internal/storage/storage.go:235-260 | one opening never goes back, skips or overshoots; it succeeds only at the supported version, and refuses a newer database untouched |
| Migrations.OpeningStopsAtFailure | internal/storage/storage.go:240-260 | an opening goes exactly as far as its first failing migration, which counts if only its acknowledgement was lost |
| Migrations.OpeningsAreForward | internal/storage/storage.go:102-105 | over any sequence of openings by any binaries with any failures the version never goes back and never passes what they support, and one clean opening by the newest brings it exactly there |
| Pipeline.Engine.Admit | internal/runtime/runtime.go:125-251 | the statements from the insert to durable intent compute Prepare: dedup, revision, depth guard, filter, answer, decision row, first-match policy, intent |
| Pipeline.Engine.Ingest | internal/runtime/runtime.go:98-286 | the recursive pipeline computes IngestResult, terminating on 11 minus depth |
| Pipeline.Engine.Execute | internal/runtime/runtime.go:315-388 | the effect switch computes Perform, and a child's own persistence failure is all that reaches the parent |
| Invariants.InsertKeeps | internal/storage/storage.go:271-300 | the insert keeps every promise of the tables, and an event just inserted has no decision, execution, dispatch or model call |
| Invariants.DecisionKeeps | internal/storage/storage.go:302-311 | the decision row keeps every promise |
| Invariants.BeginKeeps | internal/storage/storage.go:319-334 | the intent row keeps every promise |
| Invariants.DispatchKeeps | internal/runtime/runtime.go:248-266 | performing a justified effect keeps every promise |
| Invariants.FinishKeeps | internal/storage/storage.go:336-342 | the status update keeps every promise; a row ends shadow only if its event had no effect |
| Invariants.DepthLeadsToOrigin | internal/runtime/runtime.go:259-266 | from any stored event exactly Depth parent links lead to its origin, which came from outside |
| Invariants.FewerStepsFallShort | internal/runtime/runtime.go:259-266 | no shorter walk leaves the system |
| Steps.KeepReceive | internal/runtime/runtime.go:125-135 | receiving keeps the system invariant whatever the insert does, with any other ingests in flight |
| Steps.KeepStored | internal/runtime/runtime.go:136-140 | recording the revision keeps it |
| Steps.KeepRefused | internal/runtime/runtime.go:143-170 | the depth guard and the filter end an event with an ignore row and no judgment |
| Steps.KeepAsked | internal/runtime/runtime.go:172-208 | a model is consulted once for an event |
| Steps.KeepAnswering | internal/runtime/runtime.go:209-211 | the decision row is written once |
| Steps.KeepDecided | internal/runtime/runtime.go:216-251 | intent is written pending, tied to the decision and to what its policy selects for it |
| Steps.KeepReady | internal/runtime/runtime.go:252-266 | the gate check keeps it |
| Steps.PerformIsJustified | internal/runtime/runtime.go:258-266 | an effect is performed only while its own row is pending, for an ok decision and a live outcome |
| Steps.ChildrenWellBorn | internal/runtime/runtime.go:357-380 | an emitted or completion event names its parent's own decision and execution rows, takes its delivery identity from them, and inherits the parent's subject and, when emitted, exactly the judgment as data |
| Steps.KeepSpawned | internal/runtime/delegate.go:52-69 | re-entry with a child event keeps it |
| Steps.KeepFinishing | internal/runtime/runtime.go:272-283 | the final status keeps it |
| Steps.ApplyKeeps | internal/runtime/runtime.go:98-286 | every single step of any ingest, operator or crash keeps the invariant |
| Steps.EveryRunIsSafe | internal/runtime/runtime.go:98-286 | so does every schedule |
| Runs.AtMostOneOfEach | internal/runtime/runtime.go:98-286 | over every interleaving, failure and crash: one event for each delivery identity, and one decision, execution row, model call and dispatch for each event |
| Runs.LineageLeadsOut | internal/runtime/runtime.go:259-266 | in every reachable state each event's parent links reach its origin in exactly Depth steps, Depth at most 11 |
| Runs.ChildrenAreUnique | internal/runtime/runtime.go:357-380 | in every reachable state an event has at most one emitted and at most one completion child |
| Runs.RowsBelongToTheirRuntime | internal/runtime/runtime.go:136-140 | a recorded revision is that of the ingesting runtime, whose routed policy selected every judged row |
| Traceability.JudgedEventsAreTraced | internal/runtime/runtime.go:136-140 | in every run, an event is judged only once the revision of the runtime that ingested it is on record |
| Runs.EffectsFollowIntent | internal/runtime/runtime.go:244-266 | whatever step of whatever run reaches outside, the table already held that effect's own pending row, tied to an ok decision and the live outcome its policy selects, and no earlier effect for the event |
| Runs.GateGuardsPassing | internal/runtime/runtime.go:252-252 | nothing passes a closed gate, and a persisted stop survives a crash |
| Runs.StopIsFinal | internal/storage/control.go:10-23 | once the stop is closed in memory and persisted, no gate check passes again in any ingest, under any revision, after any restart |
| Runs.NoEffectBeginsAfterStop | cmd/mrmr/control_config.go:354-380 | after a successful return to shadow, the only live effects ever performed belong to executions that had passed the check before |
| Runs.Simulates | internal/runtime/runtime.go:98-286 | every recursive ingest with all its descendants is a schedule of the statement-level system: same tables, same response |
| Runs.IngestKeeps | internal/runtime/runtime.go:98-286 | so a whole ingest keeps every promise of the tables |
| Ingests.CascadeIsBounded | internal/runtime/runtime.go:147-152 | ingesting depth d stores at most max(1, 12-d) events and consults a model at most max(0, 11-d) times |
| Ingests.IngestGrows | internal/runtime/runtime.go:98-286 | an ingest loses and rewrites nothing but execution statuses |
| Ingests.IngestFailsIff | internal/runtime/runtime.go:125-214 | an ingest reports an error if and only if the insert, revision or decision write failed or lost its acknowledgement, or met an identifier already in use |
| Ingests.HealthyIngestCompletes | internal/runtime/runtime.go:125-286 | with no storage fault and fresh identifiers a new admitted event ends with its revision, exactly one decision, the model's, exactly one execution closed with the status of its effect, and the answer of that decision |
| Ingests.HealthyRefusalCompletes | internal/runtime/runtime.go:143-170 | an event past the depth cap or filtered out ends with exactly the row that says so, no judgment, no model call and no effect |
| Effects.NotificationIsSent | internal/runtime/runtime.go:317-334 | all tables after a healthy ingest that selects a live notification: sent once and closed by its result, or not sent and failed when the webhook does not resolve or the way is unknown |
| Effects.HttpActionIsSent | internal/runtime/runtime.go:336-356 | the same of an HTTP action: dispatched once, its row closed by whether the endpoint accepted it; an unknown action is not dispatched and fails |
| Effects.DelegationIsSent | internal/runtime/delegate.go:15-38 | the same of a delegation without completion: not sent unless the agent is ready, failed if the agent fails |
| Effects.EmitReenters | internal/runtime/runtime.go:357-381 | an emit is dispatched once, its child, field by field, is ingested next over those tables, and only its failure to be stored fails the row |
| Effects.CompletionReenters | internal/runtime/delegate.go:39-68 | the same of a completion event |
| Effects.ShadowIsRecorded | internal/runtime/runtime.go:252-257 | a shadow, or anything but ignore under a closed gate, is recorded and not dispatched |
| Effects.IgnoreSucceeds | internal/runtime/runtime.go:387-387 | nothing to do succeeds whatever the gate says |
| Effects.FailureIsRecorded | internal/runtime/runtime.go:192-231 | all tables after a failed or invalid answer: its decision, and an ignore by decision-failed that succeeds |
| Effects.RefusalIsRecorded | internal/runtime/runtime.go:143-170 | all tables after an event past depth 10 or excluded by the filter |
| Effects.NoIntentNoEffect | internal/runtime/runtime.go:246-251 | without durable intent nothing is dispatched and no child is ingested, and the answer is the decision's all the same |
| Effects.KeysAreEnforced | internal/storage/storage.go:302-334 | a decision needs its event, an execution its event and decision, and neither an identifier in use |
| Effects.FaultsChangeOnlyTheReport | internal/storage/storage.go:271-342 | a lost acknowledgement leaves what the write would have left, a failed statement nothing, and both are reported |
| Ingests.DuplicateIffTaken | internal/runtime/runtime.go:128-135 | an ingest answers duplicate exactly when its key was taken and the insert was healthy, and then changes nothing; any answer but an error leaves the key taken |
| Ingests.RedeliveryIsInert | internal/runtime/runtime.go:128-135 | redelivery under any runtime, after anything else has happened, changes nothing |
| Ingests.ClosedGateOnlySuppresses | internal/runtime/runtime.go:244-285 | between two runs that differ only in the gate: same response, the same event, revision and decision rows and the same execution rows of the event but for the status; a non-ignore outcome has everything up to intent on record and loses its effect and descendants, anything else is the same in every respect |
| Ingests.FailedModelIsHarmless | internal/runtime/runtime.go:192-231 | with a failed or invalid answer, whatever the policy, no effect is performed, no child stored, and the outcome is ignore |
| Ingests.EvaluationAgrees | cmd/mrmr/eval.go:164-194 | for any configuration, event and model reply, a judged ingest used evaluation's interpreter, model and policy and answered evaluation's outcome, model failure included |
| Offers.IngestIsOffer | internal/runtime/runtime.go:98-286 | an ingest by itself loses nothing, keeps identities unique, leaves its event's identity stored unless it reports an error, and adds besides the event only deeper ones under the process's own source names |
| Offers.InterleavedIsOffer | internal/runtime/runtime.go:98-286 | the same of an ingest with which any other ingests and operator actions interleave statement by statement |
| Offers.CutShortIsOffer | internal/runtime/runtime.go:98-286 | one cut short by a crash is an offer that failed: nothing is lost and identities stay unique |
| Confinement.SelectsHarmless | internal/runtime/runtime.go:216-231 | whatever the model answers, a confined runtime selects only harmless outcomes |
| Confinement.RunsStayConfined | internal/runtime/runtime.go:315-388 | in every run, beside any other runtimes, ingests under a confined one have no parent, start none and only notify |
| Confinement.ActivatedRuntimesAreConfined | cmd/mrmr/control_config.go:412-442 | so every event ingested under a configuration that passed the activation check has depth 0 and no provenance, and its effect is never an HTTP action, an emit or a delegation, and a notification only if the check had consent while the stop was open |
| JournalRecords.WatchedUnit | internal/source/journal.go:229-266 | the early returns and the unit loop decide the declarative identity rule: scope, not our own output, a configured unit |
| JournalRecords.ClientsCannotChooseTheUnit | internal/source/journal.go:229-266 | no field a client can set, the message included, changes whether a record is watched or for which unit, unless the scope's own manager wrote it |
| JournalRecords.Normalize | internal/source/journal.go:282-317 | skips, rejects or builds the event exactly as specified |
| JournalRecords.SystemUnitIsWatched | internal/source/journal.go:229-266 | exactly which records a system source watches, and under which unit |
| JournalRecords.UserUnitIsWatched | internal/source/journal.go:229-266 | exactly which records a user source watches; any other scope watches none |
| JournalRecords.LessSevereIsSkipped | internal/source/journal.go:282-289 | a watched record is skipped exactly when its severity number is above the source's threshold |
| JournalRecords.NoSeverityIsSkipped | internal/source/journal.go:282-289 | a severity that is missing, malformed or negative, and an unwatched record, are skipped |
| JournalRecords.TimestampDecides | internal/source/journal.go:290-293 | a selected record needs a timestamp above zero; zero, a negative one or none is an error |
| JournalRecords.TimestampIsANumber | internal/source/journal.go:290-293 | and so is one that is not a decimal number |
| JournalRecords.SelectedIsRendered | internal/source/journal.go:294-316 | source, type, subject, delivery identity and depth of the event |
| JournalRecords.DataIsRendered | internal/source/journal.go:294-313 | the unit, the severity number, and the message, whole up to 4096 bytes and clipped beyond |
| JournalRecords.DataIsMarked | internal/source/journal.go:294-313 | exactly which fields there are: a clipped or empty message is marked, and a user source adds its account |
| JournalRecords.NumbersParse | internal/source/journal.go:284-291 | numbers within 64 bits are read with either sign |
| JournalRecords.OnlyNumbersParse | internal/source/journal.go:284-291 | nothing but digits after an optional sign is a number, and a leading zero adds nothing |
| JournalRecords.ItoaIsDecimal | internal/source/journal.go:234-246 | numbers are printed in decimal |
| JournalRecords.ValidCursorIff | internal/source/journal.go:218-225 | a position is 1 to 4096 bytes without NUL, CR or LF |
| JournalRecords.Clip | internal/source/journal.go:304-311 | a long message keeps its longest valid UTF-8 prefix within the bound |
| JournalRecords.ItoaParses | internal/source/journal.go:234-246 | identities printed in decimal parse back, so comparing them as text is exact |
| Journal.Reader.Prepare | internal/source/journal.go:59-91 | first activation takes the current tail, a later one only probes the old checkpoint |
| Journal.Reader.Poll | internal/source/journal.go:130-187 | one poll: the tables, checkpoint and error of the specification, for every fault |
| JournalPolls.WalkSettles | internal/source/journal.go:149-178 | a batch walk without error dealt with every record and stands at the last |
| JournalPolls.WalkStores | internal/source/journal.go:149-175 | even a failed walk stores, of this source, nothing but records it was given |
| JournalPolls.WalkFailsForACause | internal/source/journal.go:149-178 | the error of a failed walk names its cause: the cancellation, the malformed record, or the ingest fault at the very tables the walk had reached |
| JournalPolls.WalkSucceedsIff | internal/source/journal.go:149-178 | a walk succeeds if and only if it is not cancelled and no item is malformed or meets an ingest fault at the tables reached |
| JournalPolls.AnsweredRendersIff | internal/source/journal.go:166-175 | an answered offer leaves the record itself, rendered, under its identity if and only if that identity was free or already the record's |
| JournalPolls.PostedEventTakesIdentity | cmd/mrmr/main.go:272-310 | it does happen: with an event posted under a source's name and a line's cursor, the qualifying line is answered as a duplicate and stored nowhere |
| JournalRuns.BatchIsWindow | internal/source/journal.go:189-205 | under journalctl's contract an exact checkpoint yields exactly the next 100 records and a vacuumed one an error |
| JournalRuns.PollStores | internal/source/journal.go:130-187 | a poll stores, of this source, nothing but records of its window, and nothing at all across a vacuumed gap |
| JournalRuns.PollAdvancesOrStays | internal/source/journal.go:130-187 | a poll moves the checkpoint by exactly min(100, backlog) records, all handled, or not at all; without an error it does move |
| JournalRuns.PollSucceedsIff | internal/source/journal.go:130-187 | a poll succeeds if and only if the checkpoint is readable and still in the journal, journalctl answers, nothing cancels it, no record is malformed, no ingest meets a fault, and the new checkpoint is saved |
| JournalRuns.HealthyPollAdvances | internal/source/journal.go:130-187 | with no cancellation, well-formed records, no storage faults and fresh identifiers a poll reports no error and the checkpoint row names the record exactly min(100, backlog) further on |
| JournalRuns.ReactivationChangesNothing | internal/source/journal.go:64-67 | a prior checkpoint survives activation whatever the probe finds |
| JournalRuns.PrepareExactly | internal/source/journal.go:59-91 | preparing, fault by fault: with a checkpoint it only probes it; without one it takes the newest record's position, once that reads back, and succeeds exactly when it was saved |
| JournalRuns.StepKeeps | internal/source/journal.go:59-205 | every append, vacuum, activation, poll start, single offer, abort, save and other work in between keeps the promise |
| JournalRuns.NoRecordIsLost | internal/source/journal.go:59-205 | over every run, however offers, failures, deaths and other ingests interleave: each record after the tail up to the checkpoint is handled, every event under the source's name is such a record rendered unless an intruder used the name, and neither position moves back |
| JournalRuns.ExactlyOneEventEach | internal/source/journal.go:149-186 | each qualifying record after the tail up to the checkpoint has exactly one event under its identity; unless an intruder used the source's name that event is the record itself, rendered, or, for a source named mrmr or mrmr.agent, possibly one of the process's own child events |
| JournalRuns.PollIsARun | internal/source/journal.go:130-187 | each poll of the reader, whatever fails in it, is a run of the single steps, and intrudes on no source |
| Poller.HttpPoller.Poll | internal/source/poller.go:108-185 | one poll: the tables, watermark and error of the specification, for every fault |
| Poller.RecordIsKeptWhole | internal/source/poller.go:256-295 | the event keeps the whole record as its data and reads subject and identity from the configured fields |
| Poller.LessIff | internal/source/poller.go:148-151 | identifiers are ordered bytewise: at the first difference the smaller byte, or the shorter string, is less |
| PollerRuns.CursorFieldIsIdentity | internal/source/poller.go:256-295 | an item is an event unless it is no object or lacks a configured cursor field as a nonempty string or exact number; and two items are one delivery exactly when they agree in that field |
| PollerRuns.CompleteBatchIsKept | internal/source/poller.go:124-157 | a batch that ends complete was stored to the last item, and its watermark is the string maximum of its identifiers in whatever order |
| PollerRuns.CompleteIff | internal/source/poller.go:124-157 | an uncancelled batch ends complete if and only if every item becomes an event and no ingest meets a fault at the tables reached |
| PollerRuns.WritesExactly | internal/source/poller.go:159-175 | the watermark is written if and only if the batch is not empty, there is a cursor field, nothing cancels the poll, every item succeeds and the row is written, acknowledged or not; it is then the greatest identifier of the batch |
| PollerRuns.SucceedsExactly | internal/source/poller.go:108-185 | a poll reports no error if and only if the feed answers, nothing cancels it to its end, every item succeeds and a watermark to write is saved; a cancellation is reported as itself |
| PollerRuns.WatermarkIsBatchMaximum | internal/source/poller.go:166-175 | the watermark is only ever written as the maximum of a batch whose every item is stored |
| PollerRuns.NoFieldNoWatermark | internal/source/poller.go:288-295 | without a cursor field it is never written |
| PollerRuns.StepKeeps | internal/source/poller.go:108-185 | every publication, poll start, single offer, abort, save and other work in between keeps the promise |
| PollerRuns.NoRecordIsSkipped | internal/source/poller.go:108-185 | over every run against a server that sends everything past the watermark and adds only greater ids, whatever is published or stored between the items of a poll: each record at or below the watermark is stored |
| PollerRuns.KeepsWatermarkIff | internal/source/poller.go:159-175 | a poll that writes the watermark leaves it at or past the old one if and only if some item's identifier is |
| PollerRuns.MovesBackIff | internal/source/poller.go:159-175 | over all polls the watermark moves back if and only if it is written from a batch whose identifiers all lie behind it |
| PollerRuns.OverlapMovesWatermark | internal/source/poller.go:148-151 | it does happen: with the watermark at "b", a healthy poll that is sent the stored record "a" again leaves it at "a", which is less |
| PollerRuns.PollIsARun | internal/source/poller.go:108-185 | each poll of the poller, whatever fails in it, is a run of the single steps |
| ActivationRuns.StepKeeps | cmd/mrmr/control_config.go:406-580 | every statement of an activation or startup, and everything the environment may do between two of them, keeps all promises of the protocol |
| ActivationRuns.IdentityIsTheMapping | cmd/mrmr/control_config.go:451-476 | a name may be reused exactly when everything but pausing, interval, units and priority is unchanged, an omitted journal scope being the system scope |
| ActivationRuns.CheckpointKeeps | cmd/mrmr/control_config.go:37-64 | preparing a source writes only a missing or empty row that no running poller owns |
| ActivationRuns.EveryRunKeeps | cmd/mrmr/control_config.go:406-580 | so does every run |
| ActivationRuns.ActivationAgreement | cmd/mrmr/control_config.go:528-567 | on every exit and after any crash and restart, absent outside edits, the file holds the active snapshot's text; exactly its unpaused pollers run; pollers of two snapshots never coexist |
| ActivationRuns.FileChangesOnlyAtCommit | cmd/mrmr/managed.go:413-440 | the process changes the file in one statement, and only a crash before its directory sync can undo it |
| ActivationRuns.CommitIsIrrevocable | cmd/mrmr/control_config.go:558-579 | after the rename nothing turns back: whatever happens in between short of a death, and whichever statements fail, the process's three further statements end with the new snapshot current and polled, no checkpoint lost, and the file as renamed unless someone edits it |
| ActivationRuns.FailureKeepsTheOld | cmd/mrmr/control_config.go:533-562 | up to the rename a failure keeps the file, the snapshot and its pollers |
| ActivationRuns.FailedAttemptRestoresCheckpoints | cmd/mrmr/control_config.go:486-515 | a failed attempt whose cleanup succeeds leaves exactly the prior rows and those running pollers wrote, the latter as last written; a nonempty prior row changes only through its own poller |
| ActivationRuns.PriorCheckpointsSurvive | cmd/mrmr/control_config.go:486-515 | no activation deletes or overwrites a row that existed when it surveyed them or that a running poller wrote since |
| ActivationRuns.RevisionsStayIntact | cmd/mrmr/control_config.go:549-567 | every event's recorded revision has a retained row holding the text it names, in every reachable state and ever after |
| ActivationRuns.ActivatedAreConfined | cmd/mrmr/control_config.go:412-442 | every configuration an activation made current is confined as it was checked |
| ActivationRuns.StopOutlivesRestarts | cmd/mrmr/managed.go:136-140 | a persisted stop outlives every restart |
| ActivationRuns.NothingLiveAfterStop | cmd/mrmr/control_config.go:429-431 | and no activation after it is admitted with a live outcome |
| Attempts.BeginsIff | cmd/mrmr/control_config.go:406-478 | exactly which requests begin an attempt |
| Attempts.UndisturbedAttemptActivates | cmd/mrmr/control_config.go:479-580 | the whole state after an attempt that meets no fault: file, checkpoints, revision rows, snapshot and pollers |
| Attempts.FailingStatement | cmd/mrmr/control_config.go:479-580 | the whole state after each statement that fails, and that none past the rename turns back |
| Attempts.SlowStatements | cmd/mrmr/control_config.go:529-562 | a drain ends only when no poller is left, and a rename that was not synced can be undone |
| Attempts.CleanupDeletes | cmd/mrmr/control_config.go:506-515 | the cleanup deletes exactly the created rows, or goes on past one it cannot delete |
| Attempts.UndisturbedBoot | cmd/mrmr/managed.go:92-210 | the whole state after a startup that meets no fault; it is stopped exactly if the stop was durable |
| Attempts.FailingBoot | cmd/mrmr/managed.go:92-210 | the whole state after a startup statement that fails, and after a startup without a file |
| Attempts.FirstBootIsOpen | cmd/mrmr/managed.go:92-210 | the whole state after the first startup on a machine |
| Attempts.StopAndEvaluation | cmd/mrmr/control_config.go:354-380 | the stop becomes durable only once it is closed; an evaluation records a new text and leaves a recorded one alone |
| Managers.Manager.Admit | cmd/mrmr/control_config.go:406-478 | the checks before anything changes admit a request if and only if it is admissible, and admitting it is the first step of the protocol |
| Managers.Manager.EffectsPass | cmd/mrmr/control_config.go:412-442 | the loops over policies and outcomes decide the effect check |
| Managers.Manager.SourcesPass | cmd/mrmr/control_config.go:443-478 | the nested loops decide that running journals have checkpoints and reused names keep their identity |
| Managers.Manager.MissingRows | cmd/mrmr/control_config.go:488-505 | collects exactly the names whose row only this attempt can create |
| Managers.Manager.Prepare | cmd/mrmr/control_config.go:37-64 | preparing every source is a run of the protocol that ends ready or in cleanup |
| Managers.Manager.Drain | cmd/mrmr/control_config.go:529-532 | draining ends with no poller running, whatever they did meanwhile |
| Managers.Manager.StartSources | cmd/mrmr/control_config.go:65-72 | starts exactly one poller for each unpaused source of the current snapshot |
| Managers.Manager.ReplaceConfig | cmd/mrmr/managed.go:413-440 | after a rename the file holds the whole new text; without one, and unless someone else edits it, exactly what it held |
| Managers.Manager.CleanUp | cmd/mrmr/control_config.go:506-515 | the deferred cleanup visits every created name and ends idle |
| Managers.Manager.Activate | cmd/mrmr/control_config.go:406-580 | activate, with arbitrary interference between its statements: it ends idle with the new snapshot current if it committed and the old one otherwise, polled by exactly its pollers; unless someone else edits the file meanwhile it holds the new text after a commit and is untouched otherwise, so it still agrees with the snapshot if it did before; it commits only what is admissible with no statement failed, and with an undisturbed file and every journal position available exactly then |
| Managers.Manager.Boot | cmd/mrmr/managed.go:92-210 | startup, with arbitrary interference between its statements: it comes up with the text the file held when it was read as its snapshot and its pollers running, or not at all: only if that text is absent or decodes and no statement fails, and then always if every journal position is available; unless someone else edits it the file is as it was |
| Tokens.PersistingTokens.Token | internal/superhuman/store.go:176-201 | one call: record, dirty flag, file, returned token and presented refresh token of the specification |
| Tokens.SavesAreAtomic | internal/superhuman/store.go:124-161 | through any sequence of failing saves the file holds, and a power loss can bring back, only whole grants that could come back before or were saved since; after a save that reports success only that grant |
| Tokens.TokensAreSavedFirst | internal/superhuman/store.go:176-201 | a caller only receives a token whose grant the file holds, and a save this call made is past undoing |
| Tokens.OmittedRefreshIsKept | internal/superhuman/store.go:185-198 | a renewal without a refresh token keeps the old one, and the one presented was the one held |
| Tokens.UnsavedIsKept | internal/superhuman/store.go:179-184 | an unsaved grant is kept: no token is handed out and the server is not asked until a save succeeds |
| Tokens.FreshGrantIsReused | internal/superhuman/store.go:185-189 | an unexpired saved grant is handed out unchanged, nothing is written and the server is not asked |
| Tokens.FailedRefreshYieldsNothing | internal/superhuman/store.go:185-189 | a failed refresh presents the held token, yields none and changes nothing |
| Tokens.RenewalIsSaved | internal/superhuman/store.go:185-201 | the whole result of a successful refresh: handed out exactly when it brings nothing new or could be saved whole, and held unsaved otherwise |
| Tokens.UnsavedIsSavedFirst | internal/superhuman/store.go:179-184 | an unsaved grant that can now be saved is saved first, and the call goes on as with a saved one |
| Tokens.EveryRunKeeps | internal/superhuman/store.go:163-201 | over every run of calls, failed saves and crashes a clean grant is the saved one, and while nothing was lost none is one the server replaced |
| Tokens.RetiredIsNeverPresented | internal/superhuman/store.go:163-201 | a replaced refresh token is presented only if some process died before its replacement was saved |
| Tokens.LossNeedsADeath | internal/superhuman/store.go:163-167 | nothing is lost but by a death that found a grant unsaved |
| Tokens.CrashWindow | internal/superhuman/store.go:163-167 | that window is real: a concrete run presents the old token again |
| Metrics.JudgedCategoryIsInRange | cmd/mrmr/eval.go:228-241 | an accepted choice always carries a probability between 0 and 1 for its own category, so no bucket index is out of range |
| Metrics.AnswersAreRead | cmd/mrmr/eval.go:308-331 | how a category and an action are read of flat and judged answers, in which order, and that one half is a yes |
| Metrics.FailuresAreReserved | cmd/mrmr/eval.go:183-192 | a case without an answer counts as predicted under the reserved word |
| Metrics.ProbabilityIsTheChosens | cmd/mrmr/eval.go:228-231 | the probability graded is the one filed under the chosen category |
| Metrics.BucketsAreFifths | cmd/mrmr/eval.go:232-232 | the five buckets are the fifths with their lower ends, the last with 1 as well |
| Metrics.RatioIsShare | cmd/mrmr/eval.go:333-338 | a ratio times its denominator is its numerator, and 0 of nothing |
| Metrics.BumpTallies | cmd/mrmr/eval.go:224-227 | the nested map holds the count of every expected/predicted pair and nothing else |
| Metrics.TalliesDetermine | cmd/mrmr/eval.go:224-227 | the counts leave no choice about the matrix, whatever order it was built in |
| Metrics.CountsAddUp | cmd/mrmr/eval.go:252-272 | a count split by a name adds up over any enumeration of the names |
| Metrics.RowSumsToSupport | cmd/mrmr/eval.go:252-261 | a row of the matrix sums to its label's support in any visiting order |
| Metrics.ColumnSumsToPredictions | cmd/mrmr/eval.go:262-268 | a column sums to the predictions of its label in any visiting order |
| Metrics.SupportsSumToCases | cmd/mrmr/eval.go:252-261 | the supports sum to the number of judged cases |
| Metrics.EntriesSumToCases | cmd/mrmr/eval.go:224-272 | the entries of the whole matrix sum to the number of judged cases, by rows and by columns, in any order |
| Metrics.DiagonalIsCorrect | cmd/mrmr/eval.go:199-227 | the diagonal is the right categories plus failed cases under the reserved label, so it is the right categories exactly when there is no such case |
| Metrics.ReservedLabelMisleads | cmd/mrmr/eval.go:199-227 | it does happen: one failed case labelled with the reserved word puts a one on the diagonal with nothing right |
| Grading.GradeOne | cmd/mrmr/eval.go:183-222 | one case changes each counter exactly when its test holds |
| Grading.Tally | cmd/mrmr/eval.go:163-227 | the loop computes every counter and the matrix as counts of the judged cases |
| Grading.FillBuckets | cmd/mrmr/eval.go:158-162 | the five buckets hold the counts and probability sums of their intervals |
| Grading.MeanInInterval | cmd/mrmr/eval.go:274-281 | a nonempty bucket's mean lies in its own interval |
| Grading.CalibrationLists | cmd/mrmr/eval.go:274-281 | the report lists the nonempty buckets and nothing else |
| Grading.Supports | cmd/mrmr/eval.go:252-261 | the classes are the labels and every prediction but the reserved one, each with its support |
| Grading.Rates | cmd/mrmr/eval.go:262-272 | precision and recall are the diagonal over the column and over the support |
| Grading.ClassRatesAreInUnit | cmd/mrmr/eval.go:262-272 | precision and recall lie in [0,1] |
| Grading.Evaluate | cmd/mrmr/eval.go:156-283 | the summary accounts for the judged cases: every counter, matrix entry, class, rate and bucket is the count it should be |
| Grading.SummaryIsDetermined | cmd/mrmr/eval.go:156-283 | any two summaries that account for the same cases are equal, so the order in which maps are visited does not matter |
| Grading.EvaluationConserves | cmd/mrmr/eval.go:156-283 | the entries of the matrix, its supports and its diagonal are conserved and every reported rate lies in [0,1] |
| Grading.CountersMean | cmd/mrmr/eval.go:183-222 | each counter is the number of judged cases that pass its test, spelled out |
| Grading.RatesMean | cmd/mrmr/eval.go:251-254 | each rate is the share of its counter in its own denominator, 0 on an empty one |
| Grading.ClassesMean | cmd/mrmr/eval.go:255-272 | the classes are the labels and predictions but the reserved word, with precision the share of right predictions and recall of right labels |
| Grading.CalibrationMeans | cmd/mrmr/eval.go:274-281 | one bucket for each fifth with a case in it: counts, share of right ones, and mean of its probabilities |
| Timing.Group | internal/storage/dashboard.go:196-230 | the grouping loop computes each model's counts and latencies from exactly its own rows, in order of first appearance |
| Timing.ListedIffItHasRows | internal/storage/dashboard.go:204-210 | a model is listed exactly when it has rows, and its group holds exactly those |
| Timing.CountsBalance | internal/storage/dashboard.go:212-229 | Count = Successes + Errors, and Timeouts at most Errors |
| Timing.CountPermuted | internal/storage/dashboard.go:240-240 | sorting does not change how many values are at or below any bound |
| Timing.ReportedRanks | internal/storage/dashboard.go:241-244 | both computed indexes are in bounds and are the nearest ranks |
| Timing.RankIsPercentile | internal/storage/dashboard.go:238-245 | the value at a nearest rank is the least sample value with at least that share at or below it |
| Timing.PercentileIsUnique | internal/storage/dashboard.go:242-242 | that property determines the value |
| Timing.Summarize | internal/storage/dashboard.go:190-246 | every model is reported once, balanced, with the median and 95th percentile of its own successful latencies |
| Timing.ReportMeans | internal/storage/dashboard.go:196-246 | each number of a model's line is a count over the whole window, the last result is that of its newest row, and percentiles range over exactly its successful latencies |

## Left out

- Transports, TLS and client timeouts, `journalctl` processes, SQLite text and pragmas, YAML and JSON decoding: outcomes are parameters.
- Templates, message rendering, traces and log lines: they decide nothing that is modelled. A child's outcome reaches its parent only through the trace.
- Evaluating a filter and comparing two scalars in a rule: total parameters (`Semantics`). URL, loopback-address, environment-name, unit-name, capability and event-type syntax, and whether a policy encodes as JSON: parameters (`Syntax`).
- Which of several configuration errors `Validate` reports first; non-finite bounds of a number field, floats being reals.
- Encoding an event, a completion or a result as JSON: taken to succeed, as it does for decoded JSON data.
- Hash collisions, and payload identities whose type or subject contains a NUL byte, which the code's separator would blur; generated identifiers may collide and then fail as the key constraint demands.
- Latency figures, timestamps and wall-clock time; the polling loops around a poll and their two-minute bound: a run is any sequence of polls, any of which may be cancelled.
- Poll-health counters, the recent-line view, mode counts and per-case result lists of an evaluation, and progress output.
- What each migration creates; label and review tables; dashboards, redaction, credential checks, and access control of the management endpoint.
- The draft table and confirmation flags checked before `activate`; a request is modelled from the point where its text parsed and its base is the active revision.
- Audit rows of the management operations, beyond that a failed intent audit abandons an activation.
- Real threads: concurrency is interleaving of atomic statements. The operation lock and the process locks are single-owner assumptions.
- Runs.Simulates: the stop is taken to close once and stay closed while one ingest and its descendants run, as it does in the code; a world in which a later check reads it open again is not covered.
- JournalRuns.NoRecordIsLost: a record counts as handled once its identity is stored. An event posted under the source's name, which cmd/mrmr/main.go:272-310 allows, can take that identity first; such an intruder is remembered, and `JournalPolls.AnsweredRendersIff` says exactly when it matters. A life starts at the activation that stays: the cleanup of a failed one, which deletes the row it created, belongs to `Activation`.
- PollerRuns.NoRecordIsSkipped: stored means that the record's identity is; and it assumes, as the reader's documentation does, a server that returns every record past the watermark and publishes only under greater identifiers.
- Tokens.RetiredIsNeverPresented: it assumes that refresh replies are not lost and that the server never reissues a replaced token.
- The Superhuman login flow and client, Discord sending, agents' own work, and the Python recipes.
