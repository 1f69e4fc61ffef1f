# A verified model of the workflow engine

This project models the token-driven execution engine in Dafny and proves properties of it. Its state is a
world of process instances, active tokens, activity instances and process variables; its steps are the public
operations (start, complete, reject, jump, reclaim, delegate, transfer, claim, unclaim, add and remove signs,
suspend, resume, terminate) with all the navigation they cause over an arbitrary definition.

## How it is built

* `spec.dfy`: definitions, the flow finders, validation, and the stored form of a definition.
* `model.dfy`, `bags.dfy`: the world, and the multiset of positions a table of entries amounts to.
* `machine.dfy`: navigation as a stack machine. A recursive call is a job on an agenda; one step runs the job
  in front; `Exec` runs an agenda for a given number of steps and says `More` when that was not enough.
* `operations.dfy`: each public operation as a preparation and an agenda; `Apply` runs both.
* `engine.dfy`: the engine as it is written, a class whose methods update tables in place and call each other
  recursively. Every method is proved to compute what the machine computes. The ghost argument `n` bounds the
  machine's steps; `Termination.OperationEnds` shows that there is always such a bound for ranked definitions.
* `search.dfy`: the two depth-first searches behind rejection, with their shared visited set.
* `choices.dfy`: which flows gateways take, how many tokens joins wait for and how many instances loops have, said of
  the conditions, the definition and the variables. `guards.dfy`: when each operation is accepted and what it
  leaves behind, said of the tables.
* What runs of the machine do: `lifecycle`; `routes`, `tokens` and `runs` (the token game and its refinement);
  `frames` and `footprints` (what a step, a navigation and an operation leave alone); `names` (identifiers are
  never reused); `moves`; `discipline` (runs of operations); `joins`; `splits`; `forkjoin`; `progress`;
  `termination`; `loops`; `halfway`; `again`; `signs`; `calls`.
* `optimistic.dfy`, `memlock.dfy`, `duration.dfy`: versioned updates and the in-process locker as interleaved
  protocols, and ISO 8601 durations.

Conditions, numeric expressions, template rendering, the identity service and the order in which a map is
iterated are arbitrary functions (`Model.Env`). A failed start or completion leaves the world as it was, as in
an SQL transaction; the in-memory store keeps what a failed step has written. Nothing in the engine reads
`World.log`, the history that "exactly once" is stated about. Join semantics follow sections 13.4.1 to 13.4.3 of
OMG BPMN 2.0.2 as far as the code does: the fan-in of a join leaves out sources that are service tasks.

## What was found

* Completing a task that holds several tokens takes two of them when flows follow. Tokens and open activities
  stay equal if and only if the task held one token or has no flows (`TokenRuns.CompletionPlaysTheGame`).
* A delegated task comes back to whoever the task's assignee expression names at that moment, which need not be
  its original assignee (`Moves.DelegationRoundTrip`).
* When several flows are followed, the first one alone decides whether the instance is Completed
  (`Splits.StartDecides`, `Splits.CompleteDecides`): if it leads to an end event, the instance is Completed while
  tokens are placed and children started by the other flows. `Splits.SplitsHappen` is such a run.
* Two flows to one task put two tokens there, and completing it once takes both (`Splits.TwoTokens`).
* The arithmetic of a join fails in two cases: a called instance that inherits the counter of a join of the same
  name (`Joins.BornSound`), and a task that is moved to the join (`Joins.JumpBreaksJoin`,
  `Joins.RejectBreaksJoin`).
* Completing a delegated task does not lower the work that is left; it uses up the delegation
  (`Progress.CompleteDescends`).
* Moving a task with open signs closes the signs and leaves their tokens behind (`Moves.JumpMoves`,
  `Moves.ReclaimMoves`).
* Each completion in a parallel multi-instance task takes two tokens, so none is left once half of the instances are
  complete; if another path reaches an end event then, the process instance is Completed with the other half still
  to be done, and the flows behind the task are never followed (`Halfway.TokensRun`, `Halfway.EndComesEarly`,
  `Halfway.TooLate`).
* When a multi-instance task is entered again, a completion may be taken for one of the earlier loop, and then the
  flows are followed at once (`Loops.NextCompletion`); `Again.CutShort` is such a run.
* A parallel loop over a collection writes every item to the same variable before anybody works, so all instances
  see the last item, and an assignee expression does not see the items at all (`Loops.LoopGives`).
* A session in which one must approve is still open when all have declined (`Signs.DeclinesRun`).
* A task of a suspended instance can be completed; its token is gone and nothing follows, also after the instance
  is resumed (`Discipline.SuspendedCompletion`).
* The backward search cannot report a task whose ID is empty (`Search.EmptyIdIsLost`).
* A cancelled wait for a lock can keep the mutex for ever (`MemLock.LeakIsForever`).
* In a duration, a month counts as a day, and weeks and years count for nothing (`Duration.DateAlone`).

## Model

| member | source | states |
|---|---|---|
| `Spec.FindOutgoingFlows` | spec/spec.go:244-252 | The loop returns the flows whose source is the element, in the order of the definition; `FlowsFromHas` shows that none is missed. |
| `Spec.FlowsFromHas` | spec/spec.go:244-252 | Every flow of the definition is among the outgoing flows of its source. |
| `Spec.FindIncomingFlows` | spec/spec.go:255-263 | The loop returns the flows whose target is the element, in order; `FlowsIntoHas` shows that none is missed. |
| `Spec.FlowsIntoHas` | spec/spec.go:255-263 | Every flow of the definition is among the incoming flows of its target. |
| `Spec.Validate` | spec/spec.go:190-241 | Accepts a definition if and only if it has an ID, a start event that some flow leaves, an end event, elements keyed by their own IDs, and flows that connect known elements. |
| `Records.RecordRoundTrip` | spec/spec.go:77-184 | Each of the eleven kinds of element survives the trip through its flat record. |
| `Records.Marshal` | spec/spec.go:77-121 | The records list every element once, in whatever order the map is visited. |
| `Records.Unmarshal` | spec/spec.go:124-184 | Gives the elements of the records with later ones in place of earlier ones of the same ID, or the first type that is not known; it succeeds if and only if every type is known. |
| `Records.MarshalRoundTrip` | spec/spec.go:77-184 | Rebuilding the records, in any order, gives the same element map if and only if every element is keyed by its own ID. |
| `Records.ValidationSurvivesStorage` | spec/spec.go:77-241 | What is read back is always keyed by ID, and for a definition that was, `Validate` gives the same verdict before and after. |
| `EngineImpl.Engine.constructor` | storage/memstore/mem_store.go:33-44 | A new store is empty. |
| `EngineImpl.Engine.SetVariable` | storage/memstore/mem_store.go:282-290 | Writes one variable of one instance and changes nothing else of the world. |
| `EngineImpl.Engine.DeleteVariables` | storage/memstore/mem_store.go:321-333 | Removes exactly the named variables of one instance. |
| `EngineImpl.Engine.CreateActivity` | storage/memstore/mem_store.go:150-158 | The world gains one activity with a new identifier. |
| `EngineImpl.Engine.CreateToken` | storage/memstore/mem_store.go:223-231 | The multiset of active token positions gains one position. |
| `EngineImpl.Engine.ConsumeToken` | storage/memstore/mem_store.go:233-246 | One token entry becomes inactive and the rest of the table is unchanged. |
| `EngineImpl.Engine.ListActiveTokens` | storage/memstore/mem_store.go:258-268 | Lists every active token of the instance once, and nothing else. |
| `EngineImpl.Engine.ConsumeFirst` | engine/engine.go:179-186 | Consuming the first matching token of the list takes one position out of the multiset, or nothing when there is none. |
| `EngineImpl.Engine.ConsumeAt` | engine/gateway.go:54-65 | The loop over the tokens leaves none at the place and all elsewhere. |
| `EngineImpl.Engine.ConsumeAllOf` | engine/reject.go:85-89 | The loop leaves the instance without tokens and other instances alone. |
| `EngineImpl.Engine.FinishActivities` | engine/engine.go:327-336 | The loop completes the chosen activities and no others. |
| `EngineImpl.Engine.NavigateFrom` | engine/navigator.go:38-139 | One step of navigation and all it causes, down every recursive call, is what the stack machine computes, in success and in failure; an instance that does not run is left alone. |
| `EngineImpl.Engine.NavigateElement` | engine/navigator.go:59-138 | The branches on the kind of element. |
| `EngineImpl.Engine.HandleOutgoingFlows` | engine/navigator.go:143-172 | Leaving an element: the remaining token is consumed and the flows are taken in order, or completion is checked when there are none. |
| `EngineImpl.Engine.TakeFlows` | engine/navigator.go:166-171 | The loop over the flows runs the navigation of each to its end before the next, and stops at the first failure. |
| `EngineImpl.Engine.TakeSequenceFlow` | engine/navigator.go:176-182 | Taking a flow to an unknown element fails. |
| `EngineImpl.Engine.EnterElement` | engine/navigator.go:182-268 | Entering an element, by its kind. |
| `EngineImpl.Engine.CreateTask` | engine/navigator.go:188-209 | A user task gains one token and one activity, unclaimed if it has candidates and no assignee. |
| `EngineImpl.Engine.HandleEndEvent` | engine/navigator.go:273-289 | All tokens at the end event are consumed and completion is checked. |
| `EngineImpl.Engine.CheckComplete` | engine/navigator.go:293-308 | The instance completes if and only if it has no active token, and then its caller moves on. |
| `EngineImpl.Engine.CheckParentCompletion` | engine/call_activity.go:67-111 | One waiting token of the caller is consumed, its activity completed and its flows followed; nothing happens without a caller, for a call activity with the empty ID, or when no token waits. |
| `EngineImpl.Engine.FindToken` | engine/call_activity.go:78-87 | Finds an active token at the place if and only if there is one. |
| `EngineImpl.Engine.ChooseFlow` | engine/gateway.go:24-37 | The first flow whose condition is true; a refusal if and only if one that cannot be evaluated comes before it; only when no condition is true or unevaluable the first flow whose ID is a nonempty default; otherwise none. Stated over the conditions themselves. |
| `EngineImpl.Engine.FindDefault` | engine/gateway.go:39-47 | The first flow whose ID is the default one; none if and only if the default is empty or no flow has it. |
| `EngineImpl.Engine.HandleExclusiveGateway` | engine/gateway.go:17-68 | The tokens at the gateway go and the chosen flow is taken; without one, or with a condition that cannot be evaluated, the step fails. `Choices.ExclusiveTakes` says which flow that is. |
| `EngineImpl.Engine.CountEffectiveIncoming` | engine/gateway.go:226-239 | The fan-in is the number of the incoming flows whose source is a known element other than a service task, as the size of a set, and one when there is none. |
| `EngineImpl.Engine.HandleParallelGateway` | engine/gateway.go:75-146 | An arrival is counted; the gateway waits below its fan-in (`Choices.FanInAwaits`), and at it consumes all its tokens, forgets the count and goes on along every flow. |
| `EngineImpl.Engine.EvaluateConditions` | engine/gateway.go:172-188 | Exactly the flows without a condition and those whose condition is true, once each and in order; a refusal if and only if some condition cannot be evaluated. |
| `EngineImpl.Engine.HandleInclusiveGateway` | engine/gateway.go:151-212 | All open flows are taken, or the default one; with neither the step fails. `Choices.InclusiveTakes` says which flows those are. |
| `Choices.ExclusiveAnswers` | engine/gateway.go:24-47 | The choice of an exclusive gateway, over its conditions: the first flow whose condition is not false decides, by being true or by being unevaluable; only when there is none, the default flow is chosen. |
| `Choices.ExclusiveTakes` | engine/gateway.go:17-68 | Passing the gateway takes exactly that flow, with the gateway's tokens gone; in the other cases it fails and changes nothing. |
| `Choices.TrueFlowsLists` | engine/gateway.go:172-188 | The open flows are exactly those without a condition and those whose condition is true, in order; a refusal if and only if some condition cannot be evaluated. |
| `Choices.InclusiveTakes` | engine/gateway.go:151-212 | An inclusive gateway takes exactly the open flows, or only when none is open the first flow with the default ID; its tokens are gone also when it fails. |
| `Choices.FanInAwaits` | engine/gateway.go:226-239 | The fan-in of an element is the number of the definition's flows that lead to it from known elements other than service tasks, and one when there is none. |
| `Choices.FlowsFromLists` | spec/spec.go:244-252 | The outgoing flows are those of the definition with that source, once each and in its order. |
| `Choices.FlowsIntoLists` | spec/spec.go:255-263 | The incoming flows are those with that target, once each and in order. |
| `Choices.EnterBySize` | engine/multi_instance.go:15-68 | Entering a multi-instance task fails when its size cannot be evaluated, passes it when the size is not positive, and waits otherwise. |
| `EngineImpl.Engine.HandleMultiInstanceTask` | engine/multi_instance.go:15-68 | An empty loop is passed at once; otherwise the counters are set and all instances, or the first one, are created. How many: `Choices.EnterBySize`, `Loops.LoopStarts`. |
| `EngineImpl.Engine.ResolveLoopCount` | engine/multi_instance.go:214-244 | The number of instances: the length of the list in the collection's variable, and none when that is absent or no list; without a collection the evaluated cardinality, but not below zero; otherwise one. A refusal if and only if the cardinality cannot be evaluated. |
| `EngineImpl.Engine.StartParallelInstances` | engine/multi_instance.go:71-97 | The loop creates one token and one activity for each index below the count. |
| `EngineImpl.Engine.StartSequentialInstance` | engine/multi_instance.go:100-133 | One more instance, with the index and the count written down. |
| `EngineImpl.Engine.AdvanceMultiInstance` | engine/navigator.go:66-115 | Which loop a completion belongs to, and what follows when it belongs to none. |
| `EngineImpl.Engine.AdvanceLoopInstance` | engine/multi_instance.go:137-211 | One completion is counted; the loop stops, starts the next instance, leaves, or waits. |
| `EngineImpl.Engine.HandleCallActivity` | engine/call_activity.go:13-63 | A child instance is created, the caller's token and activity wait, and the child is started; an unknown definition fails. |
| `EngineImpl.Engine.CreateInstance` | storage/memstore/mem_store.go:106-114 | The world gains one running instance with a new identifier. |
| `EngineImpl.Engine.StartProcessInstance` | engine/engine.go:71-105 | Refuses an invalid definition, starts navigation at the start event, and on failure leaves the world as it was. |
| `EngineImpl.Engine.CompleteTask` | engine/engine.go:117-204 | Refuses anything but an active user task; otherwise completes it, merges the variables and goes on as its sign session, its delegation or its flows say; on failure the world is as it was. |
| `EngineImpl.Engine.CompleteInTransaction` | engine/engine.go:160-202 | The order of the cases after a completion: a sign reports, a task with open signs waits, a delegated one returns, any other moves on. |
| `EngineImpl.Engine.HasPendingSigns` | engine/add_sign.go:62-69 | The loop answers yes if and only if some sign of the task is still active. |
| `EngineImpl.Engine.AddSign` | engine/engine.go:221-279 | Opens a session with one activity and one token for each assignee, and completes the task itself when asked backward. Whose they are: `Signs.SignOpens`. |
| `EngineImpl.Engine.CreateSigns` | engine/engine.go:252-265 | The loop over the assignees creates one sign for each, its name rendered with the variables of that moment; that each sign is for its own assignee is in `Signs.SignOpens`. |
| `EngineImpl.Engine.HandleSignCompletion` | engine/add_sign.go:11-32 | An answer is counted and the session closed when its strategy says so. |
| `EngineImpl.Engine.FinishSession` | engine/add_sign.go:33-59 | The remaining signs are completed, the tokens cut down, the session forgotten, and a task that is complete moves on. |
| `EngineImpl.Engine.KeepTokens` | engine/add_sign.go:39-50 | The loop that deletes tokens stops when as many as asked are left. |
| `EngineImpl.Engine.RemoveSign` | engine/engine.go:357-385 | Removes one active sign of the named assignee, and refuses if and only if there is none. |
| `EngineImpl.Engine.DelegateTask` | engine/delegate.go:12-31 | Reassigns an active user task and remembers from whom. |
| `EngineImpl.Engine.HandleDelegateCompletion` | engine/delegate.go:35-78 | Returns a delegated task by a new activity and token, and does nothing for any other. |
| `EngineImpl.Engine.TransferTask` | engine/engine.go:346-354 | Reassigns an active user task. |
| `EngineImpl.Engine.ClaimTask` | engine/engine.go:388-418 | An unclaimed user task becomes its claimant's; one who is not among the candidates is refused. |
| `EngineImpl.Engine.UnclaimTask` | engine/engine.go:421-438 | An active task with candidates goes back to them. |
| `EngineImpl.Engine.RejectTask` | engine/reject.go:23-143 | Moves the task to the target the mode names, or ends the instance; refuses at the limit, which is the configured number if positive and otherwise five; when the search finds no target, there is none. |
| `EngineImpl.Engine.ResolveTarget` | engine/reject.go:62-82 | The target by mode: a previous task, the first task, or the one given; an empty answer of a search means there is none. |
| `EngineImpl.Engine.EndRejected` | engine/reject.go:82-95 | The instance loses all tokens and becomes Rejected with an end time. |
| `EngineImpl.Engine.MoveRejected` | engine/reject.go:100-142 | One activity and token move, the count goes up, the delegation is forgotten. |
| `EngineImpl.Engine.JumpTask` | engine/jump_urge.go:13-118 | Moves the task to any element of the definition; at an end event navigation goes on. |
| `EngineImpl.Engine.ReclaimTask` | engine/reclaim.go:15-112 | Moves the task to the most recently completed user task elsewhere in the instance; an active task that is no sign is refused only if there is none, or its element has the empty ID. |
| `EngineImpl.Engine.FindLatest` | engine/reclaim.go:37-53 | The loop finds a completion that no other is later than, in whatever order the activities are visited. |
| `EngineImpl.Engine.SuspendProcessInstance` | engine/engine.go:285-295 | Suspends a running instance and refuses any other. |
| `EngineImpl.Engine.ResumeProcessInstance` | engine/engine.go:297-307 | Resumes a suspended instance and refuses any other. |
| `EngineImpl.Engine.TerminateProcessInstance` | engine/engine.go:309-341 | Ends an instance that is neither Completed nor Terminated, without tokens and active activities. |
| `Guards.StartAccepted` | engine/engine.go:71-105 | A start is attempted if and only if the definition is known and valid: it has an ID, one of its start events as start, with a flow leaving it, an end event, elements under their own IDs, and flows between known elements. |
| `Guards.StartGives` | engine/engine.go:78-103 | The new instance runs without a caller and has the given variables; its start event is complete and navigation begins there; nothing else changes. |
| `Guards.FailureUndone` | engine/engine.go:117-204 | A failed start or completion leaves the world as it was. |
| `Guards.CompleteAccepted` | engine/engine.go:117-137 | Only an active user task can be completed. |
| `Guards.CompletionGoes` | engine/engine.go:138-202 | A task that is no sign is done and its variables are merged; it waits while one of its signs is active, comes back if it was delegated, and otherwise gives up one token and moves on. |
| `Guards.SuspendAccepted` | engine/engine.go:285-295 | Accepted if and only if the instance runs; its state is all that changes. |
| `Guards.ResumeAccepted` | engine/engine.go:297-307 | Accepted if and only if the instance is suspended; its state is all that changes. |
| `Guards.SuspendThenResume` | engine/engine.go:285-307 | Resuming takes a suspension back. |
| `Guards.TerminateEnds` | engine/engine.go:309-341 | Accepted if and only if the instance is neither Completed nor Terminated; it is left without tokens and active activities, and everything of other instances stays. |
| `Guards.TransferAccepted` | engine/engine.go:346-354 | Accepted if and only if the activity is an active user task; it changes hands, and the names are noted. |
| `Guards.DelegateAccepted` | engine/delegate.go:12-31 | Accepted if and only if the activity is an active user task; it goes to the delegate, and both names are remembered. |
| `Guards.ClaimAccepted` | engine/engine.go:388-418 | Accepted if and only if the activity is an unclaimed user task and, where candidates are stored, the user is one of them. |
| `Guards.UnclaimAccepted` | engine/engine.go:421-438 | Accepted if and only if the activity is active and has candidates. |
| `Guards.ClaimThenUnclaim` | engine/engine.go:388-438 | Unclaiming takes a claim back. |
| `Guards.AllowedIsAccepted` | engine/engine.go:346-438 | What a client of the versioned table may do with a row is what the engine accepts of the activity, and it leaves the row as the engine leaves the activity. |
| `Guards.RejectAccepted` | engine/reject.go:23-82 | A rejection is accepted if and only if the activity is an active user task of a running instance, the count of rejections is below the configured limit if that is positive and below five otherwise, and the mode has a target. |
| `Guards.RejectNotes` | engine/reject.go:100-142 | It is counted, its reason kept unless there is none, the delegation forgotten and no other variable touched; the new task is for whom the target's own expression names. |
| `Guards.RejectEnds` | engine/reject.go:82-95 | A rejection that ends the instance leaves it Rejected, without tokens, with the task done and the reason kept. |
| `Guards.JumpAccepted` | engine/jump_urge.go:13-39 | Accepted if and only if the activity is an active user task that is no sign and the target is an element of the definition. |
| `Guards.JumpNotes` | engine/jump_urge.go:40-118 | Sessions and delegation of the task are forgotten; the jump is noted unless it leads to an end event, where navigation goes on. |
| `Guards.ReclaimAccepted` | engine/reclaim.go:15-53 | Accepted if and only if the activity is active and no sign, and some other user task of the instance was completed, the last of them at an element with a nonempty ID. |
| `Guards.ReclaimNotes` | engine/reclaim.go:55-112 | Sessions and delegation are forgotten and the move is noted; the new task is for whom the target's own expression names. |
| `Guards.AddSignAccepted` | engine/engine.go:221-240 | Accepted if and only if there are assignees and the activity is an active user task, itself no sign, of a running instance. |
| `Guards.RemoveSignAccepted` | engine/engine.go:357-385 | Accepted if and only if the sign is an active one of an active task in the same instance; it is done, one token goes, and the open session counts it. |
| `Guards.TaskCreated` | engine/navigator.go:188-209 | A user task with an assignee expression is active and for whom that names; otherwise one with candidates is unclaimed and stores exactly those; otherwise it is active and nobody's. |
| `Guards.PassedRecorded` | engine/navigator.go:216-262 | Service tasks, end events and throw events leave a completed activity of their kind. |
| `Guards.CallGives` | engine/call_activity.go:13-63 | A called instance runs the latest definition of its key, knows its caller and has its caller's variables if the call activity says so; accepted if and only if that definition is known. |
| `Guards.CallerReturns` | engine/call_activity.go:67-111 | When a called instance is complete, one token leaves the call activity, no activity stays active there, and its flows are followed. |
| `Guards.NobodyReturns` | engine/call_activity.go:67-92 | Without a token at the caller's call activity, or for one with the empty ID, the called instance is complete and nothing follows. |
| `Guards.OtherStrategy` | engine/add_sign.go:11-32 | An answer under any other strategy than the two is counted and never closes the session; without a session nothing happens; an unknown task is an error. |
| `Guards.TakeAccepted` | engine/navigator.go:176-269 | A flow can be taken if and only if its target is an element of the definition, no start or boundary event, with a size if it is a loop and a known definition if it is a call. |
| `Guards.NavAccepted` | engine/navigator.go:38-58 | An instance that does not run is left alone; an unknown instance or element is an error. |
| `Machine.ExecSplit` | engine/navigator.go:166-170 | Running two agendas one after the other is running their concatenation, so the agenda is the call stack of the recursion. |
| `Machine.ExecStable` | engine/navigator.go:38-269 | More steps than enough change nothing. |
| `Lifecycle.StepDrifts` | engine/navigator.go:38-308 | A step of navigation takes the state of an instance from Running to Completed or leaves it, and never changes its definition or caller. |
| `Lifecycle.ExecDrifts` | engine/navigator.go:38-308 | The same for any navigation, however deep, and also for one that fails part-way. |
| `Lifecycle.OperationMoves` | engine/engine.go:285-341 | One public operation with all its navigation moves states only along `Move`; Completed is entered only from Running; the end time is set exactly in the ended states. |
| `Lifecycle.LifecycleLaw` | engine/engine.go:285-341 | Over every sequence of public operations, failed ones included: only Running and Suspended come back, Completed and Terminated are final, Rejected can only become Terminated. |
| `Search.Searcher.FindPreviousUserTask` | engine/reject.go:145-176 | One call of the recursive search with the visited set its branches share: sound, and what it visited in vain is dead. |
| `Search.Searcher.FindFirstUserTaskForward` | engine/reject.go:189-208 | The same for the forward search. |
| `Search.NoBackRoute` | engine/reject.go:145-176 | If everything visited is dead, no way leads from a user task or start event to any of it. |
| `Search.NoForwardRoute` | engine/reject.go:189-208 | If everything visited is dead, no way leads from any of it to a user task. |
| `Search.PreviousUserTask` | engine/reject.go:145-176 | On every graph, cyclic or not: a nonempty answer is a user task or start event with a way to the element through other kinds only, and an empty one means that there is none. |
| `Search.InitiatorTask` | engine/reject.go:178-208 | A nonempty answer is the first user task on some way from the start event's first flow, and an empty one means that there is none. |
| `Search.EmptyIdIsLost` | engine/reject.go:145-176 | If the only task before an element has the empty ID, the search answers "none" although there is one. |
| `Routes.NavOnward` | engine/navigator.go:59-138 | Leaving any element asks for nothing, a check, or a selection of its outgoing flows. |
| `Routes.EnterOnward` | engine/navigator.go:176-269 | Entering an element other than a call activity waits, is about to leave it, or has gone on along its flows; a plain user task waits. |
| `TokenGame.JoinGood` | engine/gateway.go:83-117 | One arrival at a join keeps: tokens equal the counter, the counter is below the fan-in, arrivals equal fan-in times firings plus what is parked. |
| `TokenGame.PassGood` | engine/gateway.go:118-132 | Passing a gateway that waits for nothing leaves no token there. |
| `TokenGame.EnterTaskGood` | engine/navigator.go:188-214 | Entering a user task keeps its tokens and open activities equal in number. |
| `TokenGame.LeaveFine` | engine/navigator.go:143-172 | Leaving an element that a token passes (a start event, a service task) is one firing of the token game. |
| `TokenGame.EndFine` | engine/navigator.go:273-289 | Reaching an end event is one firing. |
| `TokenGame.ExclusiveFine` | engine/gateway.go:17-68 | Passing an exclusive gateway fires it along exactly one of its flows. |
| `TokenGame.InclusiveFine` | engine/gateway.go:151-212 | Passing an inclusive gateway fires it along at least one of its flows. |
| `TokenGame.ParkFine` | engine/gateway.go:83-99 | An arrival at a join that is not full is no firing. |
| `TokenGame.FireFine` | engine/gateway.go:83-145 | A parallel gateway fires only when full, with exactly its fan-in of tokens, along all its flows. |
| `TokenGame.JoinStep` | engine/gateway.go:83-117 | What one arrival does to a join's tokens, counter and history, whatever else the instance and its definition hold. |
| `TokenRuns.TakeFine` | engine/navigator.go:176-269 | Taking a flow turns a pending token into a standing one or leaves it pending; a throw event is fired at once. |
| `TokenRuns.AgendaStep` | engine/navigator.go:38-269 | Any step, seen with the flows still to be taken behind it. |
| `TokenRuns.NavigationFine` | engine/navigator.go:38-308 | Every navigation refines a run of the token game in which only elements that do not wait fire; its history grows by exactly what was fired. |
| `TokenRuns.LeftGood` | engine/engine.go:179-186 | Completing a task leaves its element one token short exactly when it held several and has flows to follow. |
| `TokenRuns.CompletionPlaysTheGame` | engine/engine.go:117-204 | Completing a task fires it and then automatic elements only; Completed if and only if no token is left, on plain splits; tokens and open activities stay equal if and only if the task held one token or has no flows. |
| `Moves.RejectMoves` | engine/reject.go:100-125 | A rejection replaces one occurrence of the task's element by the target, among the tokens and among the open activities; so the number of open activities stays, and the number of tokens if and only if the task held one. |
| `Moves.ReclaimMoves` | engine/reclaim.go:37-79 | Reclaiming moves one token and one activity to a most recently completed other user task and closes the task's open signs, whose tokens stay; tokens and activities move alike if and only if there are no such signs. |
| `Moves.DelegationReturns` | engine/delegate.go:55-77 | When the delegate completes, the task comes back at the same place and nothing else moves. |
| `Moves.DelegationRoundTrip` | engine/delegate.go:12-78 | The task comes back to its original assignee if and only if the task's assignee expression names them at that moment; the documentation promises it always. |
| `Moves.JumpMoves` | engine/jump_urge.go:40-118 | A jump moves the token, and the open activity too when the target is a user task; it closes the task's open signs and leaves their tokens, so the two move alike if and only if there are no such signs. |
| `Moves.JumpToEnd` | engine/jump_urge.go:94-104 | A jump to an end event completes the instance if and only if the task held its last token. |
| `Discipline.StartPlaysTheGame` | engine/engine.go:71-105 | Starting plays the token game from one token at the start event and establishes the discipline; that nothing refers to the new instance yet is derived. |
| `Discipline.StartSettles` | engine/engine.go:71-105 | So in any store that operations can lead to, the discipline begins with the instance. |
| `Discipline.SettledTokens` | engine/navigator.go:143-308 | After each of these operations every token is at a user task, a catch event or a join that is not full, and a user task has as many tokens as open activities. |
| `Discipline.CompleteKeeps` | engine/engine.go:117-204 | Completing a task, delegated or not, keeps the discipline. |
| `Discipline.RejectKeeps` | engine/reject.go:100-142 | So does rejecting to a user task. |
| `Discipline.JumpKeeps` | engine/jump_urge.go:13-118 | So does jumping to a user task. |
| `Discipline.ReclaimKeeps` | engine/reclaim.go:15-112 | So does reclaiming. |
| `Discipline.AssignKeeps` | engine/engine.go:346-438 | So do delegating, transferring, claiming and unclaiming. |
| `Discipline.PauseKeeps` | engine/engine.go:285-307 | So do suspending and resuming. |
| `Discipline.ElsewhereKeeps` | engine/engine.go:71-438 | So does every operation on another instance, with all its navigation and the children it starts. |
| `Discipline.TokenDiscipline` | engine/engine.go:71-438 | Over every run of these operations, failed ones included, with any operations on other instances in between: Completed if and only if no token is left, and the tokens add up everywhere. |
| `Discipline.SuspendedCompletion` | engine/engine.go:117-204 | Completing a task of an instance that does not run is accepted: its token and activity are gone and no flow is followed; resuming the instance afterwards brings nothing back. |
| `Frames.StepFrames` | engine/navigator.go:38-308 | One step, on any definition, changes tokens, activities and history at one place only, or starts a child, or completes an instance and returns to its caller. Of the variables it changes those of the instance alone: the counter of that join, the counters of loops, the candidates of a task, and the caller's own; never delegations, sign sessions or what moves have noted. |
| `Frames.ExecUntouched` | engine/navigator.go:38-308 | A whole navigation of other instances leaves an instance without children as it was, whether it succeeds or fails. |
| `Footprints.OperationFootprint` | engine/engine.go:117-438 | Every operation but a start changes one instance, at the elements it is about. |
| `Footprints.OperationUntouched` | engine/engine.go:71-438 | An operation on another instance, with all its navigation, leaves an instance without children as it was. |
| `Footprints.KnownLaw` | engine/engine.go:71-438 | Over every run of operations, tokens, activities, variables and history refer to instances that exist only, so a new identifier is unused (`NextUnused`). |
| `Names.StepNamed` | engine/navigator.go:38-308 | One step of navigation names variables and loops by identifiers that have been given out only. |
| `Names.NamedLaw` | engine/engine.go:71-438 | So over every run of operations, from an empty store (`NothingNamed`) on: the next identifier is named by no variable and no loop (`NextNamesNothing`). |
| `Joins.StepSound` | engine/gateway.go:75-146 | One step of any navigation, on any definition, keeps a join's arithmetic. |
| `Joins.BornSound` | engine/call_activity.go:22-42 | A called instance is born with a join in order if and only if it inherits no counter of a join of the same name. |
| `Joins.JoinLaw` | engine/gateway.go:75-146 | Over every run of operations, on every definition: with k the number of incoming flows from known elements other than service tasks, or one if there is none, arrivals are k times firings plus what is parked, fewer than k tokens are parked, and the counter says how many. |
| `Joins.JoinLawWithin` | engine/gateway.go:75-146 | The same at every moment in the middle of an operation, with one token more while the join is being entered. |
| `Joins.JumpBreaksJoin` | engine/jump_urge.go:40-118 | A task that jumps to a join leaves a token there that has not arrived, and the arithmetic is lost. |
| `Joins.RejectBreaksJoin` | engine/reject.go:100-142 | So does a rejection to a join. |
| `Splits.FlowsDecide` | engine/navigator.go:166-170 | Following flows to end events, plain tasks and called definitions that wait: the instance completes if and only if it had no token and the first flow leads to an end event; it has a token if and only if it had or some flow leads elsewhere; a child runs if and only if one did or some flow leads to a call. |
| `Splits.StartDecides` | engine/engine.go:71-105 | The same of starting an instance, directly or through a splitting gateway: Completed if and only if the first flow leads to an end event, with a token or a running child if and only if a flow leads to one. |
| `Splits.CompleteDecides` | engine/engine.go:117-204 | The same of completing the only task of an instance. |
| `Splits.SplitsHappen` | engine/gateway.go:140-144 | A definition that, started in an empty store, leaves an instance Completed with a token and a running child. |
| `Splits.TwoTokens` | engine/navigator.go:166-214 | Two flows from the start event to one task leave two tokens there. |
| `ForkJoin.OnlyNext` | engine/gateway.go:75-146 | In a fork and join, at most one element can fire by itself at any moment. |
| `ForkJoin.ForkStarts` | engine/gateway.go:75-146 | Starting opens all n tasks with the join unfired. |
| `ForkJoin.ForkCompletes` | engine/gateway.go:75-146 | Completing one of the tasks left parks its token, and with the last one fires the join and completes the instance. |
| `ForkJoin.ForkJoinLaw` | engine/gateway.go:75-146 | For every n and every order, with any operations on other instances in between: Running before and Completed after exactly the n-th completion; the join fires once, then; there are no more than n completions. |
| `Progress.AcyclicIsWeighted` | spec/spec.go:244-252 | An acyclic definition has weights, each one more than those of the successors together. |
| `Progress.WeightedIsAcyclic` | spec/spec.go:244-252 | A definition with such weights is acyclic. |
| `Progress.NavigationIsLighter` | engine/navigator.go:38-308 | No navigation adds weight to open activities and gateway tokens, on every acyclic definition without multi-instance tasks and call activities. |
| `Progress.PlainDescends` | engine/engine.go:117-204 | A task that moves on, or waits for its signs, takes its weight with it. |
| `Progress.ReturnDescends` | engine/delegate.go:35-78 | A delegated task that comes back does not lower the weight, but uses up its delegation. |
| `Progress.SignDescends` | engine/add_sign.go:11-60 | A sign's answer uses up the sign, and lowers the weight if the task holds its token or is no gateway. |
| `Progress.CompleteDescends` | engine/engine.go:117-204 | Every completion descends: of a task, a delegated one, or a sign. The weight itself falls if and only if the task is not a delegated one that comes back. |
| `Progress.RejectDescends` | engine/reject.go:53-142 | Every successful rejection is counted, below the limit only (the configured number if positive, otherwise five), and adds a bounded weight; one that ends the instance lowers the weight. |
| `Progress.OperationDescends` | engine/reject.go:53-60 | The lexicographic descent of every completion and rejection, and the count of rejections never passes the limit, which is the configured number if positive and otherwise five. |
| `Progress.RunsAreFinite` | engine/reject.go:53-60 | The length of any run of completions (of tasks, delegated tasks and signs) and rejections is bounded by what the first world weighs. |
| `Progress.ReadyAnytime` | engine/engine.go:71-438 | Such a run may begin at any moment in any history of operations. |
| `Termination.StepCheaper` | engine/navigator.go:38-269 | Every step asks for jobs that cost less together than the one it has done; this is the measure of the mutual recursion, across called instances. |
| `Termination.NavigationEnds` | engine/navigator.go:38-269 | If the elements that can be passed without waiting are ranked, a navigation ends within its cost in steps. |
| `Termination.OperationEnds` | engine/engine.go:117-204 | So every public operation ends. |
| `Termination.SelfLoopNeverEnds` | engine/navigator.go:216-232 | A service task that leads back to itself has no rank, and its navigation never ends. |
| `Loops.LoopStarts` | engine/multi_instance.go:15-133 | A session at a task without open activities, the first or a later one: n active instances, or in sequential mode one, numbered from 0, with the counters set; n is the length of the collection's list, or the evaluated cardinality, or one. |
| `Loops.LoopGives` | engine/multi_instance.go:71-133 | A sequential loop begins with the first item of its collection. A parallel one writes every item to the same variable, so the last one is left there; all assignees are rendered with the record of submitted variables. |
| `Loops.NextGives` | engine/multi_instance.go:183-205 | The next instance of a sequential loop works on the next item. |
| `Loops.AdvanceDecides` | engine/multi_instance.go:137-211 | After one more completion the loop leaves if and only if its condition holds of the count or the count is n. |
| `Loops.LoopCompletes` | engine/navigator.go:66-115 | One completion, in either mode: the session goes on with one more instance complete and no flow followed, or all tokens go and the flows are followed. |
| `Loops.NextCompletion` | engine/navigator.go:83-115 | In a later session, a completion that is neither the last nor stops the loop keeps the session open if and only if the engine finds the session's own loop this time; if it finds an earlier one that is exhausted, the flows are followed at once. |
| `Loops.ActiveCount` | engine/multi_instance.go:137-211 | Completed and active instances add up to n; in sequential mode exactly one is active and its number is how many are complete. |
| `Loops.SessionRun` | engine/multi_instance.go:137-211 | While no count stops the loop, j completions in any order, with any operations on other instances in between, leave j instances complete and no flow followed. |
| `Loops.SessionLaw` | engine/multi_instance.go:137-211 | The flows are followed exactly with the m-th completion, where m is the first count that satisfies the condition, or n, and all but the loop's counters and tokens is as the completion leaves it; in a later session, as long as the engine finds the session's own loop each time. |
| `Halfway.OneTakesTwo` | engine/navigator.go:66-80 | A completion that leaves the session open takes two tokens, or as many as there are: one when the task is completed and one when its loop is advanced; a sequential loop adds one for its next instance. |
| `Halfway.TokensRun` | engine/navigator.go:66-115 | So after j completions, in any order and with any operations on other instances in between, a parallel session of n has n - 2j tokens, or none, and n - j active instances; a sequential one always has one of each. |
| `Halfway.EndComesEarly` | engine/navigator.go:273-308 | When another path then reaches an end event, the process instance is Completed if and only if half of the session's instances are complete, with the rest still active. |
| `Halfway.TooLate` | engine/engine.go:117-204 | Those can still be completed, and no flow is followed any more. |
| `Again.Reenters` | engine/multi_instance.go:15-133 | When the flow behind a task leads back to it, the last completion of a session opens the next one, with the earlier loops on record and their counters as they were. |
| `Again.CutShort` | engine/navigator.go:83-115 | A run from the empty store in which a second session of two instances is left with its first completion. |
| `Signs.SignOpens` | engine/engine.go:245-278 | A session of T children is open, with the task complete from the start when asked backward, whatever sessions the task has had before. The i-th child is for the i-th assignee: nobody for an empty name, and otherwise whom the name, rendered with the instance's variables and the session's six, names. |
| `Signs.ChildAnswers` | engine/add_sign.go:11-60 | By either strategy: the session stays open before the answer that is enough and closes with it: no active child, no variable left; a complete task moves on, any other waits with one token. |
| `Signs.ParentAnswersEarly` | engine/engine.go:174-176 | A task completed while its session is open waits for the children. |
| `Signs.ParentAnswersLast` | engine/engine.go:117-204 | A task completed after its session has closed moves on. |
| `Signs.AnswersRun` | engine/add_sign.go:11-60 | Before the last answer no flow of the task is followed, in whatever order the answers come and with any operations on other instances in between. |
| `Signs.SignLaw` | engine/add_sign.go:11-60 | In every session in which all must answer: with T children and the task in every order, the flows are followed once, with the last answer. |
| `Signs.DeclinesRun` | engine/add_sign.go:11-32 | A session in which one must approve stays open however many decline, also when all have. |
| `Signs.OrLaw` | engine/add_sign.go:11-60 | It closes exactly with the first approval. |
| `Calls.CallConfig` | engine/call_activity.go:13-63 | Entering a call activity that does not wait keeps every child backed by a token of its caller. |
| `Calls.CheckConfig` | engine/call_activity.go:67-111 | Completing an instance keeps it so: it has no children left, and its caller's flows are now due once. |
| `Calls.NavConfig` | engine/navigator.go:38-139 | Leaving a call activity settles what was due. |
| `Calls.ExecConfig` | engine/navigator.go:38-308 | So does every navigation, also one in which a child finishes synchronously. |
| `Calls.CallsLaw` | engine/call_activity.go:13-111 | Over every run of operations, other than those that end an instance without telling its children or its caller and moves to an end event or a call activity, on plain splits and with no call activity entered while it waits; such runs may begin with an empty store (`NothingAtRest`). |
| `Calls.ParentsOutlive` | engine/navigator.go:293-308 | So in every such run a parent is never Completed while a child it started is Running or Suspended. |
| `Calls.FollowedOncePerChild` | engine/call_activity.go:67-111 | And a call activity's flows are followed once for each child that completes under a running parent, and each child returns once. |
| `Optimistic.Table.UpdateActivityInstance` | storage/sqlstore/sql_store.go:379-391 | Takes effect if and only if the version has not moved on. |
| `Optimistic.Table.Perform` | engine/engine.go:346-438 | Read, check (state, type and, to claim, the candidates) and write without interference is the change in one piece; `Guards.AllowedIsAccepted` ties the check to the engine. |
| `Optimistic.WriteCommits` | storage/sqlstore/sql_store.go:379-391 | A write takes effect if and only if the client's copy is still the row. |
| `Optimistic.Serializable` | storage/sqlstore/sql_store.go:379-391 | Every interleaving of any number of clients is equivalent to the committed changes one after the other, each in a state that allows it. |
| `Optimistic.AtMostOneCompletion` | engine/engine.go:117-137 | At most one completion of an activity commits. |
| `Optimistic.DoneIsFinal` | engine/engine.go:117-137 | A completed activity never changes again. |
| `MemLock.MemoryLocker.GetOrCreate` | lock/memory.go:28-35 | The first critical section of a lock call is the protocol's step from idle to waiting; the key has a mutex afterwards. |
| `MemLock.MemoryLocker.Register` | lock/memory.go:49-53 | The critical section after a mutex is won is the protocol's step to holding; the key is on record. |
| `MemLock.MemoryLocker.RegisterIfFree` | lock/memory.go:72-80 | That of TryLock is the protocol's step too; it answers whether the key was free. |
| `MemLock.MemoryLocker.Unregister` | lock/memory.go:97-104 | That of unlocking is the protocol's release; it answers whether the key was on record. |
| `MemLock.RunValid` | lock/memory.go:37-107 | What every interleaving of the atomic steps keeps. |
| `MemLock.MutualExclusion` | lock/memory.go:37-107 | At most one call holds a key. |
| `MemLock.HeldIsLocked` | lock/memory.go:37-107 | A key on record has its mutex locked, by the call that holds it. |
| `MemLock.UnlockFrees` | lock/memory.go:96-107 | Unlocking takes the key off the record and unlocks its mutex, and nothing else changes hands. |
| `MemLock.FreeIsTaken` | lock/memory.go:67-80 | A TryLock of a key that nobody has gets it. |
| `MemLock.FreeIsWaitedFor` | lock/memory.go:37-53 | So does a Lock of one, when its helper, the send and the receive have had their turns. |
| `MemLock.NoLateRefusal` | lock/memory.go:72-77 | TryLock is never refused after it has taken the mutex, and a holder's Unlock never fails. |
| `MemLock.LeakIsForever` | lock/memory.go:54-63 | A cancelled wait whose helper gets the mutex after the cleanup has looked keeps it locked for ever. |
| `MemLock.LeakHappens` | lock/memory.go:54-63 | Such a leak is reachable for every key. |
| `Duration.ParseISODuration` | engine/event.go:242-281 | The loop computes the minutes of the duration. |
| `Duration.ScanDecimal` | engine/event.go:249-251 | Scanning a printed number gives that number. |
| `Duration.PrintThenParse` | engine/event.go:242-281 | Printed date and time fields parse to the sum of what they stand for, or to a day when that is nothing. |
| `Duration.DaysToSeconds` | engine/event.go:242-281 | `P<d>DT<h>H<m>M<s>S` is 1440d + 60h + m + (s + 30) / 60 minutes, or 1440 when that is 0. |
| `Duration.DateAlone` | engine/event.go:257-279 | `P<n>M` is as many days as `P<n>D`, and `P<n>W` or `P<n>Y` is always one day. |
| `Duration.NanosecondsFit` | engine/event.go:277-279 | The conversion to 64-bit nanoseconds is exact if and only if there are at most 153722867 minutes. |

## Left out

* Signals, messages, subscriptions, timer jobs and boundary events: a throw event only goes on, a catch event
  only holds its token, and `triggerEventElement` is not modelled.
* The evaluation of expressions and the rendering of templates; both are arbitrary functions of the variables.
* JSON text, SQL statements, schemas and row scanning; the stores of PostgreSQL and MySQL.
* Errors of the store inside an operation: a store call succeeds.
- Records.Marshal: works on records and leaves the JSON text out, which is a library's.
- EngineImpl.Engine.FinishActivities: completes several activities with one common stamp, where each has its own
  clock reading in the source; which of them counts as the latest completion is then a tie. The same holds of
  `FinishSession`, `CheckParentCompletion` and `TerminateProcessInstance`.
- EngineImpl.Engine.FinishSession: completes the remaining signs with one common stamp.
- EngineImpl.Engine.CheckParentCompletion: completes the caller's activities with one common stamp.
- EngineImpl.Engine.EnterElement: leaves out boundary attachments, timer jobs, subscriptions and thrown signals.
- EngineImpl.Engine.CompleteTask: leaves out the history record and the deletion of timer jobs and subscriptions.
- EngineImpl.Engine.CompleteInTransaction: leaves out the clean-up of timer jobs and subscriptions.
- EngineImpl.Engine.SetVariable: variable names are structured values, so a caller's name is never one of the
  engine's, and a session's name is never a prefix of another's.
- EngineImpl.Engine.ConsumeToken: the in-memory store hands out pointers to its own entries, which makes its
  version check vacuous; the versioned update is modelled in `Optimistic` only.
- EngineImpl.Engine.RemoveSign: never closes the session, as in the source, so nothing is claimed after the last
  child is removed.
- TokenRuns.NavigationFine: is about root instances of definitions without multi-instance tasks, whose completions
  take up to two tokens, and call activities, which `Calls` treats. So are `TakeFine`, `AgendaStep` and
  `CompletionPlaysTheGame`.
- TokenRuns.TakeFine: as `NavigationFine`.
- TokenRuns.AgendaStep: as `NavigationFine`.
- TokenRuns.CompletionPlaysTheGame: as `NavigationFine`.
- Discipline.StartPlaysTheGame: as `NavigationFine`.
- Discipline.CompleteKeeps: is about a task with one token; with several the discipline is lost, which
  `TokenRuns.CompletionPlaysTheGame` states exactly.
- Discipline.TokenDiscipline: leaves out, for the instance itself, termination and signs, which take tokens without
  regard to activities, and moves to elements other than user tasks, where the token parks without navigation.
- Joins.JoinLaw: leaves out moves to the join itself (`Joins.JumpBreaksJoin`, `Joins.RejectBreaksJoin`) and
  definitions that are called with their caller's variables while they have a join of that name
  (`Joins.BornSound`).
- Splits.StartDecides: the flows lead to end events, plain user tasks, and calls of definitions that wait at a
  user task; a child that ends at once is treated in `Calls`.
- Progress.RunsAreFinite: is about definitions without multi-instance tasks and call activities, where one entry
  creates as many activities as the variables say. So are `NavigationIsLighter`, `CompleteDescends` and
  `OperationDescends`.
- Progress.NavigationIsLighter: as `RunsAreFinite`.
- Progress.CompleteDescends: as `RunsAreFinite`.
- Progress.OperationDescends: as `RunsAreFinite`.
- Loops.SessionLaw: in a later session at a task it assumes that the engine finds the session's own loop among
  those on record at each completion; `Loops.NextCompletion` says what happens otherwise. Operations of the same
  instance in between are not covered. Its tokens are counted in `Halfway`.
- Signs.SignLaw: is about one open session at a time for each task; operations of the same instance other than the
  answers are not covered in between.
- ForkJoin.ForkJoinLaw: operations of the same instance other than the completions are not covered in between.
- Calls.CallsLaw: leaves out terminating and rejecting to the end, which do not tell children or callers, jumps to
  an end event, which may fail part-way outside any transaction, and moves of or to a call activity.
- Search.PreviousUserTask: the second half needs that the empty string is not the ID of a user task or start
  event; `Search.EmptyIdIsLost` shows why.
- Optimistic.Serializable: a write commits at once; a transaction that is rolled back counts as none.
- MemLock.MutualExclusion: is about unlocking by the holder. `LockWithTTL`, which unlocks by key after a delay, is
  not modelled.
- Duration.ParseISODuration: numbers are unbounded; overflow is treated at the conversion to nanoseconds.
- Duration.DaysToSeconds: as `ParseISODuration`.
* History records, copies and reminders, timeouts as wall-clock events, listeners, queries and the api package.
