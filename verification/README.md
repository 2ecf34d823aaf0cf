# Verified models of the Strav framework

Dafny models, with proofs, of the parts of Strav whose promises span many functions and many
steps: the durable workflow engine and its in-process counterpart, the template tokenizer and
compiler, the job queue and the one-server scheduler, provider selection, and the Base32 codec of
the TOTP module.

Verify everything with

    dafny verify --resource-limit 2000000 --verification-time-limit 0 --warn-contradictory-assumptions *.dfy

or `dafny verify dfyconfig.toml`.

## What is modelled

**Durable workflows** (`Durable*.dfy`, from `packages/durable/src`). The runs table, the
append-only journal, the job queue and a record of outside effects form one `Db`. `DurableSpec`
gives `start`, `advance`, `signal` and `compensate` as functions of it, with all seven node kinds
and every error path. `DurableRunner.Runner` is the engine as it is written, a class whose methods
change the tables and a parsed state object in place; each method is proved equal to its function.
Callbacks are arbitrary functions of their context and of a `World` (clock and anything else that
differs between deliveries), so a callback may answer differently every time; where purity is
needed it is a stated assumption. A run of the system is any sequence of events: starts,
deliveries, signals, and redeliveries of jobs that are not on the queue. Unless a row says
"exactly-once", a result holds under any duplicate or spurious delivery.

- `DurableJournal`, `DurableRunInvariant`, `DurableReachable`, `DurableHistory`: the invariant of
  every run and what it says about journal, cursor and results.
- `DurableTokens`: which job each status has pending. `DurableSaga`: rollback order.
  `DurableTermination`: the measure. `DurableChildren`: child workflows.
- `DurableNodeLaws`: what one delivery does at each kind of node, said of the callbacks and the
  tables without the engine's own functions.
- `DurableBigStep`: a straight-line interpreter and its equality with the queue-driven engine. It
  evaluates handlers by index and by what they answer, not with the engine's code.
- `DurableWorkflow`: the builder and the registry.
- `DurableShapes`, `DurableSimulation`, `DurableInstances`, `DurableDriver`, `DurableExactNames`: the
  names under which the engine and the interpreter agree, exactly.
- `DurableExamples`: three small workflows that show where they, or the rollback, go wrong.

**In-process workflows** (`Workflow.dfy`, `WorkflowLaws.dfy`, `SagaRefinement.dfy`, from
`packages/workflow/src`): `Workflow.run` with its loops, against a recursive specification; laws of
its steps, rollback and errors over step and entry positions; and the proof that the durable engine
refines it on step-only workflows.

**Views** (`View*.dfy`, `Tokenizer*.dfy`, `Template.dfy`, `EmittedJs.dfy`, `Compiler*.dfy`, from
`packages/view/src`). The scanner's loops are methods over the source text. The compiler emits
lines made of JavaScript fragments (`EmittedJs.Js`); loading them is parsing those fragments into
structured code, and running that code uses a scope of `const` bindings, an output buffer and the
section and stack pool. `Template` has the block structure as a tree with a direct interpreter.
Template expressions are opaque pure functions of the data and the loop variables.
`ViewArguments`, `TokenizerLaws` and `CompilerErrors` say what the argument readers, the scanner and
the error reports make of a written text.

**Queue and scheduler** (`JobQueue.dfy`, `QueueLaws.dfy`, `QueueWorker.dfy`, `QueueOutcomes.dfy`,
`Scheduler.dfy`, from `packages/queue/src`): many dispatchers, workers and servers as interleaved
atomic steps over shared tables, and what becomes of one job. The sequences of dispatched,
completed, dropped and claimed jobs are auxiliary records of what happened.

**Provider selection** (`Providers.dfy`) and **Base32** (`Base32.dfy`): the recursive visit and the
bit-accumulator loops, against reachability and bit sequences.

Places where the code does something other than its documentation or its builder suggests:

- `docs/durable/README.md:94` says that the compensator of the step that exhausted its retries
  runs too. `DurableExamples.FailedStepIsNotUndone` is a workflow where it is not called, and
  `DurableSaga.UndoneExactlyWhen` says when the calls are those the document describes: exactly
  if the failing node has nothing to undo and no step is mistaken for completed.
- The builder makes node names unique but lets a node be called like a loop's iteration key
  (`<loop>#<n>`). `DurableExactNames.SoundExactlyWhen` gives the exact condition under which the
  engine stores what the nodes answer. Among the nodes a run can reach (all up to the first loop
  with a bound below one, which always fails), no node may be named as an iteration within a
  loop's bound, with one exception: a node behind a loop may bear the key of the loop's last
  iteration, because a loop that runs its last iteration fails, as its bound is checked before
  its condition. Every other result about durable runs assumes this condition of all nodes of the
  registered workflows (`DurableJournal.WellNamed`).
- In the excepted case the journal still looks as if that node were completed, so the rollback of
  the failed loop calls its compensator although it never ran
  (`DurableExamples.LookalikeIsUndone`). `DurableSaga.SagaOrder` and
  `DurableHistory.JournalMatchesCursor` state this case too, and
  `DurableSaga.NothingMistaken` excludes it from the workflow's declaration.
- `packages/view/src/tokenizer.ts:19` says that every token carries the line where it starts. A
  text that follows a comment containing a newline carries the line of the comment.
  `TokenizerPositions.TokenLines` says exactly when this happens, and
  `LateTextReportsEarlierLine` is a shortest case.

## Model

| member | source | states |
|---|---|---|
| DurableRunner.Runner.Start | packages/durable/src/durable_runner.ts:154-167 | A start of a registered workflow adds one pending run and one advance job under a fresh id and changes nothing else; an unknown workflow is refused with the tables untouched. |
| DurableRunner.Runner.Advance | packages/durable/src/durable_runner.ts:185-234 | The in-place `advance` leaves exactly the tables of the one-transaction specification, for every node kind and every error; a throw leaves them untouched. |
| DurableRunner.Runner.AdvanceNode | packages/durable/src/durable_runner.ts:207-234 | Running the node in place and then writing its outcome is one atomic move, although the node may already have rewritten the run's state column. |
| DurableRunner.Runner.Signal | packages/durable/src/durable_runner.ts:242-276 | A signal is accepted exactly when the run is waiting for that name; then it is journaled, stored, and the cursor passes the node, in one step. |
| DurableRunner.Runner.Compensate | packages/durable/src/durable_runner.ts:284-335 | The rollback loop makes the specified calls in order, records the ones that throw and goes on, and ends the run as failed; any other status is a no-op. |
| DurableRunner.Runner.RunNode | packages/durable/src/durable_runner.ts:339-380 | Each node kind's in-place run has the specified outcome, state changes, journal rows and child. |
| DurableRunner.Runner.RunBranches | packages/durable/src/durable_runner.ts:354-361 | Every branch is started; all results, or the error of any one rejecting branch, whichever settles first in the world at hand. |
| DurableRunner.Runner.RunLoop | packages/durable/src/durable_runner.ts:443-517 | The iteration replay check, the bound checked before the condition, and one body run whose row and slot are written together. |
| DurableRunner.Runner.RunChildWorkflow | packages/durable/src/durable_runner.ts:519-575 | Starts the child once and remembers its id, else polls it: its result, its error or the fallback message, or a vanished run. |
| DurableRunner.Runner.ApplyOutcome | packages/durable/src/durable_runner.ts:579-641 | The four outcomes' effects on the row, the journal and the queue, and that only a completed node asks its caller to go on. |
| DurableRunner.OneMove | packages/durable/src/durable_runner.ts:216-233 | Node effects followed by outcome effects equal the single move, whatever the node had written to the state column. |
| DurableNodeLaws.HandlerNodeLaw | packages/durable/src/durable_runner.ts:339-404 | One delivery at a step, parallel or route node, in terms of its callbacks only: a route runs the branch its `select` names and stores key and value, an unknown key fails; a parallel node maps every key to its own branch's value; the answer is stored and the cursor moves, or the attempt is retried after the node's own backoff, or fails for good at the attempt limit. |
| DurableNodeLaws.SleepLaw | packages/durable/src/durable_runner.ts:406-429 | The first advance marks the clock and is due after the floored seconds; a later one passes exactly when they have gone by since the mark, and otherwise waits for the rest, at least a second. |
| DurableNodeLaws.WaitLaw | packages/durable/src/durable_runner.ts:431-441 | The node awaits the signal its callback names, keeping its place among the awaited ones, and no job is dispatched. |
| DurableNodeLaws.LoopLaw | packages/durable/src/durable_runner.ts:443-517 | A loop takes over an iteration found in the journal, looks at the bound before the condition, and journals the body's value under the key of the iteration that was stored; no other state changes. |
| DurableNodeLaws.ChildStartLaw | packages/durable/src/durable_runner.ts:519-549 | The child is a new pending run of the workflow and with the input the callback asks for, due at once; the parent remembers its id and is woken after the polling interval. |
| DurableNodeLaws.ChildPollLaw | packages/durable/src/durable_runner.ts:551-574 | With a child the node takes its result, fails with its error or the fallback, fails if it is gone, or polls on. |
| DurableNodeLaws.ReplayLaw | packages/durable/src/durable_runner.ts:209-218 | A node found completed in the journal is not run: its first row's value is stored and the cursor passes it. |
| DurableNodeLaws.AdvanceLaw | packages/durable/src/durable_runner.ts:185-207 | Which advances throw and with what, that a throw or a finished run changes nothing, and what any other advance writes to each table. |
| DurableNodeLaws.CompensateLaw | packages/durable/src/durable_runner.ts:284-335 | Which rollbacks throw, that a run not to be rolled back is left alone, and what a rollback writes. |
| DurableNodeLaws.RollbackLaw | packages/durable/src/durable_runner.ts:306-335 | Every compensator that throws is recorded right after its call, and nothing else is; the run ends failed with its state as it was. |
| DurableNodeLaws.SignalAcceptedLaw | packages/durable/src/durable_runner.ts:242-276 | The first node awaiting the name gets the payload as result and journal row, stops awaiting, and the run goes on at once; no other run changes. |
| DurableReachable.ReachableOk | packages/durable/src/durable_runner.ts:185-335 | Main invariant of every reachable database: ids resolve, bookkeeping exists only for the node under the cursor, journal rows are exactly those the cursor and loop slot account for, and status, result and error agree. |
| DurableRunInvariant.AdvanceMoveOk | packages/durable/src/durable_runner.ts:185-234 | One advance keeps the invariant of its run at any time, whatever the callbacks answer. |
| DurableRunInvariant.SignalMoveOk | packages/durable/src/durable_runner.ts:242-276 | A matching signal can only be for the node under the cursor, and accepting it keeps the invariant. |
| DurableRunInvariant.NodeNotReplayed | packages/durable/src/durable_runner.ts:207-215 | Under the row lock the node under the cursor is never already completed in the journal, so the replay branch is only a safeguard. |
| DurableRunInvariant.SlotNotReplayed | packages/durable/src/durable_runner.ts:456-468 | The same for the loop iteration about to run, as long as the loop is below its bound. |
| DurableHistory.JournalMatchesCursor | packages/durable/src/durable_runner.ts:209-218 | In every reachable state the completed node rows, in insertion order, are the nodes before the cursor with the stored results (and at most the last iteration of a spent loop, if a later node bears its key), results have exactly those keys, and within its bound a loop slot at iteration k has exactly rows 0 to k-1 with its values. |
| DurableHistory.CompletedAtMostOnce | packages/durable/src/durable_runner.ts:587-605 | No node and no loop iteration of a run is ever journaled as completed twice. |
| DurableHistory.RunsOnlyMoveForward | packages/durable/src/durable_runner.ts:193-193 | From any reachable state on, the cursor never decreases, and completed and failed rows never change again. |
| DurableTokens.OneToken | packages/durable/src/durable_runner.ts:579-641 | Exactly-once: every run has exactly the pending job its status calls for, and finished or signal-parked runs have none. |
| DurableTokens.CompensatingOnlyFails | packages/durable/src/durable_runner.ts:284-335 | Exactly-once: a compensating run stays so or becomes failed, and becomes failed exactly when its own pending job is delivered. |
| DurableTokens.NoRunStranded | packages/durable/src/durable_runner.ts:154-167 | Exactly-once: an unfinished run has a pending job, or awaits one signal that, when sent, moves it past the node. |
| DurableSaga.SagaOrder | packages/durable/src/durable_runner.ts:284-335 | Before failure no compensator has been called; after it, exactly those of the completed `step` nodes, once each, in reverse declaration order, with the final results, whichever throw, preceded only by that of a step mistaken for completed; never the failing node's. |
| DurableSaga.UndoneExactlyWhen | packages/durable/src/durable_runner.ts:303-322 | A failed run undid exactly its completed steps if and only if no step was mistaken; it undid the failing step as well, as documented, if and only if moreover that node has nothing to undo. |
| DurableSaga.NothingMistaken | packages/durable/src/durable_runner.ts:303-312 | No step is ever mistaken if none with a compensator bears the last iteration key of an earlier loop. |
| DurableSaga.KeepPastRows | packages/durable/src/durable_runner.ts:302-322 | The journal names of the nodes before the cursor that resolve to compensators are exactly the declared ones; iterations of finished loops resolve to none. |
| DurableBigStep.SmallStepsAreBigStep | packages/durable/src/durable_runner.ts:339-517 | With pure callbacks the stored results of a child-free run are at every moment those of the straight-line interpreter up to the cursor; a completed run has its result map, a failed one fails at its node with its results and an error it allows there. |
| DurableBigStep.PayloadsAgree | packages/durable/src/durable_runner.ts:242-276 | The payloads a run accepted never conflict, so the interpreter's assumption about them can always be met: the run's results say what they were. |
| DurableBigStep.NodeAgrees | packages/durable/src/durable_runner.ts:382-517 | One run of any node moves along the interpreter's evaluation of that node, retries and iterations included. |
| DurableTermination.FinishesInTime | packages/durable/src/durable_runner.ts:382-404 | Exactly-once: a run without sleep, signal or child nodes takes at most a computable number of deliveries, and has finished after that many. |
| DurableTermination.EveryDeliveryCounts | packages/durable/src/durable_runner.ts:443-517 | Exactly-once: until such a run has finished it has a pending job, and delivering it strictly decreases the measure of steps, iterations and attempts left. |
| DurableTermination.LoopBodiesBounded | packages/durable/src/durable_runner.ts:469-475 | No loop body is ever recorded as completed at or beyond iteration `maxIterations`; a row under such a key is that of a node of this name. |
| DurableTermination.FinishedLoops | packages/durable/src/durable_runner.ts:469-485 | A loop that completes has run fewer bodies than its bound. |
| DurableChildren.OneChildPerNode | packages/durable/src/durable_runner.ts:519-575 | No child node of a run ever starts two children. |
| DurableChildren.ChildResult | packages/durable/src/durable_runner.ts:549-563 | Every child node passed by the cursor started a child, that child completed, the node's result is the child's, and no later event changes it. |
| DurableChildren.ChildFailure | packages/durable/src/durable_runner.ts:564-575 | A run that rolls back at a node with a child does so because that child failed, and carries the child's error. |
| DurableChildren.FailedChildFailsParent | packages/durable/src/durable_runner.ts:564-575 | Once the child has failed, the parent's next advance starts its rollback with the child's error, which always exists. |
| DurableWorkflow.DefaultBackoff | packages/durable/src/durable_workflow.ts:44-52 | Doubling delays from one second up, never above sixty. |
| DurableWorkflow.Builder.Claim | packages/durable/src/durable_workflow.ts:241-251 | A name is refused exactly when it is empty or taken; taken names stay taken. |
| DurableWorkflow.Builder.AddStep | packages/durable/src/durable_workflow.ts:89-102 | Appends the step with the defaults filled in, or changes no node. |
| DurableWorkflow.Builder.AddParallel | packages/durable/src/durable_workflow.ts:137-157 | Also refused without branches, and then the name is used up although no node was added. |
| DurableWorkflow.Builder.AddRoute | packages/durable/src/durable_workflow.ts:164-186 | The same for routes. |
| DurableWorkflow.Builder.AddLoop | packages/durable/src/durable_workflow.ts:195-218 | Appends the loop with its bounds defaulted. |
| DurableWorkflow.WorkflowRegistry.Register | packages/durable/src/workflow_registry.ts:20-28 | Shadowing is refused and every earlier registration survives. |
| DurableExactNames.SoundExactlyWhen | packages/durable/src/durable_runner.ts:456-475 | For every child-free declaration with unique names: the engine runs every workflow of that shape as the interpreter does, under redelivery or exactly-once, if and only if the reachable names are well named. |
| DurableExactNames.LaterNodeSkipped | packages/durable/src/durable_runner.ts:209-218 | For every shape with a node behind a loop that is named as an iteration the loop can finish after, callbacks and an exactly-once run in which the node takes the iteration's value for its own. |
| DurableExactNames.EarlierNodeTaken | packages/durable/src/durable_runner.ts:456-475 | For every shape with a loop behind a node that is named as an iteration within its bound, callbacks and an exactly-once run in which the loop takes the node's result for that iteration, and stores too long a list or fails though it should not. |
| DurableExactNames.PlainNamesSuffice | packages/durable/src/durable_workflow.ts:241-251 | Unique names without `#` are always well named. |
| DurableSimulation.Simulates | packages/durable/src/durable_runner.ts:469-475 | Cutting a workflow off behind a loop that may not run even once changes no table under any events. |
| DurableDriver.Drive | packages/durable/src/durable_runner.ts:185-276 | Calm callbacks can be driven to any node behind well-named ones, or to any iteration of a loop there, by exactly-once events. |
| DurableExamples.ClashingNameIsSkipped | packages/durable/src/durable_runner.ts:209-218 | For any loop name, a builder-accepted workflow whose step stores the loop's iteration instead of what its handler answers. |
| DurableExamples.FailedStepIsNotUndone | packages/durable/src/durable_runner.ts:303-322 | Two steps with compensators, the second exhausts its attempt: only the first is undone. |
| DurableExamples.LookalikeIsUndone | packages/durable/src/durable_runner.ts:303-312 | A spent loop's rollback calls the compensator of the later step that bears the last iteration's key and never ran. |
| Workflow.Runner.Run | packages/workflow/src/workflow.ts:192-219 | The in-process loop returns or throws what the recursive specification says and makes exactly its compensator calls. |
| Workflow.Runner.ExecuteStep | packages/workflow/src/workflow.ts:228-275 | Each step kind's results, with parallel results stored only when all entries succeed. |
| Workflow.Runner.RunLoop | packages/workflow/src/workflow.ts:257-274 | The loop of up to `maxIterations` bodies with feedback and early stop equals its recursive form, and stores nothing when no iteration runs. |
| Workflow.Runner.Compensate | packages/workflow/src/workflow.ts:277-300 | Reverse order over completed steps, every compensator called whatever throws, and exactly the throws reported. |
| Workflow.RunStopsAtFirstThrow | packages/workflow/src/workflow.ts:192-219 | A run stops at the first step that throws with every earlier step done, rolls back exactly those, and finishes exactly when none throws. |
| WorkflowLaws.StepLaw | packages/workflow/src/workflow.ts:228-256 | In terms of the handlers: a step stores its value, a parallel step each entry's under its name or nothing and the first throw, a route the value of the branch its resolver names, or nothing for an unknown key. |
| WorkflowLaws.LoopLaw | packages/workflow/src/workflow.ts:257-274 | The bodies a loop runs: the first input is the mapped or given one, each next one the fed-back value or the same, and the last is the first whose `until` holds, the last within the bound, or the one that throws. |
| WorkflowLaws.AbortUndoes | packages/workflow/src/workflow.ts:277-318 | A run that aborts at step k calls, for steps k - 1 down to 0, a sequential step's own compensator, and for a parallel step those of its entries that declare one in declaration order: each once, with the final results, and nothing else. |
| WorkflowLaws.AnswerLaw | packages/workflow/src/workflow.ts:192-219 | The error thrown names the failing step, or is a nested run's own; if compensators threw it carries all they threw, in order. |
| SagaRefinement.EnginesAgree | packages/workflow/src/workflow.ts:192-318 | On the same steps with one attempt each, a finished durable run and `Workflow.run` have the same results, or fail at the same step with the same message and the same compensator calls in the same order. |
| SagaRefinement.SameRollback | packages/workflow/src/workflow.ts:303-318 | The in-process rollback of the first k steps is the reverse-order walk of their compensators. |
| ViewText.FindTopLevelComma | packages/view/src/compiler.ts:528-556 | Finds a comma exactly when one lies outside quotes at bracket depth zero, and then the first such one. |
| ViewText.SplitPrinted | packages/view/src/compiler.ts:466-521 | Splitting a printed name and value gives both back: the name may hold commas, brackets and other quotes, the value anything. |
| ViewArguments.EachReadsBack | packages/view/src/compiler.ts:156-163 | A written `x in c`, with any white space the pattern allows, is read back with `x` as the item and `c` as the collection. |
| ViewArguments.EachNeedsClause | packages/view/src/compiler.ts:157-161 | An `@each` argument is read if and only if it is such a clause. |
| ViewArguments.LiteralLaw | packages/view/src/compiler.ts:447-463 | Of a literal with white space around it: not starting with a quote, not ending with the same one, undecodable, or the decoded text between them. |
| ViewArguments.YieldPrinted | packages/view/src/compiler.ts:478-490 | A printed `@yield` name and fallback come back, whatever white space surrounds the fallback. |
| ViewArguments.NothingAfterComma | packages/view/src/compiler.ts:466-500 | A comma with nothing behind it is an error for `@set` and no data for `@include`. |
| ViewArguments.StandardReads | packages/view/src/compiler.ts:447-521 | Each kind of directive reads its arguments through the reader of its kind: what was printed as a literal, a list or a clause comes back. |
| ViewHost.RenderContext.Push | packages/view/src/view_engine.ts:424-427 | Appends to one stack, creating it if needed, and touches nothing else. |
| ViewHost.RenderContext.Prepend | packages/view/src/view_engine.ts:428-431 | Puts the body in front of one stack and touches nothing else. |
| ViewHost.RenderContext.SetValue | packages/view/src/view_engine.ts:418-420 | The escaped value becomes the section; if escaping throws, nothing changes. |
| ViewHost.RenderContext.StackText | packages/view/src/view_engine.ts:432-434 | The bodies of a stack joined in order, and the empty text for an unknown stack. |
| ViewHost.StackOrder | packages/view/src/view_engine.ts:424-434 | Pushes read in order after all prepends, the last prepend first, and stacks do not disturb each other. |
| ViewHost.ConcatInOrder | packages/view/src/view_engine.ts:432-434 | The bodies of a stack are joined first to last. |
| Compiler.Pass.Compile | packages/view/src/compiler.ts:86-394 | The token loop with its block stack and emitter produces exactly the specified lines, layout or error. |
| Compiler.Pass.Open | packages/view/src/compiler.ts:119-171 | Opening a block emits its lines and pushes its frame, or reports the bad arguments. |
| Compiler.Pass.Shut | packages/view/src/compiler.ts:179-193 | Closing requires the matching block on top, emits what its frame calls for and pops it. |
| Compiler.Pass.Between | packages/view/src/compiler.ts:124-178 | `@elseif`, `@else` and `@empty` require their block on top; `@empty` flips the frame. |
| CompilerCorrect.TemplateEmits | packages/view/src/compiler.ts:86-369 | The flat pass over a well-formed template's tokens emits the lines of its tree and ends with no open block. |
| CompilerRuns.TemplateLoads | packages/view/src/compiler.ts:371-394 | Those lines always load, as the nested code of the tree. |
| CompilerRuns.NodesRun | packages/view/src/compiler.ts:86-369 | Running the code of a tree is rendering it and then running what follows, with loop variables, buffers and throws included. |
| CompilerRuns.CompilerIsCorrect | packages/view/src/compiler.ts:86-394 | Compiler correctness: a well-formed template compiles, its layout is its `@extends` target, and running the result gives the html, sections, stacks and error of the direct interpreter on any data. |
| CompilerComplete.AcceptedIsTemplate | packages/view/src/compiler.ts:424-435 | Everything accepted is the written form of some well-formed template, so no dangling, crossed, repeated or unclosed block passes. |
| CompilerComplete.AcceptsExactlyTemplates | packages/view/src/compiler.ts:86-394 | Compiling succeeds if and only if the tokens are a well-formed template with at most one `@extends`. |
| CompilerErrors.FirstFault | packages/view/src/compiler.ts:86-359 | The first token with something wrong, judged by its kind, its arguments, the blocks open before it and an earlier `@extends`, decides the error: its reason and its line. |
| CompilerErrors.NoFault | packages/view/src/compiler.ts:366-394 | Without such a token the innermost open block is reported with the line it was opened on; with none open, all that can fail is loading. |
| CompilerBraces.BracesMatchBlocks | packages/view/src/compiler.ts:155-193 | Between tokens the emitted brace depth is the weight of the open blocks, and it never goes below zero, as long as no `@each` had a second `@empty`. |
| CompilerBraces.BalancedExactlyWhen | packages/view/src/compiler.ts:173-193 | A finished pass is balanced if and only if no `@each` had a second `@empty`; otherwise it is short by one brace for each. |
| Tokenizer.Tokenize | packages/view/src/tokenizer.ts:95-246 | The scanning loop terminates on every source and gives exactly the tokens or the error of the recursive scan. |
| Tokenizer.FindMatchingClose | packages/view/src/tokenizer.ts:262-288 | The first position of `}}` that lies outside every quote opened since, escapes respected, or -1 if there is none. |
| Tokenizer.FindMatchingParen | packages/view/src/tokenizer.ts:290-326 | The first `)` outside quotes that brings the count of parentheses outside quotes from one to zero, or -1 if there is none. |
| Tokenizer.FindRawClose | packages/view/src/tokenizer.ts:328-341 | The first `@endraw` that is not the beginning of a longer word, or -1. |
| Tokenizer.Scanner.Turn | packages/view/src/tokenizer.ts:117-242 | One turn consumes at least a character and keeps emitted tokens plus the scan of the rest equal to the scan of the source. |
| TokenizerLaws.RawBlock | packages/view/src/tokenizer.ts:198-215 | A raw block, with or without arguments, is one text with exactly what stands between its markers, and the rest is scanned as a source of its own. |
| TokenizerLaws.RawBlockErrors | packages/view/src/tokenizer.ts:199-221 | A raw block that is never closed and an `@endraw` on its own are rejected with their line. |
| TokenizerLaws.CommentLaw | packages/view/src/tokenizer.ts:120-134 | A comment leaves no token: the scan is that of what follows it. |
| TokenizerLaws.EscapedLaw | packages/view/src/tokenizer.ts:152-168 | An interpolation is one token with its expression, without the white space around it, ended by the first `}}` outside quotes. |
| TokenizerLaws.RawLaw | packages/view/src/tokenizer.ts:136-150 | The same for an unescaped one, ended by the first `!!}`. |
| TokenizerLaws.OpenArguments | packages/view/src/tokenizer.ts:182-193 | An argument list that is never closed is rejected under the name of its directive. |
| TokenizerLaws.PlainText | packages/view/src/tokenizer.ts:172-242 | A source without markers is one text, unknown `@words` and single braces included. |
| TokenizerLaws.FrozenOnly | packages/view/src/tokenizer.ts:57-93 | The words are those of the frozen set, each under its own name, and no others. |
| TokenizerLaws.ScansAlike | packages/view/src/tokenizer.ts:95-246 | What a rest of a source scans to depends, up to lines, on nothing before it but the pending text. |
| TokenizerPositions.TokenLines | packages/view/src/tokenizer.ts:95-246 | Every interpolation and directive reports one plus the newlines before its first character; a text does so exactly when the comments skipped before its first character hold no newline. |
| TokenizerPositions.LinesNeverDecrease | packages/view/src/tokenizer.ts:95-246 | Token lines never decrease. |
| TokenizerPositions.LateTextReportsEarlierLine | packages/view/src/tokenizer.ts:117-134 | The shortest source on which a text on line 2 reports line 1. |
| TokenizerRoundTrip.RoundTrip | packages/view/src/tokenizer.ts:95-341 | Printing a canonical token list and scanning it gives back the same types, values and arguments. |
| ViewPipeline.SourceRenders | packages/view/src/compiler.ts:86-394 | From source to html: for every well-formed template of canonical tokens, scanning its printed source and compiling the tokens gives code whose run is the rendering of the tree. |
| ViewPipeline.LinesDoNotMatter | packages/view/src/compiler.ts:86-394 | Token lists that differ in lines only compile to the same code. |
| TokenizerRoundTrip.LexPrintedEscaped | packages/view/src/tokenizer.ts:151-170 | A printed interpolation of a quote-balanced trimmed expression is read back as itself, whatever follows. |
| TokenizerRoundTrip.LexPrintedDirective | packages/view/src/tokenizer.ts:172-229 | A printed directive is read back with its arguments, provided what follows does not extend its name. |
| Providers.SelectProviders | packages/cli/src/subset_boot.ts:17-51 | Succeeds exactly when no unknown name and no cycle can be reached from the request; then the result is exactly the reachable providers, each once, each after its dependencies; an error names a real cycle or a reachable unknown name. |
| Providers.Selection.Visit | packages/cli/src/subset_boot.ts:30-46 | The depth-first visit terminates, keeps the selection ordered, adds only what the name reaches, and explains its failure by the trail. |
| Providers.OrderedResolves | packages/cli/src/subset_boot.ts:30-51 | Any ordered selection that holds the request rules out every unknown name and cycle below it and holds all that is reachable. |
| Base32.Encode | packages/auth/src/totp/totp.ts:119-135 | The 32-bit accumulator loop writes the bytes' bits in fives, although high bits are lost all the time. |
| Base32.Decode | packages/auth/src/totp/totp.ts:137-153 | The decoding loop returns the letters' bits in eights, skipping other characters and dropping what does not fill a byte. |
| Base32.RoundTrip | packages/auth/src/totp/totp.ts:119-153 | Decoding undoes encoding for every byte sequence, and the text has ceil(8n/5) letters. |
| Base32.EncodeUndoesDecode | packages/auth/src/totp/totp.ts:119-153 | Encoding undoes decoding if and only if the text is canonical. |
| Base32.EncodedIsCanonical | packages/auth/src/totp/totp.ts:119-135 | Encoding only produces canonical text. |
| Base32.IndexOfAlphabet | packages/auth/src/totp/totp.ts:142-146 | A character has at most one position in the alphabet of section 6 of RFC 4648, and the index function finds it. |
| QueueWorker.DatabaseQueue.InsertJob | packages/queue/src/database_queue.ts:118-148 | One new unreserved row with the queue, limit and due time that options, class and defaults call for, in that order. |
| QueueWorker.DatabaseQueue.DispatchLater | packages/queue/src/database_queue.ts:83-91 | Negative seconds are refused and insert nothing; otherwise the row is due after the delay. |
| QueueWorker.DateIsRespected | packages/queue/src/database_queue.ts:151-161 | A job for a date is never early, less than a second late, and a past date is due at once. |
| QueueWorker.Worker.ClaimRow | packages/queue/src/worker.ts:239-274 | Reserves the available row with the least id that no other claim has locked, counts the attempt, and changes nothing if there is none. |
| QueueWorker.Worker.HandleRow | packages/queue/src/worker.ts:107-209 | After the handler: completed, dropped as unknown, dead-lettered or retried, by the effective limit, with the row and the report to match. |
| QueueWorker.Worker.ProcessOne | packages/queue/src/worker.ts:107-209 | One poll is one claim followed by one finish. |
| QueueOutcomes.DispatchedRow | packages/queue/src/database_queue.ts:118-148 | Queue and limit are the ones asked for, else the class's, else the defaults; the job is due after its delay, never before now. |
| QueueOutcomes.ClaimTakesFirst | packages/queue/src/worker.ts:239-274 | An idle worker takes the free row with the least id: reserved now, one more attempt, nothing else changed. |
| QueueOutcomes.FinishedJob | packages/queue/src/worker.ts:107-209 | After any history, when the holder of a row is done: dropped if its name is unknown, completed if its handler returned, dead-lettered with payload and exception if it threw and the class's limit, else the row's, is reached, and otherwise idle again and due after the class's own backoff, else the worker's, never negative. |
| QueueOutcomes.CompletedOnlyIf | packages/queue/src/worker.ts:142-209 | A job is completed if and only if it is registered and its handler returned, and dead-lettered if and only if it threw with its tries used up. |
| QueueOutcomes.ReportedJob | packages/queue/src/worker.ts:107-209 | What the worker reports is what became of the job, with the delay of a retry. |
| QueueLaws.ReachableOk | packages/queue/src/worker.ts:107-310 | The fleet invariant under every interleaving of dispatches, claims, finishes and crashes. |
| QueueLaws.NoRowHeldTwice | packages/queue/src/worker.ts:239-274 | No row is ever held by two workers, and a held row can not be claimed. |
| QueueLaws.ClaimsAreDue | packages/queue/src/worker.ts:239-274 | Every row ever claimed was already available. |
| QueueLaws.EachJobInOnePlace | packages/queue/src/worker.ts:276-310 | Every dispatched job is live, completed, dead-lettered or dropped: in exactly one of these, exactly once. |
| QueueLaws.DeadLettersAreDistinct | packages/queue/src/worker.ts:287-299 | No two dead letters come from one job. |
| QueueLaws.DeadLettersAreExhausted | packages/queue/src/worker.ts:170-190 | A job is dead-lettered after exactly as many claims as its limit allows, at least one; the class limit goes before the stored one. |
| QueueLaws.AttemptsAreBounded | packages/queue/src/worker.ts:170-209 | A live row's attempts are its claims and never exceed its effective limit, or one. |
| Scheduler.Scheduler.Tick | packages/queue/src/scheduler.ts:149-167 | The tick loop dispatches the matching entries in order at the floored minute, and a failing one does not stop the rest. |
| Scheduler.Scheduler.RunEntry | packages/queue/src/scheduler.ts:128-141 | Dispatches the first entry of the name regardless of its cron, honouring one-server bookkeeping; an unknown name changes nothing. |
| Scheduler.Scheduler.DispatchLocked | packages/queue/src/scheduler.ts:195-218 | Under the lock the dispatch and the recorded boundary happen together or not at all. |
| Scheduler.FloorIsLastBoundary | packages/queue/src/scheduler.ts:222-240 | The floor is the last minute boundary not after a time, and the next boundary is strictly after it. |
| Scheduler.FleetOk | packages/queue/src/scheduler.ts:195-218 | Under any interleaving of servers with arbitrary clocks the boundaries dispatched for a one-server name strictly increase, and the stored last run is the last of them. |
| Scheduler.OncePerMinute | packages/queue/src/scheduler.ts:195-218 | At most one dispatch per one-server name and minute. |
| Scheduler.DispatchedUnlessRecorded | packages/queue/src/scheduler.ts:195-218 | A due boundary is dispatched if and only if the last recorded one is earlier and the queue accepts it, and no other name is affected. |
| Scheduler.TickIsEvents | packages/queue/src/scheduler.ts:149-167 | Every tick is a sequence of single dispatches, so the fleet results cover interleaved ticks. |
| Scheduler.EachEntryShares | packages/queue/src/scheduler.ts:149-218 | A tick gives every entry its share in order: one job with its payload if its cron matches, the queue takes it, and a one-server entry has no record of the boundary or a later one. |
| Scheduler.FirstEntryFound | packages/queue/src/scheduler.ts:128-141 | The entry run by name is the first registered under it. |

## Left out

- DurableRunner.Runner.Advance: the transaction and the dispatch after its commit are one step, so nothing is claimed about a crash between them; a child's start is likewise part of its parent's step.
- DurableReachable.ReachableOk: assumes well-named workflows in the exact sense above, that child specs name registered workflows and that polling delays are not negative; `delay`, `signalName` and `backoff` callbacks return.
- DurableExactNames.SoundExactlyWhen: covers declarations without child nodes, which the interpreter does not evaluate, and with at least one branch in every route, which the builder demands.
- Workflow.Runner.ExecuteStep: when several parallel entries throw, the one that settles first is reported; the in-process model, whose handlers see no world, reports the first in declaration order.
- DurableRunner.Runner.Find: the snapshot built from a run row is not modelled, only the row.
- DurableBigStep.SmallStepsAreBigStep: leaves out child nodes, whose results depend on other runs; `DurableChildren` covers those.
- Whether two rows could share a journal key by a race is not modelled: every transition holds the run's row lock. The journal's unique index is not relied on.
- `null` and `undefined` are identified, ids are natural numbers, and the key order and prototype keys of JavaScript objects are not modelled, except that awaited signals keep insertion order.
- Callbacks do not change the results object they are given. Rollback failures are recorded as effects rather than logged.
- Backoff is any delay, so jitter needs no model. Job delays are carried but the queue may deliver in any order.
- Workflow.Runner.Run: handlers are functions of their context, so a nested run appears only as the error it throws; the typed builder overloads are one append.
- DurableWorkflow.Builder.Claim: the constructor's own check for an empty workflow name is a precondition of the model's constructor.
- CompilerRuns.CompilerIsCorrect: expressions, component and include rendering, the layout chain and helpers are opaque functions of their inputs and the pool; expressions are assumed not to mention the compiler's own `__` names and not to unbalance the emitted statements; `with` lookup and automatic semicolons are not modelled.
- CompilerRuns.CompilerIsCorrect: `@each` reads its collection once for the emptiness test and once for the loop; a one-shot iterator therefore renders nothing, which the model follows by giving each value a first and a later reading.
- CompilerComplete.AcceptsExactlyTemplates: loading is judged on the statement structure; duplicate `const` declarations and syntax errors inside an expression are not.
- CompilerBraces.BracesMatchBlocks: counts the braces the compiler writes; braces inside expressions are taken as balanced.
- ViewText.SplitPrinted: names with a backslash or the quote they are printed in are left out, since the printer does not escape; decoding of escapes inside a literal is a parameter, as `JSON.parse` does it.
- TokenizerRoundTrip.RoundTrip: lines are not compared, since printing does not keep them, and `@raw` blocks are text when read back (`TokenizerLaws.RawBlock` says what they are read as).
- Tokenizer.Tokenize: source characters are Dafny characters; surrogate halves are not modelled.
- Base32.Decode: upper-casing outside ASCII, where one character may become several, is a parameter; the accumulator is its unsigned 32-bit pattern, which is all that the unsigned shift shows.
- QueueWorker.Worker.ClaimRow: the claim statement is one atomic step; rows locked by other open claims are a parameter.
- QueueWorker.Worker.HandleRow: the `failed` hook, logging, timeouts and the job's construction are not modelled; the stored limit is never null, so the worker's own default limit is not used.
- QueueLaws.EachJobInOnePlace: a row reserved by a crashed worker stays reserved for good and counts as live, as nothing in the code releases it.
- Scheduler.FleetOk: says nothing about a timer that fires early; the run loop and its abort-aware sleeps are left out, and cron expressions are arbitrary predicates.
- SQL, Postgres, JSON encoding, HTTP, mail, payments, storage drivers and `dispatchSync`: input and output, or thin registries.
- Disk cache, asset manifest, template lookup and the Brain's suspend and resume: filesystem, hashing, or provider loops that are not part of this model.
- HOTP digits, TTL and cron parsing, `defineMachine` and channel authorizers: each would only add easy members.
