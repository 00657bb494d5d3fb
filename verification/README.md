# A verified model of a BPMN compiler and its fibre machine

The system compiles a workflow graph to bytecode, checks the bytecode, runs it on a machine of
fibres, and delivers the events of running instances to subscribers. This project models those
parts in Dafny and proves what they promise, for every graph, every program and every run.

* **The structural oracle.** `PostDominatorPass` computes immediate post-dominators in one pass
  over a reverse postorder, as the compiler does, and is proved exact against paths
  (`PostDominators`). `Regions` and `Layout` give the bytecode order that it leads to; `LayoutExact`
  says exactly when that order goes forward.
* **The compiler.** `Ir` and `Blocks` hold the graph and the words of every node, `Lowering` both
  passes, `Pairing` the pairing of gateways, `Compiler` the whole. `OpenForks`, `Labelling`,
  `WordFlow` and `Scoping` show that a well-nested graph lowers to a program that the control-stack
  verifier accepts. `GatewayLanding` says exactly where an exclusive gateway sends a fibre.
* **The checks.** `ControlStack` is the abstract interpretation of the bytecode verifier. `Nesting`,
  `NestingBlocks` and `NestingExact` are the bracket check on graphs; `CheckedNesting` derives from
  it the nesting that the compiler's theorem asks for. `ErrorDispatch` covers the rules for boundary
  errors.
* **The machine.** `Kernel` executes words, `KernelInvariant`, `KernelSteps`, `KernelClosings` and
  `KernelSafety` carry one invariant over every step, `KernelTermination` bounds every run,
  `KernelTheorems` states what follows, and `Commands` adds the commands and the check after each.
  `ErrorRoutes` and `HandlerRuns` follow the error routes, to whose handlers the verifier passes no
  scopes.
* **Meaning.** `TokenGame` gives a graph its meaning as a game with tokens, without counters. A turn
  moves one token on until it has to wait or is gone, as a tick runs one fibre until it yields.
  `Lockstep` carries simulations from single steps to whole runs; `Simulation` and
  `SimulationTheorems` show that plays by turns and committed runs are the same, game for state, and
  `CompilerCorrectness` draws the whole line from graph to run. Finer interleavings, where another
  token moves in the middle of a turn, are runs of the machine word by word but not runs of
  commands, since no other fibre can act within a tick. `ConditionMeaning` says which conditions are
  decided by what they say.
* **Delivery and authoring.** `Fanout` and `FanoutRuns` are the event fan-out, `Dependencies` the
  loading of called workflows, `JoinSearch` a second matcher of splits and joins, `KahnLayout` the
  diagram layout, `Durations` the timer texts, `Dto` and `DtoIr` the authoring format.

Graphs are numbered: node `u` is an index and its flows are listed in the order in which the
original iterates over them. Names are strings where they are read and numbers where they are
only compared.

## Model

| member | source | states |
|---|---|---|
| PostDominators.MapExact | bpmn-lite-compiler/src/lowering.rs:1045-1147 | the post-dominator map sends `n` to `d` iff every way from `n` to a sink meets `d` and `d` is the closest such node; `n` has no entry iff no node is common to all its ways |
| PostDominators.ExitPd | bpmn-lite-compiler/src/lowering.rs:1046-1069 | adding the virtual exit changes no post-dominance between real nodes |
| PostDominatorPass.ReversePostorder | bpmn-lite-compiler/src/lowering.rs:1077-1098 | the walk with an explicit stack lists every node once, and every edge leads to an earlier place |
| PostDominatorPass.Intersect | bpmn-lite-compiler/src/lowering.rs:1103-1120 | terminates, and what post-dominates the result is exactly what post-dominates both arguments |
| PostDominatorPass.Merge | bpmn-lite-compiler/src/lowering.rs:1128-1142 | folding `intersect` over the successors gives the immediate post-dominator of the next node, and no successor is ever missing |
| PostDominatorPass.Dominators | bpmn-lite-compiler/src/lowering.rs:1100-1142 | one pass suffices: every node but the exit gets its immediate post-dominator |
| PostDominatorPass.Compute | bpmn-lite-compiler/src/lowering.rs:1045-1147 | on every acyclic graph the computed map is exactly the immediate post-dominator map |
| Compiler.RegionMapExact | bpmn-lite-compiler/src/lowering.rs:1162-1176 | the region map holds exactly the splits that have a real post-dominator, each with it |
| Layout.LayoutRegion | bpmn-lite-compiler/src/lowering.rs:1275-1308 | the recursive walk with its shared set and list computes the layout function |
| Layout.StructuredOrder | bpmn-lite-compiler/src/lowering.rs:1244-1262 | for every graph the order is a permutation of all nodes that begins with the layout of the start |
| Layout.LayoutIsStructured | bpmn-lite-compiler/src/lowering.rs:1244-1308 | with branches apart, every edge on the flow goes forward and every branch is one contiguous block after its split and before its merge |
| Layout.SharedGoesBack | bpmn-lite-compiler/src/lowering.rs:1295-1305 | with its own region map, a graph whose branches share a node is laid out so that an edge on the flow goes back |
| LayoutExact.ForwardIffOrdered | bpmn-lite-compiler/src/lowering.rs:1244-1308 | the layout goes forward iff at every split on the flow each branch begins inside an earlier one or shares nothing with any earlier one |
| LayoutExact.ApartIsOrdered | bpmn-lite-compiler/src/lowering.rs:1295-1305 | branches apart meet that condition |
| LayoutExact.ChainedIsOrdered | bpmn-lite-compiler/src/lowering.rs:1295-1305 | a graph meets it whose branches, with its own region map, are not apart |
| Blocks.BlockFits | bpmn-lite-compiler/src/lowering.rs:1562-1640 | no node is given more words by the second pass than the first kept room for, whatever its boundary events and branches |
| Lowering.CollectErrors | bpmn-lite-compiler/src/lowering.rs:187-202 | the boundary errors of every host, in layout order |
| Lowering.AssignAddresses | bpmn-lite-compiler/src/lowering.rs:208-220 | the address of every node is the sum of the rooms of the nodes before it |
| Lowering.PiecesFit | bpmn-lite-compiler/src/lowering.rs:208-220 | addresses of the first pass leave room for the words of the second |
| Lowering.PadTo | bpmn-lite-compiler/src/lowering.rs:313-316 | padding only fills the gap, with jumps to the base it leads up to |
| Lowering.EmitXor | bpmn-lite-compiler/src/lowering.rs:375-436 | the words of an exclusive gateway, or a refusal if a flow has no address |
| Lowering.EmitHost | bpmn-lite-compiler/src/lowering.rs:1760-1918 | the words of a task with its timer, guard, error arms and closing word |
| Lowering.EmitArms | bpmn-lite-compiler/src/lowering.rs:1687-1720 | one arm per boundary error, specific codes first, or a refusal if one leads nowhere |
| Lowering.HeaderAddresses | bpmn-lite-compiler/src/lowering.rs:2026-2031 | the header addresses computed ahead of the inclusive fork are where the headers stand |
| Lowering.EmitInclusive | bpmn-lite-compiler/src/lowering.rs:1978-2063 | the words of an inclusive fork: checks, incident, fork and headers |
| Lowering.EmitMi | bpmn-lite-compiler/src/lowering.rs:2153-2230 | the words of a multi-instance activity, its fork and join where they were computed to be |
| Lowering.EmitNode | bpmn-lite-compiler/src/lowering.rs:332-921 | the words of every kind of node |
| Lowering.Emit | bpmn-lite-compiler/src/lowering.rs:308-922 | every node begins exactly at its first-pass address; lowering is refused iff some node has no words |
| Pairing.ComputePairing | bpmn-lite-compiler/src/lowering.rs:1375-1433 | the three pairing tables hold exactly the gateway pairs with the addresses of their forks and joins |
| Pairing.PairsNeverCross | bpmn-lite-compiler/src/lowering.rs:1350-1373 | a fork met before the join of another has the same join or one that the other's strictly post-dominates, on every acyclic graph and for every mix of kinds |
| Pairing.PairingIsBijection | bpmn-lite-compiler/src/verifier.rs:166-202 | with as many AND forks as joins and no join unpaired, forks and joins are matched one to one by immediate post-dominance |
| Pairing.JoinKnowsItsFork | bpmn-lite-compiler/src/lowering.rs:1389-1407 | then the pairing given to an AND join is the address of its own fork and of no other |
| Compiler.Lower | bpmn-lite-compiler/src/lowering.rs:44-961 | lowering refuses iff there is no start or some node has no words; otherwise the words stand where the plan says |
| OpenForks.OpenDominates | bpmn-lite-compiler/src/lowering.rs:1375-1433 | on a well-nested graph there is no way into a fork's branches except through the fork |
| OpenForks.InnerClosesFirst | bpmn-lite-compiler/src/lowering.rs:1375-1433 | a fork inside another's branches is left before the other's join |
| Compiler.NestedIsLabelled | bpmn-lite-compiler/src/lowering.rs:309-580 | the forks open at a node, outermost first, label every node consistently along every flow |
| Scoping.LabelledIsAdmitted | bpmn-lite-types/src/v2_verifier.rs:383-949 | the words of a labelled graph, guards included, pass the control-stack verifier with the labels as their scopes |
| Compiler.CompiledIsAdmitted | bpmn-lite-compiler/src/lowering.rs:44-961 | a lowered, well-nested graph with ordered branches is admitted to the machine |
| ControlStack.Propagate | bpmn-lite-types/src/v2_verifier.rs:130-153 | enters the scopes passed on, refusing iff an address already has others |
| ControlStack.Verify | bpmn-lite-types/src/v2_verifier.rs:383-949 | the worklist accepts iff some assignment of scopes to words is consistent, and returns the least one |
| KernelSafety.ChecksScreen | bpmn-lite-types/src/v2_verifier.rs:314-381 | what the verifiers accept is screened, and admitted if its error routes fit |
| KernelSafety.StepKeeps | bpmn-lite-kernel/src/lib.rs:1014-2514 | every word, every resumption and every firing guard keeps the machine invariant, and says where each new scope came from |
| KernelTheorems.RunInv | bpmn-lite-kernel/src/lib.rs:1014-2514 | every state of every run satisfies the invariant, each scope traced to the word that opened it |
| KernelTheorems.AlwaysIntact | bpmn-lite-kernel/src/lib.rs:524-652 | every state of every run passes the check that follows a transition: memberships, satisfiable barriers and a live fibre |
| KernelTheorems.CommandsCommit | bpmn-lite-kernel/src/lib.rs:669-841 | whatever a command does to a reachable state is committed, never refused |
| KernelTheorems.BarrierConservation | bpmn-lite-kernel/src/lib.rs:1732-1880 | at every open barrier the fibres that arrived and the outstanding branches make up the arity, and some fibre inside is not waiting |
| KernelTheorems.NeverStarves | bpmn-lite-kernel/src/lib.rs:1805-1880 | while an instance is active some fibre runs or waits for the outside |
| KernelTheorems.EndCompletes | bpmn-lite-kernel/src/lib.rs:1559-1596 | a fibre that reaches the end is the last one, no scope is open, and the instance completes |
| KernelTheorems.NoControlFailure | bpmn-lite-kernel/src/lib.rs:1014-2514 | no word of a reachable state fails for lack of an address, a scope or a record |
| KernelTheorems.JoinFindsItsFork | bpmn-lite-kernel/src/lib.rs:1805-1880 | the handle a join pops was opened by a fork with the join's own pairing |
| KernelTermination.RunsAreFinite | bpmn-lite-kernel/src/lib.rs:1014-2514 | every run has at most `Work(p, 0)` steps, a number computed from the program alone |
| Commands.EndAccepted | bpmn-lite-kernel/src/lib.rs:524-652 | the end of a fibre passes the check after the transition iff the fibre is inside no scope |
| ErrorRoutes.OrdinaryGuarantees | bpmn-lite-kernel/src/lib.rs:524-652 | whatever the error routes, until one fires every state passes the check, does not starve and conserves its barriers |
| ErrorRoutes.RouteToEndExact | bpmn-lite-types/src/v2_verifier.rs:677-765 | an error route to an end fires and is committed; the end itself is committed iff the arming word has no scope open but its own guard |
| HandlerRuns.HandlerExact | bpmn-lite-types/src/v2_verifier.rs:677-765 | whatever an error handler does before it opens or closes a scope is driven by committed commands; where it comes to an end, the end is committed iff the arming word has no scope open but its own guard; where it comes to a join, the join fails iff that is so, and the handler is never ticked again; otherwise the join pops the innermost scope |
| HandlerRuns.StraightExact | bpmn-lite-types/src/v2_verifier.rs:677-765 | a handler of tasks, messages and jumps does come there, from every run without errors so far |
| HandlerRuns.JoinExact | bpmn-lite-kernel/src/lib.rs:1805-1880 | a join fails iff the fibre is inside no scope, and otherwise takes the innermost off its stack |
| JoinHole.AstrayAccepted | bpmn-lite-types/src/v2_verifier.rs:677-765 | the verifiers accept a program whose error route leads into a join |
| JoinHole.AstrayStuck | bpmn-lite-kernel/src/lib.rs:1805-1880 | with no scope around its guard, its error leads to an active committed state in which no command is obeyed |
| HoleGraph.HoleLowers | bpmn-lite-compiler/src/lowering.rs:1687-1720 | a graph with a timer and an error on a task in a parallel branch lowers to exactly these words |
| HoleGraph.HoleEmits | bpmn-lite-compiler/src/lowering.rs:1760-1918 | every node of it has words, so lowering does not refuse it |
| HoleRun.HoleAccepted | bpmn-lite-types/src/v2_verifier.rs:677-765 | the verifiers accept that program |
| HoleRun.HoleStarves | bpmn-lite-kernel/src/lib.rs:524-652 | its error leads to an active state with an open barrier to which no command is ever committed |
| Meetings.LastArrival | bpmn-lite-kernel/src/lib.rs:1805-1880 | the last arrival by the counter is the arrival at which all others wait |
| GatewayRuns.XorRuns | bpmn-lite-compiler/src/lowering.rs:375-436 | the words of an exclusive gateway with a default take the fibre where the token game goes |
| GatewayRuns.ChecksRun | bpmn-lite-compiler/src/lowering.rs:2011-2022 | the checks in front of an inclusive fork reach the fork iff a branch is live, else the incident |
| LayoutLeaks.UndefaultedGoesOn | bpmn-lite-compiler/src/lowering.rs:432-436 | an exclusive gateway without a default follows the first met test, and if none is met runs on into the node laid out next, never leaving its own words before |
| GatewayLanding.LandsExactly | bpmn-lite-compiler/src/lowering.rs:375-436 | on leaving the words of an exclusive gateway the fibre is where the chosen flow leads, else at the node laid out next, and nowhere else |
| GatewayLanding.KeepsExactly | bpmn-lite-compiler/src/lowering.rs:375-436 | for given flags the gateway lands on one of its targets iff the token game chooses a flow or a target is laid out next |
| GatewayLanding.AlwaysChosen | bpmn-lite-compiler/src/lowering.rs:380-436 | some flow is chosen under all flags iff there is a default or two tests of one flag are opposed |
| GatewayLanding.AlwaysKeepsExactly | bpmn-lite-compiler/src/lowering.rs:375-436 | the gateway lands on one of its targets in every state iff it has a default, two opposed tests of one flag, or a target laid out next |
| LayoutLeaks.DeadEndGoesOn | bpmn-lite-compiler/src/lowering.rs:309-316 | a task without an outgoing flow, once done, runs on into the node laid out next |
| LayoutLeaks.LeakyLeaks | bpmn-lite-compiler/src/lowering.rs:432-436 | in a lowered graph, a fibre at the gateway of one parallel branch runs to the task of the other, in every state with the flag not set |
| LeakyRun.LeakyLowers | bpmn-lite-compiler/src/lowering.rs:308-922 | that graph lowers to exactly these words |
| LeakyRun.LeakyWorksTwice | bpmn-lite-compiler/src/lowering.rs:432-436 | its program passes every check, and committed commands bring both branches to work on the task of the second |
| SimulationTheorems.CompiledIsFaithful | bpmn-lite-compiler/src/lowering.rs:309-580 | from every reachable state, the machine makes every move that the token game can make |
| SimulationTheorems.PlaysAreRuns | bpmn-lite-compiler/src/lowering.rs:309-580 | every play of the token game, move by move, is one run of the lowered program, word by word, that shows its games in their order |
| SimulationTheorems.TickTurns | bpmn-lite-kernel/src/lib.rs:1014-1065 | a tick of a fibre is one turn of its token, which moves on until it has to wait or is gone |
| SimulationTheorems.TurnTicks | bpmn-lite-kernel/src/lib.rs:1014-1065 | a turn of a token is one tick of its fibre |
| SimulationTheorems.TurnPlaysAreRuns | bpmn-lite-kernel/src/lib.rs:669-841 | every play by turns is one committed run of commands, command for turn and state for game |
| SimulationTheorems.RunsArePlays | bpmn-lite-kernel/src/lib.rs:669-841 | every committed run is one play by turns, turn for command and game for state |
| SimulationTheorems.RunsAlongPlays | bpmn-lite-kernel/src/lib.rs:669-841 | every committed run is seen along one play, move by move, its states showing games at ever later places |
| SimulationTheorems.TicksOrBlocked | bpmn-lite-kernel/src/lib.rs:1014-1065 | a fibre that can run is ticked to its rest, or comes to a collection that is too long |
| CompilerCorrectness.AdmittedRunsWell | bpmn-lite-kernel/src/lib.rs:669-841 | an admitted program is never refused, never starves, never fails for want of a word, scope, barrier or guard, and has bounded runs |
| CompilerCorrectness.ExtendedRunsWell | bpmn-lite-types/src/v2_verifier.rs:677-765 | so it is for an accepted program whose certificate can be extended over the error handlers so that the routes fit |
| DeadRoute.FitNotNeeded | bpmn-lite-types/src/v2_verifier.rs:677-765 | that is not needed: an accepted program has no such certificate, and all its runs are well |
| CompilerCorrectness.CompilerIsCorrect | bpmn-lite-compiler/src/lowering.rs:44-961 | a graph that lowers, nests and has its branches in order runs as drawn: each play by turns is one committed run and each committed run one play by turns, game for state; none is refused, starves or runs forever, and an active instance can always be given a command unless a collection is too long |
| Diamond.DiamondIsCorrect | bpmn-lite-compiler/src/lowering.rs:44-961 | a fork of two tasks meets what that asks, whatever order and addresses are chosen |
| ConditionMeaning.ExclusiveExact | bpmn-lite-compiler/src/lowering.rs:395-425 | an exclusive gateway decides a condition by what it says, on every value of its type, iff it is a boolean equality or inequality or says "is not zero" |
| ConditionMeaning.InclusiveExact | bpmn-lite-compiler/src/lowering.rs:1993-2000 | an inclusive gateway does so iff the condition amounts to the flag being set |
| ConditionMeaning.Misread | bpmn-lite-compiler/src/lowering.rs:419-425 | two conditions that are not decided by what they say |
| ConditionMeaning.ChosenIsFirst | bpmn-lite-compiler/src/lowering.rs:380-436 | with such conditions an exclusive gateway takes the first flow whose condition holds, else its default |
| ConditionMeaning.ExclusiveFollows | bpmn-lite-compiler/src/lowering.rs:375-436 | a token at such a gateway follows that flow |
| ConditionMeaning.InclusiveFollows | bpmn-lite-compiler/src/lowering.rs:2038-2061 | a branch of an inclusive gateway is taken iff its condition holds, else goes straight to the join |
| ErrorDispatch.DispatchIs | bpmn-lite-kernel/src/lib.rs:2244-2290 | however routes are armed, an error is taken by the first route for its code, else the first catch-all, else none |
| ErrorDispatch.OrderFreeExactly | bpmn-lite-compiler/src/verifier.rs:502-531 | the order of arming makes no difference iff no code has two routes |
| ErrorDispatch.ArmOrderSame | bpmn-lite-compiler/src/lowering.rs:1697-1698 | sorting the arms changes no dispatch |
| ErrorDispatch.GuardDispatches | bpmn-lite-kernel/src/lib.rs:2671-2716 | running the arming words of a task's events leaves a guard that routes every code that way |
| ErrorDispatch.FindClashes | bpmn-lite-compiler/src/verifier.rs:425-532 | finds exactly the hosts with two boundary events for one code or two catch-alls |
| ErrorDispatch.AdmittedIsOrderFree | bpmn-lite-compiler/src/verifier.rs:502-531 | without such a clash the declarations of a host may be permuted |
| Nesting.CheckNesting | bpmn-lite-compiler/src/verifier.rs:246-290 | the walk with its tracker computes the reports of the check |
| Nesting.Tracker.Pop | bpmn-lite-compiler/src/verifier.rs:801-845 | what a converging gateway does to the stack and the tally |
| Nesting.Tracker.Walk | bpmn-lite-compiler/src/verifier.rs:723-791 | the recursive walk, a stack of its own for every branch |
| Nesting.Covered | bpmn-lite-compiler/src/verifier.rs:723-791 | the walk visits exactly what the start reaches |
| Nesting.SilentCloses | bpmn-lite-compiler/src/verifier.rs:246-290 | if nothing is reported, every branch of every fork on the flow is closed along some trail by a gateway of its kind |
| Nesting.SilentMatches | bpmn-lite-compiler/src/verifier.rs:801-845 | if nothing is reported, every flow into a join is met along some trail whose innermost open branch is of its kind |
| NestingBlocks.LabelledIsSilent | bpmn-lite-compiler/src/verifier.rs:723-791 | a net with one bracket stack per node, none open at a dead end, is accepted |
| NestingBlocks.BlocksAccepted | bpmn-lite-compiler/src/verifier.rs:246-290 | every process built from nested exclusive, parallel and inclusive blocks is accepted |
| NestingBlocks.SideEntryAccepted | bpmn-lite-compiler/src/verifier.rs:731-734 | a net is accepted on which a trail reaches a join with nothing open |
| NestingExact.CoherentIffLabelled | bpmn-lite-compiler/src/verifier.rs:723-791 | no trail strays and trails that meet agree iff every node on the flow has one bracket stack |
| NestingExact.SilentExactly | bpmn-lite-compiler/src/verifier.rs:246-290 | the check is silent and its walk never returns to a node with another stack iff brackets nest on every trail and every branch is closed on some trail |
| NestingExact.SilentNests | bpmn-lite-compiler/src/verifier.rs:731-734 | given silence, brackets nest on every trail iff no return finds another stack |
| NestingExact.SideEntryReturns | bpmn-lite-compiler/src/verifier.rs:731-734 | the side entry fails that comparison |
| CheckedNesting.ClosesItsOwn | bpmn-lite-compiler/src/verifier.rs:801-845 | with one stack per node and one-to-one pairs, every way to a join closes a branch of the fork that it is paired with |
| CheckedNesting.CheckedIsNested | bpmn-lite-compiler/src/verifier.rs:246-290 | a silent check with one stack per node and one-to-one pairs means that every fork dominates its join |
| CheckedNesting.CountsPair | bpmn-lite-compiler/src/verifier.rs:166-202 | equal counts of parallel forks and joins, and inclusive forks with joins of their own, give one-to-one pairs |
| CheckedNesting.CheckedIsWellNested | bpmn-lite-compiler/src/verifier.rs:166-290 | such a graph is nested as the theorem about the compiler asks |
| NestingExact.CheckGraph | bpmn-lite-compiler/src/verifier.rs:246-290 | the same on a workflow graph |
| Fanout.StepKeeps | bpmn-lite-server-runner/src/event_fanout.rs:36-106 | every step of log, broker, channel, subscriber and client keeps the stream invariant |
| FanoutRuns.SentBelowCursor | bpmn-lite-server-runner/src/event_fanout.rs:36-106 | in every interleaving what was sent is exactly the log below the cursor, in order, without gap or duplicate |
| FanoutRuns.NothingLost | bpmn-lite-server-runner/src/event_fanout.rs:69-103 | a subscriber that has caught up was sent the whole log, whatever the channel lost |
| FanoutRuns.LongLogOverfills | bpmn-lite-server-runner/src/event_fanout.rs:40-47 | subscribing to any log longer than the stream leads to a replay that does not fit |
| FanoutRuns.OverfullForever | bpmn-lite-server-runner/src/event_fanout.rs:49-63 | a replay longer than the stream is never handed over, in any continuation |
| FanoutRuns.HandedOverExactly | bpmn-lite-server-runner/src/event_fanout.rs:49-105 | left to themselves the tasks can hand the stream over iff the replay fits into it |
| FanoutRuns.EveryWayEnds | bpmn-lite-server-runner/src/event_fanout.rs:271-317 | however they are scheduled, the tasks take at most `Work(s)` steps by themselves |
| FanoutRuns.EveryWayDelivers | bpmn-lite-server-runner/src/event_fanout.rs:36-106 | however they are scheduled, when nothing is left to do the whole log was sent or the stream has ended |
| FanoutRuns.Delivers | bpmn-lite-server-runner/src/event_fanout.rs:36-106 | from any point of any run they can come to that |
| FanoutRuns.RunEndsWell | bpmn-lite-server-runner/src/event_fanout.rs:69-103 | a stream ends only after a terminal event or when the broadcast is closed, failures and hang-ups aside |
| FanoutRuns.ClosingLosesNothing | bpmn-lite-server-runner/src/event_fanout.rs:97-100 | a stream that ended because the broadcast closed was sent everything logged before the closing |
| Dependencies.Resolve | bpmn-lite-bus-handler/src/lib.rs:1112-1158 | the recursive loader terminates on every store and keeps what is loaded closed and acyclic |
| Dependencies.Preload | bpmn-lite-bus-handler/src/lib.rs:1102-1110 | loading succeeds iff everything the root reaches can be loaded and has no cycle, and gives exactly that; a failure names its cause |
| Dependencies.AnyUnproved | bpmn-lite-bus-handler/src/lib.rs:519-525 | whether a loaded plan is not proven |
| Dependencies.Define | bpmn-lite-bus-handler/src/lib.rs:513-535 | a template is accepted iff its calls load and, if it claims to be proven, all transitive ones are proven |
| Dependencies.MarkedOnce | bpmn-lite-compiler/src/dsl/plan.rs:149-154 | marking is idempotent and keeps the plan's nodes and claim |
| JoinSearch.ReachableFrom | bpmn-lite-authoring/src/importer.rs:396-403 | the depth-first search visits exactly what can be reached |
| JoinSearch.CommonTo | bpmn-lite-authoring/src/importer.rs:404-411 | the intersection is exactly what every branch reaches |
| JoinSearch.FindJoin | bpmn-lite-authoring/src/importer.rs:388-447 | the breadth-first search returns the nearest join common to all branches, and nothing only if there is none |
| JoinSearch.NearestIsPostDominator | bpmn-lite-authoring/src/importer.rs:388-447 | if two branches are apart and the immediate post-dominator is a join, that is what the search returns |
| KahnLayout.Ranks | bpmn-lite-authoring/src/export_bpmn.rs:592-621 | the queue empties on every graph; on an acyclic one every node's rank is the length of the longest path to it |
| KahnLayout.Coordinates | bpmn-lite-authoring/src/export_bpmn.rs:623-637 | a node's column is its rank, its row the number of nodes of its rank named before it |
| KahnLayout.Diagram | bpmn-lite-authoring/src/export_bpmn.rs:578-638 | no two nodes share a position; on an acyclic graph every node is placed and every edge leads to the right |
| Durations.ParseDuration | bpmn-lite-compiler/src/parser.rs:1051-1133 | for every text, no sum exceeds 64 bits, and an accepted duration lies between one millisecond and the bound |
| Durations.PrintDuration | bpmn-lite-authoring/src/export_bpmn.rs:431-461 | prints days, hours, minutes and whole seconds, each if there are any |
| Durations.DurationRoundTrip | bpmn-lite-authoring/src/export_bpmn.rs:431-461 | parsing what was printed gives the whole seconds, and is refused iff there are none or they exceed the bound, for every 64-bit number |
| Durations.ParseCycle | bpmn-lite-compiler/src/parser.rs:1138-1168 | an accepted interval and count are within their bounds |
| Durations.CycleRoundTrip | bpmn-lite-authoring/src/export_bpmn.rs:549-574 | a repeating interval with an admissible count is read back |
| Dto.MapItems | bpmn-lite-authoring/src/validate.rs:24-35 | the index holds the first node of every id; a repeat is reported iff there is one |
| Dto.Validate | bpmn-lite-authoring/src/validate.rs:17-296 | reports exactly the rules that are broken |
| DtoIr.Convert | bpmn-lite-authoring/src/dto_to_ir.rs:18-251 | converts, or refuses, exactly as the conversion function says |
| DtoIr.AlwaysResolved | bpmn-lite-authoring/src/dto_to_ir.rs:203-248 | in a valid workflow whose items convert, no link is ever without its ends |
| DtoIr.Draw | bpmn-lite-authoring/src/ir_to_dto.rs:20-94 | draws a graph, or refuses, exactly as the drawing function says |
| DtoIr.FixedPoint | bpmn-lite-authoring/src/ir_to_dto.rs:20-94 | every converted workflow comes back as a workflow; that one converts again iff the ids made for error links are new, distinct and without a dot, and then gives the identical graph |
| DtoIr.DottedIsRefused | bpmn-lite-authoring/src/dto_to_ir.rs:176-200 | a workflow converts whose drawing does not convert again |
| DtoIr.NormalForm | bpmn-lite-authoring/src/ir_to_dto.rs:20-94 | converting and drawing once more changes nothing |

## Findings

Properties that the code does not have in general. Each is shown on an input, and the exact
condition under which it holds is proved.

| what fails | shown by | holds exactly when |
|---|---|---|
| The layout goes forward along every flow. | `Layout.SharedGoesBack` | `LayoutExact.ForwardIffOrdered`: each branch begins inside an earlier one or shares nothing with the earlier ones. |
| The bracket check excludes a flow that enters a parallel branch from outside. | `NestingBlocks.SideEntryAccepted` | `NestingExact.SilentNests`: the walk never returns to a node with another stack, which it does not compare. |
| The handler of an error route that comes to an end, or to a join, is let through. The verifier passes no scopes on to it, so an end inside a parallel branch and a join outside of one are both accepted. | `HoleRun.HoleStarves`, `JoinHole.AstrayStuck` | `HandlerRuns.HandlerExact`, `HandlerRuns.StraightExact`: for an end, no scope is open around the guard; for a join, one is. |
| An exclusive gateway goes only where one of its flows leads. | `LeakyRun.LeakyWorksTwice` | `GatewayLanding.KeepsExactly`: the token game chooses a flow or a target is laid out next. In every state, `GatewayLanding.AlwaysKeepsExactly`: there is a default, or two opposed tests of one flag, or a target laid out next. |
| Conditions are decided by what they say. | `ConditionMeaning.Misread` | `ConditionMeaning.ExclusiveExact`, `ConditionMeaning.InclusiveExact`. |
| A subscription returns its stream. The whole replay goes into a stream of 64 places before anyone can read it. | `FanoutRuns.LongLogOverfills` with `FanoutRuns.OverfullForever` | `FanoutRuns.HandedOverExactly`: the replay fits. |
| A converted workflow, drawn again, converts again. | `DtoIr.DottedIsRefused` | `DtoIr.FixedPoint`: the ids made for error links are new, distinct and without a dot. |

For a whole program, `CompilerCorrectness.ExtendedRunsWell` gives a sufficient condition for its
error routes: some extension of the verifier's certificate over the handlers fits them all. It is
not necessary: `DeadRoute.FitNotNeeded` has a program that no certificate fits and whose runs are
all well, because its guard stands behind a test that never lets control through. An exact
condition would have to decide which tests let control through, which depends on the data.

One more observation, which is not modelled: condition texts in the XML format only yield equality
and inequality with a boolean (bpmn-lite-compiler/src/parser.rs:985-1020), which exclusive gateways
decide as they say.

## Left out

- ControlStack.Verify: does not model race words, GUARD-R, non-interrupting guards or CANCEL-SCOPE, nor the record, barrier and depth limits that the same walk adds up.
- KernelTheorems.NeverStarves: asks that error routes fit, because it fails where they do not (`HoleRun.HoleStarves`); `ErrorRoutes.OrdinaryGuarantees` states it without, for as long as no error route has fired. Programs with non-interrupting guards or timer cycles are not modelled.
- KernelTheorems.EndCompletes: asks that error routes fit, for the same reason, and leaves out programs with non-interrupting guards or timer cycles.
- KernelTheorems.BarrierConservation: the same.
- KernelTheorems.RunInv: the same.
- KernelTheorems.CommandsCommit: the same.
- KernelTheorems.NoControlFailure: the same.
- KernelTheorems.JoinFindsItsFork: the same.
- KernelSafety.StepKeeps: the same; `ErrorRoutes.OrdinaryGuarantees` follows from the same invariant without asking that error routes fit.
- KernelSafety.ChecksScreen: leaves out programs with non-interrupting guards or timer cycles, and programs whose last word arms an error, which no graph lowers to.
- Compiler.CompiledIsAdmitted: is about graphs without boundary events; `Scoping.LabelledIsAdmitted` has them.
- KernelTheorems.AlwaysIntact: the same.
- KernelTermination.RunsAreFinite: the same; counters and the loops built from them are not modelled.
- CompilerCorrectness.AdmittedRunsWell: asks that error routes fit, for some certificate and not only the verifier's; see Findings.
- HandlerRuns.HandlerExact: is about what the handler does on its own, up to the first word that opens or closes a scope or stops the instance, and about the first error of a run.
- GatewayLanding.KeepsExactly: is about gateways that have a node after them in the layout; at the end of the program an unmet gateway runs off its end.
- CompilerCorrectness.CompilerIsCorrect: is about graphs without boundary events; with them, acceptance by the verifier is proved (`Scoping.LabelledIsAdmitted`), the meaning of a fired guard is not.
- KahnLayout.Coordinates: positions are whole numbers where the original uses floating point; they are products of small integers.
- Dto.Validate: gives the broken rules, not the texts of the errors nor their order.
- DtoIr.Convert: types and roles of data objects are opaque, arms of races are kept by name, and the descriptive metadata of a workflow is dropped.
- Race waits, GUARD-N and GUARD-R scopes, cancellation, failure budgets, counters, FFI data bindings and message correlation are not modelled.
- The limit on the words of one tick is not modelled; `KernelTermination.RunsAreFinite` bounds them.
- Machine integers are unbounded except in timer texts and the event sequence, where the width decides; addresses and counts of the compiler are 32-bit in the original.
- Heights of the operand stack, interning of flag and task names, debug maps, manifests and hashing are not modelled.
- Dates of timers are turned into waits with the current time, which is a parameter here.
- Who holds a job or an effect, retries and incidents beyond the zero-match one are not modelled; work that is finished may set any flags.
- The fan-out is seen by one subscriber; a log is assumed to stay below the largest sequence number.
- Maps iterate in no fixed order in the original; the model fixes the order of flows and leaves that of tables open where it does not matter.
