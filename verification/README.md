# Model of xut's verification tooling

xut checks hardware primitives by driving them with generated stimuli, running several simulators, and
comparing what they show with a golden model. This project models the parts of xut that its results rest
on, as Dafny programs and functions, and proves what xut promises of them:

- **Stimuli** (`stimgen.py`, `validate.py`, `wrap.py`, `formats/xvec.py`). The builder is a state machine
  (`builder_state.dfy` as functions, `builder.dfy` as the class whose methods are proved to be those
  functions); the validator is a program that appends to a report (`validator.dfy`), proved to be the rules
  of `validation.dfy`. Whatever calls succeed, in whatever order, the finished stimulus has no error if and
  only if it meets a guard that can be checked beforehand.
- **Compilation** (`stimcompile.py`, `golden.py`, `hdl/xut_vector_tb.sv`). A stimulus is compiled to a sorted
  image of 128-bit words for a small testbench machine; golden replay interprets the same stimulus directly.
  The two histories are equal, event by event, if and only if the free clocks are orderly.
- **Override analysis** (`verilatorize/analyze.py`). An abstract interpreter over procedural Verilog decides
  which `assign` or `deassign` a read of a forced register sees. It is proved sound against an execution
  semantics of the statements (section 10.6.1 of IEEE Std 1800-2017), monotone and terminating at any
  nesting depth. The trace of a register's cone is proved exact on cyclic driver graphs.
- **Memory admission** (`heavy.py`). Processes that take an old mutex, a gate and token locks, that exec into
  commands and that may die at any step, as one transition system; safety and progress over all
  interleavings.
- **Cross-check** (`crosscheck.py`, `formats/xtr.py`). No disagreement between traces is lost between the
  comparison and the exit code, and the verdict `agree` is given exactly when everything that was compared
  agrees, with evidence for every result that was compared at all.
- **Verdict cache** (`verilatorize/driver.py`). Over all runs of edits, transformations and checks: when a
  verdict that is kept is about the files as they are, and exactly which checks make one that is not.
- **Equivalence stimulus** (`verilatorize/equiv.py`). The generator that proves a transformed model against
  its original, as a program on top of the builder: for which models it ends without an error, and that what
  it builds has none.
- **Texts** (`formats/xvec.py`, `formats/xtr.py`, `portability.py`, `verilatorize/equiv.py`). The stimulus,
  trace and table formats read back what was written, and configuration keys are injective, each with its
  exact condition.

## What turned out to have a condition

Each of these is proved as an equivalence or with a concrete stimulus or program.

- Every stimulus of a builder is clear of the GSR release if and only if `settle_ps` is at least
  `ROC_WIDTH_PS + async_sep_ps`, or the gap is and no data port can be set (`SettleExact`). The constructor
  checks only the smallest separation; below the condition it accepts builders whose next two calls make a
  stimulus that the validator refuses (`SettleTooShort`).
- A `simultaneous()` block of one event raises, but leaves the marked event behind (`LoneMarkedEvent`).
- `clock_start` of a clock that runs already passes every check, and then golden replay and the compiled
  testbench differ (`RestartPasses`; `ClockOrderly` in `generators.dfy` is the exact condition). So do a clock
  that would start by itself at a phase at or after which it is stopped, and an `end` event exactly at such a
  phase: the testbench executes `end` before the words of clocks that start by themselves.
- After `x = #d e;` the analysis continues with the empty state, which is right exactly when no target is a
  forced register (`DelayedWriteExact`, `DelayedForcedWriteIsMissed`).
- A jump is refused in a block that forces a register, but a task called by the block is not searched:
  `disable` over a call of a forcing task is accepted, and the recorded override is wrong on one path
  (`JumpOverForcingTaskIsMissed`). A block is tracked rightly if and only if, at the end of each named statement
  that a jump inside can reach, the state admits a register with nothing pending (`JumpExact` for one target,
  `LandableExact` for whole blocks); a jump that lands before such a call does no harm
  (`JumpBeforeForcingLands`).
- `_record` keeps a verdict when the entry still has the recorded source and dependency hashes, but the check
  reads the files as they are by then. A verdict that is kept can never turn out to be about other files if
  and only if, at the check, the model and all it reaches had the hashes of the entry (`CheckExact`, and
  `PassExact` for the checks of a whole source, between which files may be edited as well);
  `EditedBackIsStale` is a run of five moves, an edit and its undoing around a second check, after which a
  stale verdict is kept.
- A model that is removed from the source stays in the manifest, and verdicts of the models above it stay: a
  kept verdict is about nothing but the present files if and only if no model below was removed
  (`NeverStale`).
- The equivalence stimulus cannot be built for a model with a clock port of several bits, nor, once there is a
  trigger, for one with an async or gate port of several bits that is no trigger (`EquivStimulus`).
- Two rows of one model, and a row whose cells are not legal, do not come back from the portability table
  (`ReadsBack` says exactly which tables do).

## Model

| member | source | states |
|---|---|---|
| Wrap.BuildMap | tools/xut/wrap.py:497-528 | building a map fails exactly on an illegal specification, and otherwise numbers every vector from 0 without gaps, ports in order, each port contiguous |
| Wrap.PortRange | tools/xut/wrap.py:110-150 | the bits from the first to the last bit of an input port are that port's and no other's, all of one class, never the clock class |
| BuilderState.RunKeeps | tools/xut/stimgen.py:50-304 | the invariant of the builder (spacing, alternation of edges, memory of the last sets, companions of marked events) holds after every sequence of calls that succeed |
| BuilderState.ValidByConstruction | tools/xut/stimgen.py:50-304 | for every such sequence and every built map the finished stimulus has no error if and only if: seed not negative, illegal attributes exactly with a rejection, a sample unless one is expected, every later event clear of the GSR release |
| BuilderState.SettleSuffices | tools/xut/stimgen.py:62-77 | `settle_ps >= ROC_WIDTH_PS + async_sep_ps` is enough for the last part of the guard, whatever the calls |
| BuilderSettle.SettleExact | tools/xut/stimgen.py:51-91 | every stimulus that any calls can build is clear of the GSR release if and only if the settle time leaves the separation, or the event gap does and no port is of a data class |
| BuilderSettle.SettleTooShort | tools/xut/stimgen.py:68-71 | with any other accepted parameters one or two calls make a sampled stimulus that has an error |
| BuilderState.LoneMarkedEvent | tools/xut/stimgen.py:263-279 | leaving a block of one event raises with the marked event already emitted, and such a stimulus breaks the structure rules |
| BuilderState.RenderableExactly | tools/xut/stimgen.py:72-77 | built stimuli are hardware-renderable if and only if the map has no pad or inout bit, nothing was done in a block, no glbl call was made and no value has x or z |
| BuilderState.CycleExact | tools/xut/stimgen.py:236-254 | from every state that calls can reach, a cycle that succeeds hits exactly s, s+gap, s+period/2 and s+period/2+gap, and what follows comes at s+period; from any other state only the first two may be pushed on, by less than a gap |
| BuilderState.PutAllAtomic | tools/xut/stimgen.py:161-174 | one `set` is one atomic change: its ports take their values, no other port does, and all its events are at one time |
| Builder.VecBuilder.constructor | tools/xut/stimgen.py:51-91 | the constructed state, or a refusal of times that do not fit |
| Builder.VecBuilder.Init | tools/xut/stimgen.py:152-159 | `init` puts the initial values at time 0 and nowhere else, is refused after a timed event or in a block, and a refused value leaves the time at 0 |
| Builder.VecBuilder.SetPorts | tools/xut/stimgen.py:161-174 | `set` changes the object's fields to exactly the next state of the specification, or raises and leaves exactly the state that the ports before the refused one and its time make |
| BuilderState.RefusedSet | tools/xut/stimgen.py:115-174 | a `set` that raises is not undone: the ports before the one refused keep what they were set to, and the refused one counts as set at its time |
| BuilderState.PutMeans | tools/xut/stimgen.py:115-135 | a port set to a number emits, over exactly the bits of the port, the 0s and 1s that stand for that number, and a text emits itself |
| Builder.VecBuilder.Async_ | tools/xut/stimgen.py:175-190 | the same of `async_`, the state after a refusal included |
| Builder.VecBuilder.Edge_ | tools/xut/stimgen.py:209-219 | the same of `edge`, which is refused without a change |
| Builder.VecBuilder.Cycle | tools/xut/stimgen.py:236-254 | the same of `cycle`, any number of cycles, with what a cycle refused half way leaves |
| Builder.VecBuilder.Close | tools/xut/stimgen.py:263-279 | the same of leaving `simultaneous()` |
| Builder.VecBuilder.Build | tools/xut/stimgen.py:281-304 | the built stimulus: no error exactly when it meets the guard, renderable exactly when nothing simulation-only was used |
| Survives.BuiltSurvives | tools/xut/formats/xvec.py:379-399 | the write and read round trip of the structure check included: a built stimulus is free of errors and survives its text if and only if it meets the guard and its header texts can be written |
| Validator.Validate | tools/xut/validate.py:269-377 | the report has no error if and only if every structure and class rule holds, and says renderable if and only if the stimulus also is order-renderable |
| Validator.Nearest | tools/xut/validate.py:233-239 | the distance to the nearest time of a sorted list, found by bisection |
| Validator.CheckEventGaps | tools/xut/validate.py:222-231 | looking at neighbours of the sorted times finds a gap too small whenever any two times are too close |
| Validator.CheckFreeStops | tools/xut/validate.py:175-197 | reports exactly the stops that are not strictly inside a low phase, and restarts before it ends |
| Stimulus.EdgesExact | tools/xut/formats/xvec.py:602-618 | the expansion of a run has exactly the generator's edges up to the limit: rises at start+k*period, falls high later |
| Stimulus.StoppedRunEndsLow | tools/xut/formats/xvec.py:602-618 | a run stopped inside a low phase has as many falls as rises |
| Stimulus.NoEdgeAfterStop | tools/xut/validate.py:175-197 | no generator edge falls between such a stop and the earliest restart |
| FreeClocks.EdgesAlternate | tools/xut/formats/xvec.py:585-618 | in every file whose stops are allowed, the edges of a free clock, in time order over the whole file, are rise, fall, rise and so on, across any number of stops and restarts |
| Stimulus.RunEdges | tools/xut/formats/xvec.py:602-618 | the loop over one run computes that expansion |
| Words.UnpackPack | tools/xut/stimcompile.py:72-76 | a packed word reads back field by field |
| Words.SortedImage | tools/xut/stimcompile.py:118-152 | sorting the image by its low 64 bits is the stable sort of the words by time |
| Compile.CompileVec | tools/xut/stimcompile.py:118-152 | refuses exactly the stimuli with an error or a mark or that do not fit the word fields; otherwise returns the sorted image and the labels in sample order |
| SameMeaning.SameHistory | tools/xut/stimcompile.py:118-152 | the testbench on the compiled image shows the same input changes, edges, glbl writes and samples at the same times as golden replay, through the last event and whichever clock generators the simulator resumes before the operations at every time, if and only if the free clocks are orderly |
| SameMeaning.TickExact | tools/xut/golden.py:245-286 | one time step: equal to the golden step if and only if every generator shows the edges of its runs |
| Generators.ClockExact | tools/xut/stimcompile.py:106-115 | a free clock has exactly the edges of its runs at every time step if and only if it is orderly: no start while running, and no stop or end at the phase it starts at by itself |
| SameMeaningFacts.SetsCommute | tools/xut/golden.py:245-286 | neighbouring co-timed sets may trade places: the input values do not depend on file order |
| SameMeaningFacts.OnlyClocksAfterLast | tools/xut/hdl/xut_vector_tb.sv:89-136 | run on however long, the testbench shows nothing after the last event but free-clock edges |
| SameMeaningFacts.ReleaseOnce | tools/xut/golden.py:245-286 | replay ends the start-up GSR once, after everything before `ROC_WIDTH_PS` and before everything from then on |
| SameMeaningFacts.RestartPasses | tools/xut/formats/xvec.py:585-599 | a stimulus that passes every check, is compiled, and is not orderly: `free_runs` forgets a run when a running clock is started |
| Replay.ReplayVec | tools/xut/golden.py:206-286 | the calls on the golden model are those of the predicted history; refused exactly for marks, errors, or x or z where the model needs a level |
| OverrideState.MergeIsJoin | tools/xut/verilatorize/analyze.py:1523-1535 | merging paths is the least upper bound in the order absent, None and spans below ambiguous below fresh |
| OverrideState.RankAscends | tools/xut/verilatorize/analyze.py:1523-1535 | the order has finite height: a strictly larger state has a strictly larger rank |
| OverrideFlow.FlowMonotone | tools/xut/verilatorize/analyze.py:1223-1300 | the analysis of every statement, nested loops included, is monotone |
| OverrideFlow.IterateFixed | tools/xut/verilatorize/analyze.py:1271-1285 | the loop fixpoint covers zero or more runs of the body |
| OverrideFlow.IterateLeast | tools/xut/verilatorize/analyze.py:1271-1285 | and is below every state that does |
| OverrideFlow.FlowTerminates | tools/xut/verilatorize/analyze.py:1223-1300 | no loop at any nesting depth needs more steps than its bound |
| OverrideSound.RunSound | tools/xut/verilatorize/analyze.py:1223-1352 | from every concrete state covered by the abstract one, every execution of an accepted statement ends in a covered state, and every read on the way is recorded rightly |
| OverrideWalker.BlockTerminates | tools/xut/verilatorize/analyze.py:979-992 | the fixpoint of an always body ends |
| OverrideWalker.BlockSound | tools/xut/verilatorize/analyze.py:960-992 | in every execution of an accepted block whose delayed writes and jumps meet the exact conditions below, however long, a read recorded with an override or a deassign really has that as its last forcing event, and a read without a record has nothing pending |
| OverrideWalker.DelayedWriteExact | tools/xut/verilatorize/analyze.py:1324-1352 | the state after an intra-assignment delay is right if and only if no target is a forced register |
| OverrideWalker.DelayedForcedWriteIsMissed | tools/xut/verilatorize/analyze.py:1324-1352 | a program on which it is wrong |
| OverrideWalker.JumpOverForcingTaskIsMissed | tools/xut/verilatorize/analyze.py:1298-1322 | a jump over a call of a forcing task is accepted, and the record is wrong on one path |
| OverrideJumps.JumpExact | tools/xut/verilatorize/analyze.py:1298-1322 | every run that jumps to the end of an accepted statement by its name is covered there if and only if no such run exists or its output state admits nothing pending for every register |
| OverrideJumps.LandingReachable | tools/xut/verilatorize/analyze.py:1298-1322 | such a run exists if and only if a jump inside names the statement, is not caught by the same name further in, and nothing before it always jumps elsewhere |
| OverrideJumps.LandableExact | tools/xut/verilatorize/analyze.py:1223-1322 | the analysis tracks every run of every statement of a block, jumps landing at the end of what they name, if and only if at each target that can be landed on no override is named exactly |
| OverrideJumps.GuardedLands | tools/xut/verilatorize/analyze.py:1298-1322 | it holds of a statement whose jumps are all refused, and, from a state without exact overrides, of one that forces nothing even through its tasks |
| OverrideWalker.GuardedFits | tools/xut/verilatorize/analyze.py:960-992 | so a block whose jumps are all refused (it forces a register itself) and one that forces nothing even through its tasks meet the guard on jumps of `BlockSound`, always bodies with their fixpoint included |
| OverrideWalker.JumpBeforeForcingLands | tools/xut/verilatorize/analyze.py:1298-1322 | a program with a jump that lands before a forcing task is called is accepted and meets the guard |
| OverrideWalker.Walker.Track | tools/xut/verilatorize/analyze.py:1223-1296 | the method that updates the table of reads in place computes the flow function, and records exactly its reads unless dry |
| OverrideWalker.Walker.Fixpoint | tools/xut/verilatorize/analyze.py:1271-1285 | the dry loop reaches the least fixpoint and leaves the table as it was |
| OverrideWalker.Walker.StaleRead | tools/xut/verilatorize/analyze.py:1394-1428 | a read may be recorded again only with the same override |
| OverrideWalker.Walker.Block | tools/xut/verilatorize/analyze.py:960-992 | accepted exactly when the analysis succeeds and the records agree; then every execution is treated correctly by the table |
| Cone.Trace | tools/xut/verilatorize/analyze.py:1471-1507 | succeeds if and only if everything reachable is a root, a constant or driven; then triggers are exactly the roots reachable by data edges alone, enablers those reachable through a clock edge minus the triggers; ends on cyclic graphs |
| Cone.ReachedBy | tools/xut/verilatorize/analyze.py:1471-1507 | the worklist's pair of signal and flag means exactly that: no clock edge taken, or at least one |
| Cone.Drivers | tools/xut/verilatorize/analyze.py:1471-1520 | what the drivers of one signal add, helper instances traced in turn |
| Heavy.TokensFor | tools/xut/heavy.py:132-149 | the fewest whole tokens that cover the declaration; refused exactly above the budget |
| Heavy.BudgetKept | tools/xut/heavy.py:219-282 | over all interleavings and deaths: every running command holds exactly its tokens, no token twice, all declarations together within 96 GiB, and none runs beside a holder of the old exclusive lock |
| Heavy.OnlyGateHolderCollects | tools/xut/heavy.py:237-282 | at most one process that is not admitted holds tokens |
| Heavy.NotOvertaken | tools/xut/heavy.py:237-282 | while the gate is held nobody else gains a token, and only its holder's own turn or death gives it up |
| Heavy.WaitChain | tools/xut/heavy.py:219-282 | whoever waits, waits for a process that can step: no deadlock |
| Heavy.GateHolderAdmitted | tools/xut/heavy.py:254-282 | once the tokens held by others and its own need are together at most all tokens, the gate holder is admitted within two scans, whatever the others do |
| Heavy.AdmittedOnceRoom | tools/xut/heavy.py:237-282 | over every run: if enough of the commands that hold tokens end, the process at the gate is admitted within two of its scans from then on, or was before |
| Heavy.AdmittedHasRoom | tools/xut/heavy.py:254-282 | and never without: in every run whoever is admitted was left that room |
| Heavy.AdmittedOnceOthersEnd | tools/xut/heavy.py:237-282 | in particular when all commands that held tokens end |
| Traces.Compare | tools/xut/formats/xtr.py:231-262 | the list has every mismatch there is and nothing else |
| Traces.CompareExact | tools/xut/formats/xtr.py:231-262 | it is empty if and only if samples, their order, ports, widths and every bit that is not a don't-care agree |
| Traces.Diff | tools/xut/formats/xtr.py:265-302 | the same between two simulators, x and z excused for one that cannot show them |
| Traces.DiffExact | tools/xut/formats/xtr.py:265-302 | it is empty if and only if the traces agree |
| Traces.OrderMismatch | tools/xut/formats/xtr.py:214-228 | the first common label at different places, and none if and only if the common labels are in the same order |
| Crosscheck.ComparePair | tools/xut/crosscheck.py:366-390 | the points of a pair tell every disagreement on what both ran; none only if they agree |
| CrosscheckGolden.GoldenVsSims | tools/xut/crosscheck.py:422-488 | every mismatch between the golden model and a simulator is told as a point, or is one of the simulators' disagreements among themselves |
| CrosscheckReport.Classify | tools/xut/crosscheck.py:491-597 | no disagreement of any flow or pair is dropped, marking keeps runners and points, and there is no finding and no issue if and only if all results are consistent |
| CrosscheckReport.Mark | tools/xut/crosscheck.py:612-641 | a finding becomes known exactly when an entry covers it under the wanted id, with all of its evidence |
| Crosscheck.ComparedBits | tools/xut/crosscheck.py:294-312 | the count is the number of bits that the comparison compares, golden or not |
| Crosscheck.ListPair | tools/xut/crosscheck.py:366-389 | a comparison is listed as evidence if and only if it shares a configuration and compares a bit or agrees on a rejection |
| CrosscheckReport.AllCompared | tools/xut/crosscheck.py:491-597 | the loops over flows and views make exactly the comparisons of the five pairing rules |
| CrosscheckVerdict.EvidenceIssues | tools/xut/crosscheck.py:930-976 | no issue if and only if there are fewer than two traces, or some comparison is evidence and every result that is compared at all has one that is |
| CrosscheckVerdict.EvidenceMeans | tools/xut/crosscheck.py:930-976 | evidence of a consistent result, golden or not, is a compared bit that is the same on both sides, or a configuration both ran without a sample, on whose rejection they agree |
| CrosscheckVerdict.CompanionGap | tools/xut/crosscheck.py:220-238 | a verilator pass is confirmed if and only if its iverilog-vz companion ran and agrees with iverilog, or passed when they cannot be compared; which gap it is otherwise |
| CrosscheckVerdict.ResultIssues | tools/xut/crosscheck.py:899-927 | no issue if and only if nothing of the result is an error and a fail is explained, by a finding or through its companion |
| CrosscheckVerdict.Check | tools/xut/crosscheck.py:1007-1058 | the verdict is `agree` if and only if every model source is current, consistent, has evidence for every compared result, no error, no fail, no missing configuration and no unconfirmed pass, every entry is open, and something was compared; `known-divergence` leaves nothing open; all that is found is reported |
| Verdicts.Hierarchy | tools/xut/verilatorize/driver.py:322-333 | the worklist finds exactly the models reached, instantiation cycles included |
| Verdicts.EntryExact | tools/xut/verilatorize/driver.py:494-523 | what a linked and current entry records agrees with the files, and is what a check reads now if and only if no model below was removed |
| Verdicts.NotBlocked | tools/xut/verilatorize/driver.py:628-652 | a configuration is free to run if and only if each transformed descendant passed for its own parameters |
| VerdictRuns.NeverStale | tools/xut/verilatorize/driver.py:423-957 | over every run of edits, lost copies, restarts and the single steps of the driver's calls (an edit may fall between linking and each check, and between two checks), whose checks meet the condition: after `verilatorize` each verdict left was computed for the present source of the model and of all it reaches |
| VerdictRuns.CheckExact | tools/xut/verilatorize/driver.py:933-957 | a recorded check is safe under any later change of the files if and only if, at the check, the model and all it reached had exactly the hashes of the entry |
| VerdictRuns.PassExact | tools/xut/verilatorize/driver.py:681-749 | the same of each check of `verilatorize(check=True)`, which may come long after the models were linked |
| VerdictRuns.EditedBackIsStale | tools/xut/verilatorize/driver.py:885-957 | a run without that condition after which a verdict about another source is kept |
| Driver.Verilatorizer.Verilatorize | tools/xut/verilatorize/driver.py:423-491 | the loops that transform what is not current and link the manifest compute the specified next state, and raise exactly when a transform crashed |
| Driver.Verilatorizer.Link | tools/xut/verilatorize/driver.py:494-523 | hierarchy facts of every entry, and verdicts discarded exactly when they changed |
| Driver.Verilatorizer.Write | tools/xut/verilatorize/driver.py:933-957 | a verdict is kept exactly when the entry still has the cached source and dependency hashes, and changes nothing else |
| Driver.Verilatorizer.Ensure | tools/xut/verilatorize/driver.py:885-930 | the entry is read once per process, the check reads the files as they are, and the object ends in the specified next state |
| BuilderProgress.SetWorks | tools/xut/stimgen.py:161-174 | data ports with values that fit can always be set together, whatever was done before |
| EquivStim.Stim.Drive | tools/xut/verilatorize/equiv.py:249-261 | a trigger is driven exactly when it is not at that level already, alone or as one more change of a block |
| EquivStim.Stim.Activity | tools/xut/verilatorize/equiv.py:283-291 | fails exactly when a free clock port is no single bit, and leaves every clock as it was |
| EquivStim.Stim.Pairs | tools/xut/verilatorize/equiv.py:338-350 | fails exactly when two triggers are the same, and ends with all triggers off and all clocks low |
| EquivStim.EquivStimulus | tools/xut/verilatorize/equiv.py:402-420 | whatever is drawn, a stimulus is returned if and only if the builder's times fit, the triggers resolve and differ, the clock ports and, with triggers, the async and gate ports are single bits, and the seed is not negative; and it has no error |
| XvecValues.ValueBack | tools/xut/formats/xvec.py:183-213 | a value of any width reads back from its text, x and z included |
| XvecValues.NumberExact | tools/xut/formats/xvec.py:183-207 | a hexadecimal or decimal value is accepted if and only if its number fits the width, and means that number: never a silent truncation |
| XvecQuoting.UnquoteBack | tools/xut/formats/xvec.py:216-265 | the two passes of unquoting undo the two of escaping for every mix of quotes and backslashes |
| XvecQuoting.StripComment | tools/xut/formats/xvec.py:222-241 | the loop drops what follows the first `#` outside a quoted token |
| XvecQuoting.UncommentedQuoted | tools/xut/formats/xvec.py:222-241 | nothing of a quoted token is taken for a comment |
| XvecQuoting.PairsJoined | tools/xut/formats/xvec.py:84-84 | the header pairs found are the pairs written, whatever their values hold |
| XvecLines.EventReads | tools/xut/formats/xvec.py:532-543 | every event is read back from its line |
| XvecFile.RoundTrip | tools/xut/formats/xvec.py:488-570 | a stimulus that passes the structure rules survives `loads(dumps(v))` if and only if header values and reason hold no control character and a reason is given only for `hw_renderable no` |
| XtrText.GroupBack | tools/xut/formats/xtr.py:135-140 | grouping bits in fours is undone by dropping the separators |
| XtrText.RoundTrip | tools/xut/formats/xtr.py:143-203 | what can be read is exactly what `add` can build, and `dumps` writes it so that it reads back |
| XtrText.ConcatRecovers | tools/xut/formats/xtr.py:305-314 | every sample of a concatenation is recovered from the first `/` of its label |
| XtrText.ConcatBack | tools/xut/formats/xtr.py:305-314 | legal traces under distinct configuration names concatenate, and each comes back whole and in order |
| Portability.ListBack | tools/xut/portability.py:821-895 | a list of names survives its cell if and only if no name holds the separator and its text is normalised, not empty and not the dash |
| Portability.CellsBack | tools/xut/portability.py:804-818 | the cells of a line come back for any mix of bars and backslashes, whitespace normalised |
| Portability.RowBack | tools/xut/portability.py:865-895 | a row comes back if and only if its texts are normalised, its lists can be written and its verdict cells are legal |
| PortabilityTable.Render | tools/xut/portability.py:821-862 | the loops write the document |
| PortabilityTable.Parse | tools/xut/portability.py:865-895 | the loop with its section and table state reads it line by line |
| PortabilityTable.ReadsBack | tools/xut/portability.py:821-895 | `parse(render(rows, meta))` gives back every row of every model source and no other if and only if each row can be written and no two of a model source are of one model |
| ConfigKey.KeyInjective | tools/xut/verilatorize/equiv.py:175-185 | two configurations share a key if and only if they are equal, for arbitrary names and values |

## Left out

- fork/join, `force`/`release`, and output arguments of tasks in the override analysis; a register written in
  the header of a loop.
- The parsing and elaboration of Verilog: statements, drivers and helper instances are given. The rewritten
  Verilog (`rewrite.py`, `zcmp.py`) is not modelled, so nothing is claimed about it.
- The text of messages, reasons and findings; truncated lists are kept as counts.
- Docker, systemd, Vivado, subprocesses, git and file access; hashes are taken to be injective, and the tool,
  the glbl module and the choices to be fixed.
- A `disable` of a block that is not around it ends another process; the one that runs it goes on.
- A check of a model whose file is removed meanwhile: it ends in an error, which is done again by every later pass.
- Several processes that write the manifest at once.
- Which models crash the transformer, and the result of a check, are parameters of the driver's calls.
- Coverage and reach bins of golden replay, and the bodies of the golden models: the model is what receives the calls.
- `raw_to_trace`: the text the testbench prints is not parsed; the history is compared before it is printed.
- The barrier at time 0 of the testbench (x until every process waits): inputs start at 0. Times above 64 bits.
- Text outside ASCII other than the dash of the portability table; set values given as text hold only `0`, `1`, `x` and `z`.
- Names with commas in the header's list of illegal attributes.
- The runs of the equivalence check, and the random generator of its stimulus: its draws are any numbers. Port
  names are Verilog identifiers.
- VCS and other runners, their logs and their classification by regular expression.
- Validator.Validate: a structure error ends the report; the source goes on to report the class rules of the part that is well formed. The write and read round trip of the structure check is proved apart from it (`Survives.SurvivesExact`).
- EquivStim.EquivStimulus: the validation has no round trip through text, as for `Validator.Validate`.
- VerdictRuns.NeverStale: of models whose hierarchy is present (no transform crashed in that call), since the
  call raises otherwise.
- CrosscheckVerdict.Check: coverage notes, entries that matched nothing, and how it is found that results were
  not measured at one clean tree, which is an input.
- Stimulus.RunEdges: the runs of the clocks of one file are listed clock by clock, not in the order in which a dictionary gives them.
