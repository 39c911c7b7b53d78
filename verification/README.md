# Verified model of pt_perf

`pt_perf` measures function latencies from Intel PT traces. A C++ analyser, `func_latency`, decodes branch
records in parallel, puts each thread's records together and rebuilds the calls of a target function from them.
It stands on a copy of the Linux perf tree with its kernel containers. This project models the parts where being
right is hard, in the form the code has (objects with links, in-place loops, event handlers, threads), and proves
what each of them is for.

* **Red-black tree** (`rbtree_*.dfy`): nodes with `left`, `right`, `parent` and a colour, rewritten in place. A
  ghost tree and a path (a zipper) say what the links mean; every loop step of the insert and erase fix-ups is one
  of the numbered cases of the source.
* **List sort** (`list_sort_sizes.dfy`, `list_merge.dfy`, `list_sort.dfy`): the bottom-up merge sort that a binary
  counter drives, on intrusive doubly linked lists.
* **Analyser** (`analyzer.dfy`): the event loop with its stack, cursor and counters. `call_tree.dfy` specifies a
  trace as a sequence of call trees and proves that the loop records what the trees call for; `call_tree_laws.dfy`
  and `output_laws.dfy` prove conservation of time, for a call and for the whole output. `restarts.dfy` adds calls that
  the loop sees begin again, errors, and calls that break off; `fragments.dfy` adds ends of calls without their
  beginning. `output_spec.dfy` and `fragment_output.dfy` say what the output has to hold, read off the trace and without
  any function of the analyser. `trace_forms.dfy` and `head_interrupts.dfy` compare full and ip-filtered recordings of
  the same thread.
* **Statistics** (`histogram.dfy`, `func_stats.dfy`, `func_stats_laws.dfy`, `buckets.dfy`, `thread_laws.dfy`):
  histograms, buckets, per-caller figures, and the merge of the threads' results.
* **Parallel decoding** (`parse_jobs.dfy`, `parallel_parse.dfy`, `kway_merge.dfy`, `parallel_laws.dfy`,
  `pipeline.dfy`): splitting a file over jobs, decoding, the k-way merge, equality with a run of a single job, and the
  whole way from the lines of a file to the statistics of a thread.
* **Concurrency** (`rw_spin_lock.dfy`, `worker_queue.dfy`, `worker_pool.dfy`): the reader-writer spin lock, the
  worker queue and the pool of workers as transition systems; the results, safety and progress, hold in every state of
  every interleaving.
* **Accounting in perf** (`kwork_atoms.dfy`, `kwork.dfy`, `kmem.dfy`, `lock_report.dfy`): slot allocation and
  statistics driven by events.
* **Bitmaps** (`hweight.dfy`, `bitmaps.dfy`): the population count on words, and word-level searches and operations
  against the set of bits.

`dafny verify dfyconfig.toml` checks the whole project.

Conventions. A pointer into memory is an object reference or a slot number; pointers that the proofs need and the
code does not keep are ghost parameters. Machine widths are written out where they can be felt (timestamps modulo
2^64, off-CPU intervals and line numbers modulo 2^32, counters and totals of `perf kmem`, `perf lock` and
`perf kwork`). A failed `assert` or `BUG_ON` is a result (`crashed`, `ok`, `bug`) or an assertion that is proved. Concurrent code is sequentially consistent, one step
per atomic access or per section under a mutex. `Zip(c, t, root)` says that the heap holds the tree `t` at the end of
the path `c`, linked both ways; `Balanced` and `CtxRB` are the red-black rules for a tree and for a path.

Properties that turned out not to hold of the code as it is, each with an input that shows it and the exact condition:

* every line of a trace is read by exactly one job, if and only if there are fewer than 2^32 and no range bound exceeds
  32 bits (`ParseJobs.EachLineOnceIff`, `ParseJobs.TooManyWorkers`);
* several jobs give a thread the same outcome as one job, if and only if some job aborts on a thread that runs
  backwards inside its lines, or neither run aborts and no error record ties with a later record of another job
  (`ParallelLaws.ParallelIsSequentialIff`, `ParallelLaws.TieReorders`, `ParallelLaws.BackwardsAcrossJobs`);
* every thread in `wait_idle` is woken, if and only if at most one thread waits (`WorkerQueue.NeverStuckIff`,
  `WorkerQueue.TwoWaitersStuck`);
* the off-CPU time of a call is the true one, if and only if every interval is below 2^32 ns
  (`CallTreeLaws.OffTimeExact`, `CallTreeLaws.LongSleepLost`);
* a call that the trace leaves once and comes back to is recorded, if and only if the trace did not end in a system call
  (`FragmentOutput.RecordedIff`);
* the loop goes on when a trace begins inside the target, if and only if it does not look for code blocks
  (`Fragments.BeginsInTarget`);
* a full and an ip-filtered trace of a thread give the same latencies, if and only if every resumption at the first
  instruction of the target happens at the instant of the entry (`HeadInterrupts.SameLatenciesIff`,
  `HeadInterrupts.HeadInterruptLost`);
* the wait total of `perf lock` is the true one, if and only if that is below 2^64, and only then is it bound to lie
  between n times the minimum and n times the maximum (`LockReport.TotalExactIff`, `LockReport.ReportBounds`,
  `LockReport.BackwardsBreaksBounds`);
* the run and wait totals of `perf kwork` are the true ones, if and only if these are below 2^64, and only then are they
  bound to be at least the maximum (`Kwork.FiguresBounds`, `Kwork.RunsWrap`, `Kwork.WaitsWrap`);
* a stored histogram is the exact one, if and only if it has fewer than 2^32 values with a sum below 2^64
  (`Histogram.StoredExactIff`, `Histogram.FourWrap`).

## Model

| member | source | states |
|---|---|---|
| `RbLinks.ChangeChild` | tools/include/linux/rbtree_augmented.h:170-181 | the hole below a path, or the root, now holds the new node, for every path |
| `RbLinks.RotateSetParents` | tools/lib/rbtree.c:69-82 | old and new node exchange places below any path; parent words and colours are the rotation's |
| `RbLinks.RotateRight` | tools/lib/rbtree.c:165-182 | right rotation at the grandparent: the new subtree is linked both ways and nothing else moves |
| `RbLinks.RotateLeft` | tools/lib/rbtree.c:209-216 | the mirrored rotation |
| `RbInsert.FlipColors` | tools/lib/rbtree.c:116-139 | case 1: the red grandparent subtree is linked as before, with flipped colours |
| `RbInsert.FlipKeepsRB` | tools/lib/rbtree.c:116-139 | after case 1 the red-black rules hold below the grandparent at the same black height |
| `RbInsert.RotateCasesLeft` | tools/lib/rbtree.c:140-182 | cases 2 and 3 with the parent on the left give the rotated tree, linked both ways |
| `RbInsert.RotateCasesRight` | tools/lib/rbtree.c:195-216 | the mirrored cases |
| `RbInsert.RotateRestoresRB` | tools/lib/rbtree.c:140-216 | the rotated subtree satisfies the red-black rules with a black top |
| `RbInsert.RotateKeepsInorder` | tools/lib/rbtree.c:140-216 | the rotations do not change the sort order |
| `RbInsert.InsertColor` | tools/lib/rbtree.c:84-220 | after a red leaf was linked into a valid tree: the fix-up terminates with a balanced, well-linked tree (black root, no red-red edge, equal black heights) with the same in-order sequence |
| `RbErase.RepairCasesLeft` | tools/lib/rbtree.c:291-346 | cases 3 and 4: sibling and nephews exist and are lifted; links both ways |
| `RbErase.RepairCasesRight` | tools/lib/rbtree.c:380-404 | the mirrored cases |
| `RbErase.LiftRedSiblingLeft` | tools/lib/rbtree.c:242-260 | case 1: a red sibling has two black children and is rotated above the parent |
| `RbErase.FadeSibling` | tools/lib/rbtree.c:261-290 | case 2: the sibling turns red, the structure stays |
| `RbErase.RepairedRB` | tools/lib/rbtree.c:291-346 | cases 3 and 4 restore the missing black |
| `RbErase.RepairedInorder` | tools/lib/rbtree.c:291-346 | cases 3 and 4 keep the sort order |
| `RbErase.EraseColor` | tools/lib/rbtree.c:226-407 | from a tree one black short at a hole: the fix-up terminates, dereferences no null sibling, keeps the in-order sequence and ends balanced and well linked |
| `RbUnlink.ReplaceByChild` | tools/include/linux/rbtree_augmented.h:195-218 | case 1: the only child takes the node's place and colour |
| `RbUnlink.SpliceRightChild` | tools/include/linux/rbtree_augmented.h:223-237 | case 2: the right child takes the node's place, left subtree and colour |
| `RbUnlink.TakePlace` | tools/include/linux/rbtree_augmented.h:259-272 | the successor takes over all links and the colour of the node |
| `RbUnlink.UnhookSuccessor` | tools/include/linux/rbtree_augmented.h:237-272 | case 3: the leftmost node of the right subtree is found, taken out and put in the node's place |
| `RbUnlink.Unlink` | tools/include/linux/rbtree_augmented.h:186-288 | taking any node out removes exactly it from the sort order; the result is balanced, or one black short at the parent that is returned |
| `RbTree.LinkNode` | tools/include/linux/rbtree.h:66-73 | hangs a red leaf into the hole of a path |
| `RbTree.InsertedSorted` | tools/include/linux/rbtree.h:205-222 | placing a node after all that are not greater keeps a sequence sorted, for every strict weak order |
| `RbTree.Root.constructor` | tools/include/linux/rbtree.h:36-38 | an empty, valid tree |
| `RbTree.Root.Add` | tools/include/linux/rbtree.h:205-222 | the contents get the node at one place and keep the rest; sorted contents stay sorted, behind equal nodes; the tree stays balanced |
| `RbTree.Root.Erase` | tools/lib/rbtree.c:438-444 | the contents lose exactly the node; the tree stays balanced and well linked |
| `RbTree.Root.First` | tools/lib/rbtree.c:462-472 | the first node of the contents, or null |
| `RbTree.Root.Last` | tools/lib/rbtree.c:474-484 | the last node of the contents, or null |
| `RbTree.Root.Next` | tools/lib/rbtree.c:486-515 | the node after it in the contents; null for a cleared node and after the last |
| `RbTree.Root.Prev` | tools/lib/rbtree.c:517-543 | the node before it: the inverse of `Next` on the contents |
| `RbTree.Root.Walk` | tools/lib/rbtree.c:462-515 | first and repeated next visit exactly the contents, in order |
| `RbTree.InorderDistinct` | tools/lib/rbtree.c:462-515 | no node occurs twice in the contents |
| `RbTree.Root.FirstPostorder` | tools/lib/rbtree.c:591-597 | the first node in postorder |
| `RbTree.Root.NextPostorder` | tools/lib/rbtree.c:573-589 | the next node in postorder |
| `RbTree.Root.PostorderWalk` | tools/include/linux/rbtree.h:97-101 | the postorder loop visits exactly the postorder sequence |
| `RbTree.PostorderDistinct` | tools/lib/rbtree.c:561-597 | postorder visits every node once |
| `RbTree.PostSplitAt` | tools/lib/rbtree.c:561-597 | in postorder every node comes right after all nodes of its subtrees |
| `RbTree.HeightBound` | tools/lib/rbtree.c:18-28 | a balanced tree of n nodes is at most 2 log2(n + 1) deep |
| `ListSortSizes.NextPending` | tools/lib/list_sort.c:195-228 | for every count: the two sublists that the trailing ones select have equal size, and merging them and pushing one element gives the sizes for count + 1 |
| `ListSortSizes.PendingTable` | tools/lib/list_sort.c:150-172 | both columns of the source's table, from the bits of count: the number of pending sublists of size 2^k, and the number of elements pending in smaller ones |
| `ListSortSizes.PendingShape` | tools/lib/list_sort.c:128-148 | all pending sizes are powers of two, ascending from the newest |
| `ListSortSizes.PendingAtLeastTwo` | tools/lib/list_sort.c:236-251 | from two elements on, at least two sublists are left for the final merges |
| `ListSortSizes.FinalMergesBalanced` | tools/lib/list_sort.c:173-181 | each final merge with a list of size 2^k has 2^(k-1) to 2^(k+1)-1 accumulated elements |
| `ListMerge.MergedPerm` | tools/lib/list_sort.c:14-41 | merging permutes, for every comparison |
| `ListMerge.MergedStable` | tools/lib/list_sort.c:14-41 | merging keeps order and stability when the first list is the earlier one, for every total preorder |
| `ListMerge.Merge` | tools/lib/list_sort.c:14-41 | relinking through the tail pointer yields the chain of the merged sequence |
| `ListMerge.MergeFinal` | tools/lib/list_sort.c:50-98 | the last merge closes a ring in which next and prev are inverse, over the merged sequence |
| `ListSort.MergePending` | tools/lib/list_sort.c:213-226 | the two selected sublists are replaced by their merge; all other sublists and the prev links of the heads stay |
| `ListSort.BuildRuns` | tools/lib/list_sort.c:199-233 | after the first phase the pending sublists hold consecutive, stably sorted stretches of the input of the predicted sizes |
| `ListSort.MergeAll` | tools/lib/list_sort.c:236-251 | merging all pending sublists gives one ring of the whole input |
| `ListSort.Sort` | tools/lib/list_sort.c:183-251 | for every list and comparison the result is a ring over a permutation of the input; for every total preorder it is sorted and stable |
| `Analyzer.RunConcat` | src/func_latency.cc:169-470 | running on two traces in turn is running on their concatenation |
| `CallTree.Analyze` | src/func_latency.cc:169-470 | the loop over the thread's actions; if they are those of a well-bracketed, time-ordered trace, nothing aborts and the statistics are those of its call trees |
| `CallTree.RunChildCall` | src/func_latency.cc:398-427 | leaving the target for a child opens it and charges the code block before it |
| `CallTree.RunCall` | src/func_latency.cc:204-462 | a whole call tree, from entry to return, leaves the loop idle and its statistics as specified |
| `CallTree.AnalyzerMeetsSpec` | src/func_latency.cc:169-470 | on every well-bracketed, time-ordered trace, with or without code blocks and with pauses of the trace inside the target, the loop records exactly the calls, children, blocks and off-CPU times of the call trees, and no assertion fails |
| `CallTreeLaws.ChargesAreIntervals` | src/func_latency.cc:204-248 | in both modes the times charged to children and blocks are disjoint, ordered intervals inside the call, so their sum never exceeds the latency |
| `CallTreeLaws.SelfIsTheRest` | src/stat_tools.cc:266-275 | what the target keeps for itself is exactly what its children leave, in time and off-CPU time |
| `CallTreeLaws.OffTimeFits` | src/func_latency.cc:355-369 | the off-CPU time of a call is at most its latency |
| `CallTreeLaws.OffTimeExact` | src/func_latency.cc:355-369 | the recorded off-CPU time is the true one if and only if every interval is below 2^32 ns |
| `CallTreeLaws.LongSleepLost` | src/func_latency.cc:355-369 | of a call that sleeps for 2^32 ns no off-CPU time is recorded |
| `CallTreeLaws.AccountUsesShares` | src/stat_tools.cc:241-279 | the children recorded for a call are its charges and the target's own share |
| `CallTreeLaws.Conservation` | src/stat_tools.cc:241-279 | over the recorded buckets, child latencies and `*self` add up to the latency of the call, and the off-CPU times to its off-CPU time |
| `OutputLaws.OutputConservation` | src/func_latency.cc:169-470 | after a whole trace, globally and for every caller, the child buckets add up to all latencies recorded and to all off-CPU times, exactly below 2^64 and modulo 2^64 beyond |
| `OutputSpec.TallyHolds` | include/stat_tools.h:55-59 | under every name a bucket counts exactly the charges of that name, adds up their times, and counts those with off-CPU time and adds that up |
| `OutputSpec.OutputIs` | src/func_latency.cc:169-470 | on every time-ordered trace of calls, lost calls, errors and calls that break off, for all callers together and for each one, without any function of the analyser: the histograms hold the latencies and off-CPU times of the calls asked for, every bucket counts and adds up the children, code blocks and own shares of its name, and switches and unknown calls are counted |
| `OutputSpec.TraceOutput` | src/func_latency.cc:169-470 | the same for traces without lost calls and errors |
| `OutputSpec.ChildBuckets` | src/func_latency.cc:204-231 | without call lines and code blocks, the bucket of a function counts and adds up its calls from the target over all calls asked for; `*self` counts these |
| `OutputSpec.DecimalIs` | include/pt_action.h:124-126 | addresses are written in decimal |
| `OutputSpec.SitesApart` | include/pt_action.h:124-126 | with call lines, calls of one function from different sites have different names |
| `OutputSpec.NameRoundTrip` | include/pt_action.h:124-141 | function and address can be read off a name again, whatever the function is called |
| `Restarts.LoopMeetsSpec` | src/func_latency.cc:204-304 | when the target is entered again before a call has returned (after an interrupt on the first instruction, by a child, or by itself) and with errors between and in calls, the loop records the last call and files the charges of the lost ones and of calls that break off as unknown, each for its caller, and no assertion fails |
| `Restarts.ErrorResets` | src/func_latency.cc:253-260 | from any state an error files all that was charged for a caller called `unknown`, and the loop is between calls again if and only if no interrupt on the first instruction is pending |
| `Restarts.TraceEndsInCall` | src/func_latency.cc:465-469 | a trace that ends in a call files its charges like an error |
| `Restarts.MissedTime` | src/func_latency.cc:294-299 | for any records at all, the time missed is that between two entries of the target with an error in between |
| `Fragments.FragmentsMeetSpec` | src/func_latency.cc:169-470 | on time-ordered traces that also hold ends of calls without a beginning (after an error, after a call of the target by a child, at the start of the trace, after a system call that ended the trace), the loop records exactly the whole calls, files the charges of all others for a caller called `unknown`, at the next entry or error or at the end, and no assertion fails |
| `Fragments.BeginsInTarget` | src/func_latency.cc:232-248 | a trace that begins in the target makes the loop abort at the first call if and only if it looks for code blocks |
| `Fragments.StrayBegin` | src/func_latency.cc:416-430 | an off-CPU interval whose end is missing when a child, an error or a new call follows counts for nothing, in any trace |
| `Fragments.StrayEnd` | src/func_latency.cc:355-369 | so does an end without a beginning |
| `FragmentOutput.OutputOf` | src/func_latency.cc:169-470 | on such traces, without any function of the analyser: the histograms hold the latencies of the whole calls only, and every bucket counts and adds up all children, blocks and own shares of its name |
| `FragmentOutput.RecordedIff` | src/func_latency.cc:398-415 | a call from which the ip-filter's trace ends once and starts again is recorded if and only if the trace did not end in a system call |
| `FragmentOutput.OuterIsHidden` | src/func_latency.cc:262-304 | of a call whose child calls the target again, the inner call is recorded and the outer one is not |
| `TraceForms.FilterChangesNothing` | src/func_latency.cc:398-457 | a thread with calls, interrupts, branches and off-CPU time, recorded in full and through the ip filter: equal latencies and off-CPU counts, and equal buckets under all names but those of interrupts renamed by gathering; no interrupt on the first instruction |
| `TraceForms.FilterKeepsChildren` | src/func_latency.cc:398-457 | without gathered call lines all child buckets are equal |
| `TraceForms.FilterKeepsEverything` | src/func_latency.cc:398-457 | without call lines the statistics are equal as a whole, callers included |
| `HeadInterrupts.RecordedLatencies` | src/func_latency.cc:204-457 | for every thread: a full trace yields the latency of every call, the filtered one the time since the last resumption at the first instruction |
| `HeadInterrupts.RecordedCounts` | src/func_latency.cc:204-457 | for every thread both traces count the same switches; the full one has no unknown call, the filtered one has one for each resumption at the first instruction, and its statistics are those of the lost starts and the last attempts |
| `HeadInterrupts.SameLatenciesIff` | src/func_latency.cc:388-395 | both give the same latencies if and only if every resumption at the first instruction happens at the instant of the entry |
| `HeadInterrupts.HeadInterruptLost` | src/func_latency.cc:388-395 | a call of 30 with an interrupt on its first instruction is recorded as 30 from the full trace and as the time since the resumption from the filtered one, even if the interrupt took no time |
| `Histogram.SlotBounds` | src/stat_tools.cc:139-148 | a value lies between the bounds of its slot |
| `Histogram.SlotUnique` | src/stat_tools.cc:139-148 | no other slot has the value between its bounds |
| `Histogram.MergeOf` | src/stat_tools.cc:157-166 | merging two histograms is the histogram of both sequences of values |
| `Histogram.OrderIrrelevant` | src/stat_tools.cc:139-166 | a histogram depends only on the multiset of its values |
| `Histogram.PlansAgree` | src/stat_tools.cc:139-166 | any two ways of adding and merging the same values give the same histogram |
| `Histogram.SlotsBracketTotal` | src/stat_tools.cc:139-166 | the slots sum up to the count, and the total lies between the sums of the slots' bounds |
| `Histogram.StoredExactIff` | src/stat_tools.cc:139-166 | for any adding and merging with 32-bit slots and counts and a 64-bit total, the stored histogram is the exact one if and only if there are fewer than 2^32 values with a sum below 2^64 |
| `Histogram.FourWrap` | src/stat_tools.cc:139-155 | four values of 2^62 are stored with a total of 0 |
| `Histogram.Distribution.AssignSlot` | src/stat_tools.cc:139-155 | the search over the slots counts the value in its slot and grows the vector as needed, in the widths of the fields |
| `Histogram.Distribution.MergeSlots` | src/stat_tools.cc:157-166 | slot-wise sum in the widths of the fields, also when an object is merged into itself |
| `FuncStats.FuncStat.JoinCallers` | include/stat_tools.h:329-332 | the loop merges every caller once, in any order |
| `FuncStats.FuncStat.Merge` | include/stat_tools.h:326-334 | the new state is the merge of both statistics |
| `FuncStatLaws.AddLatencyHolds` | include/stat_tools.h:303-310 | if the histograms hold exactly some recorded values, they hold exactly those and the new ones afterwards, globally and for every caller |
| `FuncStatLaws.EvalHolds` | include/stat_tools.h:303-334 | after any additions and merges the global histogram and every caller's hold exactly the recorded values |
| `FuncStatLaws.GlobalIsSumOfCallers` | include/stat_tools.h:303-334 | the global latency and off-CPU histograms are the merge of the callers' ones, in any order of the callers |
| `FuncStatLaws.SameValuesSameHistograms` | include/stat_tools.h:326-334 | recording the same values in any order and with any merges gives the same histograms, globally and per caller |
| `ThreadLaws.MergeComm` | include/stat_tools.h:326-334 | merging two threads' statistics in either direction gives the same |
| `ThreadLaws.MergeAssoc` | include/stat_tools.h:326-334 | so does merging three in either grouping |
| `ThreadLaws.ApplyIsMerge` | include/stat_tools.h:303-324 | adding a finished call, a lost call or a switch is merging with the statistics of that alone |
| `ThreadLaws.ThreadsDoNotMatter` | include/stat_tools.h:303-334 | spreading the same calls, lost calls and switches over threads, in any order and with any merges, gives the same statistics: histograms, child buckets, callers, unknown and off-CPU counts |
| `ThreadLaws.Perform` | include/stat_tools.h:303-324 | an object on which calls, lost calls and switches are recorded in turn holds what it held, merged with the statistics of all of them |
| `ThreadLaws.TotalFiles` | include/stat_tools.h:303-334 | after any calls, lost calls and switches, and any merges, every bucket of every caller and of all together counts and adds up the children handed in and one own share for each call asked for |
| `ThreadLaws.MergeThreads` | src/func_latency.cc:585-590 | merging the objects of all threads gives the statistics of everything that happened to them |
| `ParseJobs.AssignParseJobs` | src/func_latency.cc:598-618 | the jobs: a script file each, or ranges of the common file, cut to 32 bits |
| `ParseJobs.EachScriptLineOnceIff` | src/func_latency.cc:599-604 | with a script file per worker, every line of every file is read by exactly one job if and only if no file has 2^32 lines |
| `ParseJobs.EachLineOnceIff` | src/func_latency.cc:606-616 | every line is read by exactly one job if and only if there are fewer than 2^32 lines and no bound is cut |
| `ParseJobs.TooManyWorkers` | src/func_latency.cc:606-616 | with a million workers and 2^32 - 1 lines some line is not read exactly once |
| `ParallelParse.ParseJob.AddAction` | include/pt_action.h:92-96 | the action is appended to its thread exactly when the assertion holds |
| `ParallelParse.ParseJob.DecodeToActions` | src/func_latency.cc:517-569 | the job holds, thread by thread and in order, every record of its lines from or to the target or with a scheduling mark, those inside the target only with code blocks, and every error, and nothing else; it aborts exactly when a thread runs backwards |
| `ParallelParse.ParseJob.SortActions` | include/func_latency.h:84-98 | every thread's errors, and its parsed records when they may be out of order, are in time order afterwards and unchanged within each instant |
| `ParallelParse.StableSortIs` | include/pt_action.h:99-102 | the sort gives an ordered permutation that keeps the order within an instant |
| `ParallelParse.ParseJob.Exec` | include/func_latency.h:62-65 | afterwards both sets of every thread are the stable sort of what the lines say |
| `ParallelParse.CountActions` | src/func_latency.cc:473-479 | the number of actions of the thread, in 32 bits |
| `ParallelParse.Earliest` | src/func_latency.cc:485-507 | the stream with the least head below the maximal time, the first one on a tie |
| `ParallelParse.ExtractActions` | src/func_latency.cc:472-515 | the loop terminates with the k-way merge; its size check passes if and only if every time is below the maximum |
| `KwayMerge.Best` | src/func_latency.cc:485-507 | minimality of the picked head and the rule for ties |
| `KwayMerge.MergedAll` | src/func_latency.cc:472-515 | the merge is a permutation of all streams when times are below the maximum |
| `KwayMerge.CompleteIff` | src/func_latency.cc:508-514 | nothing is left behind if and only if every time is below the maximum |
| `KwayMerge.MergedSorted` | src/func_latency.cc:472-515 | merging sorted streams gives a sorted sequence |
| `KwayMerge.MergedStable` | src/func_latency.cc:472-515 | actions of one instant keep the order of the streams and their order in a stream |
| `KwayMerge.MergedDetermined` | src/func_latency.cc:472-515 | two merges agree if and only if the streams hold the same at every instant |
| `KwayMerge.AlreadyInOrder` | src/func_latency.cc:472-515 | streams that are in order when concatenated come out unchanged |
| `ParallelLaws.StreamsAre` | include/func_latency.h:99-118 | what the jobs hold after decoding is what the merge reads |
| `ParallelLaws.SlicesJoin` | src/func_latency.cc:598-618 | the lines of all jobs, one after the other, are the whole file |
| `ParallelLaws.SortedPermutation` | src/func_latency.cc:472-515 | however the file is split, a thread gets all its records, in time order |
| `ParallelLaws.SameAsOneJobIff` | src/func_latency.cc:472-515 | the merges of several jobs and of one job are the same if and only if no instant has a late tie of an error with a parsed record |
| `ParallelLaws.SameOutcomeIff` | src/func_latency.cc:472-569 | with the abort of `add_action` in view: several jobs and one job give the same outcome if and only if a job aborts on its own lines, or neither run aborts and there is no late tie |
| `ParallelLaws.TieReorders` | src/func_latency.cc:472-618 | 201 lines shared by two workers, with an error at line 100 and a call of the same instant at line 101: the two change places |
| `ParallelLaws.BackwardsAcrossJobs` | include/pt_action.h:92-96 | 201 lines shared by two workers, with a thread that runs backwards from line 100 to line 101: two jobs extract it, one job aborts |
| `ParallelLaws.ParallelIsSequentialIff` | src/func_latency.cc:472-618 | `SameOutcomeIff` for the ranges that are handed out, for every number of workers and both order modes |
| `ParallelLaws.OrderedThread` | src/func_latency.cc:472-618 | a thread without errors whose records are in order comes out exactly as recorded |
| `Pipeline.DecodesTrace` | src/func_latency.cc:517-569 | a file that holds a well-bracketed trace of a thread, mixed with records that touch neither target nor scheduler and with jumps inside the target, decodes to exactly the records of the trace |
| `Pipeline.ExtractsTrace` | src/func_latency.cc:472-618 | so does the merge of what the jobs hold, for every number of workers |
| `Pipeline.AnalyzeThread` | src/func_latency.cc:655-690 | sharing out, decoding, merging and analysing gives, for every thread of which the file holds a trace, the statistics of its call trees, and no assertion fails; for every number of workers whose ranges fit, and records in order unless they may be out of order |
| `RwSpinLock.RunInv` | include/sys_tools.h:28-67 | the invariant holds in every state of every run |
| `RwSpinLock.WordCounts` | include/sys_tools.h:28-67 | the word is WRITE less the readers, less WRITE while a writer has subtracted; it never overflows |
| `RwSpinLock.WriterIsAlone` | include/sys_tools.h:49-62 | while a writer is in its section no other thread writes or reads |
| `RwSpinLock.ReadersOnlyLeave` | include/sys_tools.h:31-62 | from a writer's subtraction to its addition the number of readers does not rise |
| `RwSpinLock.WriterGetsIn` | include/sys_tools.h:49-58 | a waiting writer that looks again enters exactly when the last reader has left |
| `RwSpinLock.ReaderGetsIn` | include/sys_tools.h:31-45 | a reader that loads the word can exchange it at once exactly when no writer has it, however many others read |
| `RwSpinLock.EveryoneCanLeave` | include/sys_tools.h:28-67 | no deadlock: from every state of every run all threads can leave, and the lock is then as at the start |
| `RwSpinLock.EveryoneCanEnter` | include/sys_tools.h:28-67 | from every state of every run every thread can come to write, and to read |
| `WorkerQueue.FifoOnce` | src/worker.cc:5-27 | executed jobs, the job under way and the queue make up the added jobs, in order: each job runs once |
| `WorkerQueue.WaitIdleReturns` | include/worker.h:61-64 | when `wait_idle` returns, every job added so far has been executed |
| `WorkerQueue.WorkerIsWoken` | include/worker.h:55-59 | a sleeping worker with a job in its queue has been notified |
| `WorkerQueue.WorkIsBounded` | src/worker.cc:5-27 | without new jobs the worker gets on at most as often as the queue and its phase say, whatever other threads do |
| `WorkerQueue.EveryJobRuns` | src/worker.cc:5-27 | from every state of every run, once the worker has got on that often, in whatever order, every job is executed, the worker is idle and a waiter that looks again returns |
| `WorkerQueue.EveryJobCanRun` | src/worker.cc:5-27 | from every state of every run there is such a way |
| `WorkerPool.EachWorkerItsJobs` | include/worker.h:107-110 | in every state of every run of the pool, worker k has executed, executes or has queued exactly the jobs whose index is k modulo the size, once each and in order |
| `WorkerPool.WaitAllIdleReturns` | include/worker.h:101-106 | when `wait_all_idle` returns, every worker has executed all jobs it was given before the call; without new jobs in between, all it was ever given |
| `WorkerPool.OneVisitorNeverStuck` | include/worker.h:101-106 | one thread in `wait_all_idle` never sleeps beside an idle worker without being notified |
| `WorkerPool.EveryJobOfThePoolRuns` | include/worker.h:80-115 | from every state of every history, once the workers have got on as often as they need to, in whatever order, every worker has executed all that it was given |
| `WorkerPool.WaitAllIdleCanReturn` | include/worker.h:101-106 | from every state of every history a thread in `wait_all_idle` has a way to return |
| `WorkerQueue.TwoWaitersStuck` | src/worker.cc:10-13 | with two or more waiters there is a run in which one is left asleep beside the idle worker |
| `WorkerQueue.NeverStuckIff` | src/worker.cc:5-27 | in no run does a waiter stay asleep beside an idle worker, if and only if at most one thread waits |
| `KworkAtoms.TakeValid` | tools/perf/builtin-kwork.c:196-232 | a slot whose bit is clear belongs to no list and no chain; taking it keeps all others apart |
| `KworkAtoms.ListValid` | tools/perf/builtin-kwork.c:418-430 | listing an atom in front of a chain keeps lists and chains disjoint |
| `KworkAtoms.UnlistValid` | tools/perf/builtin-kwork.c:243-247 | taking an atom off its list leaves its chain intact and apart from all others |
| `KworkAtoms.FreeValid` | tools/perf/builtin-kwork.c:234-241 | clearing the bits of a loose chain keeps the rest |
| `Kwork.SoundKept` | tools/perf/builtin-kwork.c:474-548 | number and totals are those of the times measured, in 64 bits, and the maxima with their two ends are those of the longest one: every update keeps this |
| `Kwork.FiguresBounds` | tools/perf/builtin-kwork.c:474-548 | a total is the true one if and only if that is below 2^64, and then maximum <= total <= number * maximum, for run times and latencies |
| `Kwork.RunsWrap` | tools/perf/builtin-kwork.c:474-493 | two runs of 2^63 ns leave a total of 0 and a maximum of 2^63 |
| `Kwork.WaitsWrap` | tools/perf/builtin-kwork.c:529-548 | two waits of 2^63 ns do the same |
| `Kwork.PerfKwork.AtomNew` | tools/perf/builtin-kwork.c:196-232 | the lowest slot that is not in use; it is in no list and no chain, and only its bit changes |
| `Kwork.PerfKwork.AtomFree` | tools/perf/builtin-kwork.c:234-241 | the recursion terminates and clears exactly the bits of the chain |
| `Kwork.PerfKwork.AtomDel` | tools/perf/builtin-kwork.c:243-247 | the atom leaves its list; the bits of its chain and no others are cleared |
| `Kwork.PerfKwork.WorkPushAtom` | tools/perf/builtin-kwork.c:388-431 | the new atom ends the source list, with the chain of the last destination atom behind it; an event that does not match leaves its slot set and unlisted |
| `Kwork.PerfKwork.WorkPopAtom` | tools/perf/builtin-kwork.c:433-472 | the last destination atom, still listed; without one the event itself is listed |
| `Kwork.PerfKwork.ReportEntry` | tools/perf/builtin-kwork.c:495-504 | a matching entry ends the entry list with an atom of its time; all invariants hold |
| `Kwork.PerfKwork.LatencyRaise` | tools/perf/builtin-kwork.c:550-559 | the same for a raise |
| `Kwork.PerfKwork.TimehistEntry` | tools/perf/builtin-kwork.c:712-731 | the last raise hangs behind the new entry; all invariants hold |
| `Kwork.PerfKwork.ReportExit` | tools/perf/builtin-kwork.c:506-527 | the run entered last is counted with its length and its atom freed; all invariants hold |
| `Kwork.PerfKwork.LatencyEntry` | tools/perf/builtin-kwork.c:561-582 | the wait raised last is counted with its length and its atom freed; all invariants hold |
| `Kwork.PerfKwork.TimehistExit` | tools/perf/builtin-kwork.c:733-761 | the run is counted and its whole chain freed; all invariants hold |
| `Kwork.MeasuredBelow` | tools/perf/builtin-kwork.c:433-548 | no work has more times measured than ends that the profile accepts |
| `Kwork.Handle` | tools/perf/builtin-kwork.c:1313-1337 | the handler of each mode and event does to lists, chains and times what matching every end with the last open beginning asks for |
| `Kwork.Process` | tools/perf/builtin-kwork.c:1313-1337 | over every sequence of events in every mode all invariants hold; the slots that belong to nobody are those of the pushes the profile rejects; the times measured are those of matching every end with the last open beginning of its work, and the figures are theirs and fit as in `FiguresBounds` |
| `Kmem.ShortExactIff` | tools/perf/builtin-kmem.c:60-75 | a processor number is stored as it is if and only if it fits into 16 bits with sign |
| `Kmem.ProcessorsApart` | tools/perf/builtin-kmem.c:246-270 | different processors below 2^15 stay different, and none is taken for the mark of a freed pointer |
| `Kmem.SumUpdate` | tools/perf/builtin-kmem.c:87-172 | storing one record changes the sum over an index by the difference of the records |
| `Kmem.SlabStats.InsertAllocStat` | tools/perf/builtin-kmem.c:87-130 | the sums over the index grow by one hit and its bytes, in their widths; pingpongs and all other pointers stay; the pointer has the newest call site and processor |
| `Kmem.SlabStats.InsertCallerStat` | tools/perf/builtin-kmem.c:132-172 | the same for the index by call site |
| `Kmem.SlabStats.ProcessAlloc` | tools/perf/builtin-kmem.c:174-189 | hits and bytes over both indexes stay equal to the global counters in their widths, and exactly where nothing is cut |
| `Kmem.SlabStats.ProcessFree` | tools/perf/builtin-kmem.c:246-270 | a free never misses its caller, and both pingpong sums stay equal in their width, and exactly where nothing is cut |
| `Kmem.Process` | tools/perf/builtin-kmem.c:87-270 | over every sequence of events the indexes and counters agree and no event is an error; bytes agree exactly for sizes that are not negative and add up to less than 2^64, pingpongs below 2^32 events |
| `LockReport.ReportAcquire` | tools/perf/builtin-lock.c:660-702 | the transition of an acquire event conserves the counts: acquisitions are released, held or dropped, contentions are over, waiting or abandoned |
| `LockReport.ReportAcquired` | tools/perf/builtin-lock.c:735-768 | the transition of an acquired event conserves the counts: acquisitions are released, held or dropped, contentions are over, waiting or abandoned; the wait it ends goes into the wait times |
| `LockReport.ReportContended` | tools/perf/builtin-lock.c:800-826 | the transition of a contended event conserves the counts: acquisitions are released, held or dropped, contentions are over, waiting or abandoned |
| `LockReport.ReportRelease` | tools/perf/builtin-lock.c:858-888 | the transition of a release event conserves the counts; the read count never gets negative |
| `LockReport.ReportContentionBegin` | tools/perf/builtin-lock.c:1156-1187 | the transition of a begin of contention conserves the counts: acquisitions are released, held or dropped, contentions are over, waiting or abandoned; a nested one changes nothing |
| `LockReport.ReportContentionEnd` | tools/perf/builtin-lock.c:1219-1249 | the transition of an end of contention conserves the counts: acquisitions are released, held or dropped, contentions are over, waiting or abandoned; the wait it ends goes into the wait times |
| `LockReport.BalancedAfter` | tools/perf/builtin-lock.c:632-891 | every event keeps the balance of its key: acquisitions are released, held or dropped; contentions are over, waiting or abandoned; the counters count them in 32 bits; minimum and maximum are those of the finished waits, and the total in 64 bits |
| `LockReport.ReplayBalanced` | tools/perf/builtin-lock.c:632-1252 | the balance holds for every sequence of events and every key, with the attempts, tries, reads, acquisitions, releases, contentions, finished waits, dropped holds and abandoned waits of those events, summed over the sequences of the lock or of the task |
| `LockReport.KeysDoNotMeet` | tools/perf/builtin-lock.c:603-619 | by address the entry of a lock is the one that its own events alone give, and by task that of a task |
| `LockReport.WaitBegan` | tools/perf/builtin-lock.c:820-826 | a wait is measured from the event that began it; nested begins of contention do not count |
| `LockReport.TotalExactIff` | tools/perf/builtin-lock.c:742-747 | the wait total is the true one if and only if that is below 2^64 |
| `LockReport.ReportBounds` | tools/perf/builtin-lock.c:632-1252 | for every sequence of events and every key, with n its number of finished waits: releases plus holds are at most the acquisitions and n plus the waiting ones at most the contentions, also as shown below 2^32 events; n * min <= total <= n * max if the waits add up to less than 2^64 |
| `LockReport.OrderedReport` | tools/perf/builtin-lock.c:632-1252 | for fewer than 2^32 events in time order, whose number times the length of the recording is below 2^64, the total is the true one and all bounds hold of what is shown |
| `LockReport.BackwardsBreaksBounds` | tools/perf/builtin-lock.c:1219-1249 | two contentions that end before they begin: 2 * min is greater than the total shown |
| `LockReport.Tables.Report` | tools/perf/builtin-lock.c:632-1252 | an event changes its own sequence and statistics as specified and nothing else |
| `LockReport.Process` | tools/perf/builtin-lock.c:632-1252 | over every sequence of events, by address or by task, the tables are those that `ReplayBalanced` and `ReportBounds` are about |
| `LockReport.TermInOrder` | tools/perf/builtin-lock.c:742-747 | on events in time order a wait has its true length |
| `Bitmaps.FindFirst` | tools/lib/find_bit.c:27-40 | the least set bit, or the size |
| `Bitmaps.FindNext` | tools/lib/find_bit.c:49-68 | the least set bit from the start on, or the size |
| `Bitmaps.FindFirstBit` | tools/lib/find_bit.c:74-77 | the instance for one bitmap |
| `Bitmaps.FindNextBit` | tools/lib/find_bit.c:103-106 | the instance for one bitmap |
| `Bitmaps.FindNextAndBit` | tools/lib/find_bit.c:110-114 | the least common bit from the start on |
| `Bitmaps.FindNextZeroBit` | tools/lib/find_bit.c:118-122 | the least clear bit from the start on |
| `Hweight.SwHweight64Counts` | tools/lib/hweight.c:43-63 | the masks, shifts and additions give the number of set bits, for every 64-bit word |
| `Hweight.SwHweight32Counts` | tools/lib/hweight.c:12-26 | the same for 32 bits |
| `Hweight.SwHweight16Counts` | tools/lib/hweight.c:28-34 | the same for 16 bits |
| `Hweight.SwHweight8Counts` | tools/lib/hweight.c:36-41 | the same for 8 bits |
| `Bitmaps.BitmapWeight` | tools/lib/bitmap.c:8-19 | the cardinality of the set, for every length, from the word counts of `hweight.c` |
| `Bitmaps.BitmapOr` | tools/lib/bitmap.c:21-29 | the union |
| `Bitmaps.BitmapRanges` | tools/lib/bitmap.c:31-58 | the ranges are ascending, disjoint, maximal and denote exactly the set |
| `Bitmaps.BitmapAnd` | tools/lib/bitmap.c:60-73 | the intersection, and whether it is empty |
| `Bitmaps.BitmapEqual` | tools/lib/bitmap.c:75-88 | true if and only if the sets are equal |
| `Bitmaps.BitmapIntersects` | tools/lib/bitmap.c:90-102 | true if and only if the sets meet |

## Left out

- Command line, processes, files, signals, symbol lookup and all printing: input and output only.
- Decoding of trace lines and of the compact format: the model starts from decoded records.
- The ancestor option of `do_analyze` and timeline mode of `FuncStat::add`: both are off in the model.
- Fragments.FragmentsMeetSpec: leaves out an error or a new call during an interrupt on the first instruction, because that interrupt then stays pending (`Restarts.ErrorResets`), and during a pause of the trace; with code blocks the end of a call begins with the record that leads into the target, because the loop has no block to go on with otherwise (`Fragments.BeginsInTarget`).
- Pipeline.AnalyzeThread: the trace of the thread is well-bracketed, and the jobs are executed one after the other (`worker_pool.dfy` covers the pool that executes them).
- TraceForms.FilterChangesNothing: leaves out interrupts on the first instruction, because `HeadInterrupts.RecordedLatencies` says what happens there. With call lines the two recordings name callers differently, so per-caller figures are compared only without them (`TraceForms.FilterKeepsEverything`).
- Histogram.Distribution.AssignSlot: only values below 2^63, because the search shifts by 64 bits beyond that, which C++ does not define.
- FuncStats: histograms are exact (`Histogram.StoredExactIff` says when the stored ones are), and counts of bucket elements, of unknown calls and of off-CPU switches are unbounded; bucket totals wrap at 64 bits.
- ParallelParse.ExtractActions: positions in a stream are unbounded where the code has 32 bits; the size check is stated for fewer than 2^32 actions of a thread.
- ParseJobs.AssignParseJobs: the product 100 * workers is not cut to 64 bits.
- RbUnlink.SpliceRightChild: the parent word of the orphaned child is written when the child is moved, which the code does after all three cases; nothing reads it in between.
- Augmented callbacks, cached roots, `rb_replace_node` and lockless readers of the red-black tree.
- ListMerge.MergeFinal: leaves out the extra calls of the comparison that only yield the processor.
- RwSpinLock: weak memory orders, the spin counter and yielding; a thread takes one lock at a time.
- WorkerQueue: stopping a worker and tearing down its thread.
- WorkerPool: a pool started with no workers, where adding a job divides by zero.
- Kwork: failure of memory allocation and callchains; whether an event matches the profile is a parameter.
- KworkAtoms: the bitmap of a page is a sequence of bits here; `bitmaps.dfy` covers its words.
- Kmem: the search in the two trees is a look-up in a map (`rbtree.dfy` covers the trees); page allocator statistics and the count of allocations from other nodes are left out.
- LockReport: average wait times, aggregation by caller, the histogram of broken states and `combine_result`; the read count of a sequence is unbounded.
- Hweight: the variants with a multiplication, which need a configuration symbol that nothing in the tree defines.
- Bitmaps: searches work on the 64 bits of a word, so `__ffs` is modelled by what it computes.
- Bitmaps.BitmapRanges: yields the ranges, not the text, and has no buffer limit.
