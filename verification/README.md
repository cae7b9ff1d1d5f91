# Content-based routing: a model and its proofs

SCBR routes publications to subscribers by content. A subscription is a list of
predicates (key, comparison, 32-bit constant), a publication a map from keys to
values, and a subscription receives the publications all of its predicates hold
of. Scanning all subscriptions would be enough; the matching library makes that
fast in three layers, and a router inside an enclave and a broker around it use
the second one. This project models the code of all of these in Dafny and proves
what each layer promises against the plain scan.

* **Containment** (`Subscriptions`, `Containment`, `Completeness`, `Exactness`,
  `Circle`). `operator>=` decides from the text of two subscriptions whether one
  contains the other. Proved: exactly when that decision is sound, when it is
  reflexive, when it is inherited (transitive), when it depends on the order of
  predicates, and that over the reals it misses nothing where no key is constrained
  twice.
* **Containment graph** (`Diagram`, `DiagramUpdate`, `Traversal`, `Relinking`,
  `Census`, `Classes`, `Matching`, `Graph`). Heap nodes with parent and child
  lists, edited in place. Proved: the lists are always the exact covering (Hasse)
  diagram of strict containment, through every `add` and `remove`; the search that
  never backtracks is complete; the pruned match reports what the scan reports and
  tests exactly the roots and the children of matching nodes. `Runs` holds whole
  histories of additions, removals and matches against the list the caller keeps.
  Also `Edges` (any symmetric edges, with cycles or without), `Depths` and
  `Statistics` with `Counter` (labels and samples), and `Destruction` (every node
  freed once and not used afterwards).
* **Pre-filter index** (`Bloom`, `Index`, `Pruning`, `FilterMatch`, `FilterGroups`,
  `FilterLinks`, `FilterReady`, `FilterExact`, `PreFilter`). Inverted lists of
  Bloom bits, a default list, an array of marks, and positive and negative
  propagation through the graph. Proved: the reports of all four variants against
  the scan, class by class, with the exact condition on which a variant with a
  graph agrees, with and without positive propagation; which entries are reported,
  and which are spared a test. `Limits` holds runs on
  which graph and pre-filter fall short.
* **Router and broker** (`Wire`, `Headers`, `Forwarding`, `Router`, `Broker`).
  Printing, splitting and parsing of headers, one router step per header, the two
  strings of a notification and taking them apart. Proved: what any text is split
  into and read as, the round trips, and
  that in every run each publication is answered with exactly the subscriptions
  before it that accept it, each with its own hash, if and only if none of their
  names holds a NUL.

`dafny verify dfyconfig.toml` checks everything.

## How to read it

The order on nodes does not depend on the heap (a stored subscription never
changes), so the theory of the diagram is about sets of nodes, and the methods are
proved to keep the lists equal to those sets. `hide` statements only keep
definitions away from proofs that do not need them.

The graph is proved for any family `U` of subscriptions on which containment is a
preorder (`Preorder(U)`), and matching for families on which it is also sound
(`SoundOn(U)`). The code needs such a condition, because its containment is
neither in general:

* The rule for `x <= a <= x` (`src/router/matching/subscription.cc:68-72`) looks
  for the opposite operator but does not compare its constant, contrary to the
  comment there. The model follows the code. `Containment.LooseRangeUnsound` is an
  input on which the answer is wrong, `Containment.SoundnessExact` says exactly
  which answers are right, `Exactness.OrderExact` exactly which depend on the order
  in which predicates were added, and `Limits.ContaineeMissed` that every wrong
  answer makes the graph miss a match, so soundness is not only sufficient
  (`Limits.LooseRangeMissed` is such a run).
* The same rule breaks transitivity: a = 4 is found to contain 4 <= a <= 10, that
  to contain a = 5, and yet a = 4 not to contain a = 5
  (`Exactness.LooseRangeNotTransitive`; each of the three is matched by some
  event). `Exactness.TransitivityExact` is the exact condition: containment of c is
  inherited, through every b, if and only if c bounds every key from one side at
  most, or covers on it all that can be covered, which takes 2^32 predicates
  (`Exactness.TransitivityOneSided`). Among subscriptions whose pairs of bounds
  agree, only those that nothing matches still break it
  (`Containment.InfeasibleNotTransitive`, `Containment.PinnedTransitivityExact`).

* Containment can even go round. `Circle.StrictCircle` has three subscriptions that
  accept the same events and each of which strictly contains the next. Walks that
  follow the edges of a node down need no more than edges that are symmetric and
  do not go round, and they need just that: `Destruction.ClearExact`,
  `Destruction.DestroyExact` and `Depths.PrepareExact` say for any symmetric edges
  that taking down the graph and labelling it end if and only if there is no
  cycle. `Preorder(U)` is what excludes one (`Edges.HasseLayered`); that `add` can
  be made to build one from such subscriptions is not shown here.

In the other direction the decision is a table of single implications, exact over
the reals (`Completeness.ImpliesExact`); among the integers two implications hold
that it does not find, as a <= 9 of a < 10 (`Completeness.IntegersExact`). Where no
key is constrained twice a contained subscription is always found to be one
(`Completeness.IncludesExact`).

`Containment.NoPairWellBehaved` and `Containment.TightWellBehaved` give two
families that satisfy all conditions. Of what the client library can express, the
model has subscriptions with keys that hold no blanks and 32-bit integral values
(string values are left out). They belong to the first family
(`Broker.ClientsWellBehaved`), so runs of requests of such clients need no
condition on their subscriptions, only that ids are words without NULs
(`Broker.RunClients`).

Two more facts of the code that the statements reflect:

* `Graph::remove` lowers the count of a class but leaves the list of its members
  alone (`src/router/matching/graph.cc:253-256`): whichever member was to be
  removed, the newest one is no longer reported. The list `live` of the model is
  what the graph goes on reporting, so it drops the newest member too, and
  `Graph.Graph.Remove` says when that is the caller's list without `s`. Numbers per
  class are right in every run in which the caller removes only what it holds, or
  what has no equivalent. Which subscriptions are reported is said in
  `Runs.Answered`, and proved of every such run by `Runs.Replay`: they are the
  caller's if and only if, of each class that accepts the event, the members
  removed since the class was last empty are, as a multiset, the ones added last
  since then. After add, add and removing the first, the removed subscription is
  reported and the stored one is not (`Limits.RemovedStays`); and it stays so
  when the newest is removed next (`Limits.RemovedTwice`). `Graph.Graph.Add` says
  exactly when an `add` keeps what nodes hold in step with `live`, and
  `Limits.RemovedIsReported` is a run in which it does not.
* An entry of the default list reports itself once and not its class
  (`src/router/matching/prefilter.cc:301-309`). So a class whose first member has
  no equality loses its members that have one, unless positive propagation from
  a smaller class finds it first. `PreFilter.PreFilter.Match` says how often each
  class is reported and when that is as often as the scan reports it; in
  `Limits.LeaderLosesEquality` one report of two is lost, with every variant. Where
  no subscription bounds a key from both sides nothing is lost
  (`FilterExact.PairFreeLed`, `Broker.FilterClients`).

## Model

| member | source | states |
|---|---|---|
| Subscriptions.InsertSorted | src/router/matching/subscription.hh:18-20 | adding a predicate keeps the multimap ordered by key |
| Subscriptions.InsertRange | src/router/matching/subscription.hh:18-20 | an added predicate goes behind those of its own key; no other key is affected |
| Subscriptions.KeyLessExact | src/router/matching/common.hh:19-26 | keys are ordered by the first character in which they differ |
| Subscriptions.Subscription.Matches | src/router/matching/subscription.cc:6-50 | the loop with early returns accepts exactly the events all predicates hold of |
| Subscriptions.AcceptsAll | src/router/matching/subscription.cc:6-50 | acceptance means every predicate finds its key and holds of its value |
| Subscriptions.EqualRange | src/router/matching/subscription.cc:54 | the stretch of equal keys is found, and is the whole stretch |
| Subscriptions.CoverLoop | src/router/matching/subscription.cc:57-102 | the inner loop with the overwritten flag decides whether a predicate, or the pair rule, covers p; `Completeness.CoveredExact` says what that is |
| Subscriptions.Subscription.GreaterEqual | src/router/matching/subscription.cc:52-108 | the loops decide containment as specified, predicate by predicate; `Completeness.IncludesExact` says what is found |
| Subscriptions.IncludesAll | src/router/matching/subscription.cc:52-108 | containment holds exactly if each predicate is covered by those of its key |
| Completeness.ImpliesExact | src/router/matching/subscription.cc:61-97 | the case table finds that one predicate implies another if and only if every real value the one allows the other allows |
| Completeness.AllowsHolds | src/router/matching/subscription.cc:14-46 | what a predicate allows among the reals is, on integral values, what matching tests |
| Completeness.IntegersExact | src/router/matching/subscription.cc:61-97 | among the integers exactly two more implications hold, of a <= v by a < v + 1 and of a >= v by a > v - 1 |
| Completeness.CoveredExact | src/router/matching/subscription.cc:57-102 | a predicate is covered exactly if a single one implies it or, for an equality, a bound at its constant is followed by one from the other side |
| Completeness.IncludesExact | src/router/matching/subscription.cc:52-108 | of a subscription with at most one predicate per key containment is found if and only if it is there, over the reals |
| Containment.AdmitsExact | src/router/matching/subscription.cc:14-46 | a conjunction of predicates on one key is an interval with holes |
| Containment.SatisfiableIffFeasible | src/router/matching/subscription.cc:6-50 | some event matches exactly if every key leaves a value |
| Containment.SoundnessExact | src/router/matching/subscription.cc:52-108 | where the code answers "contains", that is true for all events exactly if no event matches b or each equality of a is the only value b leaves |
| Containment.PinnedSound | src/router/matching/subscription.cc:65-73 | containment is sound when the pair rule fired on pairs with equal constants |
| Exactness.OrderExact | src/router/matching/subscription.cc:57-102 | every order of the predicates of a key gives the same answer exactly if p is no equality, or they pin its constant, or no bound at that constant meets one from the other side |
| Containment.ReflexiveExact | src/router/matching/subscription.cc:52-108 | containment is reflexive exactly on supported operators |
| Exactness.TransitivityExact | src/router/matching/subscription.cc:52-108 | containment of c is inherited through every b exactly if c bounds each key from one side at most, or covers on it all that can be covered |
| Exactness.TransitivityOneSided | src/router/matching/subscription.cc:52-108 | with fewer than 2^32 predicates on a key, exactly if no key is bounded from both sides |
| Exactness.LooseRangeNotTransitive | src/router/matching/subscription.cc:71 | a = 4, 4 <= a <= 10 and a = 5, all of them matchable, are an intransitive triple |
| Containment.PinnedTransitivityExact | src/router/matching/subscription.cc:52-108 | among subscriptions whose pairs of bounds agree, containment of c is inherited exactly if equal bounds on a key of c amount to an equality there |
| Circle.StrictCircle | src/router/matching/subscription.cc:52-108 | three subscriptions that accept the same events and strictly contain one another in a circle; no family with them has containment as a preorder |
| Containment.FeasibleCrossFree | src/router/matching/subscription.cc:52-108 | a subscription that some event matches meets this last condition |
| Containment.WellBehavedSoundPreorder | src/router/matching/subscription.hh:42-48 | on well-behaved families containment is reflexive, transitive and sound |
| Containment.NoPairWellBehaved | src/router/matching/subscription.cc:67-72 | subscriptions without a >= and a <= on one key are such a family |
| Containment.TightWellBehaved | src/router/matching/subscription.cc:67-72 | so are matchable ones whose >= and <= on a key have equal constants |
| Containment.LooseRangeUnsound | src/router/matching/subscription.cc:71 | a = 5 is found to contain 5 <= a <= 10 and misses a = 7; with the bounds in the other order it is not |
| Containment.InfeasibleNotTransitive | src/router/matching/subscription.cc:52-108 | a subscription nothing matches makes containment intransitive |
| DiagramUpdate.LowerAdded | src/router/matching/graph.cc:220-238 | which covering edges a new node replaces, and that no other edge changes |
| DiagramUpdate.LowerRemoved | src/router/matching/graph.cc:271-279 | which covering edges take the place of a removed node |
| DiagramUpdate.RootsRemoved | src/router/matching/graph.cc:280-288 | the roots after a removal are those left and the children without another container |
| DiagramUpdate.EndsAreUpper | src/router/matching/graph.cc:204-211 | the nodes where the downward walk ends are exactly the direct containers of a new node |
| DiagramUpdate.EndsAreLower | src/router/matching/graph.cc:212-219 | the nodes where the upward walk ends are exactly its direct containees |
| Traversal.FindContainers | src/router/matching/graph.cc:94-107 | the stamped walk visits every containing node below x and appends its ends, each once |
| Traversal.FindContainees | src/router/matching/graph.cc:109-122 | the same upwards, through containees |
| Relinking.ContainersOf | src/router/matching/graph.cc:204-211 | from the roots exactly the minimal stored containers are collected, each once |
| Relinking.ContaineesOf | src/router/matching/graph.cc:212-219 | from the leaves exactly the maximal stored containees are collected, each once |
| Traversal.Search | src/router/matching/graph.cc:172-181 | the search that commits to the first container finds the equivalent node if there is one |
| Traversal.Descendant | src/router/matching/graph.cc:84-92 | the recursion decides whether a path leads up from c to p |
| Traversal.DescendantDecides | src/router/matching/graph.cc:274 | without that edge a path exists exactly if p does not directly contain c |
| Traversal.AncestorDecides | src/router/matching/graph.cc:276 | the same for the other direction of the edge |
| Relinking.LinkBelow | src/router/matching/graph.cc:221-229 | the first editing loop of add: child lists of the containers, and the leaves |
| Relinking.LinkAbove | src/router/matching/graph.cc:230-238 | the second editing loop: parent lists of the containees, and the roots |
| Relinking.RelinkPair | src/router/matching/graph.cc:274-277 | one pair: both edge directions agree afterwards, whatever pairs came before |
| Relinking.RelinkedAll | src/router/matching/graph.cc:271-279 | after all pairs, in any order, the edges are the covering edges without the node |
| Graph.Graph.constructor | src/router/matching/graph.hh:30 | an empty graph is valid |
| Graph.Graph.Add | src/router/matching/graph.cc:190-244 | the heap is again the exact covering diagram, the live list has s at its end and s points to the node of its class, a new node without any match or test; when the members kept per node stay right |
| Graph.Graph.AddEquivalent | src/router/matching/graph.cc:193-199 | only the class of the equivalent node changes, by s |
| Graph.Graph.AddNode | src/router/matching/graph.cc:200-243 | a new node between its direct containers and containees |
| Graph.Graph.Remove | src/router/matching/graph.cc:246-291 | false exactly if nothing equivalent is stored; otherwise the newest member of that class goes, which is s exactly if s came last of it, and the diagram is exact again |
| Graph.Graph.RemoveNode | src/router/matching/graph.cc:257-289 | the node goes and only covering edges are restored |
| Graph.Graph.SearchFor | src/router/matching/graph.cc:293-296 | an equivalent stored subscription exactly if there is one |
| Graph.Graph.Match | src/router/matching/graph.cc:325-360 | only matching nodes are reported, each once; where containment is sound, the numbers of reports, in all and per class, are those of the scan of the live list, the reports are if the nodes are in step with it, and exactly the roots and the children of matching nodes are tested, once |
| Matching.ExploreDone | src/router/matching/graph.cc:331-357 | when the stack is empty the nodes tested and the nodes reported are those |
| Matching.HitReached | src/router/matching/graph.cc:335-356 | every matching node is reached through matching containers |
| Matching.MatchIsScan | src/router/matching/graph.cc:341-354 | reporting the matching nodes is the scan: in number, per class, and in identity if the nodes hold exactly what is live |
| Matching.ScanClass | src/router/matching/graph.cc:345-349 | of a class the scan reports all members or none |
| Matching.Report | src/router/matching/graph.cc:345-349 | the members kept by a node are reported, and the accesses are in bounds |
| Matching.RemovedScan | src/router/matching/graph.cc:253-256 | in a list without repeats: without the newest member of its class instead of s the scan has the right number, and the right subscriptions exactly if e is nothing to s or s is that member |
| Classes.FaithfulJoin | src/router/matching/graph.cc:193-199 | after s has joined, the node reports its live class exactly if nothing was left behind by a removal, or what is left behind next is s itself |
| Census.DropOther | src/router/matching/graph.cc:253-256 | removing from one class leaves every other class as it was |
| Limits.ContaineeMissed | src/router/matching/graph.cc:341-352 | if a is taken to contain b and some event shows it does not, the graph to which a and then b were added misses that match |
| Limits.LooseRangeMissed | src/router/matching/subscription.cc:71 | a run in which a = 7 is not reported to 5 <= a <= 10, stored next to a = 5 |
| Limits.RemoveThenMatch | src/router/matching/graph.cc:246-360 | remove(s) and a match, while the graph still reports what the caller holds: the number is that of the caller's list without s; the subscriptions are, exactly if e is nothing to s or s came last of its class |
| Runs.Replay | src/router/matching/graph.cc:190-360 | in every run of adds, removes and matches: what is found, which members of each class are reported, that the numbers are those of the scan of the caller's list, and exactly when the reports are |
| Runs.Balance | src/router/matching/graph.cc:246-256 | of a class, what the caller holds and what it has removed make up what was added since the class was last empty |
| Runs.ClassReported | src/router/matching/graph.cc:341-354 | of a class the first members added are reported, as many as the caller holds |
| Limits.RemovedTwice | src/router/matching/graph.cc:253-256 | after adding a, b and c and removing a and then c, a is reported and the caller holds b |
| Limits.RemovedStays | src/router/matching/graph.cc:253-256 | after add, add and removing the first, the removed one is reported and the stored one is not |
| Limits.RemovedIsReported | src/router/matching/graph.cc:253-256 | after add, add, remove, add the removed subscription is reported |
| Edges.RankExact | src/router/matching/graph.cc:62-72 | whatever the edges: a node and all below it can be ranked exactly if no cycle can be reached from it |
| Edges.HasseLayered | src/router/matching/graph.cc:190-244 | the covering edges of a preorder are symmetric and without a cycle |
| Depths.ResetStats | src/router/matching/graph.cc:124-131 | for any symmetric edges the stamped walk ends and clears the labels of everything below |
| Depths.PrepareStats | src/router/matching/graph.cc:133-152 | for symmetric edges, as far as the node can be ranked, the re-relaxing recursion ends, labels are lengths of paths, and no edge below is left to relax |
| Depths.PrepareExact | src/router/matching/graph.cc:133-152 | for any symmetric edges the recursion from a root of a graph without labels ends exactly if no cycle can be reached |
| Depths.LabelDepths | src/router/matching/graph.cc:371-374 | for symmetric edges without a cycle: afterwards the labels are the lengths of a shortest and a longest path from the roots |
| Depths.PathWithin | src/router/matching/graph.cc:133-152 | with nothing left to relax, every path length lies between the labels |
| Statistics.ComputeStats | src/router/matching/graph.cc:154-170 | for any symmetric edges the walk ends and every node below is fed to the counters once (`Statistics.RatesAddUp`: with its matches and tests per event) |
| Statistics.CountsAddUp | src/router/matching/graph.cc:162-167 | the sampled counts add up to the number of live subscriptions, and so many samples of matches and tests are taken |
| Statistics.RatesAddUp | src/router/matching/graph.cc:163-167 | times the number of events, each sample of matches is that of its node, and the samples add up to the matches of all nodes, for every member, and to their tests; before the first event all are 0 |
| Graph.Graph.Stats | src/router/matching/graph.cc:362-378 | numbers of nodes, roots, leaves and singletons, extremal labels, every node sampled once; the samples of matches and tests add up to what the nodes have counted |
| Counter.SmartCounter.Add | src/router/matching/util.cc:5-16 | the fields stay what two passes over all samples give |
| Counter.OnePass | src/router/matching/util.cc:13-14 | moving the mean and adding the product of distances is the two-pass result |
| Counter.Recentre | src/router/matching/util.cc:14 | how the squared deviations change with their centre |
| Counter.SmartCounter.Variance | src/router/matching/util.hh:25-29 | the sample variance, 0 for fewer than two samples |
| Counter.SmartCounter.MeanBetween | src/router/matching/util.cc:7-13 | the mean lies between minimum and maximum |
| Destruction.Memory.Clear | src/router/matching/graph.cc:62-72 | for symmetric edges, as far as x can be ranked: exactly the nodes below x are freed, each once; only nodes not freed are read or written |
| Destruction.ClearExact | src/router/matching/graph.cc:62-72 | for any symmetric edges clearing x ends exactly if no cycle can be reached from x |
| Destruction.Memory.Destroy | src/router/matching/graph.cc:183-188 | for symmetric edges without a cycle: from the roots all nodes are freed, each once, and nothing stays allocated |
| Destruction.DestroyExact | src/router/matching/graph.cc:183-188 | for any symmetric edges destruction ends with nothing left exactly if there is no cycle |
| Graph.Graph.Destroy | src/router/matching/graph.cc:183-188 | the same for the nodes and lists of any valid graph |
| Bloom.HashLoop | src/router/matching/prefilter.cc:50-56 | each hash is seeded with the one before, the first with 0, and taken modulo the size |
| Bloom.BloomFilter.Insert | src/router/matching/prefilter.cc:62-67 | all bits of the value are set and no other |
| Bloom.BloomFilter.Insert1 | src/router/matching/prefilter.cc:69-74 | one bit of the value is set, whichever |
| Bloom.SubscriptionFilter | src/router/matching/prefilter.cc:147-156 | in variant ONE one bit of each equality constant, whichever, and no other; otherwise all bits of all of them |
| Bloom.FiltersIndex | src/router/matching/prefilter.cc:147-157 | either way no bit but those of equality constants, and some bit exactly if there is an equality |
| Bloom.EqBitsExact | src/router/matching/prefilter.cc:147-156 | a bit is set by the second exactly if it is one of some equality constant |
| Bloom.EventFilter | src/router/matching/prefilter.cc:209-212 | the bits of all attribute values and no other |
| Bloom.NoFalseNegative | src/router/matching/prefilter.cc:84-86 | a matching event has every bit of the subscription, for any hash function and any choice of bits |
| Bloom.PairLosesEquality | src/router/matching/prefilter.cc:150 | an equality and the same equality written as a pair are equivalent, but only one has filter bits |
| Index.InsertKeepsOrder | src/router/matching/prefilter.cc:160-165 | inserting before the first contained entry never leaves a containee before its container |
| Index.ReportClass | src/router/matching/prefilter.cc:237-252 | reporting a matching primary settles its class |
| Index.BitsDone | src/router/matching/prefilter.cc:222-298 | after the bit lists every matching class with filter bits is settled |
| Index.ReportSelf | src/router/matching/prefilter.cc:301-309 | on the default list an entry settles itself only |
| Index.ClosedUp | src/router/matching/prefilter.cc:254-280 | when no propagation is pending, every container of a settled matching class is settled |
| Index.SettledExactly | src/router/matching/prefilter.cc:222-298 | after the bit lists exactly the matching classes with filter bits are settled, and with positive propagation those that contain such a one |
| Index.ReportedItems | src/router/matching/prefilter.cc:232-309 | which entry is reported how often: of a class found on the bit lists or by propagation its first member, once for every member; of any other class each member on the default list, once |
| Pruning.SunkBelow | src/router/matching/prefilter.cc:281-294 | when no propagation is pending, everything below a failed entry is marked |
| Pruning.TriedJoin | src/router/matching/prefilter.cc:222-351 | testing on, none is tested after an entry that spares it, and what is not tested is excused |
| Pruning.AloneTried | src/router/matching/prefilter.cc:222-309 | without propagation every entry with all of its bits in the filter is tested |
| FilterMatch.PropagateUp | src/router/matching/prefilter.cc:254-280 | containers of a match are reported as classes, once, none is left pending, and nothing but containers is marked; ends by unmarked entries, then stack size |
| FilterMatch.PropagateDown | src/router/matching/prefilter.cc:281-294 | everything below a failed entry is marked, if that held of the failed entries marked before; nothing else is, and none of it matches; ends by unmarked entries, then stack size |
| FilterMatch.BitEntry | src/router/matching/prefilter.cc:226-295 | one entry of a bit list keeps "marked means settled", leaves nothing to be tested that its answer spares, and excuses all else that it marks |
| FilterMatch.DefaultEntry | src/router/matching/prefilter.cc:301-351 | one entry of the default list does so too; if it matches it reports itself |
| FilterMatch.ContainersSettled | src/router/matching/prefilter.cc:310-336 | positive propagation from the default list reports nothing new |
| FilterMatch.AboveSettled | src/router/matching/prefilter.cc:301-336 | nor does it spare a test: all containers of such a match are marked already |
| FilterMatch.ScanBits | src/router/matching/prefilter.cc:222-298 | every entry that shares a bit with the event ends up marked |
| FilterExact.AloneExact | src/router/matching/prefilter.cc:207-356 | without a graph the report is the scan, each matching subscription once |
| FilterExact.LiftedIff | src/router/matching/prefilter.cc:254-280 | which classes propagation finds is a matter of the subscriptions alone: some matching class strictly below is filed by an equality |
| FilterExact.GroupedClass | src/router/matching/prefilter.cc:207-356 | how often each class is reported with a graph; as often as by the scan exactly if e is nothing to it, or its first member has an equality, or no member has, or positive propagation finds it |
| FilterExact.GroupedExact | src/router/matching/prefilter.cc:207-356 | never more reports than the scan has, and as many exactly if that holds of all classes |
| FilterExact.KeptLed | src/router/matching/prefilter.cc:150-154 | every class is filed by its first member where containers keep equalities |
| FilterExact.PairFreeLed | src/router/matching/prefilter.cc:150-154 | and so where no subscription bounds a key from both sides |
| PreFilter.PutOn | src/router/matching/prefilter.cc:160-169 | an entry is put on its list once, before the first entry it contains if asked for, else at the end; containers stay first |
| PreFilter.PreFilter.constructor | src/router/matching/prefilter.cc:114-124 | an empty index is valid; the conditions on which the program exits are preconditions |
| PreFilter.PreFilter.Add | src/router/matching/prefilter.cc:132-184 | the filter of the entry is that of the variant, the entry is on the lists of its bits or on the default list and has its place there, no other list changes; the subscription points to it, it has joined its class, and the lists are still ordered |
| PreFilter.PreFilter.Remove | src/router/matching/prefilter.cc:186-205 | the lists are those of the entries left, in their order; their numbers fit a later match exactly if the newest entry went, and the index is valid exactly if that also was the first of its class |
| PreFilter.PreFilter.Match | src/router/matching/prefilter.cc:207-356 | the report against the scan for all variants, how often each class and each entry is in it, and exactly when they agree; each entry is tested once, none after one that spares it, and whatever is not tested is excused |
| Limits.LeaderLosesEquality | src/router/matching/prefilter.cc:301-309 | 5 <= a <= 5 added before a = 5: with every variant a = 5 is reported once, and the scan has both |
| Wire.Split | src/router/matching/cbr.cc:14-30 | the character loop finds the words (`Wire.WordsExact`) |
| Wire.WordsExact | src/router/matching/cbr.cc:14-30 | the words of a text are the ones it is laid out from with blanks and tabs between and around them, for any text |
| Wire.SplitSpaced | src/router/matching/cbr.cc:14-30 | splitting words put together with blanks gives them back |
| Wire.AtoiExact | src/router/matching/cbr.cc:244 | after white space and a sign, digits are read as the number they stand for, up to the first other character; without digits the result is 0 |
| Wire.NumberParts | src/router/matching/cbr.cc:244 | every text has the form of which that is said |
| Wire.DecimalExact | src/user-library/src/scbr_api.cpp:125 | a number is printed as the one row of digits without leading zeros that stands for it |
| Wire.PrintedExact | src/user-library/src/scbr_api.cpp:125 | an integral value is printed as that, a minus before it if it is negative, a point and six zeros |
| Wire.SignExact | src/router/matching/cbr.cc:225-238 | each of the six signs is read as its comparison, and any other token as none |
| Wire.AtoiPrinted | src/router/matching/cbr.cc:244 | reading a printed number gives it back |
| Headers.ParseSub | src/router/matching/cbr.cc:215-249 | the loop over groups of four tokens, with the accesses the source leaves unchecked (`Headers.SubTokensRead` says what is read) |
| Headers.ParsePub | src/router/matching/cbr.cc:280-295 | the loop over groups of three tokens (`Headers.PubTokensRead` says what is read) |
| Headers.SubDefined | src/router/matching/cbr.cc:218-245 | all token accesses are in bounds and all numbers fit exactly if every group is ignored or complete |
| Headers.PubDefined | src/router/matching/cbr.cc:283-291 | the same for publications |
| Headers.SubRanges | src/router/matching/cbr.cc:218-245 | on every key, what is read is the predicates of the complete groups on that key, in their order and as often as they come |
| Headers.SubTokensRead | src/router/matching/cbr.cc:215-249 | the tokens of any predicates, their constants in any texts read as these, are read as the predicates, inserted in their order |
| Headers.InsertAllRange | src/router/matching/subscription.hh:18-20 | inserting in order sorts by key and keeps the predicates of each key as they come |
| Headers.IntegerSub | src/client-samples/prod_cons_data/s1k:1 | so is a line with integers as constants, as in the workload files |
| Headers.PubValues | src/router/matching/cbr.cc:283-291 | on every key the value of the last complete group on it is read, and ignored groups change nothing |
| Headers.PubTokensRead | src/router/matching/cbr.cc:280-295 | the tokens of any attributes, their values in any texts read as these, are read as the attributes |
| Headers.IntegerPub | src/router/matching/cbr.cc:291 | so is a line with integers as values |
| Headers.EventLast | src/router/matching/event.hh:15-17 | of a repeated key the last value counts |
| Headers.PrintSub | src/user-library/src/scbr_api.cpp:147-160 | the loop prints the header |
| Headers.PrintPub | src/user-library/src/scbr_api.cpp:94-98 | the loop prints the header |
| Headers.SubRoundTrip | src/user-library/src/scbr_api.cpp:149-160 | a printed subscription with a predicate is read back as it was; without one it is rejected |
| Headers.PubRoundTrip | src/user-library/src/scbr_api.cpp:95-98 | a printed publication with an attribute is read back as it was; without one it is rejected |
| Headers.EventHolds | src/router/matching/event.hh:15-17 | the event read holds exactly the printed attributes |
| Forwarding.BuildLists | src/router/forwarding/trusted/CBR_Enclave_Filter.cpp:142-147 | the loop builds the list of names and the list of hashes |
| Forwarding.CString | src/router/forwarding/trusted/CBR_Enclave_Filter.cpp:148 | of a string passed as a C string what comes before its first NUL is left |
| Forwarding.StrTok | src/router/glue/pubsubco.cpp:92-102 | strtok finds the next token between spaces |
| Forwarding.Piece | src/router/glue/pubsubco.cpp:99 | 32 characters, or what is left |
| Forwarding.Forward | src/router/glue/pubsubco.cpp:88-104 | the i-th token is sent the i-th hash and the payload; past the hashes it throws |
| Forwarding.ForwardExact | src/router/glue/pubsubco.cpp:88-104 | taking the two strings apart gives every recipient its own hash exactly if no name holds a NUL |
| Router.NameIsToken | src/router/matching/cbr.cc:217 | a name read from a header is not empty and holds no space |
| Router.Enclave.AddEvent | src/router/forwarding/trusted/CBR_Enclave_Filter.cpp:91-156 | what one header does to the stored subscriptions and what is notified |
| Broker.PubSubCo.EnclaveMatching | src/router/glue/pubsubco.cpp:59-85 | one message: what is stored; exactly the accepting subscriptions are sent it, each with its own hash, if and only if none of their names holds a NUL; no answer exactly if reading the header is undefined |
| Broker.Run | src/router/forwarding/trusted/CBR_Enclave_Filter.cpp:123-155 | in every run, up to the first header whose reading is undefined, every publication is answered with exactly the subscriptions before it that accept it, if and only if none of their names holds a NUL |
| Broker.ClientsWellBehaved | src/user-library/src/scbr_api.cpp:123-133 | with one predicate per key, of the comparisons the library offers, containment is a sound preorder and no key is bounded from both sides |
| Broker.ClientsExact | src/user-library/src/scbr_api.cpp:123-133 | of client subscriptions containment is found if and only if it is there, over the reals |
| Broker.ClientOrderly | src/user-library/src/scbr_api.cpp:147-160 | whatever a client prints can be read, and means what the client meant |
| Broker.RunClients | src/router/glue/pubsubco.cpp:59-104 | in every run of client requests each publication is answered with exactly the subscriptions requested before it that accept it |
| Broker.FilterClients | src/router/matching/prefilter.cc:207-356 | over a graph of client subscriptions every variant reports as many of each class as the scan |

## Left out

- PreFilter.PreFilter.Match: histories without removals only, because `remove` does not renumber entries and leaves removed entries in the lists of duplicates (`PreFilter.PreFilter.Remove` says after which removals the index is still valid). The order of the reports is not described.
- PreFilter.PreFilter.Remove: requires that the pointer of the subscription is to an entry of the index. The source never clears that pointer (`src/router/matching/prefilter.cc:186-205`), so removing the same subscription twice uses the deleted entry, which is outside this model, as is the deletion itself.
- Graph.Graph.Match: writes to the list of matches only; the caller's option to pass no list is not modelled.
- Runs.Replay: a remove of a subscription that the caller does not hold while an equivalent one is stored takes a member away from that class; such runs are excluded.
- Graph.Graph.Destroy: for graphs of such a family as `Graph.Graph.Add` needs; `Destruction.DestroyExact` says what happens for any other edges.
- Graph.Graph.Add: does not describe the lists of a graph whose subscriptions come from no family on which containment is a preorder.
- Router.Enclave.AddEvent: for subscriptions of a family on which containment is a sound preorder; outside of one the graph can miss matches, as `Limits.ContaineeMissed` shows. A header whose tokens run out or whose numbers do not fit is undefined in the source; the model reports `Undefined` and changes nothing. The 512-byte buffer of the decryption is part of the arbitrary decryption function.
- Broker.PubSubCo.EnclaveMatching: for subscriptions of such a family only, as for `Router.Enclave.AddEvent`.
- Broker.Run: for subscriptions of such a family only; nothing is said of a run after a header whose reading is undefined.
- Destruction.Memory.Clear: the lists of the nodes are kept in an explicit memory, from which freed nodes disappear, and not in the nodes themselves; `Graph.Graph.Destroy` fills it from the graph.
- Counter.SmartCounter.Add: over the reals, without rounding.
- Subscriptions.Subscription.Matches: a stored subscription has its name, hash and predicates fixed from the start; `add` is modelled where headers are parsed.
- `test_stats_` and `match_stats_` of graph and pre-filter (a match of an empty graph divides by zero there), the per-entry counters `matches_` and `tests_` of the pre-filter, and `PreFilter::stats`.
- 32-bit overflow of `next_id_`, `size_`, `count_` and the other counters.
- The bits of MurmurHash2: any function of a value and a seed.
- CONTAINS and STARTS_WITH, beyond both operations rejecting them.
- AES, SHA-256 and Base64: decryption is any function that may fail, a hash any 32 bytes. String-valued attributes rest on Base64.
- `PubSubCo::open_matching`, the `Message` format, `Publication::deserialize`, sockets, polling, logging, program options, printing and `dump_stats`.
