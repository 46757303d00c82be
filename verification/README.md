# Blame engine and trace recorder: verification model

Agent Detective records the execution of a multi-agent system as a graph of runs and works out where its quality
broke. This project models the two parts that decide what a report says and proves what they promise.

**The blame engine** is a pure analysis of a graph that may contain cycles:

1. The graph is condensed into strongly connected components, ordered by a keyed Kahn loop (`Condense`, `Encoding`).
2. Origins of a fault are sought in two lattices that shadow separately, judged content and deterministic checks,
   and merged (`CutPoint`, `Localize`, `Origins`, `CandidateFacts`, `Repeats`). Cycles that ran too often are
   detected beside them (`Loops`).
3. A first-match-wins cascade names culprits and emits typed defects that point, with polarity, into a growing list
   of findings (`Evidence`, `FindingIndex`, `Assemble`, `Emit`, `Cascade`, `Gaps`).
4. The verdict is read off those defects, facts reported in two versions are reconciled, and a validation refuses
   any defect without support (`Derive`, `Reconcile`, `Support`, `Soundness`, `Verdicts`, `Blame`, `Guarantees`).
5. A dynamic program picks the one propagation path shown (`Propagation`); confidence, its attribution, the headline and
   the shape of the graph qualify the claim (`Confidence`, `Attribution`, `Headlines`, `Topology`).

What the engine publishes is then told again in terms of runs, edges, scores, flags, the clock and the settings rather
than of the functions that compute it (`RunRecord` holds that vocabulary): super-nodes, their order and the verification gaps
(`Readings`); which nodes are origins, against what their fall is measured and in which order they come (`Measured`,
`Named`, `Declines`, `Listing`); where the path leads (`Targets`); every finding and what every defect cites (`Facts`,
`Claims`, `Defects`); every number (`Numbers`); when the verdict escalates or verifiers take its place (`Reports`); and
the culprits and verdict of each rung of the cascade, in its order (`Ladder`).

The culprits, gaps, path, findings and verdict reported do not depend on how the exporter listed nodes and edges
(`Independence`, `SameBlame`, `SameFindings`). `Witnesses` and `BorrowedRun` carry small inputs for which a claim fails
through the whole engine (`SmallRuns` holds what they share).

**The trace recorder** is a mutable state machine of runs, spans, retry loops, fan-ins and declared flows (`Tracing`,
`FanIn`, `TraceShape`); `RecordedRuns` drives it through small recordings. `LoopChain` is the findings export's own
cycle search.

Scores are reals, an unknown score is an absent option, run ids are distinct and ordered. Loops and updated objects of
the source are methods and classes here, each proved against a specification function or predicate; the theorems are
lemmas about those specifications. Order that the source leaves to a set, a heap or a component numbering is left
open in the model and proved not to matter.

## Where the code and its claims part

The code is modelled as it is. These are the places where a claim of its comments holds only under a condition, with
the member that states the condition for all inputs and the one that carries an input for which it fails.

- *No defect without support.* Validation raises exactly when the row taken is starved and no verifier takes its
  place (`Blame.FindBlame`, `Soundness.RowValidIff`). A row is starved when an origin of the hard channel has no
  measured fall, no evidence of its own and no live bad verdict while a content defect is owed
  (`Witnesses.CircleRaises`); when the lone-candidate drill lands on such a member (`Guarantees.UnguardedDrillRaises`);
  or when the terminal verdict behind an unlocalized or composition defect is bad, checkable and stale
  (`Witnesses.SignalAloneUnplaced`). It never happens without cycles once a stale verdict is uncheckable
  (`Guarantees.NeverUnsupported`).
- *Erosion blames the second node of a chain.* Settings with no minimum edge count and no positive drop threshold are
  accepted and record chains of one node; `Origins.SteadyIff` says when the analysis then fails, and
  `Witnesses.StandstillRaises` is a healthy run on which it does.
- *One verdict per row.* A contract breach alone on a measured run is emitted as a cut point and projects to
  degraded_recovered; an origin known only by a signal is emitted as terminal-unlocalized and projects to
  composition_failure (`Derive.CutPointVerdictIs`, `Derive.UnlocalizedVerdict`; `Witnesses.BreachAloneRecovers`,
  `Witnesses.SignalAloneUnplaced`).
- *Independent origins.* Two healthy heads that feed one eroding node make two candidates at one super-node
  (`Repeats.RepeatedOrigin`), and the report then repeats one culprit (`Repeats.RepeatedCulprit`,
  `Repeats.RepeatedBesideLoop`, `Witnesses.FeedersRepeat`).
- *The headline belongs to a defect.* A signal that claims origination without a contract breach lifts the headline
  above every defect of its origin (`Attribution.HeadlineIsCarried`, `Attribution.SignalOutrunsDefects`,
  `Witnesses.LoudOutruns`).
- *No drop the evidence does not contain.* A cycle member named without a scored predecessor keeps the fall of its exit
  in its confidence (`Attribution.BorrowedFall`, `BorrowedRun.LenderBorrows`).
- *Only two verdicts keep full confidence.* A recovered one keeps it too; `Headlines.NearCertainIff` says which rows can
  be near-certain (`Headlines.RecoveredIsCertain`).
- *The tie names the culprit.* Merging the two channels drops the drill hint but keeps the tie
  (`Attribution.TieHoldsCulprit`, `Witnesses.CircleRaises`), and a tie can vanish by rounding alone: six origins with a
  sixth each, `Confidence.SixthsVanish`.
- *No loop, no cycle.* Spans handed over as sources keep every edge forward, but a bare name is resolved in the finished
  run and can name a later span, or the reader itself under its final number (`TraceShape.NoLoopShipsNoCycle`,
  `RecordedRuns.NamesLaterStep`, `RecordedRuns.NamesItself`).
- *An arm never hangs under another arm.* Its parent is never an arm, but can be a span opened inside one
  (`TraceShape.ArmUnderArm`, `RecordedRuns.ArmInsideArm`).
- *A finish ends the agent's attempt.* It ends the latest open attempt whose name begins like one of the agent's, which
  can be another agent's (`Tracing.EndsItsOwn`, `RecordedRuns.EndsAnotherAgent`).
- *A merge input is complete.* One output that is a list reads like several outputs (`FanIn.NothingOverwritten`).
- *Distinct names.* Numbering separates every group of same-named spans, but an agent can be called like a number
  another one was given (`TraceShape.CollisionIsSpelledOut`, `RecordedRuns.SpelledOutNumber`); flows to it are then
  dropped, never misdirected, and with them the edge that closes a loop (`TraceShape.ReturnShips`).

## Model

| member | source | states |
|---|---|---|
| Graphs.ReachableFrom | packages/blame_engine/blame_engine/path.py:117 | the descendants the engine asks of the graph library, together with the start: exactly what some walk reaches |
| Graphs.AncestorsOf | packages/blame_engine/blame_engine/cutpoint.py:236 | the ancestors of a node: every other node with a walk into it, and nothing else |
| Condense.SortRuns | packages/blame_engine/blame_engine/condense.py:53 | the members of a component in strictly rising chronological key, all of them and no others |
| Condense.SccListing | packages/blame_engine/blame_engine/condense.py:48-52 | a numbering of the classes of mutual reachability exists for every graph and lists each class once |
| Condense.Quotient | packages/blame_engine/blame_engine/condense.py:48 | the quotient has one node per class and an edge exactly where some edge crosses between two classes |
| Condense.QuotientAcyclic | packages/blame_engine/blame_engine/condense.py:48-88 | the quotient by mutual reachability has no cycle, for every graph |
| Condense.MakeSupers | packages/blame_engine/blame_engine/condense.py:50-72 | one super-node per class, its exit the last member to finish, its score the exit's and its lowest score the least known among the members; every run located in the class it belongs to |
| Condense.InDegrees | packages/blame_engine/blame_engine/condense.py:76-80 | the counts start as the numbers of predecessors and the heap holds exactly the nodes without one |
| Condense.Release | packages/blame_engine/blame_engine/condense.py:83-88 | after a pop every count is again the number of predecessors not yet emitted and the heap holds exactly the ready nodes |
| Condense.KahnOrder | packages/blame_engine/blame_engine/condense.py:74-88 | every position holds the least-key node among those whose predecessors all stand before it, and no node is left over |
| Condense.KahnCovers | packages/blame_engine/blame_engine/condense.py:82-88 | such an order lists every super-node exactly once, with all edges leading forward |
| Condense.KahnUnique | packages/blame_engine/blame_engine/condense.py:74-88 | two such orders of one graph are equal: the tie-break leaves nothing to chance |
| Condense.Condense | packages/blame_engine/blame_engine/condense.py:46-99 | the whole condensation: classes, quotient, super-nodes, location map, keyed order, sources and sinks |
| Condense.CondensedIsWellFormed | packages/blame_engine/blame_engine/condense.py:46-99 | what every later stage relies on: partition by mutual reachability, acyclic quotient, forward order, exits and end lists as promised |
| Encoding.CondensationIndependent | packages/blame_engine/blame_engine/condense.py:74-88 | permuting or repeating the node and edge lists and renumbering the components changes only the ids: position by position the same super-nodes and the same edges |
| Independence.CandidatesIndependent | packages/blame_engine/blame_engine/cutpoint.py:140-434 | two encodings of one run, each condensed under its own numbering, have the same chains, fail together, and otherwise give candidates equal in every field but the super-node id, in the same order |
| Independence.PropagationIndependent | packages/blame_engine/blame_engine/path.py:65-130 | and the same propagation path from any culprit |
| SameBlame.BlameIndependent | packages/blame_engine/blame_engine/blame.py:271-1454 | two encodings of one run give the same anomalies, culprits, gaps and projected verdict, and validation stops one exactly when it stops the other |
| SameBlame.ReportsAgree | packages/blame_engine/blame_engine/blame.py:271-1760 | two published reports on one run, whatever facts each was supplied with, agree in culprits, gaps and path, and in the verdict up to its escalation over those facts |
| SameFindings.PayloadsAgree | packages/blame_engine/blame_engine/blame.py:271-1760 | supplied with the same facts, they also carry the same findings in the same order and the same verdict |
| Propagation.LeastPathUnique | packages/blame_engine/blame_engine/path.py:65-84 | at most one path is strictly below every other by hops, then by step keys |
| Propagation.PathTrichotomy | packages/blame_engine/blame_engine/path.py:51-62 | two different paths from one start never tie, so the order of the predecessors cannot matter |
| Propagation.GreedyIsOptimal | packages/blame_engine/blame_engine/path.py:81-84 | extending the best recorded option at each node gives the least path to that node |
| Propagation.FillTable | packages/blame_engine/blame_engine/path.py:86-104 | after the pass the table holds exactly the reachable nodes, each with the hops and keys of its least path, linked to its predecessor |
| Propagation.WalkBack | packages/blame_engine/blame_engine/path.py:107-110 | the walk back along predecessors ends at the start and reads off the recorded path |
| Propagation.BestPath | packages/blame_engine/blame_engine/path.py:65-110 | the least path when the target is reachable; the one-node fallback only when it is not |
| Propagation.SinkReachable | packages/blame_engine/blame_engine/path.py:117-120 | from every super-node some sink is reachable, so the fallback without a sink is dead code |
| Propagation.TargetLocated | packages/blame_engine/blame_engine/path.py:22-45 | the chosen target run always lies in one of the candidate super-nodes |
| Propagation.PropagationPath | packages/blame_engine/blame_engine/path.py:113-130 | empty for an unknown run, else the members along the least path to the end that the rows on its target describe |
| Propagation.PropagationShape | packages/blame_engine/blame_engine/path.py:113-130 | the path opens with the culprit's whole super-node, follows quotient edges, ends with a sink's and repeats no run |
| Localize.HasUnknownUpstream | packages/blame_engine/blame_engine/cutpoint.py:231-237 | true exactly when some ancestor is unscored and neither a structural root nor an observed empty result |
| Localize.ScanEdges | packages/blame_engine/blame_engine/cutpoint.py:244-359 | one pass sorts every super-node into drop origin, spreading boundary, recovered boundary or none, and lists the unscored |
| Localize.Judge | packages/blame_engine/blame_engine/cutpoint.py:251-353 | the candidate of a scored super-node, with base, drop, recovery, assumed baseline and unmeasured inputs |
| Localize.FindNext | packages/blame_engine/blame_engine/cutpoint.py:161-176 | the loop over the successors returns the lowest eroding one, the earliest among equals |
| Localize.WalkDown | packages/blame_engine/blame_engine/cutpoint.py:158-180 | the greedy walk terminates and equals the recursive descent |
| Localize.FindChains | packages/blame_engine/blame_engine/cutpoint.py:149-192 | the recorded chains, with heads inside earlier chains skipped |
| Localize.BestMember | packages/blame_engine/blame_engine/cutpoint.py:475-530 | the lowest qualifying member of a cycle, the earliest among equals, with everything tied to it in order |
| Localize.FindInside | packages/blame_engine/blame_engine/cutpoint.py:472-556 | the origin inside a multi-member component, if some member qualifies |
| Localize.FindInternal | packages/blame_engine/blame_engine/cutpoint.py:437-557 | those origins for every component that did not qualify as a whole |
| Localize.AncestorRewrites | packages/blame_engine/blame_engine/cutpoint.py:614-621 | exactly the key and value pairs some ancestor member rewrote to |
| Localize.IsFresh | packages/blame_engine/blame_engine/cutpoint.py:580-625 | fresh exactly when some violation has neither its input nor its output value already in circulation |
| Localize.FindHardOrigins | packages/blame_engine/blame_engine/cutpoint.py:628-716 | the primary actors in order, or the first suppressed one when there is no other |
| Localize.DropShadowed | packages/blame_engine/blame_engine/cutpoint.py:413-418 | the origins without an origin among their ancestors, in order |
| Localize.MergeChannels | packages/blame_engine/blame_engine/cutpoint.py:719-740 | content origins first, marked as both where the hard channel names the same run, then the rest of the hard channel |
| Origins.ErodeDescends | packages/blame_engine/blame_engine/cutpoint.py:158-180 | every greedy walk is a path of the quotient, each step the most degraded eroding successor, that cannot be extended |
| Origins.FallsTelescope | packages/blame_engine/blame_engine/cutpoint.py:181 | the falls along a chain add up to head minus tail |
| Origins.ChainsAreErosions | packages/blame_engine/blame_engine/cutpoint.py:151-192 | every recorded chain starts healthy, falls by at least the step minimum per edge, cannot be extended, and its drop is the sum of its falls and at least the threshold |
| Origins.ChainHeadsAreNew | packages/blame_engine/blame_engine/cutpoint.py:151-183 | no recorded chain starts on an earlier one |
| Origins.HeadsApart | packages/blame_engine/blame_engine/cutpoint.py:155-191 | in fact the head of a recorded chain lies on no other recorded chain, earlier or later |
| Origins.NoErosionMissed | packages/blame_engine/blame_engine/cutpoint.py:151-183 | every healthy head of a qualifying decline is recorded or lies inside a recorded chain |
| Origins.SteadyIff | packages/blame_engine/blame_engine/cutpoint.py:379-388 | the look at the second node of a chain fails exactly when nothing broke at one step, the settings accept a decline of no edge and no fall, and some healthy node on no longer chain has no eroding successor |
| Origins.ShadowingIsExact | packages/blame_engine/blame_engine/cutpoint.py:408-418 | survivors are pairwise unrelated by ancestry, and an origin is dropped exactly when a surviving origin is among its ancestors |
| Origins.HardFaultIsNamed | packages/blame_engine/blame_engine/cutpoint.py:646-716 | a hard fault at an unflawed exit always leaves an origin in the deterministic channel |
| Origins.SuppressedHasOrigin | packages/blame_engine/blame_engine/cutpoint.py:580-625 | without cycles and excused nodes every suppressed rewriter has a reported origin among its ancestors |
| Origins.FallbackNeverFires | packages/blame_engine/blame_engine/cutpoint.py:691-716 | under the same conditions the fallback with an unknown upstream never fires |
| Origins.CandidatesFromChannels | packages/blame_engine/blame_engine/cutpoint.py:408-434 | every candidate is a content origin, a hard origin, or a content origin at a node that is also a hard one |
| Origins.PickOrigins | packages/blame_engine/blame_engine/cutpoint.py:361-406 | sharp breaks and breaks inside cycles, else erosion, else recovered boundaries; nothing exactly when erosion is asked about a one-node chain |
| Origins.BlameErosion | packages/blame_engine/blame_engine/cutpoint.py:384-404 | one origin per chain at its first eroding node, unless that node was excused; nothing exactly when some chain has no second node |
| Origins.Analyze | packages/blame_engine/blame_engine/cutpoint.py:195-434 | the whole analysis under any settings: both channels, shadowed and merged, with the unscored nodes and the chains, and the failure exactly in the case above |
| CandidateFacts.SharedOrigin | packages/blame_engine/blame_engine/cutpoint.py:361-406 | two content origins at one super-node are equal, or both are erosions entering there |
| CandidateFacts.SameSuperAgrees | packages/blame_engine/blame_engine/cutpoint.py:719-740 | candidates at one super-node agree in run, channel, drill hint and presence of a fall; two different ones both carry a fall |
| CandidateFacts.RepeatsAreContent | packages/blame_engine/blame_engine/cutpoint.py:384-404 | only the content channel can name one super-node twice |
| Repeats.RepeatedOrigin | packages/blame_engine/blame_engine/cutpoint.py:140-192 | the candidates name a super-node twice exactly when nothing broke at one step, two healthy heads that lie on no other chain start a qualifying decline over it, it did not blame its input and no origin lies upstream |
| Repeats.RepeatedCulprit | packages/blame_engine/blame_engine/blame.py:1050-1075 | with several origins the report repeats a culprit exactly when a super-node is named twice; multi_culprit needs two super-nodes |
| Repeats.RepeatedBesideLoop | packages/blame_engine/blame_engine/blame.py:634-725 | beside a runaway loop the report repeats a culprit exactly when a super-node outside the loop's cycle is named twice |
| CandidateFacts.CandidateStory | packages/blame_engine/blame_engine/cutpoint.py:361-434 | every candidate carries the evidence of its channel: a scored exit with a fall or a low score, a member that broke, or a hard fault |
| CandidateFacts.UnknownIsNoOrigin | packages/blame_engine/blame_engine/cutpoint.py:247-249 | an unscored exit is a candidate only for a hard fault or for a member of its cycle that broke, and never carries a fall |
| CandidateFacts.RecoveryIsMeasured | packages/blame_engine/blame_engine/blame.py:306-312 | a recovered candidate implies that some run was scored, so the unmeasured stamp cannot apply |
| Evidence.OrderedKeeps | packages/blame_engine/blame_engine/assemble.py:483-489 | references come out ascending, none invented, one per index, and a classification is lost only to an earlier one |
| Evidence.ConsistentOrdered | packages/blame_engine/blame_engine/assemble.py:483-489 | references that never classify one index in two ways all survive |
| Assemble.Store.constructor | packages/blame_engine/blame_engine/assemble.py:67-88 | an empty index |
| Assemble.Store.AddNodes | packages/blame_engine/blame_engine/assemble.py:118-184 | appends exactly the scores, content flags and flawed-input claims, node by node, and indexes each under its run |
| Assemble.Store.AddDrops | packages/blame_engine/blame_engine/assemble.py:186-217 | appends one fall per run outside the cycles, the first candidate's, and indexes exactly those runs |
| Assemble.Store.AddBreaches | packages/blame_engine/blame_engine/assemble.py:219-250 | appends every breach of every node and indexes them in the order recorded |
| Assemble.Store.AddSignals | packages/blame_engine/blame_engine/assemble.py:252-278 | appends every deterministic signal and indexes it under its run |
| Assemble.Store.AddTerminal | packages/blame_engine/blame_engine/assemble.py:280-355 | appends the content verdict, the form verdict when there is one and the detection gap when the form is bad |
| Assemble.Store.AddAnomalies | packages/blame_engine/blame_engine/assemble.py:357-375 | appends one fact per anomaly; every member of a cycle cites an anomaly of that cycle |
| Assemble.Store.EnsureDrop | packages/blame_engine/blame_engine/assemble.py:412-439 | records the fall of a run once, and only when one was measured |
| Assemble.Store.AddFact | packages/blame_engine/blame_engine/assemble.py:446-453 | appends one supplied fact; the first verification of a key is the one cited |
| Assemble.Store.AddExtra | packages/blame_engine/blame_engine/assemble.py:442-453 | appends all supplied facts in order and indexes the verified keys |
| Assemble.AllCitedContents | packages/blame_engine/blame_engine/assemble.py:449-453 | a key is cited exactly when some supplied fact verified it, and an earlier citation is never replaced |
| Assemble.Store.AddVerdicts | packages/blame_engine/blame_engine/assemble.py:456-477 | appends one verdict per gap, indexed under its own verifier |
| Assemble.BuildFindings | packages/blame_engine/blame_engine/assemble.py:91-409 | the findings are exactly those lists, in that order, and every look-up points at the finding it claims |
| Emit.EmitMulti | packages/blame_engine/blame_engine/assemble.py:687-726 | each culprit gets the defects its own channel shows, in order |
| Emit.FindAnchor | packages/blame_engine/blame_engine/assemble.py:915-930 | the first breach, in recording order, that explains the shipped form, or none at all |
| Emit.EmitForm | packages/blame_engine/blame_engine/assemble.py:900-951 | no form defect unless the form was checkable and bad; then one, localized at the anchor or left to the design |
| Support.ContentSupported | packages/blame_engine/blame_engine/assemble.py:520-545 | the content references of a run hold a supporting one exactly when a fall is on record, its own record speaks against it, or a live bad terminal verdict does |
| Support.ContentDefectValid | packages/blame_engine/blame_engine/assemble.py:627-648 | a content defect passes validation exactly when its run is so backed |
| Support.ContractDefectValid | packages/blame_engine/blame_engine/assemble.py:552-624 | a contract defect over a breach always passes, is deterministic, and proves any propagation it claims |
| Support.ExternalValid | packages/blame_engine/blame_engine/assemble.py:651-669 | a source that admits a flawed input always supports the external defect |
| Support.LoopValid | packages/blame_engine/blame_engine/assemble.py:672-684 | a loop defect at a member of an anomalous cycle always passes |
| Support.OriginValid | packages/blame_engine/blame_engine/assemble.py:792-848 | a localized origin passes exactly when it owes no content defect or that defect is backed |
| Support.MultiValid | packages/blame_engine/blame_engine/assemble.py:687-726 | several origins pass exactly when each of them does |
| Support.VerificationValid | packages/blame_engine/blame_engine/assemble.py:729-743 | verification defects over recorded verdicts always pass |
| Support.CompositionValid | packages/blame_engine/blame_engine/assemble.py:746-759 | the orchestration-layer defect passes exactly over a live bad verdict |
| Support.UnlocalizedValid | packages/blame_engine/blame_engine/assemble.py:762-789 | so does the defect observed at the terminal without an origin |
| Support.RecoveredValid | packages/blame_engine/blame_engine/assemble.py:851-897 | a near-miss passes exactly when it has a contract breach or its content is backed |
| Support.FormValid | packages/blame_engine/blame_engine/assemble.py:900-951 | the form defect always passes, with or without an anchor |
| Derive.LoopVerdict | packages/blame_engine/blame_engine/derive.py:60-62 | the loop emitter projects to loop_detected |
| Derive.ExternalVerdict | packages/blame_engine/blame_engine/derive.py:49-51 | the external emitter projects to root_cause_external |
| Derive.CompositionVerdict | packages/blame_engine/blame_engine/derive.py:103-106 | the composition emitter projects to composition_failure |
| Derive.VerificationVerdict | packages/blame_engine/blame_engine/derive.py:108-110 | the verification emitter projects to verification_gap |
| Derive.CutPointVerdictIs | packages/blame_engine/blame_engine/derive.py:73-101 | the cut-point emitter projects to cut_point, except that a contract breach alone on a measured run gives degraded_recovered |
| Derive.RecoveredVerdict | packages/blame_engine/blame_engine/derive.py:77-101 | the near-miss emitter projects to degraded_recovered, except over a contract breach on an unmeasured run |
| Derive.UnlocalizedVerdict | packages/blame_engine/blame_engine/derive.py:82-106 | the terminal-unlocalized emitter keeps its verdict only over a contract breach; a signal-only origin gives composition_failure |
| Derive.MultiRuns | packages/blame_engine/blame_engine/assemble.py:687-726 | the emitter of several origins speaks about those runs only, and about every one of them |
| Derive.SeveralVerdict | packages/blame_engine/blame_engine/derive.py:53-58 | two distinct localized runs project to multi_culprit |
| Reconcile.GroupByKey | packages/blame_engine/blame_engine/derive.py:246-250 | the dictionary groups the positions of each measured fact key, keys in order of first appearance |
| Reconcile.CollectValues | packages/blame_engine/blame_engine/derive.py:254 | the values of a group, all and only |
| Reconcile.Reconcile | packages/blame_engine/blame_engine/derive.py:237-273 | the loop emits the divergences of the specification |
| Reconcile.ReconcileIsExact | packages/blame_engine/blame_engine/derive.py:237-273 | one divergence exactly for each key carried in two or more values, citing all and only the findings that carry it, its kind read off the family of the key |
| Reconcile.ReconcileIsIdempotent | packages/blame_engine/blame_engine/derive.py:237-273 | with its own output appended, the pass finds the same divergences |
| Reconcile.AttachKeepsValidity | packages/blame_engine/blame_engine/assemble.py:1003-1012 | attaching divergences neither helps nor hurts validation and keeps references in range |
| Reconcile.Finalize | packages/blame_engine/blame_engine/assemble.py:987-1016 | a payload exactly when every defect is valid; each divergence attached to exactly the defects whose evidence it touches |
| Loops.FindBusiest | packages/blame_engine/blame_engine/loops.py:55 | the agent with the most rounds, the later name among equals |
| Loops.BusiestUnique | packages/blame_engine/blame_engine/loops.py:55 | there is only one |
| Loops.ArrangedIs | packages/blame_engine/blame_engine/loops.py:56 | the rounds come out sorted by attempt number, a permutation of what went in |
| Loops.Rounds | packages/blame_engine/blame_engine/loops.py:39-57 | the busiest agent's attempts, or the size of the cycle when nothing identifies a loop |
| Loops.RoundsInside | packages/blame_engine/blame_engine/loops.py:39-57 | the repeating runs lie in the cycle and belong to one agent |
| Loops.RoundsUnique | packages/blame_engine/blame_engine/loops.py:39-57 | the rounds do not depend on the enumeration order |
| Loops.FindMostCommon | packages/blame_engine/blame_engine/loops.py:34-36 | the most common agent name, the earlier among equals |
| Loops.JudgeCycle | packages/blame_engine/blame_engine/loops.py:72-95 | an anomaly only over the limit or, failing that, as a statistical outlier; otherwise benign |
| Loops.JudgementUnique | packages/blame_engine/blame_engine/loops.py:72-95 | a cycle is anomalous or benign, never both, and has one finding at most |
| Loops.DetectAnomalies | packages/blame_engine/blame_engine/loops.py:69-96 | in topological order, one finding per anomalous cycle and none for the rest |
| Loops.AnomaliesUnique | packages/blame_engine/blame_engine/loops.py:69-96 | the anomalies of a graph are determined |
| Loops.AnomalyInside | packages/blame_engine/blame_engine/loops.py:86-95 | the runs an anomaly calls repeating are members of its cycle |
| Cascade.ChosenAnomaly | packages/blame_engine/blame_engine/blame.py:638-645 | the anomaly blamed is one of those found |
| Cascade.ResolveCulprit | packages/blame_engine/blame_engine/blame.py:514-564 | the culprit of one candidate and the fall recorded for it, with everything else in the index untouched |
| Cascade.ResolveAll | packages/blame_engine/blame_engine/blame.py:1054 | all candidates resolved in order, each over the index the earlier ones left |
| Cascade.EnactRow | packages/blame_engine/blame_engine/blame.py:592-1200 | for each cascade row its culprits, its defects and exactly the falls it records |
| Cascade.RowKeeps | packages/blame_engine/blame_engine/blame.py:592-1200 | no row does more to the index than append falls, and every look-up stays right |
| Gaps.FindGaps | packages/blame_engine/blame_engine/blame.py:1306-1387 | the two loops over the verifiers compute the specified gaps |
| Gaps.GapsAreRefuted | packages/blame_engine/blame_engine/blame.py:1308-1387 | a gap of each basis exists exactly for a verifier whose verdict the checkable terminal contradicts in that way |
| Gaps.GapsNeedGroundTruth | packages/blame_engine/blame_engine/blame.py:1306-1387 | no gap without a checkable terminal verdict, never two for one verifier, and only runs of the graph |
| Soundness.OriginStands | packages/blame_engine/blame_engine/blame.py:514-564 | a content origin, or one with a measured fall, resolves to a run with a recorded fall or evidence of its own |
| Soundness.OriginIff | packages/blame_engine/blame_engine/assemble.py:520-545 | among several origins each has support exactly when it is not a hard-channel origin with nothing measured, low, flagged or live against it |
| Soundness.ManyValid | packages/blame_engine/blame_engine/assemble.py:957-984 | the defects of several origins pass validation exactly when no origin is starved |
| Soundness.SingleIff | packages/blame_engine/blame_engine/blame.py:865-1049 | the lone-candidate drill has support exactly outside the starved drill |
| Soundness.NearMissBacked | packages/blame_engine/blame_engine/blame.py:736-800 | the near-miss row always has support, inside a cycle and outside |
| Soundness.RowFits | packages/blame_engine/blame_engine/blame.py:592-1200 | the row taken speaks about the candidates and anomalies of this analysis |
| Soundness.RowValidIff | packages/blame_engine/blame_engine/assemble.py:957-984 | whatever row is taken, for all inputs, what it emits passes validation exactly when the row is not starved |
| Verdicts.ManyVerdict | packages/blame_engine/blame_engine/blame.py:1050-1075 | several candidates project to multi_culprit exactly when they lie at two super-nodes, else to cut_point |
| Verdicts.NearMissVerdict | packages/blame_engine/blame_engine/blame.py:582-590 | stamping cannot flip the near-miss row |
| Verdicts.RowVerdictIs | packages/blame_engine/blame_engine/derive.py:33-112 | the verdict derived from what a row emits is that row's verdict, with the two exceptions named below |
| Verdicts.RowAgrees | packages/blame_engine/blame_engine/blame.py:592-1200 | no row emits a defect at a run it does not report |
| Verdicts.LoopAloneStaysInside | packages/blame_engine/blame_engine/blame.py:634-664 | with the loop the only fault all culprits lie in one cycle |
| Blame.StampedValid | packages/blame_engine/blame_engine/blame.py:582-590 | the stamp and later findings change nothing about support |
| Blame.PublishedVerdict | packages/blame_engine/blame_engine/derive.py:33-112 | form defects and attached divergences change no verdict |
| Blame.Settle | packages/blame_engine/blame_engine/blame.py:592-1454 | cascade, gaps and verification replacement: final culprits, defects and verdict, supported exactly outside the stated condition |
| Blame.FindBlame | packages/blame_engine/blame_engine/blame.py:271-1760 | for any input and settings, raises exactly in the starved, unreplaced case and in that of a chain without a second node; otherwise culprits, gaps, findings, defects and path are exactly the specified ones, all defects valid, every non-form defect at a reported culprit, and the verdict the projection of the published defects |
| Guarantees.NeverUnsupported | packages/blame_engine/blame_engine/assemble.py:957-984 | without cycles, and with stale verdicts uncheckable, no input makes the engine raise |
| Guarantees.DrilledMemberStands | packages/blame_engine/blame_engine/blame.py:528-550 | a member drilled to among several origins has a recorded fall or a score below the threshold |
| Guarantees.SeveralMeansDistinct | packages/blame_engine/blame_engine/blame.py:634-725 | multi_culprit implies two distinct reported culprits; without it several candidates report one culprit and a loop only runs of its own cycle |
| Guarantees.UnguardedDrillRaises | packages/blame_engine/blame_engine/blame.py:865-953 | a concrete two-run cycle on which the lone-candidate drill leaves the breached exit for a healthy member and validation raises |
| Witnesses.BreachAloneRecovers | packages/blame_engine/blame_engine/derive.py:77-101 | one healthy run that rewrote a parameter: emitted as a cut point, reported as degraded_recovered |
| Witnesses.RewriterReport | packages/blame_engine/blame_engine/blame.py:271-1760 | the engine on it publishes that run as culprit, as degraded_recovered, or as shipped_with_latent_defect exactly when a supplied fact is a propagated breach |
| Witnesses.SignalAloneUnplaced | packages/blame_engine/blame_engine/derive.py:82-106 | a failed check upstream of a bad deliverable: emitted as unlocalized, reported as composition_failure, and without support exactly when the verdict is stale yet checkable |
| Witnesses.FlaggedReport | packages/blame_engine/blame_engine/blame.py:271-1760 | the engine on it publishes composition_failure or raises |
| Witnesses.FeedersRepeat | packages/blame_engine/blame_engine/cutpoint.py:384-404 | two healthy entries over one eroding node: the culprits repeat, the verdict is cut_point, and it has support |
| Witnesses.FeedersReport | packages/blame_engine/blame_engine/blame.py:271-1760 | the engine on it publishes that report |
| Witnesses.CircleRaises | packages/blame_engine/blame_engine/blame.py:528-550 | a cycle left through an unscored rewriter, with a second origin beside it: an origin of both channels stands without evidence, and its tie does not hold the member the drill goes to |
| Witnesses.CircleReport | packages/blame_engine/blame_engine/assemble.py:957-984 | the engine on it raises |
| Witnesses.StandstillRaises | packages/blame_engine/blame_engine/cutpoint.py:384-386 | one healthy run, under settings that ask for no step and no fall: the analysis fails |
| Witnesses.StandstillReport | packages/blame_engine/blame_engine/cutpoint.py:384-386 | the engine on it raises that failure |
| Confidence.ComputeConfidence | packages/blame_engine/blame_engine/confidence.py:146-191 | the sequence of discounts equals the formula and stays in [0, 1] |
| Confidence.PenaltiesNeverRaise | packages/blame_engine/blame_engine/confidence.py:171-191 | no penalty raises attribution, a tie of k leaves each at most 1/k, an unknown ancestor at most the cap |
| Confidence.AttributionRises | packages/blame_engine/blame_engine/confidence.py:153-169 | attribution rises with the fall and with the inputs and falls with the score |
| Confidence.ChainPenaltyFalls | packages/blame_engine/blame_engine/confidence.py:128-143 | deeper chains are discounted no less and never below the full penalty, reached exactly from the full depth on |
| Confidence.TieHypotheses | packages/blame_engine/blame_engine/blame.py:1715-1745 | weights are non-negative and sum to exactly ten thousand ten-thousandths; the list is empty exactly when there is no tie, no attribution or no score, or the rounded shares exceed the whole |
| Confidence.TieFits | packages/blame_engine/blame_engine/blame.py:1722-1727 | the tie survives whenever half a unit per origin is to spare |
| Headlines.SumShares | packages/blame_engine/blame_engine/blame.py:1055-1060 | the shares of several origins, each drilled to its own numbers, add up as specified |
| Headlines.ComputeRow | packages/blame_engine/blame_engine/blame.py:592-1200 | the confidence each row earns, from the evidence of that row |
| Headlines.ComputeHeadline | packages/blame_engine/blame_engine/blame.py:1663-1677 | the published number: the row's or, where verifiers took its place, theirs, under both ceilings; escalation moves neither |
| Headlines.NearCertainIff | packages/blame_engine/blame_engine/blame.py:592-1677 | it exceeds 0.8 exactly for a loop that is the only fault, a near-miss, a lone origin or one origin named several times, each on evidence stated over scores, hard checks and channels; no other row can |
| Headlines.NearCertainNeeds | packages/blame_engine/blame_engine/confidence.py:146-191 | unless the fault was seen to begin, a lone origin above 0.8 has a measured healthy input, a fall of more than 0.3 to less than two thirds of the bar, no tie and every channel; one origin named several times needs settings that hardly discount it |
| Headlines.RecoveredIsCertain | packages/blame_engine/blame_engine/confidence.py:52-69 | a healthy run that rewrote a parameter is published as degraded_recovered at 0.95, although only two other verdicts are said to keep full confidence |
| Attribution.EvidenceIsTheMembers | packages/blame_engine/blame_engine/blame.py:875-895 | the numbers behind a drilled culprit's confidence are that member's own, measured against its best scored predecessor |
| Attribution.BorrowedFall | packages/blame_engine/blame_engine/blame.py:920-942 | the confidence counts a fall although nothing before the named member was scored, exactly when the exit broke as a whole against a base while another run of its cycle is the worst scored member and has no scored predecessor |
| BorrowedRun.LenderBorrows | packages/blame_engine/blame_engine/blame.py:920-942 | a healthy producer before a cycle left at 0.4 with an unscored run before its worst member at 0.2: that member is named with a fall of 0.5 from 0.9 |
| BorrowedRun.LenderReport | packages/blame_engine/blame_engine/blame.py:271-1760 | the engine on it publishes that member as cut_point |
| Attribution.TieHoldsCulprit | packages/blame_engine/blame_engine/blame.py:873 | the reported tie holds the named culprit, except for a merged origin whose worst member did not itself break |
| Attribution.HeadlineIsCarried | packages/blame_engine/blame_engine/blame.py:161-268 | the headline is the attribution of one of the origin's defects exactly over a contract breach, or over a content defect without a signal that claims origination; with one, only at the fixed observation or at the unknown cap |
| Attribution.SignalOutrunsDefects | packages/blame_engine/blame_engine/blame.py:236-268 | such a signal at an assumed baseline prints a headline no defect of the origin supports |
| Witnesses.LoudOutruns | packages/blame_engine/blame_engine/blame.py:236-268 | one run scored low, with a failed check that claims origination: its only candidate is such an origin |
| Topology.SimplePathIffLine | packages/blame_engine/blame_engine/topology.py:32-47 | the counting test accepts exactly the graphs whose nodes can be listed with exactly the consecutive edges |
| Topology.LineDepth | packages/blame_engine/blame_engine/topology.py:117-119 | on a line the longest path has as many nodes as the graph |
| Topology.InteriorSeparates | packages/blame_engine/blame_engine/topology.py:124-130 | removing any interior node of a line disconnects what is before it from what is after |
| Topology.ChainIsLine | packages/blame_engine/blame_engine/topology.py:160-167 | the chain flag is raised only on a line of depth-many super-nodes with that property |
| Topology.ChainIff | packages/blame_engine/blame_engine/topology.py:132-167 | and exactly on lines of three or more: of runs without cycles, or of components that form no mesh |
| LoopChain.Adjacency | web/src/findingsExport.ts:15-18 | the adjacency map keeps every edge from a known node |
| LoopChain.ReachesItself | web/src/findingsExport.ts:19-30 | the stack search terminates and answers whether a closed walk leads through the node |
| LoopChain.DetectLoopChain | web/src/findingsExport.ts:13-34 | exactly the nodes on a cycle |
| LoopChain.SearchAgrees | web/src/findingsExport.ts:19-32 | the search agrees with the engine's multi-member components and self-loops |
| Tracing.Span.Fail | packages/detective_sdk/detective_sdk/tracing.py:376-382 | marks the span as failed; a reason stands in for an output not yet recorded and replaces none |
| Tracing.Span.End | packages/detective_sdk/detective_sdk/tracing.py:430-445 | closes once; a repeated call changes nothing; the run's open list loses exactly this span |
| Tracing.Span.ReadsFrom | packages/detective_sdk/detective_sdk/tracing.py:389-426 | records one flow per named source other than the reader's own name |
| Tracing.Run.constructor | packages/detective_sdk/detective_sdk/tracing.py:637-674 | an empty run that satisfies the invariant |
| Tracing.Run.Track | packages/detective_sdk/detective_sdk/tracing.py:691-696 | the new span is last in tracking order and on the open list, and the invariant holds |
| Tracing.Run.Step | packages/detective_sdk/detective_sdk/tracing.py:700-719 | hangs behind the chain head, reads its output, becomes the chain head |
| Tracing.Run.Nest | packages/detective_sdk/detective_sdk/tracing.py:721-730 | hangs inside the innermost open span |
| Tracing.LastSerial | packages/detective_sdk/detective_sdk/tracing.py:740-744 | the fan-out point is never a parallel arm |
| Tracing.Run.Branch | packages/detective_sdk/detective_sdk/tracing.py:746-790 | an arm on the given step or the fan-out point, never on another arm by itself, never the chain head |
| Tracing.Run.Join | packages/detective_sdk/detective_sdk/tracing.py:792-831 | a fan-in with one flow per source, given by default the merge of what its sources put out; the pipeline resumes there |
| Tracing.Run.JoinInput | packages/detective_sdk/detective_sdk/tracing.py:833-870 | the default input groups exactly the outputs observed, under the names of their agents, and is absent when there are none |
| FanIn.MergeIsUnique | packages/detective_sdk/detective_sdk/tracing.py:847-870 | there is one such input |
| FanIn.NothingOverwritten | packages/detective_sdk/detective_sdk/tracing.py:836-841 | each agent's outputs can be read back from it as often as they were observed and in order, exactly unless its only output is itself a list |
| Tracing.NameStandsForItsSpans | packages/detective_sdk/detective_sdk/tracing.py:843-863 | a bare name merges what handing over all spans recorded under it merges |
| Tracing.Run.OpenRetry | packages/detective_sdk/detective_sdk/tracing.py:872-929 | a loop controller; a parallel one is an arm and leaves the chain head alone |
| Tracing.Run.Delegate | packages/detective_sdk/detective_sdk/tracing.py:931-938 | one recorded flow |
| Tracing.Run.End | packages/detective_sdk/detective_sdk/tracing.py:970-990 | ends the most recent open span of that name, or invents nothing |
| Tracing.Run.Drop | packages/detective_sdk/detective_sdk/tracing.py:992-996 | spans may close in any order: the open list stays exactly the tracked, unended spans in tracking order |
| Tracing.Retry.constructor | packages/detective_sdk/detective_sdk/tracing.py:517-522 | a loop without attempts |
| Tracing.Retry.NextAttempt | packages/detective_sdk/detective_sdk/tracing.py:526-556 | numbered among its agent's attempts, behind the previous one, reading its output |
| Tracing.Retry.EndAttempt | packages/detective_sdk/detective_sdk/tracing.py:558-575 | ends the latest open attempt whose name begins with the agent's name and the separator, and no other span; nothing when there is none |
| Tracing.EndsItsOwn | packages/detective_sdk/detective_sdk/tracing.py:558-575 | that attempt is the agent's own, whatever is open, exactly when no agent of the loop is itself named like a numbered attempt of it |
| RecordedRuns.EndsAnotherAgent | packages/detective_sdk/detective_sdk/tracing.py:566-574 | agents a and a#b in one loop: the finish reported for a ends the attempt of a#b |
| Tracing.Retry.CloseAttempts | packages/detective_sdk/detective_sdk/tracing.py:603-605 | every attempt is ended, earlier ends and outputs kept |
| Tracing.Retry.Close | packages/detective_sdk/detective_sdk/tracing.py:594-614 | attempts first, then one returning flow exactly if an agent repeated, then the controller; a second close changes nothing |
| Tracing.RepeatedMeansTwice | packages/detective_sdk/detective_sdk/tracing.py:606 | an agent counts as repeated exactly when two attempts are its own |
| TraceShape.OpeningFollows | packages/detective_sdk/detective_sdk/tracing.py:700-831 | what a step, nested step, arm or fan-in promises is an opening whose span nothing recorded before mentions |
| TraceShape.ArmUnderArm | packages/detective_sdk/detective_sdk/tracing.py:732-790 | an arm opened off the fan-out point lies under another arm exactly when that point was opened directly inside an arm or descends from a span that was |
| RecordedRuns.ArmInsideArm | packages/detective_sdk/detective_sdk/tracing.py:732-790 | a span nested in one arm becomes the fan-out point of the next |
| TraceShape.NoLoopNoCycle | packages/detective_sdk/detective_sdk/tracing.py:700-831 | in every history of such openings every parent link and every source handed over as a span leads from an earlier span to a later one |
| TraceShape.RetryIsLoop | packages/detective_sdk/detective_sdk/tracing.py:540-556 | the attempts of a loop form a chain behind its controller |
| TraceShape.ReturnIsOneEdge | packages/detective_sdk/detective_sdk/tracing.py:607-612 | the returning flow is one edge from the last attempt to the controller |
| TraceShape.CloseAddsOneBackEdge | packages/detective_sdk/detective_sdk/tracing.py:606-612 | in any run, whatever loops closed before or enclose this one, closing adds the edge from the last attempt back to the controller and no other; it is there exactly when two attempts are of one agent and the last bears another name than the controller |
| TraceShape.LoopIsOneCycle | packages/detective_sdk/detective_sdk/tracing.py:607-612 | after it the controller and all attempts lie on one cycle |
| TraceShape.NumbersDiffer | packages/detective_sdk/detective_sdk/tracing.py:964-967 | same-named spans get different numbers |
| TraceShape.NumberedApart | packages/detective_sdk/detective_sdk/tracing.py:964-967 | numbered names of different spans never coincide |
| TraceShape.CollisionIsSpelledOut | packages/detective_sdk/detective_sdk/tracing.py:940-968 | two spans ship one name exactly when an agent alone under its name is called like the number another was given |
| RecordedRuns.SpelledOutNumber | packages/detective_sdk/detective_sdk/tracing.py:940-968 | steps a, a and a#2: the second and the third ship as a#2, and a flow addressed to the second is dropped |
| TraceShape.FinalNames | packages/detective_sdk/detective_sdk/tracing.py:955-968 | every span gets its final name |
| TraceShape.AddressedIsExact | packages/detective_sdk/detective_sdk/tracing.py:1082-1098 | an emitted delegation names at most one agent span, and one addressed by object names exactly that span |
| TraceShape.DroppedWhenTaken | packages/detective_sdk/detective_sdk/tracing.py:1083-1098 | a delegation addressed by object is dropped exactly when another span took that name |
| TraceShape.BuildArcs | packages/detective_sdk/detective_sdk/tracing.py:1085-1111 | the delegations that ship, in order, each stamped with the least moment before neither its declaration nor the recorded end of the span it names; by reader and shipped name they are the edges of the graph below |
| TraceShape.NoLoopShipsNoCycle | packages/detective_sdk/detective_sdk/tracing.py:1082-1111 | what ships of a run without loops, bare names included, leads forward exactly when no shipped bare name is the final name of a span tracked at or after its reader, and holds no cycle exactly when no such name belongs to a span its reader leads to |
| TraceShape.SpanSourcesShipForward | packages/detective_sdk/detective_sdk/tracing.py:700-831 | with sources handed over as spans of the run it always leads forward |
| RecordedRuns.NamesLaterStep | packages/detective_sdk/detective_sdk/tracing.py:210-221 | a fan-in that reads the name of a step opened after it: with no loop at all a cycle ships |
| RecordedRuns.NamesItself | packages/detective_sdk/detective_sdk/tracing.py:389-426 | the second agent a reads the bare name a#2: it ships as reading from itself |
| TraceShape.ReturnShips | packages/detective_sdk/detective_sdk/tracing.py:1082-1098 | of a closed loop the returning edge ships exactly when no other span took the last attempt's name |
| TraceShape.LoopShipsAsCycle | packages/detective_sdk/detective_sdk/tracing.py:1082-1111 | then the controller and every attempt lie on one cycle of what ships |
| Ladder.UnmeasuredRung | packages/blame_engine/blame_engine/blame.py:592-610 | with nothing scored, nothing localized and no runaway loop nothing is classified, unless a refuted verifier takes the place |
| Ladder.ExternalRung | packages/blame_engine/blame_engine/blame.py:611-633 | failing that, with nothing localized, the first source in the order that admits a flawed input is published as root_cause_external, alone |
| Ladder.LoopRung | packages/blame_engine/blame_engine/blame.py:634-725 | then the first runaway loop that is an origin, or the first at all when nothing is localized: its repeating runs, or else its members, followed by the runs of the origins outside its cycle; multi_culprit when there are such, else loop_detected |
| Ladder.LoneRung | packages/blame_engine/blame_engine/blame.py:726-1049 | then a lone origin: a healed one under a good deliverable is degraded_recovered; a failed check at a healthy exit under a bad one is terminal_defect_unlocalized with a breach and composition_failure without; any other is the cut point at the exit or drilled member, but degraded_recovered for a breach alone on a measured run |
| Ladder.SeveralRung | packages/blame_engine/blame_engine/blame.py:1050-1075 | then several origins, each resolved on its own and reported in order: multi_culprit exactly when they lie at two super-nodes |
| Ladder.ConfessionRung | packages/blame_engine/blame_engine/blame.py:1076-1125 | with nothing localized under a bad checkable deliverable, the first run in the listing that was scored, is no verifier, does not blame its input and carries a content flag is the cut point |
| Ladder.WholeRung | packages/blame_engine/blame_engine/blame.py:1126-1160 | with no such run, every score healthy, no run hiding a fault and no significant drop, composition_failure at the entry that finished first, unless a refuted verifier takes its place |
| Ladder.NothingRung | packages/blame_engine/blame_engine/blame.py:1161-1200 | in every other case unclassified without a culprit, unless a refuted verifier takes the place |
| Reports.EscalatesIff | packages/blame_engine/blame_engine/derive.py:141-157 | the published verdict is shipped_with_latent_defect exactly when the defects derive degraded_recovered and some supplied fact is a propagated breach; otherwise it is the derived verdict |
| Reports.GapsTakeOver | packages/blame_engine/blame_engine/blame.py:1437-1454 | the verdict is verification_gap exactly when the cascade pins nobody and some gap has a basis other than the flag conflict; the culprits are then the runs of exactly those gaps, in order |
| Facts.PublishedFacts | packages/blame_engine/blame_engine/assemble.py:91-409 | what is published is the supplied facts, the recorded scores, content flags, flawed-input claims, breaches, checks, terminal verdicts and anomalous cycles, one refuted verdict per gap, falls and conflicts, each with the fields stated; every fact but the last two kinds is published |
| Facts.FallsPublished | packages/blame_engine/blame_engine/assemble.py:186-217 | every run outside the cycles that the content channel or a decline names is published with a fall, in the numbers of an origin found there |
| Claims.ContentClaim | packages/blame_engine/blame_engine/assemble.py:483-545 | a content defect cites exactly the fall, score, content flags, checks and terminal verdict of its run, each supporting, refuting or as context as the record bears on the claim, and is deterministic exactly over a failed check or a hard fall |
| Claims.ContractClaim | packages/blame_engine/blame_engine/assemble.py:552-624 | a contract defect cites every breach of its run, what became of each rewritten key and the shipped form a breach explains, nothing else; it lists where the rewrites shipped and leaves content unverified exactly when it stands alone and no key was followed up |
| Claims.FormClaim | packages/blame_engine/blame_engine/assemble.py:900-951 | the form defect is pinned on a run exactly when a recorded breach rewrote a file-format key to the observed type, else left to the design; the missing gate supports it only then |
| Targets.PathLeads | packages/blame_engine/blame_engine/path.py:22-45 | the path ends at the super-node of the preferred run: the last original terminal to finish under a bad verdict, the lowest-scored one otherwise, the last when none is scored, exits standing in when there is none; among all ends, or the reachable ones when that one is not reached |
| Targets.PathIsPreferable | packages/blame_engine/blame_engine/path.py:51-110 | every other walk between the same ends has more hops, or as many and the worse super-node where the two part: unscored against scored, then higher against lower, then later against sooner |
| Readings.OrderReads | packages/blame_engine/blame_engine/condense.py:46-99 | each super-node lists its members as they finished and takes the score of the last; each place of the order goes to the one that finished first among those whose inputs are all placed |
| Readings.GapsRead | packages/blame_engine/blame_engine/blame.py:1306-1387 | the gaps are exactly the verifiers the checkable terminal review contradicts, told by score, flag and position, scored ones first and by run |
| Measured.FallsAreMeasured | packages/blame_engine/blame_engine/cutpoint.py:251-353 | the base of a candidate at an exit is attained by a scored input and bounds them all; 1.0 exactly with none scored and nothing but the bare request before; absent otherwise; the fall is the larger of zero and base minus score; along a decline both are read off head and tail |
| Measured.BucketMeans | packages/blame_engine/blame_engine/cutpoint.py:244-359 | which super-nodes are sharp drops, low boundaries, healed boundaries or no origin, by the scores of inputs and outputs and the settings |
| Measured.MemberMeans | packages/blame_engine/blame_engine/cutpoint.py:475-530 | which members of a cycle broke: fallen from the best of its healthy inputs, or below the bar with none scored and not healed |
| Named.NamedIff | packages/blame_engine/blame_engine/cutpoint.py:361-418 | the content channel names a super-node exactly when it broke, failing any break starts a decline, failing any decline is a healed boundary, and no such origin lies upstream |
| Named.OriginSays | packages/blame_engine/blame_engine/cutpoint.py:251-353 | what a content origin reports of recovery, assumed baseline, unmeasured inputs, hidden ancestors and the member it points at, which is the lowest one that broke |
| Named.StepMeans | packages/blame_engine/blame_engine/cutpoint.py:158-180 | each step of a decline goes to the most degraded successor that fell far enough, the sooner among equals |
| Named.HardNamed | packages/blame_engine/blame_engine/cutpoint.py:628-716 | the hard channel names exactly the nodes that failed a check or rewrote a value new on both sides, or, without any, the first hard fault in the order |
| Declines.DeclinesAreRecorded | packages/blame_engine/blame_engine/cutpoint.py:140-192 | recorded chains are greedy declines from a healthy head over enough edges and far enough in all, and the head of every such decline is recorded or lies on a recorded one |
| Declines.TieReads | packages/blame_engine/blame_engine/cutpoint.py:526-555 | an origin inside a cycle is tied with exactly the members that broke with the score of the one it points at |
| Declines.DrillTieReads | packages/blame_engine/blame_engine/blame.py:70-111 | where the worst member had to be taken, the tie is all members scored as low, in order |
| Declines.DropSeenIff | packages/blame_engine/blame_engine/cutpoint.py:242-376 | a significant drop is reported exactly when some node fell from healthy inputs or a member pointed at fell from scored ones |
| Loops.RoundsTold | packages/blame_engine/blame_engine/loops.py:39-57 | the rounds are all attempts of the agent with the most of them, the later name among equals, by number and then by time; the size of the cycle when none was recorded |
| Loops.DominantIs | packages/blame_engine/blame_engine/loops.py:24-36 | the agent a cycle is judged by is the repeating one, else the name most members go by, the earlier among equals |
| Loops.AnomalousIff | packages/blame_engine/blame_engine/loops.py:60-95 | a cycle is anomalous exactly when its rounds exceed the limit strictly, or exceed the mean of a baseline with enough samples by more than the set number of deviations; statistical exactly within the limit |
| Topology.MeshIff | packages/blame_engine/blame_engine/topology.py:120-144 | a graph is a mesh exactly when it hangs together, has a cycle through two nodes, and two different pairs feed each other or a component of four or more holds half its possible edges |
| Numbers.AttributionIs | packages/blame_engine/blame_engine/confidence.py:146-191 | attribution is half the fall, three tenths of the severity and a fifth of the input, as shares, times the discounts due, capped under unknown ancestors, inside the unit interval |
| Numbers.ObservationIs | packages/blame_engine/blame_engine/confidence.py:194-237 | 0.95 when seen outright, else the severity or seven tenths of the measured fall, whichever is more |
| Numbers.OutsideEarns | packages/blame_engine/blame_engine/blame.py:611-633 | an admitting source falls from 1.0 to its score, or to zero unscored; no tie and no unknown ancestor discounts it |
| Numbers.SharedReads | packages/blame_engine/blame_engine/blame.py:566-580 | an origin moved onto a member is weighed by that member: its score, its fall from its best scored source, and a base that adds up |
| Numbers.NearMissReads | packages/blame_engine/blame_engine/blame.py:736-800 | a near-miss is weighed at the member it points at, against that member's best scored source |
| Numbers.PublishedIs | packages/blame_engine/blame_engine/blame.py:1660-1677 | what is published is what was earned up to the ceiling of the verdict: 0.4 composition, 0.5 external, 0.6 gap and unlocalized, 0.8 several, 0.7 a cut point on fewer channels than were weighed, else 1 |
| Claims.OriginClaims | packages/blame_engine/blame_engine/assemble.py:687-848 | an origin claims its breach and the content it owes: under a bad deliverable, without a breach, or where judged content had a say; alone, the breach leaves content unverified exactly without a content claim beside it, among several exactly unless the deliverable was found bad |
| Claims.OtherClaims | packages/blame_engine/blame_engine/assemble.py:672-789 | the composition and terminal-unlocalized outcomes rest on the terminal verdict and nothing else, the second with the breach of its run; a near-miss claims its breach or its recovered content; a loop its anomalies |
| Claims.ExternalClaims | packages/blame_engine/blame_engine/assemble.py:651-669 | an external fault is supported by the admission of its source and otherwise cites what a content claim would |
| Defects.PublishedMarks | packages/blame_engine/blame_engine/assemble.py:603-648 | a published content claim rests on an assumed baseline exactly when the last origin found at its run does; every defect is unmeasured exactly when nothing was scored; the form has a defect exactly when it was checkable and bad |
| Listing.CandidatesInOrder | packages/blame_engine/blame_engine/cutpoint.py:361-434 | candidates of the content channel come first, sharp falls before low boundaries before breaks inside cycles and each in the order of the quotient, or declines by their heads; then those of the hard channel alone, in that order |
| Listing.ChannelsTold | packages/blame_engine/blame_engine/cutpoint.py:691-740 | a content candidate is of both channels exactly when the hard channel names its super-node too, and then points at no member; the others are the ones only the hard channel names, with an unknown upstream exactly when they stand in |
| Listing.CandidatesCarry | packages/blame_engine/blame_engine/cutpoint.py:124-137 | every candidate carries the exit of its super-node, whether anything comes before it, the size of the cycle, the end time and the channels its score rests on |
| Reports.CascadeEmitted | packages/blame_engine/blame_engine/blame.py:592-1200 | behind every published report stand defects the cascade emitted |
| Confidence.SixthsVanish | packages/blame_engine/blame_engine/blame.py:1704-1735 | six origins with exactly a sixth each: the rounded shares exceed the whole and the tie is dropped |
| Reconcile.AttachedExactly | packages/blame_engine/blame_engine/assemble.py:1003-1012 | a defect gains, as context, exactly the divergences that reconcile some finding it cites in any role, and loses nothing |
| Numbers.LoopReads | packages/blame_engine/blame_engine/blame.py:634-725 | a runaway loop is as sure as the last origin found at its cycle, and certain when it is none |
| Loops.NoCycleIsBenign | packages/blame_engine/blame_engine/loops.py:72-76 | a node that is no cycle has no finding |
| Numbers.FixedRows | packages/blame_engine/blame_engine/confidence.py:34-70 | the rows without a fall of their own earn 0.65 for a corroborated flag, 0.6 unlocalized, 0.4 for the whole and nothing otherwise |
| Witnesses.ShippedReport | packages/blame_engine/blame_engine/derive.py:141-157 | the same run supplied with a propagated breach: the verdict escalates |
| Witnesses.CorrectedReport | packages/blame_engine/blame_engine/derive.py:141-157 | supplied with a corrected one only: it does not |

## Left out

- ComputeConfidence: takes the square root of the interior share as an argument constrained by its square, and works on reals without floating-point rounding; only the four-decimal rounding of tie shares is modelled.
- FindBlame: does not carry the confidence numbers, notes, tie hypotheses, score overrides, manifestation, candidacy or costs of the report; the headline number of every row and the tie split are proved beside it, over the same analysis and row.
- PayloadsAgree: does not compare which of several equal findings a defect cites.
- BuildFindings: keeps of each finding the fields some decision reads; certainty, provenance, reasoning and agent labels are not modelled.
- Finalize: does not model the legacy argument for findings supplied after emission, nor serialization.
- DetectLoopChain: does not model the final sort by start time or the display names.
- NoLoopShipsNoCycle: its histories open spans and fan-ins; a flow declared later on a span already open is not one of their steps.
- Bare source names are taken without surrounding blanks.
- BuildArcs: models the delegation spans of the payload; root span, attributes, encoding and trace ids are not part of it.
- Verifier roles and file-type words are classified elsewhere by text; here they are a set of names and a map of phrases.
- Threads: each recorder method is one atomic step under the run's lock, with the end of a span and its removal from the open list in one step.
- Span ids and clock readings are arguments; ids are assumed fresh and no order of the readings is assumed.
- Span attributes, cost, artifacts, node kind, versions, the exception paths of the context managers and delivery of the trace are not modelled.
- ShapeOf: of its archetypes only those the chain flag reads, pipelines and meshes, are characterised; star, hierarchy and the rest are presentation.
- Topology's other attributes (articulation points, fan-out, component counts) and the incident mapping are presentation or single tables.
- Narrative, rendering, descriptors, services, storage, the judge client and the web screens are outside the model.
- FindGaps: omits the test that a healthy verifier is not already a scored gap; a score is either below the threshold or not, so that test never decides.
