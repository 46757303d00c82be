// What the blame engine is given: the raw execution graph, the scores and the settings.

module BlameInput {
  import opened Prelude

  // A carried parameter the node rewrote: it read `from` and emitted `to`.
  datatype Violation = Violation(key: string, from: string, to: string)

  // `missingSection` is set only on a missing_required_section signal that names its section; `originates`
  // says that the check saw the fault begin at this node.
  datatype Signal = Signal(name: string, fail: bool, missingSection: Option<string>, originates: bool)

  datatype NodeScore = NodeScore(
    score: Option<real>,
    inputFlawed: bool,
    unscoredReason: Option<string>,
    flags: seq<string>,
    violations: seq<Violation>,
    signals: seq<Signal>,
    weighed: Option<set<string>>,
    components: set<string>)

  datatype TerminalVerdict = TerminalVerdict(
    bad: bool,
    score: Option<real>,
    checkable: bool,
    stale: bool,
    formBad: bool,
    formRequirement: Option<string>,
    formObserved: Option<string>)

  datatype Baseline = Baseline(mean: real, std: real, samples: int)

  datatype Config = Config(
    threshold: real,
    gapThreshold: real,
    minDrop: real,
    cumDropThreshold: real,
    cumMinEdges: int,
    cumStepMin: real,
    maxLoopIterations: int,
    loopZscore: real,
    loopMinHistory: int,
    unknownConfidenceCap: real,
    sccConfidencePenalty: real,
    multiCulpritPenalty: real,
    singleChannelPenalty: real,
    chainConfidencePenalty: real,
    chainFullPenaltyDepth: int)

  // `verifierNames` and `fileTypes` stand for the two text classifiers the engine calls:
  // which agent names are verifiers, and which file type a phrase mentions.
  datatype Input = Input(
    nodes: seq<RunId>,
    edges: seq<(RunId, RunId)>,
    scores: map<RunId, NodeScore>,
    endTimes: map<RunId, real>,
    agentNames: map<RunId, string>,
    verifierNames: set<string>,
    terminal: Option<TerminalVerdict>,
    loopBaselines: map<string, Baseline>,
    config: Config,
    attempts: map<RunId, int>,
    attemptOf: map<RunId, string>,
    fileTypes: map<string, string>)

  const CONTENT_FLAGS: set<string> := {"missing_required_content", "ignored_instruction", "factual_error"}
  const FILE_FORMAT_KEYS: set<string> := {"file_type", "filetype", "format", "target_format"}

  function KeyOf(ends: map<RunId, real>, run: RunId): Chron {
    Chron(if run in ends then Some(ends[run]) else None, run)
  }

  function ScoreOf(inp: Input, run: RunId): Option<real> {
    if run in inp.scores then inp.scores[run].score else None
  }

  predicate InputFlawed(inp: Input, run: RunId) {
    run in inp.scores && inp.scores[run].inputFlawed
  }

  function Violations(inp: Input, run: RunId): seq<Violation> {
    if run in inp.scores then inp.scores[run].violations else []
  }

  function Signals(inp: Input, run: RunId): seq<Signal> {
    if run in inp.scores then inp.scores[run].signals else []
  }

  function Flags(inp: Input, run: RunId): seq<string> {
    if run in inp.scores then inp.scores[run].flags else []
  }

  predicate Unscored(inp: Input, run: RunId, reason: string) {
    run in inp.scores && inp.scores[run].unscoredReason == Some(reason)
  }

  predicate HasFailSignal(inp: Input, run: RunId) {
    exists s :: s in Signals(inp, run) && s.fail
  }

  // A hard, reproducible fault in the node's own output, whatever its judged score.
  predicate DeterministicDefect(inp: Input, run: RunId) {
    Violations(inp, run) != [] || HasFailSignal(inp, run)
  }

  predicate HasContentFlag(inp: Input, run: RunId) {
    exists f :: f in Flags(inp, run) && f in CONTENT_FLAGS
  }

  predicate IsVerifier(inp: Input, run: RunId) {
    run in inp.agentNames && inp.agentNames[run] in inp.verifierNames
  }

  predicate Healthy(inp: Input, s: Option<real>) {
    s.Some? && s.value >= inp.config.threshold
  }

  function FileType(inp: Input, text: Option<string>): Option<string> {
    if text.Some? && text.value in inp.fileTypes then Some(inp.fileTypes[text.value]) else None
  }

  // Two encodings of one run: the same nodes and edges, listed in any order and any number of times.
  ghost predicate SameRun(a: Input, b: Input) {
    && (forall n :: n in a.nodes <==> n in b.nodes)
    && (forall e :: e in a.edges <==> e in b.edges)
    && b == a.(nodes := b.nodes, edges := b.edges)
  }
}
