/** The API server as the reconcilers see it: remediation resources (SNRs) with optimistic concurrency,
    nodes with taints, a clock, and everybody else who writes to it. */
module Store {
  import opened Common
  import opened Taints
  import opened Calculator

  datatype Phase = PreRebootCompleted | RebootCompleted | FencingCompleted | Unrecognised

  datatype Strategy = Automatic | ResourceDeletion | OutOfServiceTaint | Unsupported

  datatype Truth = True | False | Unknown

  datatype Conditions = Conditions(processing: Option<Truth>, succeeded: Option<Truth>, disabled: Option<Truth>)

  const NO_CONDITIONS := Conditions(None, None, None)

  /** The time after which the node is assumed to have rebooted. The resource holds `due`; the other two
      record where it came from: the clock, and what the calculation started from. */
  datatype Deadline = Deadline(due: int, computedAt: int, basis: Basis)

  datatype Status = Status(phase: Option<Phase>, timeAssumedRebooted: Option<Deadline>, conditions: Conditions, lastError: string)

  datatype Snr = Snr(
    version: nat,
    finalizer: bool,           // this operator's finalizer
    foreignFinalizers: bool,   // anybody else's
    deleting: bool,            // the deletion timestamp is set
    timedOut: bool,            // the annotation with which NHC stops a remediation
    strategy: Strategy,
    target: string,            // the node, resolved from annotation or name
    created: int,
    status: Status)

  datatype Node = Node(taints: seq<Taint>, excluded: bool, annotations: map<string, string>)

  /** What the manager does on purpose to the workloads of a node, with the deadline it believes in. `Eviction` says when
      the out-of-service taint can get on a node in no other way. */
  datatype Effect =
    | PodsDeleted(snr: string, node: string, at: int, deadline: Option<Deadline>)
    | OutOfServiceAdded(snr: string, node: string, at: int, deadline: Option<Deadline>)

  /** `history` keeps every version of every SNR that was ever stored, oldest first. */
  datatype World = World(
    clock: int,
    snrs: map<string, Snr>,
    history: map<string, seq<Snr>>,
    nodes: map<string, Node>,
    effects: seq<Effect>)

  /** What others do to the metadata of an SNR. */
  datatype Amendment = Delete | ReleaseForeign | TimeOut | Touch

  function Amended(s: Snr, amendment: Amendment): Snr {
    var t := s.(version := s.version + 1);
    match amendment
    case Delete => t.(deleting := true)
    case ReleaseForeign => t.(foreignFinalizers := false)
    case TimeOut => t.(timedOut := true)
    case Touch => t
  }

  /** What others do: time passes, SNRs are created, deleted, stopped by NHC or touched, nodes come, go and
      change. Nobody else uses the two remediation taints. */
  datatype Env =
    | Tick(duration: nat)
    | Create(name: string, strategy: Strategy, target: string, foreign: bool)
    | Amend(name: string, amendment: Amendment)
    | SetNode(node: string, spec: Node)
    | RemoveNode(node: string)

  predicate Gone(s: Snr) {
    s.deleting && !s.finalizer && !s.foreignFinalizers
  }

  /** Stores a new version; an SNR that is being deleted disappears with its last finalizer. */
  function Persist(w: World, name: string, s: Snr): World
    requires name in w.history
  {
    w.(snrs := if Gone(s) then w.snrs - {name} else w.snrs[name := s],
       history := w.history[name := w.history[name] + [s]])
  }

  /** The other taints of the new node, and the remediation taints of the old one. */
  function ForeignTaints(taints: seq<Taint>): seq<Taint> {
    Without(Without(taints, NO_SCHEDULE), OUT_OF_SERVICE)
  }

  function OwnTaints(taints: seq<Taint>): seq<Taint> {
    (if TaintExists(taints, NO_SCHEDULE) then [NO_SCHEDULE] else [])
    + (if TaintExists(taints, OUT_OF_SERVICE) then [OUT_OF_SERVICE] else [])
  }

  function Act(w: World, e: Env): World {
    match e
    case Tick(d) => w.(clock := w.clock + d)
    case Create(name, strategy, target, foreign) =>
      if name in w.history then w
      else
        var s := Snr(0, false, foreign, false, false, strategy, target, w.clock, Status(None, None, NO_CONDITIONS, ""));
        w.(snrs := w.snrs[name := s], history := w.history[name := [s]])
    case Amend(name, amendment) =>
      if name !in w.snrs || name !in w.history then w else Persist(w, name, Amended(w.snrs[name], amendment))
    case SetNode(node, spec) =>
      w.(nodes := w.nodes[node := spec.(taints :=
           ForeignTaints(spec.taints) + if node in w.nodes then OwnTaints(w.nodes[node].taints) else [])])
    case RemoveNode(node) => w.(nodes := w.nodes - {node})
  }

  function ActAll(w: World, es: seq<Env>): World
    decreases |es|
  {
    if es == [] then w else ActAll(Act(w, es[0]), es[1..])
  }

  /** The fate of one request to the API server: served, refused, or served with the answer lost. A crash of
      the reconciler is a request after which all further ones are refused. */
  datatype Fate = Served | Refused | AnswerLost

  /** What happens before a request of the reconciler, and its fate. */
  datatype Turn = Turn(others: seq<Env>, fate: Fate)

  datatype ApiError = NoError | NotFound | Conflict | OtherError

  /** A reconcile under way: the server, the SNR in memory, and the turns still to come. */
  datatype Session = Session(world: World, snr: Snr, turns: seq<Turn>)

  /** Lets the others act and tells the fate of the next request. */
  function Proceed(c: Session): Session {
    if c.turns == [] then c
    else c.(world := ActAll(c.world, c.turns[0].others), turns := c.turns[1..])
  }

  function NextFate(c: Session): Fate {
    if c.turns == [] then Served else c.turns[0].fate
  }

  /** The client decodes an answer into the object it sent: what the answer holds replaces the memory, optional
      parts that the answer leaves out keep what was there. */
  function Decode(memory: Snr, answer: Snr): Snr {
    answer.(finalizer := answer.finalizer || memory.finalizer,
            foreignFinalizers := answer.foreignFinalizers || memory.foreignFinalizers,
            deleting := answer.deleting || memory.deleting,
            timedOut := answer.timedOut || memory.timedOut,
            status := DecodeStatus(memory.status, answer.status))
  }

  function DecodeStatus(memory: Status, answer: Status): Status {
    Status(if answer.phase.Some? then answer.phase else memory.phase,
           if answer.timeAssumedRebooted.Some? then answer.timeAssumedRebooted else memory.timeAssumedRebooted,
           if answer.conditions != NO_CONDITIONS then answer.conditions else memory.conditions,
           if answer.lastError != "" then answer.lastError else memory.lastError)
  }

  /** What a request asks for: write the finalizer, the whole status, or the last error only. Only the patch of
      the last error is not protected by the version. */
  datatype Change = SetFinalizer(finalizer: bool) | SetStatus(status: Status) | SetLastError(lastError: string)

  function Changed(stored: Snr, change: Change): Snr {
    match change
    case SetFinalizer(f) => stored.(finalizer := f, version := stored.version + 1)
    case SetStatus(status) => stored.(status := status, version := stored.version + 1)
    case SetLastError(e) => stored.(status := stored.status.(lastError := e), version := stored.version + 1)
  }

  /** Sends a change of the SNR. */
  function Send(c: Session, name: string, change: Change): (Session, ApiError) {
    var d := Proceed(c);
    if NextFate(c) == Refused then (d, OtherError)
    else if name !in d.world.snrs || name !in d.world.history then (d, NotFound)
    else if !change.SetLastError? && d.world.snrs[name].version != d.snr.version then (d, Conflict)
    else
      var updated := Changed(d.world.snrs[name], change);
      var e := d.(world := Persist(d.world, name, updated));
      if NextFate(c) == AnswerLost then (e, OtherError) else (e.(snr := Decode(e.snr, updated)), NoError)
  }

  /** Merge patch that replaces the taints of a node. */
  function PatchTaints(c: Session, node: string, taints: seq<Taint>): (Session, ApiError) {
    var d := Proceed(c);
    if NextFate(c) == Refused then (d, OtherError)
    else if node !in d.world.nodes then (d, NotFound)
    else
      var e := d.(world := d.world.(nodes := d.world.nodes[node := d.world.nodes[node].(taints := taints)]));
      (e, if NextFate(c) == AnswerLost then OtherError else NoError)
  }
}
