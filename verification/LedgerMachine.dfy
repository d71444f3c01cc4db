/** One peripheral ledger processing its transactions of a block, as a machine over atomic steps.
    The goroutines are the dispatcher, the main goroutine, the workers of the current phase and the
    state-trie goroutine. Each channel operation, each Get, Store and Delete on the note pool and each
    write to a note is one step, and any goroutine that can step may do so next. */
module LedgerMachine {
  import opened BanknoteTypes
  import opened Accounts
  import opened Netting

  /** The memory the ledgers share: note objects, which are referred to by index, and the active pool. */
  datatype Mem = Mem(notes: seq<Note>, pool: map<Hash, nat>)

  /** How far one transaction has got. `hit` remembers whether a Get found the note. */
  datatype Pc =
    | Waiting              // not yet received by a worker
    | Received
    | Recorded             // the account record is sent
    | Absent               // a split whose Get found nothing
    | Missing              // a transfer at the initial value whose Get found nothing
    | Found(ref: nat)      // the Get found this note, which is to be removed
    | Cleared(hit: bool)   // a split whose source is removed, or handed to the deferred channel
    | Half(hit: bool)      // a split whose first output is stored
    | Holding(ref: nat)    // a transfer that holds the note it will update
    | Owned(ref: nat)      // the new owner is written
    | Finished(hit: bool)

  /** The channel operation that a worker's step performs. */
  datatype Output = Silent | Send(rec: Record) | Defer(h: Hash)

  datatype Outcome = Outcome(mem: Mem, pc: Pc, out: Output)

  predicate Active(p: Pc) { !p.Waiting? && !p.Finished? }

  /** The points of its loop body at which a worker can be with a transaction of this type. */
  predicate PcFits(k: TxType, p: Pc) {
    match k
    case BG => p.Waiting? || p.Received? || p.Recorded? || p == Finished(true)
    case BS => p.Waiting? || p.Received? || p.Absent? || p.Found? || p.Cleared? || p.Half? || p.Finished?
    case BT => p.Waiting? || p.Received? || p.Missing? || p.Holding? || p.Owned? || p.Finished?
    case BR => p.Waiting? || p.Received? || p.Recorded? || p.Found? || p.Finished?
    case NT => false
  }

  predicate RefOk(p: Pc, m: Mem) {
    (p.Found? || p.Holding? || p.Owned?) ==> p.ref < |m.notes|
  }

  /** The pool refers to notes that exist, under their own hashes. */
  ghost predicate MemOk(m: Mem) {
    forall h :: h in m.pool ==> m.pool[h] < |m.notes| && m.notes[m.pool[h]].hash == h
  }

  /** AddBanknote of a new note object. */
  function Store(m: Mem, n: Note): Mem {
    Mem(m.notes + [n], m.pool[n.hash := |m.notes|])
  }

  /** RemoveBanknote. */
  function Delete(m: Mem, h: Hash): Mem { m.(pool := m.pool - {h}) }

  /** The next atomic step of the worker that holds `t`. */
  function TxStep(t: BanknoteTx, p: Pc, m: Mem): Outcome
    requires Active(p) && PcFits(t.kind, p) && RefOk(p, m)
  {
    match t.kind
    case BG => (
      match p
      case Received => Outcome(m, Recorded, Send(Record(t.from, ZERO_ADDRESS, t.amount)))
      case Recorded => Outcome(Store(m, Note(t.note, t.amount, t.from)), Finished(true), Silent))
    case BS => (
      match p
      case Received => Outcome(m, if t.note in m.pool then Found(m.pool[t.note]) else Absent, Silent)
      case Absent => Outcome(m, Cleared(false), Defer(t.note))
      case Found(r) => Outcome(Delete(m, m.notes[r].hash), Cleared(true), Silent)
      case Cleared(hit) => Outcome(Store(m, Note(t.new1, t.amount1, t.from)), Half(hit), Silent)
      case Half(hit) => Outcome(Store(m, Note(t.new2, t.amount2, t.to)), Finished(hit), Silent))
    case BT => (
      match p
      case Received =>
        Outcome(m, if t.note in m.pool then Holding(m.pool[t.note])
                   else if t.amount == INIT_NOTE_VALUE then Missing
                   else Finished(false), Silent)
      case Missing => Outcome(Store(m, Note(t.note, t.amount, t.to)), Holding(|m.notes|), Silent)
      case Holding(r) => Outcome(m.(notes := m.notes[r := m.notes[r].(owner := t.to)]), Owned(r), Silent)
      case Owned(r) => Outcome(m.(pool := m.pool[m.notes[r].hash := r]), Finished(true), Silent))
    case BR => (
      match p
      case Received => Outcome(m, Recorded, Send(Record(ZERO_ADDRESS, t.to, t.amount)))
      case Recorded => Outcome(m, if t.note in m.pool then Found(m.pool[t.note]) else Finished(false), Silent)
      case Found(r) => Outcome(Delete(m, m.notes[r].hash), Finished(true), Silent))
  }

  /** The four phase channels, holding positions of the batch. */
  datatype Queues = Queues(bg: seq<nat>, bt: seq<nat>, bs: seq<nat>, br: seq<nat>) {
    function Of(k: TxType): seq<nat> {
      match k case BG => bg case BT => bt case BS => bs case BR => br case NT => []
    }

    function With(k: TxType, q: seq<nat>): Queues {
      match k
      case BG => this.(bg := q)
      case BT => this.(bt := q)
      case BS => this.(bs := q)
      case BR => this.(br := q)
      case NT => this
    }
  }

  /** The place of the main goroutine. It removes the deferred notes after starting the first recycling
      worker and before starting the others. */
  datatype Stage =
    | MintStage | SplitStage | MoveStage | DrainStage(held: Option<Hash>) | RecycleStage | JoinStage | DoneStage

  datatype Worker = Idle | Busy(i: nat) | Exited

  datatype TrieRoutine = Collecting | Signalling | Returned

  /** The state of one ledger. `got` and `drained` record what has been received and removed so far. */
  datatype Local = Local(
    next: nat, closed: nat, queues: Queues, stage: Stage, workers: seq<Worker>, pc: seq<Pc>,
    deferred: seq<Hash>, acct: seq<Record>, trie: TrieRoutine, net: NetMap, st: StateTrie,
    got: seq<Record>, drained: set<Hash>)

  /** The batch of one ledger, the number of workers, the channel capacities and the opening balance. */
  datatype Config = Config(
    txs: seq<BanknoteTx>, workers: nat, chanSize: nat, acctSize: nat, initBalance: int)

  /** No NT transaction reaches a peripheral ledger, and there is a worker. */
  predicate ConfigOk(c: Config) {
    && (forall t :: t in c.txs ==> !t.kind.NT?)
    && c.workers > 0
  }

  /** An unbuffered channel is one slot, which a send may use only while a receiver stands ready. */
  function Slots(size: nat): (n: nat)
    ensures n > 0
  {
    if size == 0 then 1 else size
  }

  function Rank(k: TxType): nat {
    match k case BG => 0 case BS => 1 case BT => 2 case BR => 3 case NT => 4
  }

  function StageRank(s: Stage): nat {
    match s
    case MintStage => 0
    case SplitStage => 1
    case MoveStage => 2
    case DrainStage(_) => 3
    case RecycleStage => 3
    case JoinStage => 4
    case DoneStage => 4
  }

  function StageKind(s: Stage): TxType {
    match s
    case MintStage => BG
    case SplitStage => BS
    case MoveStage => BT
    case DrainStage(_) => BR
    case RecycleStage => BR
    case JoinStage => NT
    case DoneStage => NT
  }

  /** The dispatcher closes the channels in the order BG, BT, BS, BR. */
  predicate IsClosed(s: Local, k: TxType) {
    s.closed > match k case BG => 0 case BT => 1 case BS => 2 case BR => 3 case NT => 4
  }

  function Start(c: Config, st: StateTrie): Local {
    Local(0, 0, Queues([], [], [], []), MintStage, seq(c.workers, _ => Idle), seq(|c.txs|, _ => Waiting),
          [], [], Collecting, map[], st, [], {})
  }

  datatype Action = Dispatch | Close | Work(w: nat) | Advance | Trie

  predicate AllExited(ws: seq<Worker>) { forall w :: 0 <= w < |ws| ==> ws[w].Exited? }

  /** Every worker position refers to a transaction and a program point that exist. */
  predicate Grounded(c: Config, m: Mem, s: Local) {
    && |s.pc| == |c.txs|
    && (forall w :: 0 <= w < |s.workers| && s.workers[w].Busy? ==>
          && s.workers[w].i < |s.pc| && Active(s.pc[s.workers[w].i]))
    && (forall k, j :: 0 <= j < |s.queues.Of(k)| ==> s.queues.Of(k)[j] < |s.pc|)
    && (forall i :: 0 <= i < |s.pc| ==> PcFits(c.txs[i].kind, s.pc[i]) && RefOk(s.pc[i], m))
  }

  function OutputOf(t: BanknoteTx, p: Pc): Output {
    if t.kind.BG? && p.Received? then Send(Record(t.from, ZERO_ADDRESS, t.amount))
    else if t.kind.BR? && p.Received? then Send(Record(ZERO_ADDRESS, t.to, t.amount))
    else if t.kind.BS? && p.Absent? then Defer(t.note)
    else Silent
  }

  /** A send can proceed when its channel has room. The trie goroutine is always ready to receive; nobody
      receives deferred sources while splits are at work. */
  predicate HasRoom(c: Config, s: Local, out: Output) {
    match out
    case Silent => true
    case Send(_) => |s.acct| < Slots(c.acctSize)
    case Defer(_) => |s.deferred| < c.chanSize
  }

  /** A phase channel takes a transaction when it has room, or is unbuffered with a worker waiting at it. */
  predicate CanTake(c: Config, s: Local, k: TxType) {
    if c.chanSize > 0 then |s.queues.Of(k)| < c.chanSize
    else s.queues.Of(k) == [] && StageRank(s.stage) < 4 && StageKind(s.stage) == k && Idle in s.workers
  }

  predicate Enabled(c: Config, m: Mem, s: Local, a: Action)
    requires Grounded(c, m, s)
  {
    match a
    case Dispatch => s.next < |c.txs| && CanTake(c, s, c.txs[s.next].kind)
    case Close => s.next == |c.txs| && s.closed < 4
    case Work(w) =>
      && w < |s.workers|
      && (match s.workers[w]
          case Idle => s.queues.Of(StageKind(s.stage)) != [] || IsClosed(s, StageKind(s.stage))
          case Busy(i) => HasRoom(c, s, OutputOf(c.txs[i], s.pc[i]))
          case Exited => false)
    case Advance => (
      match s.stage
      case DrainStage(_) => true
      case JoinStage => s.trie.Signalling?
      case DoneStage => false
      case _ => AllExited(s.workers))
    case Trie => s.trie.Collecting? && (s.acct != [] || s.stage.JoinStage?)
  }

  function Deliver(s: Local, out: Output): Local {
    match out
    case Silent => s
    case Send(rec) => s.(acct := s.acct + [rec])
    case Defer(h) => s.(deferred := s.deferred + [h])
  }

  function WorkStep(c: Config, m: Mem, s: Local, w: nat): (Mem, Local)
    requires Grounded(c, m, s) && Enabled(c, m, s, Work(w))
  {
    match s.workers[w]
    case Idle =>
      var k := StageKind(s.stage);
      var q := s.queues.Of(k);
      if q != [] then
        (m, s.(queues := s.queues.With(k, q[1..]), workers := s.workers[w := Busy(q[0])], pc := s.pc[q[0] := Received]))
      else
        (m, s.(workers := s.workers[w := Exited]))
    case Busy(i) =>
      var o := TxStep(c.txs[i], s.pc[i], m);
      (o.mem, Deliver(s.(pc := s.pc[i := o.pc], workers := if o.pc.Finished? then s.workers[w := Idle] else s.workers), o.out))
  }

  function AdvanceStep(c: Config, m: Mem, s: Local): (Mem, Local)
    requires Grounded(c, m, s) && Enabled(c, m, s, Advance)
  {
    match s.stage
    case MintStage => (m, s.(stage := SplitStage, workers := seq(c.workers, _ => Idle)))
    case SplitStage => (m, s.(stage := MoveStage, workers := seq(c.workers, _ => Idle)))
    case MoveStage => (m, s.(stage := DrainStage(None), workers := [Idle]))
    case DrainStage(None) =>
      if s.deferred != [] then (m, s.(stage := DrainStage(Some(s.deferred[0])), deferred := s.deferred[1..]))
      else (m, s.(stage := RecycleStage, workers := s.workers + seq(if c.workers > 0 then c.workers - 1 else 0, _ => Idle)))
    case DrainStage(Some(h)) => (Delete(m, h), s.(stage := DrainStage(None), drained := s.drained + {h}))
    case RecycleStage => (m, s.(stage := JoinStage))
    case JoinStage => (m, s.(stage := DoneStage, trie := Returned))
  }

  function TrieStep(c: Config, s: Local): Local {
    if s.acct != [] then
      s.(acct := s.acct[1..], net := AddRecord(s.net, s.acct[0]), got := s.got + [s.acct[0]])
    else
      s.(st := ApplyNet(s.st, s.net, c.initBalance), trie := Signalling)
  }

  function Next(c: Config, m: Mem, s: Local, a: Action): (Mem, Local)
    requires Grounded(c, m, s) && Enabled(c, m, s, a)
  {
    match a
    case Dispatch =>
      var k := c.txs[s.next].kind;
      (m, s.(next := s.next + 1, queues := s.queues.With(k, s.queues.Of(k) + [s.next])))
    case Close => (m, s.(closed := s.closed + 1))
    case Work(w) => WorkStep(c, m, s, w)
    case Advance => AdvanceStep(c, m, s)
    case Trie => (m, TrieStep(c, s))
  }
}
