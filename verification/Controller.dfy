/** The channel controller (controller.cc): transaction queues, write merging, read forwarding
    and coalescing, scheduling, issue and completion. Each operation is a function on `State`;
    the class `Controller` (ControllerObject.dfy) carries them out step by step. */
module Controller {
  import opened Basics
  import opened DramTypes
  import opened Channel
  import opened CommandQueues
  import opened RefreshUnit
  import opened History

  /** What the processor asked for; the simulator itself moves no data. */
  datatype Request = Request(addr: nat, isWrite: bool, value: int)

  /** The data that the modelled memory would hold, beside the simulator's own state:
      the accepted requests in order, the DRAM contents, the write buffer contents, the value
      each read obtained, the transactions handed back and the commands issued. */
  datatype Shadow = Shadow(
    log: seq<Request>,
    mem: map<nat, int>,
    buf: map<nat, int>,
    served: map<nat, int>,
    delivered: seq<Transaction>,
    history: seq<Issued>)

  datatype State = State(
    clk: nat,
    ch: Channel,
    cq: Queues,
    rf: Counters,
    unifiedQ: seq<Transaction>,
    readQ: seq<Transaction>,
    writeBuf: seq<Transaction>,
    pendRd: seq<Transaction>,
    pendWr: seq<Transaction>,
    returnQ: seq<Transaction>,
    draining: int,
    shadow: Shadow)

  function Lookup(m: map<nat, int>, a: nat): int {
    if a in m then m[a] else 0
  }

  // ---------------------------------------------------------------- multimaps keyed by address

  predicate HasAddr(q: seq<Transaction>, a: nat) {
    exists i :: 0 <= i < |q| && q[i].addr == a
  }

  function WithAddr(q: seq<Transaction>, a: nat): seq<Transaction> {
    if q == [] then []
    else if q[0].addr == a then [q[0]] + WithAddr(q[1..], a)
    else WithAddr(q[1..], a)
  }

  function WithoutAddr(q: seq<Transaction>, a: nat): seq<Transaction> {
    if q == [] then []
    else if q[0].addr == a then WithoutAddr(q[1..], a)
    else [q[0]] + WithoutAddr(q[1..], a)
  }

  function CompleteAt(q: seq<Transaction>, cycle: nat): (r: seq<Transaction>)
    ensures |r| == |q|
    ensures forall i :: 0 <= i < |q| ==> r[i] == q[i].(complete := cycle)
  {
    seq(|q|, i requires 0 <= i < |q| => q[i].(complete := cycle))
  }

  /** Every read of `q` obtains `value`. */
  function ServeAll(served: map<nat, int>, q: seq<Transaction>, value: int): map<nat, int>
    decreases |q|
  {
    if q == [] then served else ServeAll(served[q[0].serial := value], q[1..], value)
  }

  // ---------------------------------------------------------------- accepting transactions

  predicate WillAcceptTransaction(cfg: Config, s: State, isWrite: bool) {
    if cfg.unifiedQueue then |s.unifiedQ| < cfg.transQueueSize
    else if !isWrite then |s.readQ| < cfg.transQueueSize
    else |s.writeBuf| < cfg.transQueueSize
  }

  function AddTransaction(cfg: Config, s: State, req: Request): State {
    var t := Transaction(req.addr, req.isWrite, s.clk, 0, |s.shadow.log|);
    var logged := s.shadow.(log := s.shadow.log + [req]);
    var done := s.returnQ + [t.(complete := s.clk + 1)];
    if req.isWrite then
      var merged := HasAddr(s.pendWr, req.addr);
      s.(pendWr := if merged then s.pendWr else s.pendWr + [t],
      unifiedQ := if !merged && cfg.unifiedQueue then s.unifiedQ + [t] else s.unifiedQ,
      writeBuf := if !merged && !cfg.unifiedQueue then s.writeBuf + [t] else s.writeBuf,
      returnQ := done,
      shadow := logged.(buf := s.shadow.buf[req.addr := req.value]))
    else if HasAddr(s.pendWr, req.addr) then
      s.(returnQ := done,
      shadow := logged.(served := s.shadow.served[t.serial := Lookup(s.shadow.buf, req.addr)]))
    else
      var coalesced := HasAddr(s.pendRd, req.addr);
      s.(pendRd := s.pendRd + [t],
      unifiedQ := if !coalesced && cfg.unifiedQueue then s.unifiedQ + [t] else s.unifiedQ,
      readQ := if !coalesced && !cfg.unifiedQueue then s.readQ + [t] else s.readQ,
      shadow := logged)
  }

  // ---------------------------------------------------------------- issuing commands

  /** The pending-queue lookup of IssueCommand succeeds. */
  predicate IsPending(s: State, cmd: Command) {
    && (cmd.kind.IsRead() ==> HasAddr(s.pendRd, cmd.hexAddr))
    && (cmd.kind.IsWrite() ==> HasAddr(s.pendWr, cmd.hexAddr))
  }

  /** What issuing does to the pending and return queues, and to the data. */
  function Account(cfg: Config, s: State, cmd: Command): State {
    var a := cmd.hexAddr;
    var recorded := s.shadow.(history := s.shadow.history + [Issued(cmd, s.clk)]);
    if cmd.kind.IsRead() then
      var waiting := WithAddr(s.pendRd, a);
      s.(pendRd := WithoutAddr(s.pendRd, a),
      returnQ := s.returnQ + CompleteAt(waiting, Deadline(s.clk, cfg.ReadDelay())),
      shadow := recorded.(served := ServeAll(s.shadow.served, waiting, Lookup(s.shadow.mem, a))))
    else if cmd.kind.IsWrite() then
      s.(pendWr := DropFirstWrite(s.pendWr, a),
      shadow := recorded.(mem := s.shadow.mem[a := Lookup(s.shadow.buf, a)], buf := s.shadow.buf - {a}))
    else
      s.(shadow := recorded)
  }

  function IssueCommand(cfg: Config, s: State, cmd: Command): (r: Result<State>)
    requires ValidChannel(cfg, s.ch) && Addressed(cfg, cmd)
    ensures r.Ok? ==> ValidChannel(cfg, r.value.ch)
  {
    if !IsPending(s, cmd) then Abort
    else
      var ch :- Issue(cfg, s.ch, cmd, s.clk);
      Ok(Account(cfg, s, cmd).(ch := ch))
  }

  /** pending_wr_q_.erase(find(a)): one entry goes. */
  function DropFirstWrite(q: seq<Transaction>, a: nat): seq<Transaction> {
    if q == [] then [] else if q[0].addr == a then q[1..] else [q[0]] + DropFirstWrite(q[1..], a)
  }

  // ---------------------------------------------------------------- scheduling

  function TransToCommand(cfg: Config, t: Transaction): Command {
    Command(
      if cfg.closePage then (if t.isWrite then WritePrecharge else ReadPrecharge)
      else if t.isWrite then Write else Read,
      cfg.decode(t.addr),
      t.addr)
  }

  lemma TransCommandPlaced(cfg: Config, t: Transaction)
    requires cfg.WellFormed()
    ensures Placed(cfg, TransToCommand(cfg, t), QueueIndex(cfg, TransToCommand(cfg, t).Bank()))
    ensures 0 <= QueueIndex(cfg, TransToCommand(cfg, t).Bank()) < NumQueues(cfg)
  {
    assert cfg.HasBank(Command(Read, cfg.decode(t.addr), t.addr).Bank());
    QueueIndexInRange(cfg, TransToCommand(cfg, t).Bank());
  }

  /** The command queue of `t` has room. */
  predicate Accepts(cfg: Config, cq: Queues, t: Transaction)
    requires cfg.WellFormed() && |cq.queues| == NumQueues(cfg)
  {
    TransCommandPlaced(cfg, t);
    WillAccept(cfg, cq, TransToCommand(cfg, t).Bank())
  }

  function FirstAccepted(cfg: Config, cq: Queues, q: seq<Transaction>, i: nat): (r: Option<nat>)
    requires cfg.WellFormed() && |cq.queues| == NumQueues(cfg)
    requires i <= |q|
    ensures r.Some? ==> i <= r.value < |q| && Accepts(cfg, cq, q[r.value])
    ensures forall j :: i <= j < (if r.Some? then r.value else |q|) ==> !Accepts(cfg, cq, q[j])
    decreases |q| - i
  {
    if i == |q| then None
    else if Accepts(cfg, cq, q[i]) then Some(i)
    else FirstAccepted(cfg, cq, q, i + 1)
  }

  /** The drain counter after the threshold test. */
  function Draining(cfg: Config, s: State): int {
    if s.draining == 0 && !cfg.unifiedQueue
       && (|| |s.writeBuf| >= cfg.transQueueSize
           || (|s.writeBuf| > 8 && AllEmpty(s.cq))
           || |s.readQ| == 0)
    then |s.writeBuf| else s.draining
  }

  /** The transaction queue that this cycle schedules from. */
  function SourceQueue(cfg: Config, s: State): seq<Transaction> {
    if cfg.unifiedQueue then s.unifiedQ else if Draining(cfg, s) > 0 then s.writeBuf else s.readQ
  }

  function ScheduleTransaction(cfg: Config, s: State): State
    requires cfg.WellFormed() && |s.cq.queues| == NumQueues(cfg)
  {
    var draining := Draining(cfg, s);
    var queue := SourceQueue(cfg, s);
    match FirstAccepted(cfg, s.cq, queue, 0)
    case None => s.(draining := draining)
    case Some(i) =>
      var t := queue[i];
      if !cfg.unifiedQueue && t.isWrite && HasAddr(s.pendRd, t.addr) then s.(draining := 0)
      else
        TransCommandPlaced(cfg, t);
        var rest := RemoveAt(queue, i);
        s.(draining := if !cfg.unifiedQueue && t.isWrite then draining - 1 else draining,
        cq := Add(cfg, s.cq, TransToCommand(cfg, t)),
        unifiedQ := if cfg.unifiedQueue then rest else s.unifiedQ,
        writeBuf := if !cfg.unifiedQueue && draining > 0 then rest else s.writeBuf,
        readQ := if !cfg.unifiedQueue && draining <= 0 then rest else s.readQ)
  }

  // ---------------------------------------------------------------- returning transactions

  function FirstDone(q: seq<Transaction>, clk: nat, i: nat): (r: Option<nat>)
    requires i <= |q|
    ensures r.Some? ==> i <= r.value < |q| && clk >= q[r.value].complete
    ensures r.None? ==> forall j :: i <= j < |q| ==> clk < q[j].complete
    decreases |q| - i
  {
    if i == |q| then None else if clk >= q[i].complete then Some(i) else FirstDone(q, clk, i + 1)
  }

  function ReturnDone(s: State, clk: nat): State {
    match FirstDone(s.returnQ, clk, 0)
    case None => s
    case Some(i) =>
      s.(returnQ := RemoveAt(s.returnQ, i), shadow := s.shadow.(delivered := s.shadow.delivered + [s.returnQ[i]]))
  }

  // ---------------------------------------------------------------- one clock cycle

  /** Every queued refresh names an existing rank or bank. */
  predicate RefreshesOk(cfg: Config, q: seq<Command>) {
    forall i :: 0 <= i < |q| ==> q[i].kind.IsRefresh() && Addressed(cfg, q[i])
  }

  /** The parts of the state that the operations index into are well shaped. */
  ghost predicate Shaped(cfg: Config, s: State) {
    && Configured(cfg)
    && ValidChannel(cfg, s.ch)
    && Awake(s.ch)
    && ValidQueues(cfg, s.cq)
    && ValidCounters(cfg, s.rf)
    && RefreshesOk(cfg, s.ch.refreshQ)
  }

  /** The command chosen for this cycle, if any, and the state the choice leaves. */
  datatype Chosen = Chosen(s: State, cmd: Option<Command>)

  ghost predicate ChosenOk(cfg: Config, c: Chosen) {
    && Shaped(cfg, c.s)
    && (c.cmd.Some? ==> Issuable(cfg, c.s.ch, c.cmd.value, c.s.cq.clk) && !c.cmd.value.kind.SrefEnter?)
  }

  function RefreshPhase(cfg: Config, s: State): (r: State)
    requires Shaped(cfg, s)
    ensures Shaped(cfg, r)
  {
    s.(rf := Tick(cfg, s.rf), ch := s.ch.(refreshQ := s.ch.refreshQ + Inserted(cfg, s.rf)))
  }

  function FinishPhase(cfg: Config, s: State): (r: Result<Chosen>)
    requires Shaped(cfg, s)
    ensures r.Ok? ==> ChosenOk(cfg, r.value)
  {
    if s.ch.refreshQ == [] then Ok(Chosen(s, None))
    else
      var f :- RefreshStep(cfg, s.ch, s.cq);
      FinishIsLegal(cfg, s);
      Ok(Chosen(s.(cq := f.qs), f.cmd))
  }

  lemma FinishIsLegal(cfg: Config, s: State)
    requires Shaped(cfg, s) && s.ch.refreshQ != []
    ensures var r := RefreshStep(cfg, s.ch, s.cq);
            && r.Ok?
            && ValidQueues(cfg, r.value.qs)
            && (r.value.cmd.Some? ==> Issuable(cfg, s.ch, r.value.cmd.value, s.cq.clk) && !r.value.cmd.value.kind.SrefEnter?)
  {
    ReadyIsIssuable(cfg, s.ch, s.ch.refreshQ[0], s.cq.clk);
    if s.ch.refreshQ[0].kind.Refresh? {
      RankReadyMeaning(cfg, s.ch, s.ch.refreshQ[0], s.cq.clk, 0, 0, 0);
    }
  }

  function TakePhase(cfg: Config, s: State): (r: Result<Chosen>)
    requires Shaped(cfg, s)
    ensures r.Ok? ==> ChosenOk(cfg, r.value)
  {
    var t :- Take(cfg, s.ch, s.cq, NumQueues(cfg));
    TakeIsLegal(cfg, s.ch, s.cq, NumQueues(cfg));
    Ok(Chosen(s.(cq := t.qs), if t.pick.None? then None else Some(t.pick.value.cmd)))
  }

  /** A refresh-related command if there is one, otherwise the next command from the queues. */
  function ChoosePhase(cfg: Config, s: State): (r: Result<Chosen>)
    requires Shaped(cfg, s)
    ensures r.Ok? ==> ChosenOk(cfg, r.value)
  {
    var finished :- FinishPhase(cfg, s);
    if finished.cmd.Some? then Ok(finished) else TakePhase(cfg, finished.s)
  }

  /** The second command of a dual issue. It is issued if it is of the other class than the
      first; a second column command is taken from its queue but not issued. */
  function SecondPhase(cfg: Config, s: State, first: Command): (r: Result<State>)
    requires Shaped(cfg, s)
    ensures r.Ok? ==> Shaped(cfg, r.value)
  {
    var second :- TakePhase(cfg, s);
    if second.cmd.Some? && second.cmd.value.kind.IsReadWrite() != first.kind.IsReadWrite() then
      IssueIsShaped(cfg, second.s, second.cmd.value);
      IssueCommand(cfg, second.s, second.cmd.value)
    else Ok(second.s)
  }

  function IssuePhase(cfg: Config, c: Chosen): (r: Result<State>)
    requires ChosenOk(cfg, c)
    ensures r.Ok? ==> Shaped(cfg, r.value)
  {
    if c.cmd.None? then Ok(c.s)
    else
      IssueIsShaped(cfg, c.s, c.cmd.value);
      var first :- IssueCommand(cfg, c.s, c.cmd.value);
      if cfg.dualCommand then SecondPhase(cfg, first, c.cmd.value) else Ok(first)
  }

  function ConcludePhase(cfg: Config, s: State): (r: State)
    requires Shaped(cfg, s)
    ensures Shaped(cfg, r)
  {
    ScheduleIsShaped(cfg, s);
    var scheduled := ScheduleTransaction(cfg, s);
    scheduled.(clk := scheduled.clk + 1, cq := scheduled.cq.(clk := scheduled.cq.clk + 1))
  }

  function ClockTick(cfg: Config, s: State): (r: Result<State>)
    requires Shaped(cfg, s)
    ensures r.Ok? ==> Shaped(cfg, r.value)
  {
    var chosen :- ChoosePhase(cfg, RefreshPhase(cfg, s));
    var issued :- IssuePhase(cfg, chosen);
    Ok(ConcludePhase(cfg, issued))
  }

  // ---------------------------------------------------------------- shape lemmas

  /** Taking a command never aborts; what it takes is legal now, was eligible where it stood, and
      does not come from a queue that waits for a refresh. */
  ghost predicate TakenOk(cfg: Config, ch: Channel, qs: Queues, t: Taken)
    requires ValidChannel(cfg, ch) && ValidQueues(cfg, qs)
  {
    && ValidQueues(cfg, t.qs)
    && t.qs.inRef == qs.inRef && t.qs.refIdx == qs.refIdx && t.qs.clk == qs.clk
    && match t.pick
       case None => t.qs.queues == qs.queues
       case Some(p) =>
         && p.queue < NumQueues(cfg)
         && !(qs.inRef && p.queue in qs.refIdx)
         && p.pos < |qs.queues[p.queue]|
         && var q := qs.queues[p.queue];
         && Placed(cfg, q[p.pos], p.queue)
         && p.cmd.addr == q[p.pos].addr
         && GetReady(cfg, ch, q[p.pos], qs.clk) == Ok(Some(p.cmd))
         && !p.cmd.kind.IsRankCommand() && !p.cmd.kind.IsRefresh()
         && Issuable(cfg, ch, p.cmd, qs.clk)
         && Eligible(ch, q, p.pos, p.cmd)
         && if p.cmd.kind.IsReadWrite() then
              && q[p.pos] == p.cmd
              && exists i: nat :: i < |q| && q[i] == p.cmd && t.qs.queues == qs.queues[p.queue := RemoveAt(q, i)]
            else
              t.qs.queues == qs.queues
  }

  lemma {:induction false} TakeIsLegal(cfg: Config, ch: Channel, qs: Queues, n: nat)
    requires ValidChannel(cfg, ch) && Awake(ch) && ValidQueues(cfg, qs)
    ensures Take(cfg, ch, qs, n).Ok?
    ensures TakenOk(cfg, ch, qs, Take(cfg, ch, qs, n).value)
    decreases n
  {
    if n > 0 {
      var next := qs.(idx := NextIndex(cfg, qs.idx));
      if next.inRef && next.idx in next.refIdx {
        TakeIsLegal(cfg, ch, next, n - 1);
      } else {
        FirstReadyIsOk(cfg, ch, next.queues[next.idx], next.idx, next.clk, 0);
        var r := FirstReady(cfg, ch, next.queues[next.idx], next.idx, next.clk, 0).value;
        if r.None? {
          TakeIsLegal(cfg, ch, next, n - 1);
        } else {
          PickIsLegal(cfg, ch, next, r.value);
        }
      }
    }
  }

  /** What is left when the queue at the index yields a command. */
  function AfterPick(cfg: Config, qs: Queues, p: Pick): Result<Taken>
    requires ValidQueues(cfg, qs) && 0 <= QueueIndex(cfg, p.cmd.Bank()) < NumQueues(cfg)
  {
    if p.cmd.kind.IsReadWrite() then
      var erased :- Erase(cfg, qs, p.cmd);
      Ok(Taken(erased, Some(p)))
    else Ok(Taken(qs, Some(p)))
  }

  lemma PickIsLegal(cfg: Config, ch: Channel, qs: Queues, p: Pick)
    requires ValidChannel(cfg, ch) && Awake(ch) && ValidQueues(cfg, qs)
    requires !(qs.inRef && qs.idx in qs.refIdx)
    requires FirstReady(cfg, ch, qs.queues[qs.idx], qs.idx, qs.clk, 0) == Ok(Some(p))
    ensures 0 <= QueueIndex(cfg, p.cmd.Bank()) < NumQueues(cfg)
    ensures AfterPick(cfg, qs, p).Ok? && TakenOk(cfg, ch, qs, AfterPick(cfg, qs, p).value)
  {
    var q := qs.queues[qs.idx];
    FirstReadyMeaning(cfg, ch, q, qs.idx, qs.clk, 0);
    ReadyIsIssuable(cfg, ch, q[p.pos], qs.clk);
    QueueIndexInRange(cfg, q[p.pos].Bank());
    if p.cmd.kind.IsReadWrite() {
      EraseIsLegal(cfg, qs, p);
    }
  }

  lemma {:induction false} FirstReadyIsOk(cfg: Config, ch: Channel, q: seq<Command>, k: nat, clk: nat, j: nat)
    requires ValidChannel(cfg, ch) && Awake(ch) && AllPlaced(cfg, q, k)
    requires j <= |q|
    ensures FirstReady(cfg, ch, q, k, clk, j).Ok?
    decreases |q| - j
  {
    if j < |q| {
      assert Placed(cfg, q[j], k);
      ReadyIsIssuable(cfg, ch, q[j], clk);
      FirstReadyIsOk(cfg, ch, q, k, clk, j + 1);
    }
  }

  /** EraseRWCommand finds the command it looks for, and removes an equal one. */
  lemma EraseIsLegal(cfg: Config, qs: Queues, p: Pick)
    requires ValidQueues(cfg, qs)
    requires p.queue < NumQueues(cfg) && p.pos < |qs.queues[p.queue]| && qs.queues[p.queue][p.pos] == p.cmd
    ensures QueueIndex(cfg, p.cmd.Bank()) == p.queue
    ensures Erase(cfg, qs, p.cmd).Ok?
    ensures ValidQueues(cfg, Erase(cfg, qs, p.cmd).value)
    ensures exists i: nat :: i < |qs.queues[p.queue]| && qs.queues[p.queue][i] == p.cmd
                             && Erase(cfg, qs, p.cmd).value == qs.(queues := qs.queues[p.queue := RemoveAt(qs.queues[p.queue], i)])
  {
    var q := qs.queues[p.queue];
    assert AllPlaced(cfg, q, p.queue);
    assert Placed(cfg, q[p.pos], p.queue);
    var i := FindCommand(q, p.cmd, 0).value;
    assert Placed(cfg, q[i], p.queue);
    assert q[i] == p.cmd;
    assert AllPlaced(cfg, RemoveAt(q, i), p.queue);
  }

  lemma {:induction false} DropRankKeepsOk(cfg: Config, q: seq<Command>, rank: int)
    requires RefreshesOk(cfg, q)
    ensures RefreshesOk(cfg, DropRank(q, rank))
  {
    if q != [] {
      DropRankKeepsOk(cfg, q[1..], rank);
    }
  }

  lemma {:induction false} DropBankKeepsOk(cfg: Config, q: seq<Command>, b: BankId)
    requires RefreshesOk(cfg, q)
    ensures RefreshesOk(cfg, DropBank(q, b))
  {
    if q != [] {
      DropBankKeepsOk(cfg, q[1..], b);
    }
  }

  lemma IssueIsShaped(cfg: Config, s: State, cmd: Command)
    requires Shaped(cfg, s) && Addressed(cfg, cmd) && !cmd.kind.SrefEnter?
    ensures IssueCommand(cfg, s, cmd).Ok? ==> Shaped(cfg, IssueCommand(cfg, s, cmd).value)
  {
    if IssueCommand(cfg, s, cmd).Ok? {
      DropRankKeepsOk(cfg, s.ch.refreshQ, cmd.addr.rank);
      DropBankKeepsOk(cfg, s.ch.refreshQ, cmd.Bank());
      IssueKeepsAwake(cfg, s.ch, cmd, s.clk);
    }
  }

  lemma ScheduleIsShaped(cfg: Config, s: State)
    requires Shaped(cfg, s)
    ensures Shaped(cfg, ScheduleTransaction(cfg, s))
  {
    var queue := SourceQueue(cfg, s);
    var i := FirstAccepted(cfg, s.cq, queue, 0);
    if i.Some? {
      TransCommandPlaced(cfg, queue[i.value]);
      var cmd := TransToCommand(cfg, queue[i.value]);
      var k := QueueIndex(cfg, cmd.Bank());
      assert AllPlaced(cfg, s.cq.queues[k], k);
      assert AllPlaced(cfg, s.cq.queues[k] + [cmd], k);
    }
  }
}
