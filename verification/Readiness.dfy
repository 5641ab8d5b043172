/** When a command is ready, in terms of the commands issued before it: it is held back by a timing
    rule or an activation window, and by nothing else. */
module Readiness {
  import opened Basics
  import opened DramTypes
  import opened Bank
  import opened Channel
  import opened History
  import opened Controller
  import opened Runs
  import opened TimingLaws

  // ---------------------------------------------------------------- activation windows

  /** `limit` activations lie within the last `cycles` cycles. */
  predicate Crowded(acts: seq<nat>, limit: nat, cycles: int, clk: nat) {
    |acts| >= limit > 0 && clk < Deadline(acts[|acts| - limit], cycles)
  }

  lemma WindowRefusesIff(window: seq<nat>, acts: seq<nat>, limit: nat, cycles: int, clk: nat)
    requires limit > 0 && WindowMatches(window, acts, limit, cycles)
    requires forall i :: 0 <= i < |acts| ==> acts[i] <= clk
    ensures !WindowOk(window, limit, clk) <==> Crowded(acts, limit, cycles, clk)
  {
  }

  /** The rank of an activation has had too many of them lately. */
  predicate Refused(cfg: Config, h: seq<Issued>, rank: int, clk: nat) {
    var acts := Activations(h, rank);
    Crowded(acts, 4, cfg.tFAW, clk) || (cfg.IsGDDR() && Crowded(acts, 32, cfg.t32AW, clk))
  }

  /** An activation of a rank is refused exactly when four earlier ones lie within tFAW or, for GDDR,
      32 within t32AW. */
  lemma ActivationRefusedIff(cfg: Config, states: seq<State>, inputs: seq<Input>, n: nat, rank: int, clk: nat)
    requires Behaviour(cfg, states, inputs) && n < |states| && 0 <= rank < cfg.ranks && clk >= states[n].clk
    ensures |states[n].ch.fourAw| == |states[n].ch.thirtyTwoAw| == cfg.ranks
    ensures !ActivationWindowOk(cfg, states[n].ch, rank, clk) <==> Refused(cfg, states[n].shadow.history, rank, clk)
  {
    BehaviourKeepsInv(cfg, states, inputs, n);
    var s := states[n];
    var acts := Activations(s.shadow.history, rank);
    ActivationsBefore(s.shadow.history, rank, clk);
    WindowRefusesIff(s.ch.fourAw[rank], acts, 4, cfg.tFAW, clk);
    if cfg.IsGDDR() {
      WindowRefusesIff(s.ch.thirtyTwoAw[rank], acts, 32, cfg.t32AW, clk);
    }
  }

  // ---------------------------------------------------------------- readiness

  /** No rule towards a `kind` command at the bank is still running. */
  ghost predicate RulesMet(cfg: Config, h: seq<Issued>, b: BankId, kind: CommandType, clk: nat) {
    forall i: nat, cycles :: i < |h| && Rule(cfg, h[i].cmd, b, kind, cycles) ==> clk >= Deadline(h[i].clk, cycles)
  }

  lemma EntryMetIff(cfg: Config, states: seq<State>, inputs: seq<Input>, n: nat, b: BankId, kind: CommandType, clk: nat)
    requires Behaviour(cfg, states, inputs) && n < |states| && cfg.HasBank(b)
    ensures b in states[n].ch.banks
    ensures clk >= states[n].ch.banks[b].timing[Slot(kind)] <==> RulesMet(cfg, states[n].shadow.history, b, kind, clk)
  {
    EntryIsLatestRule(cfg, states, inputs, n, b, kind);
  }

  /** What the bank needs next for a read or write, by the row that the history has left open. */
  function Needs(h: seq<Issued>, cmd: Command): CommandType {
    match OpenRow(h, cmd.Bank())
    case None => Activate
    case Some(row) => if row == cmd.addr.row then cmd.kind else Precharge
  }

  lemma NeedsRow(cfg: Config, states: seq<State>, inputs: seq<Input>, n: nat, cmd: Command)
    requires Behaviour(cfg, states, inputs) && n < |states| && cfg.HasBank(cmd.Bank()) && cmd.kind.IsReadWrite()
    ensures cmd.Bank() in states[n].ch.banks
    ensures Required(states[n].ch.banks[cmd.Bank()], cmd) == Ok(Needs(states[n].shadow.history, cmd))
  {
    BehaviourKeepsInv(cfg, states, inputs, n);
    var s := states[n];
    assert OpenRow(s.shadow.history, cmd.Bank()) == RowOf(s.ch.banks[cmd.Bank()]);
    assert !s.ch.banks[cmd.Bank()].state.SelfRefresh?;
  }

  /** In every run, GetReadyCommand answers a read or write with the command that its bank needs
      next, and answers nothing exactly while a timing rule towards that command is running or its
      activation is refused. */
  lemma ReadyIff(cfg: Config, states: seq<State>, inputs: seq<Input>, n: nat, cmd: Command, clk: nat)
    requires Behaviour(cfg, states, inputs) && n < |states| && clk >= states[n].clk
    requires cfg.HasBank(cmd.Bank()) && cmd.kind.IsReadWrite()
    ensures ValidChannel(cfg, states[n].ch)
    ensures var h := states[n].shadow.history;
            var next := Needs(h, cmd);
            var free := RulesMet(cfg, h, cmd.Bank(), next, clk) && !(next.Activate? && Refused(cfg, h, cmd.addr.rank, clk));
            GetReady(cfg, states[n].ch, cmd, clk) == Ok(if free then Some(Command(next, cmd.addr, cmd.hexAddr)) else None)
  {
    BehaviourKeepsInv(cfg, states, inputs, n);
    var next := Needs(states[n].shadow.history, cmd);
    NeedsRow(cfg, states, inputs, n, cmd);
    EntryMetIff(cfg, states, inputs, n, cmd.Bank(), next, clk);
    ActivationRefusedIff(cfg, states, inputs, n, cmd.addr.rank, clk);
  }
}
