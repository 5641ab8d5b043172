/** What every run of the controller guarantees, for every configuration and every sequence of
    submissions, ticks and hand-backs. */
module ControllerTheorems {
  import opened DramTypes
  import opened Timing
  import opened Bank
  import opened CommandQueues
  import opened RefreshUnit
  import opened History
  import opened Controller
  import opened Ordering
  import opened OrderingSchedule
  import opened DualIssue
  import opened Runs
  import opened LostCommands

  /** No AbruptExit and no exit(1) is reachable: every sequence of inputs has a behaviour. */
  lemma {:induction false} NoRunAborts(cfg: Config, inputs: seq<Input>) returns (states: seq<State>)
    requires Configured(cfg)
    ensures Behaviour(cfg, states, inputs)
  {
    if inputs == [] {
      states := [InitialState(cfg)];
    } else {
      var n := |inputs| - 1;
      var before := NoRunAborts(cfg, inputs[..n]);
      var s' := NextStep(cfg, before, inputs[..n], inputs[n]);
      Extend(cfg, before, inputs[..n], inputs[n], s');
      assert inputs[..n] + [inputs[n]] == inputs;
      states := before + [s'];
    }
  }

  /** A handed-back read returns the value of the latest write to its address that was accepted
      before it, and is the accepted request it claims to be. */
  lemma ReadsReturnLatestWrite(cfg: Config, states: seq<State>, inputs: seq<Input>, n: nat, i: nat)
    requires Behaviour(cfg, states, inputs) && n < |states|
    requires i < |states[n].shadow.delivered|
    ensures var sh := states[n].shadow;
            var t := sh.delivered[i];
            && t.serial < |sh.log|
            && sh.log[t.serial].addr == t.addr && sh.log[t.serial].isWrite == t.isWrite
            && (!t.isWrite ==> t.serial in sh.served && sh.served[t.serial] == Latest(sh.log, t.serial, t.addr))
  {
    BehaviourKeepsInv(cfg, states, inputs, n);
    var sh := states[n].shadow;
    assert Answered(sh, sh.delivered[i]);
  }

  /** `Latest` is the value of the last write in the prefix, or 0 if there is none. */
  lemma {:induction false} LatestIsLast(log: seq<Request>, n: nat, a: nat)
    requires n <= |log|
    ensures || (Latest(log, n, a) == 0 && forall k :: 0 <= k < n ==> !(log[k].isWrite && log[k].addr == a))
            || exists k :: 0 <= k < n && log[k].isWrite && log[k].addr == a && log[k].value == Latest(log, n, a)
                           && forall m :: k < m < n ==> !(log[m].isWrite && log[m].addr == a)
  {
    if n > 0 && !(log[n - 1].isWrite && log[n - 1].addr == a) {
      LatestIsLast(log, n - 1, a);
    }
  }

  /** Each accepted request is in exactly one of three places, once: handed back, in the return
      queue, or pending as a read. */
  lemma EveryRequestOnce(cfg: Config, states: seq<State>, inputs: seq<Input>, n: nat, k: nat)
    requires Behaviour(cfg, states, inputs) && n < |states|
    ensures var s := states[n];
            Serials(s.shadow.delivered)[k] + Serials(s.returnQ)[k] + Serials(s.pendRd)[k]
            == if k < |s.shadow.log| then 1 else 0
  {
    BehaviourKeepsInv(cfg, states, inputs, n);
    BelowCounts(|states[n].shadow.log|, k);
  }

  /** The drain counter stays between zero and the length of the write buffer. */
  lemma DrainCounterBounded(cfg: Config, states: seq<State>, inputs: seq<Input>, n: nat)
    requires Behaviour(cfg, states, inputs) && n < |states|
    ensures var s := states[n];
            0 <= s.draining <= |s.writeBuf|
  {
    BehaviourKeepsInv(cfg, states, inputs, n);
  }

  /** As long as no tick has lost a command, each address waits in the queues exactly as it is
      pending: one read entry while reads of it are pending, ahead of one write entry while a
      write of it is pending. */
  lemma OneEntryPerPendingAddress(cfg: Config, states: seq<State>, inputs: seq<Input>, n: nat, a: nat)
    requires Behaviour(cfg, states, inputs) && n < |states| && LosesNothing(cfg, states, inputs, n)
    ensures |states[n].cq.queues| == NumQueues(cfg)
    ensures var s := states[n];
            Line(cfg, s, a) == (if HasAddr(s.pendRd, a) then [false] else []) + (if HasAddr(s.pendWr, a) then [true] else [])
  {
    ExactWhileNothingIsLost(cfg, states, inputs, n);
    var s := states[n];
    assert Line(cfg, s, a) == Expected(s, a);
  }

  /** IsAllQueueEmpty. */
  predicate AllQueuesEmpty(cfg: Config, s: State) {
    && s.returnQ == []
    && AllEmpty(s.cq)
    && (if cfg.unifiedQueue then s.unifiedQ == [] else s.readQ == [] && s.writeBuf == [])
  }

  /** When no tick has lost a command and the controller reports all queues empty, every accepted
      request has been handed back exactly once. */
  lemma EmptyMeansAllDelivered(cfg: Config, states: seq<State>, inputs: seq<Input>, n: nat)
    requires Behaviour(cfg, states, inputs) && n < |states| && LosesNothing(cfg, states, inputs, n)
    requires AllQueuesEmpty(cfg, states[n])
    ensures var s := states[n];
            Serials(s.shadow.delivered) == Below(|s.shadow.log|) && s.pendRd == [] && s.pendWr == []
  {
    BehaviourKeepsInv(cfg, states, inputs, n);
    ExactWhileNothingIsLost(cfg, states, inputs, n);
    var s := states[n];
    forall a: nat
      ensures !HasAddr(s.pendRd, a) && !HasAddr(s.pendWr, a)
    {
      assert Line(cfg, s, a) == Expected(s, a);
      HomeInRange(cfg, a);
      assert s.cq.queues[Home(cfg, a)] == [];
      assert Waiting(cfg, s) == [];
    }
    if s.pendRd != [] {
      assert HasAddr(s.pendRd, s.pendRd[0].addr);
    }
    if s.pendWr != [] {
      assert HasAddr(s.pendWr, s.pendWr[0].addr);
    }
  }

  /** Every command keeps the gap to every earlier command of the run that constrains it at one
      of its banks. */
  lemma EveryGapIsKept(cfg: Config, states: seq<State>, inputs: seq<Input>, n: nat, i: nat, j: nat, b: BankId, g: Gap)
    requires Behaviour(cfg, states, inputs) && n < |states|
    requires i < j < |states[n].shadow.history| && cfg.HasBank(b)
    requires var h := states[n].shadow.history;
             Governs(h[j].cmd, b) && g in Constraints(cfg, h[i].cmd, b) && g.next == h[j].cmd.kind
    ensures var h := states[n].shadow.history;
            h[j].clk >= h[i].clk + g.cycles
  {
    BehaviourKeepsInv(cfg, states, inputs, n);
    var h := states[n].shadow.history;
    assert KeepsGaps(cfg, h, i, j);
    assert Imposes(cfg, h, i, b, h[j].cmd.kind, g);
  }

  /** Every table entry is the maximum, over all commands issued so far, of issue cycle plus gap:
      no constraint is missed and none is invented. */
  lemma TableEntryIsMaximum(cfg: Config, states: seq<State>, inputs: seq<Input>, n: nat, b: BankId, kind: CommandType)
    requires Behaviour(cfg, states, inputs) && n < |states| && cfg.HasBank(b)
    ensures var s := states[n];
            var h := s.shadow.history;
            b in s.ch.banks
            && var entry := s.ch.banks[b].timing[Slot(kind)];
            && (forall i: nat, g :: i < |h| && Imposes(cfg, h, i, b, kind, g) ==> Deadline(h[i].clk, g.cycles) <= entry)
            && (entry == 0 || exists i: nat, g :: i < |h| && Imposes(cfg, h, i, b, kind, g) && Deadline(h[i].clk, g.cycles) == entry)
  {
    BehaviourKeepsInv(cfg, states, inputs, n);
    BoundIsMaximum(cfg, states[n].shadow.history, b, kind);
  }

  /** In every run the (i+4)-th activation of a rank comes at least tFAW after the i-th, and for
      GDDR the (i+32)-th at least t32AW after the i-th. */
  lemma ActivationWindowsHold(cfg: Config, states: seq<State>, inputs: seq<Input>, n: nat, rank: int, i: nat)
    requires Behaviour(cfg, states, inputs) && n < |states| && 0 <= rank < cfg.ranks
    ensures var acts := Activations(states[n].shadow.history, rank);
            && (i + 4 < |acts| ==> acts[i + 4] >= acts[i] + cfg.tFAW)
            && (cfg.IsGDDR() && i + 32 < |acts| ==> acts[i + 32] >= acts[i] + cfg.t32AW)
  {
    BehaviourKeepsInv(cfg, states, inputs, n);
    var acts := Activations(states[n].shadow.history, rank);
    assert WindowLegal(acts, 4, cfg.tFAW);
  }

  /** Every read and write of every run meets its own row: the last command before it that opened
      or closed a row of its bank is an activation of that row. */
  lemma ColumnsMeetTheirRow(cfg: Config, states: seq<State>, inputs: seq<Input>, n: nat, j: nat) returns (i: nat)
    requires Behaviour(cfg, states, inputs) && n < |states|
    requires j < |states[n].shadow.history| && states[n].shadow.history[j].cmd.kind.IsReadWrite()
    ensures var h := states[n].shadow.history;
            && i < j
            && h[i].cmd.kind.Activate? && h[i].cmd.Bank() == h[j].cmd.Bank() && h[i].cmd.addr.row == h[j].cmd.addr.row
            && forall k :: i < k < j ==> !ChangesRow(h[k].cmd, h[j].cmd.Bank())
  {
    BehaviourKeepsInv(cfg, states, inputs, n);
    var h := states[n].shadow.history;
    assert MeetsRow(h, j);
    i := OpenRowMeaning(h[..j], h[j].cmd.Bank());
    assert forall k :: i < k < j ==> h[..j][k] == h[k];
  }
}
