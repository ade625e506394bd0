/** Whole runs: what holds after any interleaving of agents, vendors, administrators, finance and the expiry sweep. */
module Runs {
  import opened Store
  import opened StoreInvariant

  type Id = string

  lemma StepKeeps(s: State, step: Step)
    requires StateValid(s)
    ensures StateValid(Next(s, step))
  {
    hide StateValid, AgentTx, OperationalTx, ResolveTx, RefundTx, ServeTx, CapacityTx, CreateTx, ExpireLocked, ConfirmTx, RejectTx;
    if StepTx(s, step).Commit? && Next(s, step) != s {
      match step
      case AgentCancels(r, d) => AgentTxKeeps(s, r, d, AgentTx(s, r, d).value.0, AgentTx(s, r, d).value.1);
      case OperationCancels(r, d) => OperationalTxKeeps(s, r, d, OperationalTx(s, r, d).value.0, OperationalTx(s, r, d).value.1);
      case FinanceResolves(r, rid) => ResolveTxKeeps(s, r, rid, ResolveTx(s, r, rid).value);
      case RefundMoves(user, rid, action) => RefundTxKeeps(s, user, rid, action, RefundTx(s, user, rid, action).value);
      case Creates(n) => if n.mode == Instant { CreateInstantKeeps(s, n, CreateTx(s, n).value); } else { CreatePendingKeeps(s, n, CreateTx(s, n).value); }
      case Confirms(id, decider, now, clock, allocation, site) => ConfirmTxKeeps(s, id, decider, now, clock, allocation, site, ConfirmTx(s, id, decider, now, clock, allocation, site).value);
      case Rejects(id, decider, reason, now, failover) => RejectTxKeeps(s, id, decider, reason, now, failover, RejectTx(s, id, decider, reason, now, failover).value);
      case Expires(id, now) => ExpireLockedKeeps(s, id, ExpireLocked(s, id).value);
      case Serves(id, vendor, news) => ServeTxKeeps(s, id, vendor, news, ServeTx(s, id, vendor, news).value);
      case SetsCapacity(session, total, blocked) => CapacityTxKeeps(s, session, total, blocked, CapacityTx(s, session, total, blocked).value);
    }
  }

  /** Whatever the parties do, in whatever order, the store stays valid. */
  lemma {:induction false} RunKeeps(s: State, steps: seq<Step>)
    requires StateValid(s)
    ensures StateValid(Run(s, steps))
    decreases |steps|
  {
    hide StateValid, Next;
    if steps != [] {
      RunKeeps(s, steps[..|steps| - 1]);
      StepKeeps(Run(s, steps[..|steps| - 1]), steps[|steps| - 1]);
    }
  }

  lemma {:induction false} RunComposes(s: State, first: seq<Step>, second: seq<Step>)
    ensures Run(s, first + second) == Run(Run(s, first), second)
    decreases |second|
  {
    hide Next;
    if second == [] {
      assert first + second == first;
    } else {
      var all := first + second;
      assert all[..|all| - 1] == first + second[..|second| - 1];
      RunComposes(s, first, second[..|second| - 1]);
    }
  }
}
