/** Commercial guardrails: one versioned configuration, proposed against a version and approved by somebody else. */
module Guardrails {
  import opened Wrappers

  type Id = string

  datatype Config = Config(minimumNetMargin: real, gatewayFee: real)

  datatype Proposal = Proposal(config: Config, maker: Id)

  /** The audit trail: what was current when a change was proposed, and what an approval replaced. */
  datatype Mark =
    | Submitted(maker: Id, config: Config, current: Config, version: int)
    | Applied(approver: Id, config: Config, replaced: Config, version: int)

  datatype Guardrails = Guardrails(config: Config, version: int, pending: Option<Proposal>, trail: seq<Mark>)

  datatype Role = Admin | SuperAdmin

  function Submit(g: Guardrails, actor: Id, config: Config, expected: int): Tx<Guardrails> {
    if g.version != expected then Abort(VersionMismatch)
    else if g.pending.Some? then Abort(ChangePending)
    else Commit(g.(pending := Some(Proposal(config, actor)), trail := g.trail + [Submitted(actor, config, g.config, g.version)]))
  }

  function Approve(g: Guardrails, actor: Id, role: Role): Tx<Guardrails> {
    if role != SuperAdmin then Abort(Forbidden)
    else if g.pending.None? then Abort(NotPending)
    else if g.pending.value.maker == actor then Abort(MakerCannotReview)
    else Commit(Guardrails(g.pending.value.config, g.version + 1, None,
                           g.trail + [Applied(actor, g.pending.value.config, g.config, g.version)]))
  }

  datatype Step = Submits(actor: Id, config: Config, expected: int) | Approves(actor: Id, role: Role)

  function StepTx(g: Guardrails, step: Step): Tx<Guardrails> {
    match step
    case Submits(actor, config, expected) => Submit(g, actor, config, expected)
    case Approves(actor, role) => Approve(g, actor, role)
  }

  function Next(g: Guardrails, step: Step): Guardrails {
    if StepTx(g, step).Commit? then StepTx(g, step).value else g
  }

  function Run(g: Guardrails, steps: seq<Step>): Guardrails {
    if steps == [] then g else Next(Run(g, steps[..|steps| - 1]), steps[|steps| - 1])
  }

  predicate Opening(g: Guardrails) {
    g.pending.None? && g.trail == []
  }

  // ---------- what the trail tells ----------

  function Approvals(trail: seq<Mark>): nat {
    if trail == [] then 0 else Approvals(trail[..|trail| - 1]) + (if trail[|trail| - 1].Applied? then 1 else 0)
  }

  function Current(first: Config, trail: seq<Mark>): Config {
    if trail == [] then first
    else if trail[|trail| - 1].Applied? then trail[|trail| - 1].config
    else Current(first, trail[..|trail| - 1])
  }

  /** Every mark shows the configuration and version current when it was made. */
  predicate MarkTrue(o: Guardrails, trail: seq<Mark>, i: nat)
    requires i < |trail|
  {
    var before := trail[..i];
    && trail[i].version == o.version + Approvals(before)
    && (if trail[i].Submitted? then trail[i].current == Current(o.config, before) else trail[i].replaced == Current(o.config, before))
  }

  /** An approval directly follows the proposal it applies, made by somebody else against the very version it replaces. */
  predicate Answers(proposal: Mark, approval: Mark) {
    && proposal.Submitted? && approval.Applied? && approval.config == proposal.config && approval.approver != proposal.maker
    && approval.version == proposal.version && approval.replaced == proposal.current
  }

  ghost predicate TrailTrue(o: Guardrails, trail: seq<Mark>) {
    && (forall i :: 0 <= i < |trail| ==> MarkTrue(o, trail, i))
    && (forall i :: 0 <= i < |trail| && trail[i].Applied? ==> i > 0 && Answers(trail[i - 1], trail[i]))
    && (forall i, j :: 0 <= i < j < |trail| && j == i + 1 ==> !(trail[i].Submitted? && trail[j].Submitted?))
  }

  ghost predicate Sound(o: Guardrails, g: Guardrails) {
    && TrailTrue(o, g.trail)
    && g.version == o.version + Approvals(g.trail) && g.config == Current(o.config, g.trail)
    && (g.pending.Some? <==> g.trail != [] && g.trail[|g.trail| - 1].Submitted?)
    && (g.pending.Some? ==>
          var last := g.trail[|g.trail| - 1];
          last.config == g.pending.value.config && last.maker == g.pending.value.maker && last.version == g.version && last.current == g.config)
  }

  lemma TrailAppend(o: Guardrails, trail: seq<Mark>, m: Mark)
    requires TrailTrue(o, trail)
    requires m.version == o.version + Approvals(trail)
    requires if m.Submitted? then m.current == Current(o.config, trail) else m.replaced == Current(o.config, trail)
    requires m.Applied? ==> trail != [] && Answers(trail[|trail| - 1], m)
    requires m.Submitted? ==> trail == [] || !trail[|trail| - 1].Submitted?
    ensures TrailTrue(o, trail + [m])
    ensures Approvals(trail + [m]) == Approvals(trail) + (if m.Applied? then 1 else 0)
    ensures Current(o.config, trail + [m]) == if m.Applied? then m.config else Current(o.config, trail)
  {
    var all := trail + [m];
    assert all[..|trail|] == trail;
    forall i | 0 <= i < |all|
      ensures MarkTrue(o, all, i)
    {
      assert all[..i] == trail[..i];
      if i < |trail| { assert MarkTrue(o, trail, i); } else { assert trail[..i] == trail; }
    }
    forall i | 0 <= i < |all| && all[i].Applied?
      ensures i > 0 && Answers(all[i - 1], all[i])
    {
      if i < |trail| { assert i > 0 && Answers(trail[i - 1], trail[i]); }
    }
  }

  lemma StepSound(o: Guardrails, g: Guardrails, step: Step)
    requires Sound(o, g)
    ensures Sound(o, Next(g, step))
  {
    if StepTx(g, step).Commit? {
      var g' := Next(g, step);
      TrailAppend(o, g.trail, g'.trail[|g.trail|]);
    }
  }

  /** No update is lost on any run: the version counts the approvals, and each approval applied the one waiting proposal, by another
      person, to exactly the configuration its proposer saw. */
  lemma {:induction false} RunSound(o: Guardrails, steps: seq<Step>)
    requires Opening(o)
    ensures Sound(o, Run(o, steps))
    decreases |steps|
  {
    hide Sound, Next;
    if steps == [] {
      OpeningSound(o);
    } else {
      RunSound(o, steps[..|steps| - 1]);
      StepSound(o, Run(o, steps[..|steps| - 1]), steps[|steps| - 1]);
    }
  }

  lemma OpeningSound(o: Guardrails)
    requires Opening(o)
    ensures Sound(o, o)
  {
  }

  /** A proposal made for an outdated version, or while another one waits, is refused, and nothing else is. */
  lemma SubmitAcceptedExactly(o: Guardrails, steps: seq<Step>, actor: Id, config: Config, expected: int)
    requires Opening(o)
    ensures var g := Run(o, steps);
            Submit(g, actor, config, expected).Commit? <==>
              expected == o.version + Approvals(g.trail) && (g.trail == [] || g.trail[|g.trail| - 1].Applied?)
  {
    hide Run, TrailTrue, Approvals, Current;
    RunSound(o, steps);
  }

  /** Whatever is asked, the configuration and its version change only when a Super Admin approves somebody else's waiting proposal, and
      then to exactly that proposal. */
  lemma OnlySuperAdminsApply(g: Guardrails, step: Step)
    ensures Next(g, step).config != g.config || Next(g, step).version != g.version ==>
              && step.Approves? && step.role.SuperAdmin? && g.pending.Some? && g.pending.value.maker != step.actor
              && Next(g, step).config == g.pending.value.config && Next(g, step).version == g.version + 1
    ensures step.Approves? && step.role.SuperAdmin? && g.pending.Some? && g.pending.value.maker != step.actor ==>
              Next(g, step).version == g.version + 1 && Next(g, step).pending.None?
  {
  }

  class GuardrailDesk {
    var config: Config
    var version: int
    var pending: Option<Proposal>
    var trail: seq<Mark>

    function Snapshot(): Guardrails
      reads this
    {
      Guardrails(config, version, pending, trail)
    }

    constructor (g: Guardrails)
      ensures Snapshot() == g
    {
      config, version, pending, trail := g.config, g.version, g.pending, g.trail;
    }

    method SubmitCommercialGuardrails(actor: Id, proposed: Config, expected: int) returns (failed: Option<Error>)
      modifies `pending, `trail
      ensures failed.Some? ==> Submit(old(Snapshot()), actor, proposed, expected) == Abort(failed.value) && Snapshot() == old(Snapshot())
      ensures failed.None? ==> Submit(old(Snapshot()), actor, proposed, expected) == Commit(Snapshot())
    {
      if version != expected { return Some(VersionMismatch); }
      if pending.Some? { return Some(ChangePending); }
      pending := Some(Proposal(proposed, actor));
      trail := trail + [Submitted(actor, proposed, config, version)];
      return None;
    }

    method ApproveCommercialGuardrails(actor: Id, role: Role) returns (failed: Option<Error>)
      modifies this
      ensures failed.Some? ==> Approve(old(Snapshot()), actor, role) == Abort(failed.value) && Snapshot() == old(Snapshot())
      ensures failed.None? ==> Approve(old(Snapshot()), actor, role) == Commit(Snapshot())
    {
      if role != SuperAdmin { return Some(Forbidden); }
      if pending.None? { return Some(NotPending); }
      if pending.value.maker == actor { return Some(MakerCannotReview); }
      var proposal := pending.value;
      trail := trail + [Applied(actor, proposal.config, config, version)];
      config := proposal.config;
      version := version + 1;
      pending := None;
      return None;
    }
  }
}
