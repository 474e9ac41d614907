/**
 * The four-step case workflow (components/CaseWorkflow.tsx): Intake,
 * Proposal, Contract, Payment. The workflow keeps the current step and
 * the last proposal the builder reported. The builder is mounted only
 * while the Proposal step is shown; it is created afresh, with its
 * default state, each time that step is entered.
 *
 * `State` and `Next` are the workflow's own two state cells and
 * handlers; `Session` adds the mounted builder's form, and `Act` runs a
 * user action on both, including the builder's report to the workflow.
 */
module Workflow {
  import opened Types
  import opened Builder

  datatype StepInfo = StepInfo(id: int, name: string)

  /** The steps, in order. */
  const Steps: seq<StepInfo> :=
    [StepInfo(1, "Intake"), StepInfo(2, "Proposal"), StepInfo(3, "Contract"), StepInfo(4, "Payment")]

  /** Step `k` sits at position `k - 1`, so the stepper lists the steps
      in the order the workflow visits them. */
  lemma StepIdsArePositions()
    ensures forall i :: 0 <= i < |Steps| ==> Steps[i].id == i + 1
  {
  }

  /** The list price the workflow passes to the builder. */
  const TreatmentCost: real := 5500.0

  // ----- What the stepper shows -----

  /** How much of the progress bar is filled, as a fraction. */
  function Progress(step: int): (r: real)
    requires 1 <= step <= |Steps|
    ensures 0.0 <= r <= 1.0
    ensures r == 0.0 <==> step == 1
    ensures r == 1.0 <==> step == |Steps|
  {
    (step - 1) as real / (|Steps| - 1) as real
  }

  /** Each step forward fills more of the bar. */
  lemma ProgressStrictlyIncreasing(a: int, b: int)
    requires 1 <= a < b <= |Steps|
    ensures Progress(a) < Progress(b)
  {
  }

  /** A step shows a check mark once the workflow is past it. */
  predicate ShowsCheck(step: int, s: StepInfo) {
    step > s.id
  }

  /** A step is highlighted once the workflow has reached it. */
  predicate IsHighlighted(step: int, s: StepInfo) {
    step >= s.id
  }

  /** Every checked step is highlighted, and the current step is
      highlighted without a check. */
  lemma MarkersAgree(step: int, s: StepInfo)
    ensures ShowsCheck(step, s) ==> IsHighlighted(step, s)
    ensures s.id == step ==> IsHighlighted(step, s) && !ShowsCheck(step, s)
  {
  }

  /** How many of `steps` show a check mark. */
  function CheckedCount(step: int, steps: seq<StepInfo>): (n: nat)
    ensures n <= |steps|
    ensures n == |steps| <==> forall i :: 0 <= i < |steps| ==> ShowsCheck(step, steps[i])
    ensures n == 0 <==> forall i :: 0 <= i < |steps| ==> !ShowsCheck(step, steps[i])
  {
    if steps == [] then 0
    else (if ShowsCheck(step, steps[0]) then 1 else 0) + CheckedCount(step, steps[1..])
  }

  /** At step `k` exactly the `k - 1` earlier steps show a check mark. */
  lemma CheckedCountIsStepsBehind(step: int)
    requires 1 <= step <= |Steps|
    ensures CheckedCount(step, Steps) == step - 1
  {
  }

  // ----- The workflow's own state -----

  /** The buttons of the workflow (the builder's controls are `Handler`s). */
  datatype Button = Continue | Back | ReviewAndSign | Sign

  /** What reaches the workflow: a button press, or the builder's report
      of a valid proposal. */
  datatype Event = Press(b: Button) | ProposalValid(p: Proposal)

  datatype State = State(step: int, proposal: Option<Proposal>)

  /** Step 1, no proposal yet. */
  const Init: State := State(1, None)

  /** The workflow's handlers. Each button exists only on its own step, and
      "Review & Sign" is disabled until a proposal has been received; the
      builder, and with it its report, exists only on step 2. Anything
      else leaves the state as it is. */
  function Next(s: State, e: Event): State {
    match e
    case Press(Continue) => if s.step == 1 then s.(step := 2) else s
    case Press(Back) => if s.step == 2 then s.(step := 1) else s
    case Press(ReviewAndSign) => if s.step == 2 && s.proposal.Some? then s.(step := 3) else s
    case Press(Sign) => if s.step == 3 then s.(step := 4) else s
    case ProposalValid(p) => if s.step == 2 then s.(proposal := Some(p)) else s
  }

  /** The states the workflow can be in: a step between 1 and 4, and a
      proposal on hand on every step after the proposal step. */
  predicate Inv(s: State) {
    1 <= s.step <= |Steps| && (s.step >= 3 ==> s.proposal.Some?)
  }

  /** The only moves are 1 to 2, 2 to 1, 2 to 3 and 3 to 4; the move to 3
      needs a proposal; step 4 is final; a proposal, once received, is
      never dropped; no button changes the proposal, so only the builder's
      report sets it; and the invariant is kept. */
  lemma NextMoves(s: State, e: Event)
    requires Inv(s)
    ensures var t := Next(s, e);
      Inv(t)
      && (t.step == s.step
          || (s.step == 1 && t.step == 2) || (s.step == 2 && t.step == 1)
          || (s.step == 2 && t.step == 3) || (s.step == 3 && t.step == 4))
      && (s.step == 2 && t.step == 3 ==> s.proposal.Some?)
      && (s.step == 4 ==> t == s)
      && (s.proposal.Some? ==> t.proposal.Some?)
      && (e.Press? ==> t.proposal == s.proposal)
  {
  }

  /** The workflow after a sequence of events. */
  function Run(s: State, es: seq<Event>): State
    decreases |es|
  {
    if es == [] then s else Run(Next(s, es[0]), es[1..])
  }

  /** Every state reached from the initial state satisfies the invariant,
      and a received proposal survives any later events. */
  lemma {:induction false} RunKeepsInv(s: State, es: seq<Event>)
    requires Inv(s)
    ensures Inv(Run(s, es))
    ensures s.proposal.Some? ==> Run(s, es).proposal.Some?
    decreases |es|
  {
    if es != [] {
      NextMoves(s, es[0]);
      RunKeepsInv(Next(s, es[0]), es[1..]);
    }
  }

  /** The contract summary's monthly figure: the proposal's balance over
      its term, rounded; it is shown only for financed proposals. */
  function SummaryMonthly(p: Proposal): (m: int)
    requires !p.isPayInFull && 0 < p.termMonths
    ensures var perMonth := (p.treatmentCost - p.downPayment - p.insuranceEstimate) / p.termMonths as real;
      perMonth - 0.5 < m as real <= perMonth + 0.5
  {
    Round((p.treatmentCost - p.downPayment - p.insuranceEstimate) / p.termMonths as real)
  }

  /** On a valid financed deal the contract summary shows the same monthly
      figure as the builder's results card. */
  lemma SummaryMatchesBuilder(f: Form)
    requires IsDCEValid(f) && !f.payInFull
    ensures SummaryMonthly(ProposalOf(f)) == Round(MonthlyPayment(f))
  {
  }

  // ----- The workflow together with the mounted builder -----

  /** The workflow's state and, while step 2 is shown, the builder's form. */
  datatype Session = Session(flow: State, form: Option<Form>)

  /** A user action: a workflow button, or a control of the builder. */
  datatype Action = Click(b: Button) | Edit(h: Handler)

  const InitSession: Session := Session(Init, None)

  /** A render of the builder with form `f`: its effect reports the record
      to the workflow when the deal is valid. */
  function Settle(flow: State, f: Form): Session {
    match Emit(f)
    case Some(p) => Session(Next(flow, ProposalValid(p)), Some(f))
    case None => Session(flow, Some(f))
  }

  /** One user action. Entering step 2 mounts a fresh builder, leaving it
      unmounts the builder; an edit changes the form and then the builder
      reports. A slider cannot produce a value outside its range. */
  function Act(s: Session, a: Action): Session {
    match a
    case Click(b) =>
      var flow := Next(s.flow, Press(b));
      if flow.step != 2 then Session(flow, None)
      else if s.flow.step != 2 then Settle(flow, Initial(TreatmentCost))
      else Session(flow, s.form)
    case Edit(h) =>
      if s.flow.step == 2 && s.form.Some? && InRange(s.form.value, h)
      then Settle(s.flow, Apply(s.form.value, h))
      else s
  }

  /** Some preset approves `p` and its price plus discount is the list
      price: what the builder can report. */
  predicate Reportable(p: Proposal) {
    p.treatmentCost + p.discount == TreatmentCost
    && (Approves(Conservative, p) || Approves(Balanced, p) || Approves(Aggressive, p))
  }

  /** The invariant of the session: the workflow's invariant; the builder
      is mounted exactly on step 2, with its state in the slider ranges
      and the workflow's list price; and the workflow's proposal is one
      the builder could report. */
  predicate SessionInv(s: Session) {
    Inv(s.flow)
    && (s.form.Some? <==> s.flow.step == 2)
    && (s.form.Some? ==> WellFormed(s.form.value) && s.form.value.cost == TreatmentCost)
    && (s.flow.proposal.Some? ==> Reportable(s.flow.proposal.value))
    && (s.form.Some? && IsDCEValid(s.form.value) ==> s.flow.proposal == Some(ProposalOf(s.form.value)))
  }

  lemma SettleKeepsInv(flow: State, f: Form)
    requires Inv(flow) && flow.step == 2
    requires flow.proposal.Some? ==> Reportable(flow.proposal.value)
    requires WellFormed(f) && f.cost == TreatmentCost
    ensures SessionInv(Settle(flow, f))
    ensures Settle(flow, f).flow.step == 2
  {
    VerdictIsApprovalOfRecord(f);
  }

  lemma ActKeepsInv(s: Session, a: Action)
    requires SessionInv(s)
    ensures SessionInv(Act(s, a))
  {
    match a
    case Click(b) =>
      NextMoves(s.flow, Press(b));
      var flow := Next(s.flow, Press(b));
      if flow.step == 2 && s.flow.step != 2 {
        SettleKeepsInv(flow, Initial(TreatmentCost));
      }
    case Edit(h) =>
      if s.flow.step == 2 && s.form.Some? && InRange(s.form.value, h) {
        ApplyKeepsWellFormed(s.form.value, h);
        SettleKeepsInv(s.flow, Apply(s.form.value, h));
      }
  }

  /** The session after a sequence of user actions. */
  function RunSession(s: Session, actions: seq<Action>): Session
    decreases |actions|
  {
    if actions == [] then s else RunSession(Act(s, actions[0]), actions[1..])
  }

  /** Every session reached from the start keeps the invariant; in
      particular the contract step always has a proposal whose financed
      term is at least a month, so its monthly figure is defined. */
  lemma {:induction false} RunSessionKeepsInv(s: Session, actions: seq<Action>)
    requires SessionInv(s)
    ensures SessionInv(RunSession(s, actions))
    decreases |actions|
  {
    if actions != [] {
      ActKeepsInv(s, actions[0]);
      RunSessionKeepsInv(Act(s, actions[0]), actions[1..]);
    }
  }

  /** On the contract step the summary's monthly figure is defined. */
  lemma ContractSummaryDefined(actions: seq<Action>)
    ensures var s := RunSession(InitSession, actions);
      s.flow.step == 3
      ==> s.flow.proposal.Some?
          && (!s.flow.proposal.value.isPayInFull ==> 0 < s.flow.proposal.value.termMonths)
  {
    RunSessionKeepsInv(InitSession, actions);
  }

  /** At the list price of 5500 the builder's default deal is valid, so
      entering the proposal step reports a proposal at once and the
      "Review & Sign" gate is open on arrival. */
  lemma GateOpenOnArrival(s: Session)
    requires SessionInv(s) && s.flow.step == 1
    ensures var t := Act(s, Click(Continue));
      t.flow.step == 2 && t.flow.proposal == Some(ProposalOf(Initial(TreatmentCost)))
  {
  }

  /** The gate checks that a valid proposal was received at some point,
      not that the form is valid now: after sliding the term to 36 months
      the balanced deal is invalid, yet the 18-month proposal reported on
      arrival is still on hand and "Review & Sign" moves to the contract. */
  lemma GateAdmitsEarlierProposal()
    ensures var s := RunSession(InitSession, [Click(Continue), Edit(SlideTerm(36))]);
      s.flow.step == 2
      && s.form.Some? && !IsDCEValid(s.form.value) && s.form.value.term == 36
      && s.flow.proposal.Some? && s.flow.proposal.value.termMonths == 18
      && Act(s, Click(ReviewAndSign)).flow.step == 3
  {
  }

  /** Going back and returning remounts the builder with its defaults:
      edits made before leaving are lost. */
  lemma ReturnResetsForm(s: Session)
    requires SessionInv(s) && s.flow.step == 2
    ensures Act(Act(s, Click(Back)), Click(Continue)).form == Some(Initial(TreatmentCost))
  {
  }

  /**
   * The workflow component: its two state cells and the builder it hosts
   * on step 2.
   */
  class CaseWorkflow {
    var step: int
    var proposal: Option<Proposal>
    var builder: ProposalBuilder?

    function Snapshot(): Session
      reads this, builder
    {
      Session(State(step, proposal), if builder == null then None else Some(builder.Snapshot()))
    }

    ghost predicate Valid()
      reads this, builder
    {
      SessionInv(Snapshot())
    }

    constructor ()
      ensures Valid() && Snapshot() == InitSession
    {
      step := 1;
      proposal := None;
      builder := null;
    }

    /** The builder's callback. */
    method OnProposalValid(p: Proposal)
      requires step == 2
      modifies this
      ensures step == 2 && proposal == Some(p) && builder == old(builder)
    {
      proposal := Some(p);
    }

    /** The builder's effect after a render. */
    method Report()
      requires builder != null && step == 2
      modifies this
      ensures builder == old(builder) && step == 2
      ensures State(step, proposal) == Settle(old(State(step, proposal)), builder.Snapshot()).flow
    {
      var o := builder.CurrentProposal();
      if o.Some? {
        OnProposalValid(o.value);
      }
    }

    /** "Continue to Financials": on to step 2, mounting a fresh builder. */
    method Continue()
      requires Valid() && step == 1
      modifies this
      ensures Valid() && Snapshot() == Act(old(Snapshot()), Click(Button.Continue))
      ensures fresh(builder)
    {
      step := 2;
      builder := new ProposalBuilder(TreatmentCost);
      Report();
    }

    /** "Back": to step 1, unmounting the builder. */
    method Back()
      requires Valid() && step == 2
      modifies this
      ensures Valid() && Snapshot() == Act(old(Snapshot()), Click(Button.Back))
    {
      step := 1;
      builder := null;
    }

    /** "Review & Sign": to step 3 when a proposal has been received; the
        button is disabled otherwise. */
    method ReviewAndSign() returns (moved: bool)
      requires Valid() && step == 2
      modifies this
      ensures moved <==> old(proposal).Some?
      ensures Valid() && Snapshot() == Act(old(Snapshot()), Click(Button.ReviewAndSign))
    {
      moved := proposal.Some?;
      if moved {
        step := 3;
        builder := null;
      }
    }

    /** "Sign via DocuSign": on to payment. */
    method Sign()
      requires Valid() && step == 3
      modifies this
      ensures Valid() && Snapshot() == Act(old(Snapshot()), Click(Button.Sign))
    {
      step := 4;
    }

    /** A control of the builder is used; the builder then reports. */
    method Edit(h: Handler)
      requires Valid() && step == 2 && builder != null
      requires InRange(builder.Snapshot(), h)
      modifies this, builder
      ensures builder == old(builder)
      ensures Valid() && Snapshot() == Act(old(Snapshot()), Action.Edit(h))
    {
      ApplyKeepsWellFormed(builder.Snapshot(), h);
      match h {
        case PickPreset(k) => builder.SelectPreset(k);
        case SlideInsurance(v) => builder.ChangeInsurance(v);
        case ClickVerify => builder.ToggleVerified();
        case PickMode(b) => builder.SetPayInFull(b);
        case SlideDown(d) => builder.SetDownPayment(d);
        case SlideTerm(t) => builder.SetTermMonths(t);
      }
      Report();
    }
  }
}
