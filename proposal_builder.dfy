/**
 * The financing-proposal calculator (components/ProposalBuilder.tsx).
 *
 * The form's state is six cells plus the list price passed in by the
 * parent. Everything the component shows and reports is derived from
 * that state: the pay-in-full discount, the effective cost, the amount
 * due today, the monthly payment, and the three DCE checks against the
 * selected lender preset.
 * The derivations are functions of a `Form` snapshot; the state cells
 * and their event handlers are the class `ProposalBuilder`.
 */
module Builder {
  import opened Types

  /** The keys of the preset table; the UI only offers these three. */
  datatype PresetKey = Conservative | Balanced | Aggressive

  /** The lender presets. Every threshold is positive, which is what
      makes the monthly check expressible without division. */
  function PresetOf(k: PresetKey): (p: FinancialPreset)
    ensures 0 < p.minDownPercent < 100
    ensures 0 < p.maxTermMonths <= MaxTermSlider
    ensures 0 < p.minMonthly
  {
    match k
    case Conservative => FinancialPreset("Conservative", 30, 12, 200, "emerald")
    case Balanced => FinancialPreset("Balanced", 20, 18, 150, "blue")
    case Aggressive => FinancialPreset("Aggressive", 10, 24, 100, "amber")
  }

  const PayInFullDiscountPercent: int := 5

  /** Ranges of the sliders: the UI cannot produce other values. */
  const MinTermSlider: int := 1
  const MaxTermSlider: int := 36
  const MaxInsuranceSlider: real := 3000.0

  /** A snapshot of the builder: the list price and the six state cells. */
  datatype Form = Form(
    cost: real,
    preset: PresetKey,
    down: real,
    term: int,
    insurance: real,
    verified: bool,
    payInFull: bool)

  /** The values the state cells can hold, given the slider ranges. */
  predicate WellFormed(f: Form) {
    0.0 <= f.cost
    && 0.0 <= f.down <= f.cost
    && MinTermSlider <= f.term <= MaxTermSlider
    && 0.0 <= f.insurance <= MaxInsuranceSlider
  }

  /** The state on mount: the balanced plan at 20% down over 18 months. */
  function Initial(cost: real): Form {
    Form(cost, Balanced, cost * 0.2, 18, 0.0, false, false)
  }

  function Max(a: real, b: real): real {
    if a < b then b else a
  }

  /** `Math.round`: the nearest integer, halves rounded up. */
  function Round(x: real): (n: int)
    ensures x - 0.5 < n as real <= x + 0.5
  {
    (x + 0.5).Floor
  }

  /** The pay-in-full discount: 5% of the list price, rounded. */
  function PayInFullDiscount(cost: real): (d: int)
    ensures -0.5 < d as real - cost * 0.05 <= 0.5
    ensures 0.0 <= cost ==> 0 <= d && d as real <= cost
  {
    Round(cost * (PayInFullDiscountPercent as real / 100.0))
  }

  /** On whole-dollar prices the rounded discount is `(5c + 50) / 100`
      in integer arithmetic. */
  lemma DiscountOnWholeDollars(c: nat)
    ensures PayInFullDiscount(c as real) == (c * 5 + 50) / 100
  {
  }

  /** The price the patient pays for the treatment in the chosen mode. */
  function EffectiveCost(f: Form): (e: real)
    ensures f.payInFull ==> e + PayInFullDiscount(f.cost) as real == f.cost
    ensures !f.payInFull ==> e == f.cost
    ensures 0.0 <= f.cost ==> 0.0 <= e <= f.cost
  {
    if f.payInFull then f.cost - PayInFullDiscount(f.cost) as real else f.cost
  }

  /** What is left to spread over the term once the down payment and the
      insurance estimate are taken off. */
  function FinancedBalance(f: Form): real {
    EffectiveCost(f) - f.down - f.insurance
  }

  /** The monthly instalment. It is zero when paying in full and when the
      term is not positive (so nothing is ever divided by zero), and it
      is clamped at zero when insurance and down payment exceed the cost;
      otherwise `term` instalments repay the financed balance exactly. */
  function MonthlyPayment(f: Form): (m: real)
    ensures 0.0 <= m
    ensures f.payInFull || f.term <= 0 ==> m == 0.0
    ensures !f.payInFull && 0 < f.term ==> m * f.term as real == Max(0.0, FinancedBalance(f))
  {
    if !f.payInFull && f.term > 0 then
      var t := f.term as real;
      var b := FinancedBalance(f);
      assert b / t * t == b;
      Max(0.0, b / t)
    else
      0.0
  }

  /** The amount collected today: the whole remaining price (after
      insurance) when paying in full, the chosen down payment otherwise. */
  function DueToday(f: Form): (d: real)
    ensures f.payInFull ==> d + f.insurance == EffectiveCost(f)
    ensures !f.payInFull ==> d == f.down
  {
    if f.payInFull then EffectiveCost(f) - f.insurance else f.down
  }

  /** The term reported in the proposal: none when paying in full. */
  function PlanTerm(f: Form): int {
    if f.payInFull then 0 else f.term
  }

  /** Today's payment, the insurance estimate and the instalments together
      cover the effective cost, whenever there is a balance left to
      finance. */
  lemma PaymentsCoverEffectiveCost(f: Form)
    requires f.payInFull || (0 < f.term && 0.0 <= FinancedBalance(f))
    ensures DueToday(f) + f.insurance + MonthlyPayment(f) * PlanTerm(f) as real == EffectiveCost(f)
  {
  }

  /** The minimum down payment, a percentage of the undiscounted price. */
  function MinDown(f: Form): real {
    f.cost * (PresetOf(f.preset).minDownPercent as real / 100.0)
  }

  predicate IsValidDown(f: Form) {
    f.payInFull || f.down >= MinDown(f)
  }

  predicate IsValidTerm(f: Form) {
    f.payInFull || f.term <= PresetOf(f.preset).maxTermMonths
  }

  predicate IsValidMonthly(f: Form) {
    f.payInFull || MonthlyPayment(f) >= PresetOf(f.preset).minMonthly as real
  }

  /** The DCE verdict: all three checks pass. */
  predicate IsDCEValid(f: Form) {
    IsValidDown(f) && IsValidTerm(f) && IsValidMonthly(f)
  }

  /** Paying in full passes every check, whatever the other inputs. */
  lemma PayInFullIsAlwaysValid(f: Form)
    requires f.payInFull
    ensures IsDCEValid(f)
  {
  }

  /** For a positive term and a positive minimum, "the clamped instalment
      reaches the minimum" is "the balance covers minimum times term". */
  lemma InstalmentAtLeast(b: real, t: int, m: real)
    requires 0 < t && 0.0 < m
    ensures Max(0.0, b / t as real) >= m <==> b >= m * t as real
  {
  }

  /** The financed verdict stated without division: the down payment
      reaches the preset's percentage of the list price, the term lies
      between one month and the preset's maximum, and the financed balance
      covers the preset's minimum instalment for every month. */
  lemma ValidityWithoutDivision(f: Form)
    ensures IsDCEValid(f) <==>
      f.payInFull
      || (f.down >= MinDown(f)
          && 0 < f.term <= PresetOf(f.preset).maxTermMonths
          && FinancedBalance(f) >= PresetOf(f.preset).minMonthly as real * f.term as real)
  {
    var p := PresetOf(f.preset);
    if !f.payInFull && 0 < f.term {
      InstalmentAtLeast(FinancedBalance(f), f.term, p.minMonthly as real);
    }
  }

  /** The record handed to the parent (ProposalBuilder.tsx:54-63). */
  function ProposalOf(f: Form): (p: Proposal)
    ensures p.treatmentCost + p.discount == f.cost
    ensures p.insuranceEstimate == f.insurance && p.apr == 0.0
    ensures p.isPayInFull == f.payInFull && p.insuranceVerified == f.verified
    ensures p.isPayInFull ==>
      p.termMonths == 0 && p.downPayment + p.insuranceEstimate == p.treatmentCost
      && p.discount == PayInFullDiscount(f.cost) as real
    ensures !p.isPayInFull ==>
      p.termMonths == f.term && p.downPayment == f.down && p.discount == 0.0
  {
    Proposal(
      EffectiveCost(f),
      DueToday(f),
      PlanTerm(f),
      f.insurance,
      if f.payInFull then PayInFullDiscount(f.cost) as real else 0.0,
      0.0,
      f.payInFull,
      f.verified)
  }

  /** Whether preset `k` approves the record `p`, judged on the record
      alone: a pay-in-full record has no term and its due-today plus
      insurance is its price; a financed record has a term of at least a
      month and at most the preset's, a down payment of at least the
      preset's percentage, and a balance covering the minimum instalment
      for every month. */
  predicate Approves(k: PresetKey, p: Proposal) {
    var preset := PresetOf(k);
    if p.isPayInFull then
      p.termMonths == 0 && p.downPayment + p.insuranceEstimate == p.treatmentCost
    else
      0 < p.termMonths <= preset.maxTermMonths
      && p.downPayment >= p.treatmentCost * (preset.minDownPercent as real / 100.0)
      && p.treatmentCost - p.downPayment - p.insuranceEstimate
         >= preset.minMonthly as real * p.termMonths as real
  }

  /** The builder's verdict is exactly the preset's approval of the record
      it would emit. */
  lemma VerdictIsApprovalOfRecord(f: Form)
    ensures IsDCEValid(f) <==> Approves(f.preset, ProposalOf(f))
  {
    ValidityWithoutDivision(f);
  }

  /** The notification after a render: the record when the deal is valid,
      nothing otherwise. What it emits is always approved by the active
      preset, and it emits whenever that record would be approved. */
  function Emit(f: Form): (o: Option<Proposal>)
    ensures o.Some? <==> Approves(f.preset, ProposalOf(f))
    ensures o.Some? ==> o.value == ProposalOf(f) && Approves(f.preset, o.value)
  {
    VerdictIsApprovalOfRecord(f);
    if IsDCEValid(f) then Some(ProposalOf(f)) else None
  }

  // ----- Event handlers, as functions of the snapshot -----

  /** Selecting a preset resets down payment and term to the preset's
      minimum and maximum, so those two checks then pass; insurance,
      verification and payment mode are left as they were. */
  function WithPreset(f: Form, k: PresetKey): (g: Form)
    ensures g.preset == k && g.term == PresetOf(k).maxTermMonths && g.down == MinDown(g)
    ensures IsValidDown(g) && IsValidTerm(g)
    ensures g.cost == f.cost && g.insurance == f.insurance
    ensures g.verified == f.verified && g.payInFull == f.payInFull
  {
    f.(preset := k,
       down := f.cost * (PresetOf(k).minDownPercent as real / 100.0),
       term := PresetOf(k).maxTermMonths)
  }

  /** Moving the insurance slider clears verification and changes nothing
      else. */
  function WithInsurance(f: Form, v: real): (g: Form)
    ensures g.insurance == v && !g.verified
    ensures g.(insurance := f.insurance, verified := f.verified) == f
  {
    f.(insurance := v, verified := false)
  }

  /** The verify button flips verification and changes nothing else. */
  function WithVerifyToggled(f: Form): (g: Form)
    ensures g.verified != f.verified
    ensures g.(verified := f.verified) == f
  {
    f.(verified := !f.verified)
  }

  /** The two mode buttons set the mode and change nothing else. */
  function WithPayInFull(f: Form, b: bool): (g: Form)
    ensures g.payInFull == b
    ensures g.(payInFull := f.payInFull) == f
  {
    f.(payInFull := b)
  }

  function WithDown(f: Form, d: real): (g: Form)
    ensures g.down == d
    ensures g.(down := f.down) == f
  {
    f.(down := d)
  }

  function WithTerm(f: Form, t: int): (g: Form)
    ensures g.term == t
    ensures g.(term := f.term) == f
  {
    f.(term := t)
  }

  /** Checking pay-in-full and then the monthly plan again gives back the
      financed plan exactly as it was: the sliders are hidden, not reset. */
  lemma ModeRoundTrip(f: Form)
    requires !f.payInFull
    ensures WithPayInFull(WithPayInFull(f, true), false) == f
  {
  }

  /** The state on mount is what selecting the balanced preset gives. */
  lemma InitialIsBalancedSelection(cost: real)
    ensures WithPreset(Initial(cost), Balanced) == Initial(cost)
  {
  }

  /** After selecting a preset the financed deal is valid exactly when the
      insurance estimate leaves enough balance for the preset's minimum
      instalment over its maximum term. */
  lemma PresetSelectionValidity(f: Form, k: PresetKey)
    requires !f.payInFull
    ensures IsDCEValid(WithPreset(f, k)) <==>
      f.insurance <= f.cost * ((100 - PresetOf(k).minDownPercent) as real / 100.0)
                     - (PresetOf(k).minMonthly * PresetOf(k).maxTermMonths) as real
  {
  }

  /** At the workflow's list price of 5500 the conservative defaults stay
      valid up to an insurance estimate of 1450, and no further. */
  lemma ConservativeHeadroomAtListPrice(f: Form)
    requires f.cost == 5500.0 && !f.payInFull
    ensures IsDCEValid(WithPreset(f, Conservative)) <==> f.insurance <= 1450.0
  {
  }

  /** 5500 at the balanced preset with 1100 down over 18 months and no
      insurance: 4400 / 18 per month, which clears the 150 minimum. */
  lemma BalancedExample()
    ensures var f := Form(5500.0, Balanced, 1100.0, 18, 0.0, false, false);
      IsDCEValid(f) && MonthlyPayment(f) == 4400.0 / 18.0
  {
  }

  /** 5500 at the aggressive preset with 550 down over 24 months and no
      insurance: 206.25 per month, which clears the 100 minimum. */
  lemma AggressiveExample()
    ensures var f := Form(5500.0, Aggressive, 550.0, 24, 0.0, false, false);
      IsDCEValid(f) && MonthlyPayment(f) == 206.25
  {
  }

  /** Paying 5500 in full: the discount is 275, so 5225 less insurance is
      due today, with no term. */
  lemma PayInFullExample(f: Form)
    requires f.cost == 5500.0 && f.payInFull
    ensures DueToday(f) == 5225.0 - f.insurance && PlanTerm(f) == 0 && IsDCEValid(f)
  {
  }

  // ----- Handlers as events, for the workflow that hosts the builder -----

  /** A user interaction with the builder. */
  datatype Handler =
    | PickPreset(k: PresetKey)
    | SlideInsurance(v: real)
    | ClickVerify
    | PickMode(payInFull: bool)
    | SlideDown(d: real)
    | SlideTerm(t: int)

  /** Whether the control can be used on form `f`: slider values stay
      within the slider's range, and the down-payment and term sliders are
      not rendered while paying in full. The preset buttons then ignore the
      pointer but stay reachable from the keyboard, so they stay usable. */
  predicate InRange(f: Form, h: Handler) {
    match h
    case PickPreset(_) => true
    case SlideInsurance(v) => 0.0 <= v <= MaxInsuranceSlider
    case SlideDown(d) => !f.payInFull && 0.0 <= d <= f.cost
    case SlideTerm(t) => !f.payInFull && MinTermSlider <= t <= MaxTermSlider
    case _ => true
  }

  function Apply(f: Form, h: Handler): Form {
    match h
    case PickPreset(k) => WithPreset(f, k)
    case SlideInsurance(v) => WithInsurance(f, v)
    case ClickVerify => WithVerifyToggled(f)
    case PickMode(b) => WithPayInFull(f, b)
    case SlideDown(d) => WithDown(f, d)
    case SlideTerm(t) => WithTerm(f, t)
  }

  /** While paying in full, a preset press (the buttons ignore the pointer
      but stay reachable from the keyboard) or a change of the hidden
      down-payment or term slider changes neither the verdict nor the
      reported record. */
  lemma HiddenControlsInertWhilePayingInFull(f: Form, h: Handler)
    requires f.payInFull && (h.PickPreset? || h.SlideDown? || h.SlideTerm?)
    ensures IsDCEValid(Apply(f, h)) && ProposalOf(Apply(f, h)) == ProposalOf(f)
  {
  }

  /** No handler takes the state out of the slider ranges; in particular
      the term stays at least one month. */
  lemma ApplyKeepsWellFormed(f: Form, h: Handler)
    requires WellFormed(f) && InRange(f, h)
    ensures WellFormed(Apply(f, h)) && Apply(f, h).cost == f.cost
  {
  }

  /**
   * The builder's state cells. The list price is fixed by the parent.
   */
  class ProposalBuilder {
    const treatmentCost: real
    var activePreset: PresetKey
    var downPayment: real
    var termMonths: int
    var insurance: real
    var insuranceVerified: bool
    var isPayInFull: bool

    function Snapshot(): Form
      reads this
    {
      Form(treatmentCost, activePreset, downPayment, termMonths, insurance,
           insuranceVerified, isPayInFull)
    }

    ghost predicate Valid()
      reads this
    {
      WellFormed(Snapshot())
    }

    constructor (treatmentCost: real)
      requires 0.0 <= treatmentCost
      ensures Valid() && Snapshot() == Initial(treatmentCost)
    {
      this.treatmentCost := treatmentCost;
      activePreset := Balanced;
      downPayment := treatmentCost * 0.2;
      termMonths := 18;
      insurance := 0.0;
      insuranceVerified := false;
      isPayInFull := false;
    }

    method SelectPreset(k: PresetKey)
      requires Valid()
      modifies this
      ensures Valid() && Snapshot() == WithPreset(old(Snapshot()), k)
    {
      activePreset := k;
      downPayment := treatmentCost * (PresetOf(k).minDownPercent as real / 100.0);
      termMonths := PresetOf(k).maxTermMonths;
    }

    method ChangeInsurance(v: real)
      requires Valid() && 0.0 <= v <= MaxInsuranceSlider
      modifies this
      ensures Valid() && Snapshot() == WithInsurance(old(Snapshot()), v)
    {
      insurance := v;
      insuranceVerified := false;
    }

    method ToggleVerified()
      requires Valid()
      modifies this
      ensures Valid() && Snapshot() == WithVerifyToggled(old(Snapshot()))
    {
      insuranceVerified := !insuranceVerified;
    }

    method SetPayInFull(b: bool)
      requires Valid()
      modifies this
      ensures Valid() && Snapshot() == WithPayInFull(old(Snapshot()), b)
    {
      isPayInFull := b;
    }

    method SetDownPayment(d: real)
      requires Valid() && 0.0 <= d <= treatmentCost
      modifies this
      ensures Valid() && Snapshot() == WithDown(old(Snapshot()), d)
    {
      downPayment := d;
    }

    method SetTermMonths(t: int)
      requires Valid() && MinTermSlider <= t <= MaxTermSlider
      modifies this
      ensures Valid() && Snapshot() == WithTerm(old(Snapshot()), t)
    {
      termMonths := t;
    }

    /** The render-time derivation and its effect: the record to report,
        present exactly when the active preset approves it. */
    method CurrentProposal() returns (o: Option<Proposal>)
      ensures o.Some? <==> IsDCEValid(Snapshot())
      ensures o.Some? ==> o.value == ProposalOf(Snapshot())
    {
      var f := Snapshot();
      VerdictIsApprovalOfRecord(f);
      o := Emit(f);
    }
  }
}
