# Financing proposal and case workflow — a verified model

This project models the two pieces of logic in a dental-practice sales
front end. The rest of that front end is rendering and static mock data.

- **The proposal builder** (`Builder`, proposal_builder.dfy). From a
  treatment's list price it derives:
  - the pay-in-full discount (5%, rounded to the dollar);
  - the effective cost, the amount due today and the monthly instalment.
  It then checks the deal against one of three lender presets (the DCE
  checks). Each preset sets a minimum
  down-payment percentage, a maximum term and a minimum monthly payment.
  Paying in full bypasses all three checks. The six state cells of the
  form are the class `ProposalBuilder`; its handlers are methods tied to
  pure functions over a `Form` snapshot. When the deal is valid, the
  builder reports a `Proposal` record to its parent.
- **The case workflow** (`Workflow`, case_workflow.dfy). It is a
  four-step linear stepper: Intake, Proposal, Contract, Payment. It keeps
  the current step and the last proposal reported. The move from Proposal
  to Contract needs a proposal. The builder is mounted only on the
  Proposal step, with fresh defaults each time that step is entered.
  - `State`/`Next` are the workflow's own cells and handlers.
  - `Session`/`Act` add the mounted builder and its report.
  - The class `CaseWorkflow` holds the step, the proposal and the builder
    object. Its methods are tied to `Act`.
- **Records** (`Types`, types.dfy): `FinancialPreset`, `Proposal` and an
  `Option` for the nullable proposal.

Amounts are exact reals, not floating point. `Math.round` is
`Floor(x + 1/2)`: the nearest integer, with halves rounded up.

Notes on behaviour:
- "Review & Sign" is enabled once any valid proposal has been reported
  (CaseWorkflow.tsx:96), not only while the form is valid. The builder
  reports only valid states and the workflow never clears its record, so
  a record reported earlier stays on hand after the form becomes invalid.
  `GateAdmitsEarlierProposal` shows the stale 18-month record passing the
  gate after the term slides to 36 months on the balanced preset. At the
  list price of 5500 the defaults are valid, so the gate is open on
  arrival (`GateOpenOnArrival`).
- Paying in full, the 5% discount is rounded to the dollar before it is
  taken off (ProposalBuilder.tsx:26); at 5500 the amount due is 5225 less
  insurance (`PayInFullExample`).

## Model

| member | source | states |
|---|---|---|
| Builder.PresetOf | components/ProposalBuilder.tsx:10-14 | the three presets' thresholds; every percentage lies strictly between 0 and 100, every maximum term is positive and within the term slider, every minimum instalment is positive |
| Builder.Round | components/ProposalBuilder.tsx:26 | `Math.round` gives the integer within half a unit of its argument, halves rounded up |
| Builder.PayInFullDiscount | components/ProposalBuilder.tsx:25-26 | the discount is within half a dollar of 5% of the list price, and never negative or above the price |
| Builder.DiscountOnWholeDollars | components/ProposalBuilder.tsx:26 | on a whole-dollar price c the rounded discount equals the integer expression (5c + 50) / 100 |
| Builder.EffectiveCost | components/ProposalBuilder.tsx:29 | paying in full, the effective cost plus the discount is the list price; financing, it is the list price; it lies between 0 and the list price |
| Builder.MonthlyPayment | components/ProposalBuilder.tsx:37 | the instalment is never negative; it is 0 when paying in full or when the term is not positive, so nothing is divided by zero; otherwise `term` instalments equal the financed balance clamped at 0 |
| Builder.DueToday | components/ProposalBuilder.tsx:39-41 | paying in full, due today plus insurance is the effective cost; financing, due today is the chosen down payment |
| Builder.PaymentsCoverEffectiveCost | components/ProposalBuilder.tsx:37-41 | whenever a balance is left to finance, or the deal is paid in full, due today plus insurance plus the instalments over the term equal the effective cost |
| Builder.PayInFullIsAlwaysValid | components/ProposalBuilder.tsx:46-50 | paying in full passes all three checks, whatever the down payment, term, insurance or preset |
| Builder.ValidityWithoutDivision | components/ProposalBuilder.tsx:44-50 | the verdict holds iff paying in full, or else: down at least the preset's percentage of the undiscounted price, term between 1 and the preset's maximum, and balance at least the minimum instalment times the term |
| Builder.InstalmentAtLeast | components/ProposalBuilder.tsx:37 | for a positive term and a positive minimum, the clamped instalment reaches the minimum iff the balance covers the minimum times the term |
| Builder.ProposalOf | components/ProposalBuilder.tsx:54-63 | the reported record: price plus discount recovers the list price; insurance and the flags are copied and the APR is 0; paying in full it has term 0, due today plus insurance equal to its price, and the rounded discount; financing it has the chosen term and down payment and no discount |
| Builder.VerdictIsApprovalOfRecord | components/ProposalBuilder.tsx:44-63 | the DCE verdict on the form is exactly the active preset's approval of the record it would report |
| Builder.Initial | components/ProposalBuilder.tsx:17-22 | the state on mount: balanced, 20% down, 18 months, no insurance, unverified, financing |
| Builder.MinDown | components/ProposalBuilder.tsx:44 | the active preset's percentage of the undiscounted list price |
| Builder.IsValidDown | components/ProposalBuilder.tsx:46 | paying in full, or a down payment of at least the minimum |
| Builder.IsValidTerm | components/ProposalBuilder.tsx:47 | paying in full, or a term of at most the preset's maximum |
| Builder.IsValidMonthly | components/ProposalBuilder.tsx:48 | paying in full, or an instalment of at least the preset's minimum |
| Builder.IsDCEValid | components/ProposalBuilder.tsx:50 | the DCE verdict: all three checks pass |
| Builder.PlanTerm | components/ProposalBuilder.tsx:57 | the reported term: 0 when paying in full, the chosen term otherwise |
| Builder.Emit | components/ProposalBuilder.tsx:52-64 | a record is reported exactly when the active preset approves it, and every reported record is approved |
| Builder.WithPreset | components/ProposalBuilder.tsx:74-78 | selecting a preset sets the down payment to its minimum and the term to its maximum, so the down and term checks pass; list price, insurance, verification and mode are unchanged |
| Builder.WithInsurance | components/ProposalBuilder.tsx:144-147 | moving the insurance slider sets the estimate, clears verification and changes nothing else |
| Builder.WithVerifyToggled | components/ProposalBuilder.tsx:151 | the verify button flips verification and changes nothing else |
| Builder.WithPayInFull | components/ProposalBuilder.tsx:96-102 | the mode buttons set the mode and change nothing else |
| Builder.WithDown | components/ProposalBuilder.tsx:182 | the down-payment slider sets the down payment and changes nothing else |
| Builder.WithTerm | components/ProposalBuilder.tsx:203 | the term slider sets the term and changes nothing else |
| Builder.ModeRoundTrip | components/ProposalBuilder.tsx:96-102 | switching to pay-in-full and back gives back the financed form unchanged: the hidden sliders keep their values |
| Builder.HiddenControlsInertWhilePayingInFull | components/ProposalBuilder.tsx:70 | while paying in full, a preset press (the buttons ignore the pointer but stay reachable from the keyboard) or a change of the hidden down-payment or term slider changes neither the verdict nor the reported record |
| Builder.InitialIsBalancedSelection | components/ProposalBuilder.tsx:17-22 | the state on mount is what selecting the balanced preset produces |
| Builder.PresetSelectionValidity | components/ProposalBuilder.tsx:74-78 | after selecting preset k, the financed deal is valid iff insurance is at most the price less k's down share, less k's minimum instalment times k's maximum term |
| Builder.ConservativeHeadroomAtListPrice | components/ProposalBuilder.tsx:11 | at the price 5500, the conservative defaults are valid iff insurance is at most 1450 |
| Builder.BalancedExample | components/ProposalBuilder.tsx:12 | 5500, balanced, 1100 down, 18 months, no insurance: valid, at 4400/18 a month |
| Builder.AggressiveExample | components/ProposalBuilder.tsx:13 | 5500, aggressive, 550 down, 24 months, no insurance: valid, at 206.25 a month |
| Builder.PayInFullExample | components/ProposalBuilder.tsx:39-41 | paying 5500 in full: 5225 less insurance is due today, with no term, and the deal is valid |
| Builder.InRange | components/ProposalBuilder.tsx:70 | the controls a user can reach: slider values within their ranges; the down-payment and term sliders only while financing; the preset, mode and verify buttons always |
| Builder.Apply | components/ProposalBuilder.tsx:74-203 | the builder's handlers, each as its `With…` function |
| Builder.ApplyKeepsWellFormed | components/ProposalBuilder.tsx:138-203 | no handler takes the state outside the slider ranges: the down payment stays within the price, the term within 1 to 36 months, insurance within 0 to 3000 |
| Builder.ProposalBuilder.constructor | components/ProposalBuilder.tsx:17-22 | the initial cells: balanced, 20% down, 18 months, no insurance, unverified, financing |
| Builder.ProposalBuilder.SelectPreset | components/ProposalBuilder.tsx:74-78 | the cells after a preset button, as `WithPreset`, keeping the slider ranges |
| Builder.ProposalBuilder.ChangeInsurance | components/ProposalBuilder.tsx:144-147 | the cells after the insurance slider, as `WithInsurance` |
| Builder.ProposalBuilder.ToggleVerified | components/ProposalBuilder.tsx:151 | the cells after the verify button, as `WithVerifyToggled` |
| Builder.ProposalBuilder.SetPayInFull | components/ProposalBuilder.tsx:96-102 | the cells after a mode button, as `WithPayInFull` |
| Builder.ProposalBuilder.SetDownPayment | components/ProposalBuilder.tsx:176-184 | the cells after the down-payment slider, as `WithDown` |
| Builder.ProposalBuilder.SetTermMonths | components/ProposalBuilder.tsx:198-203 | the cells after the term slider, as `WithTerm` |
| Builder.ProposalBuilder.CurrentProposal | components/ProposalBuilder.tsx:52-64 | the record is reported iff the cells pass the DCE, and it is the record built from the cells |
| Workflow.Progress | components/CaseWorkflow.tsx:25 | the filled fraction of the progress bar is between 0 and 1; it is 0 exactly at step 1 and 1 exactly at step 4 |
| Workflow.ProgressStrictlyIncreasing | components/CaseWorkflow.tsx:25 | a later step fills strictly more of the bar |
| Workflow.StepIdsArePositions | components/CaseWorkflow.tsx:10-15 | the four steps are listed in the order the workflow visits them, step k at position k - 1 |
| Workflow.IsHighlighted | components/CaseWorkflow.tsx:31 | a step is highlighted once the workflow has reached it |
| Workflow.ShowsCheck | components/CaseWorkflow.tsx:34 | a step shows a check mark once the workflow is past it |
| Workflow.MarkersAgree | components/CaseWorkflow.tsx:31-36 | every step with a check mark is highlighted; the current step is highlighted without a check mark |
| Workflow.CheckedCount | components/CaseWorkflow.tsx:34 | the number of steps showing a check mark: all of them exactly when every step is passed, none exactly when no step is |
| Workflow.CheckedCountIsStepsBehind | components/CaseWorkflow.tsx:10-15 | at step k exactly k - 1 steps show a check mark |
| Workflow.Next | components/CaseWorkflow.tsx:75-97 | the workflow's handlers: each button moves only from its own step, "Review & Sign" only with a proposal, and the builder's report stores the record only on step 2 |
| Workflow.NextMoves | components/CaseWorkflow.tsx:75-97 | from a valid state the only moves are 1→2, 2→1, 2→3 and 3→4; 2→3 needs a proposal; step 4 has no move; a proposal is never dropped; no button press changes the proposal, so only the builder's report sets it; the step stays in 1..4 |
| Workflow.RunKeepsInv | components/CaseWorkflow.tsx:7-8 | from the initial state, every sequence of events keeps the step in 1..4 with a proposal on hand after step 2, and keeps a received proposal |
| Workflow.SummaryMonthly | components/CaseWorkflow.tsx:138-141 | the contract summary's monthly figure is within half a dollar of the financed balance per month of the reported record |
| Workflow.SummaryMatchesBuilder | components/CaseWorkflow.tsx:141 | for every valid financed form, the contract summary shows the same rounded monthly figure as the builder's results card |
| Workflow.Settle | components/CaseWorkflow.tsx:88-91 | a render of the mounted builder: its record reaches the workflow exactly when the deal is valid |
| Workflow.Act | components/CaseWorkflow.tsx:85-97 | one user action: a workflow button, which mounts a fresh builder on entering step 2 and unmounts it on leaving, or a reachable builder control followed by the builder's report |
| Workflow.SettleKeepsInv | components/CaseWorkflow.tsx:90 | the builder's report on step 2 leaves the workflow on step 2 and keeps the session invariant |
| Workflow.ActKeepsInv | components/CaseWorkflow.tsx:74-148 | every user action keeps the session invariant: the builder is mounted exactly on step 2, within the slider ranges; the workflow's proposal is one some preset approves at the list price; and whenever the mounted form is valid, the workflow holds exactly the record that form reports |
| Workflow.RunSessionKeepsInv | components/CaseWorkflow.tsx:7-8 | every sequence of user actions from the start keeps the session invariant |
| Workflow.ContractSummaryDefined | components/CaseWorkflow.tsx:138-141 | on the contract step there is a proposal, and a financed one has a term of at least one month, so the summary's division is defined |
| Workflow.GateOpenOnArrival | components/CaseWorkflow.tsx:88-91 | entering the proposal step at the price 5500 reports the default record at once |
| Workflow.GateAdmitsEarlierProposal | components/CaseWorkflow.tsx:96-97 | after sliding the term to 36, the form is invalid, yet the earlier 18-month record is on hand and "Review & Sign" moves to the contract |
| Workflow.ReturnResetsForm | components/CaseWorkflow.tsx:85-94 | going back and returning remounts the builder with its default form |
| Workflow.CaseWorkflow.constructor | components/CaseWorkflow.tsx:7-8 | starts on step 1 with no proposal and no builder |
| Workflow.CaseWorkflow.OnProposalValid | components/CaseWorkflow.tsx:90 | the callback stores the reported record |
| Workflow.CaseWorkflow.Report | components/ProposalBuilder.tsx:52-64 | after a render the workflow's state is what the builder's report makes of it |
| Workflow.CaseWorkflow.Continue | components/CaseWorkflow.tsx:74-75 | moves to step 2 and mounts a fresh builder, as `Act` |
| Workflow.CaseWorkflow.Back | components/CaseWorkflow.tsx:94 | moves to step 1 and unmounts the builder, as `Act` |
| Workflow.CaseWorkflow.ReviewAndSign | components/CaseWorkflow.tsx:95-97 | moves to step 3 exactly when a proposal was received, as `Act` |
| Workflow.CaseWorkflow.Sign | components/CaseWorkflow.tsx:147-148 | moves to step 4, as `Act` |
| Workflow.CaseWorkflow.Edit | components/CaseWorkflow.tsx:88-91 | a builder control a user can reach changes the mounted builder and its report reaches the workflow, as `Act` |

## Left out

- Dashboard, AI coach, sidebar and view routing (Dashboard.tsx,
  AICoach.tsx, Sidebar.tsx, App.tsx): static data, a fixed text lookup
  and navigation flags, with no computation.
- The `principal` value at ProposalBuilder.tsx:34: it is computed but
  never used.
- React scheduling: a report is modelled as happening after each
  handler and on mount. The effect's dependencies cover every field of
  the record, so reporting an unchanged record again changes nothing.
- Floating-point behaviour of JavaScript numbers: amounts are exact reals.
- The sliders' step of 100: any value within a slider's range is admitted.
- Builder.ProposalBuilder.SetDownPayment and SetTermMonths accept calls
  while paying in full, as the handlers themselves do; the page does not
  render their sliders then, so the session model (`InRange`) offers them
  only while financing. The preset buttons are dimmed and ignore the
  pointer while paying in full (ProposalBuilder.tsx:70) but stay
  reachable from the keyboard, so they stay usable in the model.
  `HiddenControlsInertWhilePayingInFull` shows that such a press changes
  nothing that is reported.
- Preset keys are an enumeration. The string-keyed table is only ever
  indexed with its own keys, so its lookup cannot fail.
- Display only: number formatting, CSS classes, icons, the random invoice
  number (CaseWorkflow.tsx:174), the uncontrolled intake inputs, and the
  payment step's buttons, which have no handlers.
- Buttons that are not shown: each method of the workflow class requires
  the step on which its button is rendered. Such clicks are modelled only
  in the pure `Next`, where they change nothing.
