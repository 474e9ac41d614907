/**
 * Records shared by the proposal builder and the case workflow
 * (types.ts). Amounts are exact reals: whole dollars in practice, but
 * a preset's minimum down payment is a percentage of the list price
 * and need not be whole in general.
 */
module Types {

  /** Stands for a nullable value (`Proposal | null`). */
  datatype Option<+T> = None | Some(value: T)

  /** A lender preset: the thresholds a financed deal must meet. */
  datatype FinancialPreset = FinancialPreset(
    name: string,
    minDownPercent: int,
    maxTermMonths: int,
    minMonthly: int,
    color: string)

  /**
   * The proposal the builder hands to the workflow. `treatmentCost` is
   * the price after any pay-in-full discount and `downPayment` is what
   * is due today; `termMonths` is 0 for pay-in-full.
   */
  datatype Proposal = Proposal(
    treatmentCost: real,
    downPayment: real,
    termMonths: int,
    insuranceEstimate: real,
    discount: real,
    apr: real,
    isPayInFull: bool,
    insuranceVerified: bool)
}
