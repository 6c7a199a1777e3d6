/**
 * The records of the marketplace's relational schema (emitents, admin,
 * financial_data, analitics, subscribes, payments, investors) and the
 * exceptions its services throw.
 *
 * Identifiers are natural numbers standing for the UUID primary keys. Dates
 * are day numbers; timestamps (`created_at`) are integers.
 */
module Entities {
  import opened Wrappers

  type Id = nat

  /** A calendar date as a day number. */
  type Day = int

  datatype EmitterStatus = Pending | Approved | Rejected

  /** A row of `emitents`; `password` holds the stored bcrypt hash. */
  datatype Emitter = Emitter(
    emitentId: Id,
    name: string,
    email: string,
    password: string,
    inn: Option<string>,
    ogrnOgrnip: Option<string>,
    legalAddress: Option<string>,
    actualAddress: Option<string>,
    phone: Option<string>,
    website: Option<string>,
    description: Option<string>,
    logoUrl: Option<string>,
    status: EmitterStatus,
    rejectionReason: Option<string>,
    createdAt: int)

  /** A row of `admin`; `role` defaults to "admin" in the schema. */
  datatype Admin = Admin(adminId: Id, username: string, email: Option<string>, password: string, role: string, createdAt: int)

  /** A row of `financial_data`, one per emitter; decimal columns are reals. */
  datatype FinancialData = FinancialData(
    emitentId: Id,
    ticker: Option<string>,
    companyName: Option<string>,
    market: Option<string>,
    industry: Option<string>,
    marketCap: Option<real>,
    stockPrice: Option<real>,
    tradingVolume: Option<real>,
    hasDividends: bool,
    rating: Option<string>,
    companyStatus: Option<string>)

  /** A row of `analitics`, one per emitter. */
  datatype Analitics = Analitics(emitentId: Id, pageViews: nat, externalLinkClicks: nat)

  datatype PaymentStatus = PaymentPending | Completed | PaymentFailed | Canceled | Refunded

  /** A row of `payments`; the amount is a whole number of currency units. */
  datatype Payment = Payment(paymentId: Id, amount: int, date: Day, status: PaymentStatus)

  datatype SubscriptionStatus = Active | Disable

  /** A row of the `subscribes` ledger: one paid placement period of an emitter. */
  datatype Subscribe = Subscribe(
    subscribeId: Id,
    emitentId: Id,
    tariffName: string,
    durationDays: int,
    paymentId: Id,
    startDate: Day,
    endDate: Day,
    paymentStatus: SubscriptionStatus,
    paymentAmount: int)

  /** A row of `investors`; `email` is a unique column, `role` defaults to "investor". */
  datatype Investor = Investor(investorId: Id, name: string, email: string, phone: Option<string>, role: string)

  /** Which message an exception carries. */
  datatype Reason =
    | EmitterNotFound
    | RejectionReasonRequired
    | NotFoundOrNotApproved
    | EmailTaken
    | NameTaken
    | InnTaken
    | OgrnTaken
    | RegistrationFailed
    | CredentialsMissing
    | BadEmailOrPassword
    | BadUsernameOrPassword
    | UnknownRole
    | UserNotFound
    | UniqueViolation
    | ValueTooLong
    | NotNullViolation

  /** The HTTP exception classes the services throw (and a database failure, surfacing as a 500). */
  datatype Error =
    | BadRequest(reason: Reason)
    | NotFound(reason: Reason)
    | Conflict(reason: Reason)
    | Unauthorized(reason: Reason)
    | InternalServerError(reason: Reason)
}
