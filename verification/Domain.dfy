/**
  The value types of the payment pipeline (internal/domain), the checks that the
  request validators and the table definitions share, and the risk rule.

  A text is a sequence of Unicode code points; the order of code points is the order
  of their UTF-8 bytes. Keys and header values of messages are texts too.
  A JSON document is represented by the value it encodes (`Payload`), and the
  SHA-256 digest of a document by a constructor applied to it, so that equal
  digests mean equal documents.
 */
module Domain {

  type Id = string

  datatype Option<+T> = None | Some(value: T)

  datatype Error =
    | DecodeFailed
    | IncompleteEvent
    | RiskLevelMismatch
    | MissingEventId
    | EventIdentityConflict
    | TransactionNotFound
    | TransactionNotPending
    | RiskEventMismatch
    | ConstraintViolation
    | IdempotencyConflict
    | ExternalReferenceConflict
    | InvalidRequest
    | InvalidReason
    | InvalidState
    | NotFound
    | NoPendingAttempt
    | ReplayWindowExpired
    | AlreadyProcessed
    | PublishFailed
    | Unavailable

  datatype Result<+T> = Ok(value: T) | Err(error: Error) {
    predicate IsFailure() { Err? }

    function PropagateFailure<U>(): Result<U>
      requires Err?
    {
      Err(error)
    }

    function Extract(): T
      requires Ok?
    {
      value
    }
  }

  datatype TxStatus = Pending | Authorized | Failed
  datatype TxKind = Payment | Deposit
  datatype RiskLevel = Low | High
  datatype Reason = AboveLimit | WithinLimit | InsufficientFunds

  datatype EventType =
    | TransactionCreated
    | RiskEvaluatedEvent
    | TransactionAuthorized
    | TransactionFailed
    | FundsDeposited

  /** The Kafka topics of the business events, and the services subscribed to two of them. */
  datatype Topic = CreatedTopic | RiskTopic | AuthorizedTopic | FailedTopic | DepositedTopic
  datatype Consumer = LedgerService | RiskService

  datatype OutboxStatus = OutboxPending | OutboxProcessing | OutboxPublished | OutboxDeadLettered

  datatype Transaction = Transaction(
    id: Id,
    kind: TxKind,
    account: Id,
    merchant: Option<Id>,
    fundingSource: Option<Id>,
    externalRef: Option<Id>,
    amount: int,
    currency: string,
    status: TxStatus,
    risk: Option<RiskLevel>,
    reason: Option<Reason>,
    correlation: Id)

  datatype RiskEvaluated = RiskEvaluated(
    txId: Id,
    account: Id,
    amount: int,
    currency: string,
    level: RiskLevel,
    approved: bool,
    reason: Reason,
    correlation: Id)

  datatype DepositNotice = DepositNotice(
    depositId: Id,
    account: Id,
    amount: int,
    currency: string,
    fundingSource: Id,
    externalRef: Id,
    correlation: Id)

  datatype Payload =
    | TransactionJson(transaction: Transaction)
    | RiskJson(risk: RiskEvaluated)
    | DepositJson(notice: DepositNotice)
    | RawBytes(bytes: string)

  /** SHA-256 of a document, collision free. */
  datatype Digest = Sha256(document: Payload)

  const CLEARING: Id := "clearing"
  const SETTLEMENT: Id := "external-settlement"

  /** Accounts that payments and deposits may name: neither side of the house. */
  predicate IsCustomer(account: Id) {
    account != CLEARING && account != SETTLEMENT
  }

  predicate TokenChar(c: char) {
    'A' <= c <= 'Z' || 'a' <= c <= 'z' || '0' <= c <= '9' || c == '.' || c == '_' || c == ':' || c == '-'
  }

  /** The pattern [A-Za-z0-9._:-]{1,128} of the validators and of the table checks. */
  predicate SafeToken(s: string) {
    1 <= |s| <= 128 && forall i :: 0 <= i < |s| ==> TokenChar(s[i])
  }

  /** The pattern [A-Z]{3}. */
  predicate IsCurrency(s: string) {
    |s| == 3 && forall i :: 0 <= i < |s| ==> 'A' <= s[i] <= 'Z'
  }

  datatype RiskEvaluation = RiskEvaluation(level: RiskLevel, approved: bool, reason: Reason)

  const RISK_LIMIT := 50_000

  function EvaluateRisk(amount: int): RiskEvaluation {
    if amount > RISK_LIMIT then RiskEvaluation(High, false, AboveLimit)
    else RiskEvaluation(Low, true, WithinLimit)
  }

  /** The risk event that the risk service derives from a created transaction. */
  function RiskEventFor(tx: Transaction): RiskEvaluated {
    var evaluation := EvaluateRisk(tx.amount);
    RiskEvaluated(tx.id, tx.account, tx.amount, tx.currency,
                  evaluation.level, evaluation.approved, evaluation.reason, tx.correlation)
  }
}
