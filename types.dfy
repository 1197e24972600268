/**
 * The data model of the transaction engine: incoming records, the amount
 * check, recorded transactions with their dispute state, client accounts
 * and the engine's errors.
 */
module Types {

  /** Client identifiers are unsigned 16-bit numbers. */
  type ClientId = x: int | 0 <= x < 0x1_0000

  /** Transaction identifiers are unsigned 32-bit numbers. */
  type TxId = x: int | 0 <= x < 0x1_0000_0000

  /** Amounts are exact decimals; `real` is exact too. */
  type Amount = real

  datatype Option<T> = None | Some(value: T)

  datatype TransactionType = Deposit | Withdrawal | Dispute | Resolve | Chargeback

  /**
   * The kinds of transaction that are ever recorded. Only deposits and
   * withdrawals carry an amount and are kept for later disputes, so a
   * recorded transaction of any other kind cannot be built.
   */
  type RecordKind = k: TransactionType | k == Deposit || k == Withdrawal witness Deposit

  /** One incoming record of the transaction log. */
  datatype Transaction = Transaction(
    txType: TransactionType,
    client: ClientId,
    tx: TxId,
    amount: Option<Amount>)

  /** The engine's errors that come from the records themselves. */
  datatype EngineError =
    | AmountMissing(tx: TxId)
    | AmountNotPositive(amount: Amount)

  /** Success with a value, or one of the engine's errors; `:-` propagates the error. */
  datatype Result<T> = Ok(value: T) | Err(error: EngineError) {
    predicate IsFailure() {
      Err?
    }

    function PropagateFailure<U>(): (r: Result<U>)
      requires Err?
      ensures r.Err? && r.error == error
    {
      Err(error)
    }

    function Extract(): T
      requires Ok?
    {
      value
    }
  }

  /**
   * The amount of a deposit or withdrawal: missing amounts and amounts that
   * are zero or negative are errors.
   */
  function GetAmount(t: Transaction): (r: Result<Amount>)
    ensures t.amount.None? ==> r == Err(AmountMissing(t.tx))
    ensures t.amount.Some? && t.amount.value <= 0.0 ==> r == Err(AmountNotPositive(t.amount.value))
    ensures r.Ok? <==> t.amount.Some? && t.amount.value > 0.0
    ensures r.Ok? ==> r.value == t.amount.value && r.value > 0.0
  {
    match t.amount
    case None => Err(AmountMissing(t.tx))
    case Some(amount) =>
      if amount <= 0.0 then Err(AmountNotPositive(amount)) else Ok(amount)
  }

  /**
   * Where a recorded transaction stands with respect to disputes:
   * Undisputed initially and after a resolve, Open while disputed, and
   * ChargedBack for good once a chargeback is accepted.
   */
  datatype DisputeState = Undisputed | Open | ChargedBack

  /** The edges of the dispute state machine. */
  predicate DisputeTransition(from: DisputeState, to: DisputeState) {
    (from == Undisputed && to == Open) ||   // dispute
    (from == Open && to == Undisputed) ||   // resolve
    (from == Open && to == ChargedBack)     // chargeback
  }

  /** A deposit or withdrawal kept for later disputes. */
  datatype StoredTransaction = StoredTransaction(
    txType: RecordKind,
    amount: Amount,
    disputeState: DisputeState)

  /** Records a deposit or withdrawal; it starts out undisputed. */
  function NewStoredTransaction(txType: TransactionType, amount: Amount): (s: StoredTransaction)
    requires txType == Deposit || txType == Withdrawal
    ensures s.txType == txType && s.amount == amount
    ensures s.disputeState == Undisputed
  {
    StoredTransaction(txType, amount, Undisputed)
  }

  /** A client's single asset account. */
  datatype Client = Client(
    available: Amount,
    held: Amount,
    locked: bool,
    transactions: map<TxId, StoredTransaction>)

  /** What a client holds in all: available plus held funds. */
  function Total(c: Client): Amount {
    c.available + c.held
  }

  /** The account of a client that has not been seen before. */
  function DefaultClient(): (c: Client)
    ensures c.available == 0.0 && c.held == 0.0
    ensures !c.locked
    ensures c.transactions == map[]
  {
    Client(0.0, 0.0, false, map[])
  }

  /** Chargeback is the final dispute state: no edge leaves it. */
  lemma ChargedBackIsFinal(to: DisputeState)
    ensures !DisputeTransition(ChargedBack, to)
  {
  }
}
