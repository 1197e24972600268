/**
 * The transaction engine: a map from client id to account, and the state
 * machine that applies one incoming record at a time to the addressed
 * account.
 */
module Engine {
  import opened Types

  /**
   * The account of `id`, or a fresh default account when `id` has not been
   * seen: what `entry(id).or_default()` yields.
   */
  function ClientOf(clients: map<ClientId, Client>, id: ClientId): (c: Client)
    ensures id !in clients ==> c == DefaultClient()
    ensures id in clients ==> c == clients[id]
  {
    if id in clients then clients[id] else DefaultClient()
  }

  /**
   * The effect of one record on one account: the new account and the
   * result. A locked account ignores every record.
   */
  function Step(c: Client, t: Transaction): (Client, Result<()>) {
    if c.locked then (c, Ok(()))
    else match t.txType
      case Deposit => DepositStep(c, t)
      case Withdrawal => WithdrawalStep(c, t)
      case Dispute => (DisputeStep(c, t.tx), Ok(()))
      case Resolve => (ResolveStep(c, t.tx), Ok(()))
      case Chargeback => (ChargebackStep(c, t.tx), Ok(()))
  }

  /** A deposit: credit the amount and record the deposit. */
  function DepositStep(c: Client, t: Transaction): (r: (Client, Result<()>))
    requires t.txType == Deposit
    ensures r.1.Ok? <==> GetAmount(t).Ok?
    ensures r.1.Err? ==> r.0 == c && r.1.error == GetAmount(t).error
    ensures r.1.Ok? ==>
      r.0.available == c.available + t.amount.value && r.0.held == c.held && r.0.locked == c.locked &&
      t.tx in r.0.transactions && r.0.transactions[t.tx] == StoredTransaction(Deposit, t.amount.value, Undisputed)
  {
    match GetAmount(t)
    case Err(e) => (c, Err(e))
    case Ok(amount) =>
      (c.(available := c.available + amount,
          transactions := c.transactions[t.tx := NewStoredTransaction(t.txType, amount)]),
       Ok(()))
  }

  /** A withdrawal: debit the amount and record it, if enough is available. */
  function WithdrawalStep(c: Client, t: Transaction): (r: (Client, Result<()>))
    requires t.txType == Withdrawal
    ensures r.1.Ok? <==> GetAmount(t).Ok?
    ensures r.1.Err? ==> r.0 == c && r.1.error == GetAmount(t).error
    ensures r.1.Ok? && c.available < t.amount.value ==> r.0 == c
    ensures r.1.Ok? && c.available >= t.amount.value ==>
      r.0.available == c.available - t.amount.value && r.0.held == c.held &&
      r.0.locked == c.locked && t.tx in r.0.transactions &&
      r.0.transactions[t.tx] == StoredTransaction(Withdrawal, t.amount.value, Undisputed)
  {
    match GetAmount(t)
    case Err(e) => (c, Err(e))
    case Ok(amount) =>
      if c.available >= amount then
        (c.(available := c.available - amount,
            transactions := c.transactions[t.tx := NewStoredTransaction(t.txType, amount)]),
         Ok(()))
      else (c, Ok(()))
  }

  /** A dispute of an undisputed record opens it; a disputed deposit is held. */
  function DisputeStep(c: Client, tx: TxId): (r: Client)
    ensures Total(r) == Total(c) && r.locked == c.locked
    ensures r.transactions.Keys == c.transactions.Keys
    ensures r != c ==>
      tx in c.transactions && c.transactions[tx].disputeState == Undisputed && r.transactions[tx].disputeState == Open
  {
    if tx in c.transactions && c.transactions[tx].disputeState == Undisputed then
      var d := c.transactions[tx];
      var txs := c.transactions[tx := d.(disputeState := Open)];
      if d.txType == Deposit then
        c.(available := c.available - d.amount, held := c.held + d.amount, transactions := txs)
      else
        c.(transactions := txs)
    else c
  }

  /** A resolve of an open record closes it; a held deposit is released. */
  function ResolveStep(c: Client, tx: TxId): (r: Client)
    ensures Total(r) == Total(c) && r.locked == c.locked
    ensures r.transactions.Keys == c.transactions.Keys
    ensures r != c ==>
      tx in c.transactions && c.transactions[tx].disputeState == Open && r.transactions[tx].disputeState == Undisputed
  {
    if tx in c.transactions && c.transactions[tx].disputeState == Open then
      var d := c.transactions[tx];
      var txs := c.transactions[tx := d.(disputeState := Undisputed)];
      if d.txType == Deposit then
        c.(available := c.available + d.amount, held := c.held - d.amount, transactions := txs)
      else
        c.(transactions := txs)
    else c
  }

  /**
   * A chargeback of an open record reverses it for good and locks the
   * account: a held deposit is removed, a withdrawal is paid back.
   */
  function ChargebackStep(c: Client, tx: TxId): (r: Client)
    ensures r.transactions.Keys == c.transactions.Keys
    ensures r != c ==>
      r.locked && tx in c.transactions && c.transactions[tx].disputeState == Open && r.transactions[tx].disputeState == ChargedBack
  {
    if tx in c.transactions && c.transactions[tx].disputeState == Open then
      var d := c.transactions[tx];
      var txs := c.transactions[tx := d.(disputeState := ChargedBack)];
      // a recorded transaction is a deposit or a withdrawal by its type
      if d.txType == Deposit then
        c.(held := c.held - d.amount, locked := true, transactions := txs)
      else
        c.(available := c.available + d.amount, locked := true, transactions := txs)
    else c
  }

  /**
   * The effect of one record on the whole engine. The addressed account is
   * created first, so it exists afterwards whatever the record does, and no
   * other account is touched.
   */
  function Process(clients: map<ClientId, Client>, t: Transaction): (res: (map<ClientId, Client>, Result<()>))
    ensures res.0.Keys == clients.Keys + {t.client}
    ensures forall id :: id in clients && id != t.client ==> res.0[id] == clients[id]
  {
    var (c, r) := Step(ClientOf(clients, t.client), t);
    (clients[t.client := c], r)
  }

  /** `Process` seen as the two steps of the source: create the entry, then update it. */
  lemma ProcessAfterEntry(clients: map<ClientId, Client>, t: Transaction)
    ensures var c := ClientOf(clients, t.client);
      Process(clients, t) == (clients[t.client := c][t.client := Step(c, t).0], Step(c, t).1)
  {
    var c := ClientOf(clients, t.client);
    assert clients[t.client := c][t.client := Step(c, t).0] == clients[t.client := Step(c, t).0];
  }

  /**
   * A log of records applied in order. The first record that fails stops
   * the run: its error is the result, and the engine stays as that record
   * left it.
   */
  function ProcessAll(clients: map<ClientId, Client>, ts: seq<Transaction>): (res: (map<ClientId, Client>, Result<()>))
    ensures clients.Keys <= res.0.Keys
    ensures res.0.Keys <= clients.Keys + (set t | t in ts :: t.client)
    ensures forall id :: id in clients && (forall t :: t in ts ==> t.client != id) ==> res.0[id] == clients[id]
    decreases |ts|
  {
    if ts == [] then (clients, Ok(()))
    else
      var (next, r) := Process(clients, ts[0]);
      assert forall t :: t in ts[1..] ==> t in ts;
      if r.Err? then (next, r) else ProcessAll(next, ts[1..])
  }

  /** The engine: the accounts of every client seen so far. */
  class Engine {
    var clients: map<ClientId, Client>

    constructor ()
      ensures clients == map[]
    {
      clients := map[];
    }

    /**
     * Applies one record: finds or creates the addressed account, leaves a
     * locked account alone, and otherwise updates the account in place.
     */
    method ProcessTransaction(t: Transaction) returns (r: Result<()>)
      modifies this
      ensures (clients, r) == Process(old(clients), t)
    {
      ProcessAfterEntry(clients, t);
      var client := ClientOf(clients, t.client);
      clients := clients[t.client := client];

      if client.locked {
        return Ok(());
      }

      r, client := ApplyToClient(client, t);
      clients := clients[t.client := client];
    }

    /**
     * Applies the records of a log one by one, stopping at the first one
     * that fails and returning its error.
     */
    method ProcessRecords(records: seq<Transaction>) returns (r: Result<()>)
      modifies this
      ensures (clients, r) == ProcessAll(old(clients), records)
    {
      var i := 0;
      while i < |records|
        invariant i <= |records|
        invariant ProcessAll(old(clients), records) == ProcessAll(clients, records[i..])
      {
        assert records[i..][1..] == records[i + 1..];
        r := ProcessTransaction(records[i]);
        if r.Err? {
          return;
        }
        i := i + 1;
      }
      r := Ok(());
    }
  }

  /**
   * The dispatch on the kind of record, applied to an unlocked account
   * borrowed from the engine; returns the updated account.
   */
  method ApplyToClient(client: Client, t: Transaction) returns (r: Result<()>, updated: Client)
    requires !client.locked
    ensures (updated, r) == Step(client, t)
  {
    updated := client;
    match t.txType {
      case Deposit =>
        var amount :- GetAmount(t);
        updated := updated.(available := updated.available + amount);
        updated := updated.(transactions := updated.transactions[t.tx := NewStoredTransaction(t.txType, amount)]);
      case Withdrawal =>
        var amount :- GetAmount(t);
        if updated.available >= amount {
          updated := updated.(available := updated.available - amount);
          updated := updated.(transactions := updated.transactions[t.tx := NewStoredTransaction(t.txType, amount)]);
        }
      case Dispute =>
        if t.tx in updated.transactions {
          var disputed := updated.transactions[t.tx];
          if disputed.disputeState == Undisputed {
            updated := updated.(transactions := updated.transactions[t.tx := disputed.(disputeState := Open)]);
            if disputed.txType == Deposit {
              updated := updated.(available := updated.available - disputed.amount);
              updated := updated.(held := updated.held + disputed.amount);
            }
          }
        }
      case Resolve =>
        if t.tx in updated.transactions {
          var disputed := updated.transactions[t.tx];
          if disputed.disputeState == Open {
            updated := updated.(transactions := updated.transactions[t.tx := disputed.(disputeState := Undisputed)]);
            if disputed.txType == Deposit {
              updated := updated.(available := updated.available + disputed.amount);
              updated := updated.(held := updated.held - disputed.amount);
            }
          }
        }
      case Chargeback =>
        if t.tx in updated.transactions {
          var disputed := updated.transactions[t.tx];
          if disputed.disputeState == Open {
            updated := updated.(transactions := updated.transactions[t.tx := disputed.(disputeState := ChargedBack)]);
            updated := updated.(locked := true);
            // a recorded transaction is a deposit or a withdrawal by its type
            if disputed.txType == Deposit {
              updated := updated.(held := updated.held - disputed.amount);
            } else {
              updated := updated.(available := updated.available + disputed.amount);
            }
          }
        }
    }
    r := Ok(());
  }
}
