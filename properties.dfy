/**
 * What one record does to an account, kind by kind, and what the engine
 * keeps true across records: locked accounts are inert, only the addressed
 * account changes, errors change nothing, and every recorded transaction
 * moves along the dispute state machine.
 */
module EngineProperties {
  import opened Types
  import opened Engine

  predicate IsAmountRecord(t: Transaction) {
    t.txType == Deposit || t.txType == Withdrawal
  }

  predicate IsDisputeRecord(t: Transaction) {
    t.txType == Dispute || t.txType == Resolve || t.txType == Chargeback
  }

  // ---------------------------------------------------------------------
  // Locking and lazy creation of accounts

  /** A locked account ignores every record, with success. */
  lemma LockedAccountIsInert(c: Client, t: Transaction)
    requires c.locked
    ensures Step(c, t) == (c, Ok(()))
  {
  }

  /**
   * A record for a client whose account is locked leaves the whole engine
   * as it was and succeeds, whatever its kind and even without an amount.
   */
  lemma LockedClientIgnoresRecord(clients: map<ClientId, Client>, t: Transaction)
    requires t.client in clients && clients[t.client].locked
    ensures Process(clients, t) == (clients, Ok(()))
  {
    assert clients[t.client := clients[t.client]] == clients;
  }

  /**
   * A record for a client not seen before creates its account with zero
   * balances, unlocked and without transactions, before anything else
   * happens; a record that then changes nothing leaves exactly that account.
   */
  lemma UnseenClientStartsAtDefault(clients: map<ClientId, Client>, t: Transaction)
    requires t.client !in clients
    ensures Process(clients, t).0 == clients[t.client := Step(DefaultClient(), t).0]
    ensures IsDisputeRecord(t) || Process(clients, t).1.Err? ==>
      Process(clients, t).0 == clients[t.client := DefaultClient()]
  {
    var c := DefaultClient();
    assert ClientOf(clients, t.client) == c;
    if IsDisputeRecord(t) {
      assert t.tx !in c.transactions;
      assert Step(c, t).0 == c;
    } else if Process(clients, t).1.Err? {
      ErrorsComeOnlyFromAmounts(c, t);
    }
  }

  // ---------------------------------------------------------------------
  // Errors

  /**
   * Only deposits and withdrawals with a bad amount fail, on an unlocked
   * account; the error is the one of the amount check, and the account is
   * left exactly as it was.
   */
  lemma ErrorsComeOnlyFromAmounts(c: Client, t: Transaction)
    ensures Step(c, t).1.Err? <==> !c.locked && IsAmountRecord(t) && GetAmount(t).Err?
    ensures Step(c, t).1.Err? ==> Step(c, t).0 == c && Step(c, t).1.error == GetAmount(t).error
  {
  }

  /** A failed record leaves the engine as it was, except that the account now exists. */
  lemma ErrorKeepsEngine(clients: map<ClientId, Client>, t: Transaction)
    requires Process(clients, t).1.Err?
    ensures Process(clients, t).0 == clients[t.client := ClientOf(clients, t.client)]
    ensures Process(clients, t).1 == Err(GetAmount(t).error)
  {
  }

  // ---------------------------------------------------------------------
  // Deposits and withdrawals

  /**
   * A deposit with a valid amount credits `available`, leaves `held` and the
   * lock alone, and records an undisputed deposit under its id, replacing
   * any earlier record with that id.
   */
  lemma DepositCredits(c: Client, t: Transaction)
    requires !c.locked && t.txType == Deposit && GetAmount(t).Ok?
    ensures var a := t.amount.value;
      Step(c, t) ==
        (Client(c.available + a, c.held, false,
                 c.transactions[t.tx := StoredTransaction(Deposit, a, Undisputed)]),
         Ok(()))
  {
  }

  /**
   * A withdrawal with a valid amount debits `available` and records an
   * undisputed withdrawal when enough is available; otherwise it succeeds
   * and changes nothing at all.
   */
  lemma WithdrawalDebitsOrIsDropped(c: Client, t: Transaction)
    requires !c.locked && t.txType == Withdrawal && GetAmount(t).Ok?
    ensures var a := t.amount.value;
      Step(c, t) ==
        if c.available >= a then
          (Client(c.available - a, c.held, false,
                   c.transactions[t.tx := StoredTransaction(Withdrawal, a, Undisputed)]),
           Ok(()))
        else (c, Ok(()))
  {
  }

  /** Funds never leave `available` below zero through a withdrawal. */
  lemma WithdrawalKeepsAvailableNonNegative(c: Client, t: Transaction)
    requires t.txType == Withdrawal && c.available >= 0.0
    ensures Step(c, t).0.available >= 0.0
  {
  }

  // ---------------------------------------------------------------------
  // Disputes, resolves and chargebacks

  /**
   * A dispute of an undisputed deposit opens it and moves its amount from
   * `available` to `held` (which may make `available` negative); of an
   * undisputed withdrawal it only opens it. A dispute of an unknown id or of
   * a record that is not undisputed changes nothing.
   */
  lemma DisputeOpens(c: Client, t: Transaction)
    requires !c.locked && t.txType == Dispute
    ensures Step(c, t).1 == Ok(())
    ensures t.tx !in c.transactions || c.transactions[t.tx].disputeState != Undisputed ==>
      Step(c, t).0 == c
    ensures t.tx in c.transactions && c.transactions[t.tx].disputeState == Undisputed ==>
      var d := c.transactions[t.tx];
      var nowOpen := c.transactions[t.tx := d.(disputeState := Open)];
      Step(c, t).0 ==
        if d.txType == Deposit then Client(c.available - d.amount, c.held + d.amount, false, nowOpen)
        else c.(transactions := nowOpen)
    ensures Total(Step(c, t).0) == Total(c)
  {
  }

  /**
   * A resolve of an open record closes it back to undisputed and releases a
   * held deposit; anything else changes nothing.
   */
  lemma ResolveCloses(c: Client, t: Transaction)
    requires !c.locked && t.txType == Resolve
    ensures Step(c, t).1 == Ok(())
    ensures t.tx !in c.transactions || c.transactions[t.tx].disputeState != Open ==>
      Step(c, t).0 == c
    ensures t.tx in c.transactions && c.transactions[t.tx].disputeState == Open ==>
      var d := c.transactions[t.tx];
      var closed := c.transactions[t.tx := d.(disputeState := Undisputed)];
      Step(c, t).0 ==
        if d.txType == Deposit then Client(c.available + d.amount, c.held - d.amount, false, closed)
        else c.(transactions := closed)
    ensures Total(Step(c, t).0) == Total(c)
  {
  }

  /**
   * A chargeback of an open record marks it charged back and locks the
   * account; a held deposit leaves `held` for good, and a withdrawal is paid
   * back into `available`. Anything else changes nothing.
   */
  lemma ChargebackReverses(c: Client, t: Transaction)
    requires !c.locked && t.txType == Chargeback
    ensures Step(c, t).1 == Ok(())
    ensures t.tx !in c.transactions || c.transactions[t.tx].disputeState != Open ==>
      Step(c, t).0 == c
    ensures t.tx in c.transactions && c.transactions[t.tx].disputeState == Open ==>
      var d := c.transactions[t.tx];
      var charged := c.transactions[t.tx := d.(disputeState := ChargedBack)];
      Step(c, t).0 ==
        if d.txType == Deposit then Client(c.available, c.held - d.amount, true, charged)
        else Client(c.available + d.amount, c.held, true, charged)
  {
  }

  /**
   * Disputing an undisputed transaction and then resolving it gives back
   * exactly the account before the dispute: balances and record alike.
   */
  lemma {:induction false} DisputeThenResolveRestores(c: Client, dispute: Transaction, resolve: Transaction)
    requires !c.locked && dispute.txType == Dispute && resolve.txType == Resolve
    requires dispute.tx == resolve.tx
    requires dispute.tx in c.transactions && c.transactions[dispute.tx].disputeState == Undisputed
    ensures Step(Step(c, dispute).0, resolve) == (c, Ok(()))
  {
    var tx := dispute.tx;
    var d := c.transactions[tx];
    var c1 := Step(c, dispute).0;
    assert c1.transactions == c.transactions[tx := d.(disputeState := Open)];
    assert c1.transactions[tx] == d.(disputeState := Open);
    var c2 := Step(c1, resolve).0;
    assert c2.transactions == c.transactions[tx := d] == c.transactions;
  }

  /**
   * Disputes, resolves and chargebacks are idempotent: repeating the same
   * record right away changes nothing more.
   */
  lemma DisputeRecordsAreIdempotent(c: Client, t: Transaction)
    requires IsDisputeRecord(t)
    ensures Step(Step(c, t).0, t) == (Step(c, t).0, Ok(()))
  {
  }

  // ---------------------------------------------------------------------
  // The dispute state machine

  /**
   * One record changes at most the stored transaction with its own id, and
   * only in the ways of the source. A transaction it records is new and
   * undisputed (a deposit or withdrawal whose id is taken replaces the
   * earlier record). A dispute, resolve or chargeback keeps a record's kind
   * and amount and moves its state along one edge of the dispute state
   * machine, or leaves it alone. Every other record is unchanged.
   */
  lemma StepFollowsDisputeMachine(c: Client, t: Transaction, tx: TxId)
    ensures var after := Step(c, t).0.transactions;
      tx != t.tx ==> (tx in after <==> tx in c.transactions) && (tx in after ==> after[tx] == c.transactions[tx])
    ensures var after := Step(c, t).0.transactions;
      tx in after && (tx !in c.transactions || after[tx] != c.transactions[tx]) && IsAmountRecord(t) ==>
        after[tx].txType == t.txType && t.amount == Some(after[tx].amount) && after[tx].disputeState == Undisputed
    ensures var after := Step(c, t).0.transactions;
      tx in c.transactions ==> tx in after
    ensures var after := Step(c, t).0.transactions;
      tx !in c.transactions && tx in after ==> IsAmountRecord(t)
    ensures var after := Step(c, t).0.transactions;
      tx in c.transactions && IsDisputeRecord(t) ==>
        after[tx].txType == c.transactions[tx].txType &&
        after[tx].amount == c.transactions[tx].amount &&
        (after[tx].disputeState == c.transactions[tx].disputeState ||
         DisputeTransition(c.transactions[tx].disputeState, after[tx].disputeState))
  {
  }

  /**
   * What the engine keeps true of every account: recorded amounts are
   * positive, and an account with a charged-back transaction is locked.
   */
  ghost predicate ClientValid(c: Client) {
    forall tx :: tx in c.transactions ==>
      c.transactions[tx].amount > 0.0 &&
      (c.transactions[tx].disputeState == ChargedBack ==> c.locked)
  }

  /** Every account of the engine is valid. */
  ghost predicate AllValid(clients: map<ClientId, Client>) {
    forall id :: id in clients ==> ClientValid(clients[id])
  }

  lemma StepPreservesValid(c: Client, t: Transaction)
    requires ClientValid(c)
    ensures ClientValid(Step(c, t).0)
  {
  }

  /** The empty engine is valid, and every record keeps the engine valid. */
  lemma ProcessPreservesValid(clients: map<ClientId, Client>, t: Transaction)
    requires AllValid(clients)
    ensures AllValid(map[])
    ensures AllValid(Process(clients, t).0)
  {
    var c := ClientOf(clients, t.client);
    if t.client !in clients {
      assert c == DefaultClient();
    }
    StepPreservesValid(c, t);
  }

  /** A whole log keeps the engine valid, wherever it stops. */
  lemma {:induction false} ProcessAllPreservesValid(clients: map<ClientId, Client>, ts: seq<Transaction>)
    requires AllValid(clients)
    ensures AllValid(ProcessAll(clients, ts).0)
    decreases |ts|
  {
    if ts != [] {
      ProcessPreservesValid(clients, ts[0]);
      ProcessAllPreservesValid(Process(clients, ts[0]).0, ts[1..]);
    }
  }

  // ---------------------------------------------------------------------
  // Logs of records

  /**
   * Running a log in two parts is running it whole: the second part starts
   * where the first one ended, unless the first one failed, in which case
   * the second part is never reached.
   */
  lemma {:induction false} ProcessAllAppend(clients: map<ClientId, Client>, a: seq<Transaction>, b: seq<Transaction>)
    ensures ProcessAll(clients, a).1.Ok? ==>
      ProcessAll(clients, a + b) == ProcessAll(ProcessAll(clients, a).0, b)
    ensures ProcessAll(clients, a).1.Err? ==>
      ProcessAll(clients, a + b) == ProcessAll(clients, a)
    decreases |a|
  {
    if a == [] {
      assert a + b == b;
    } else {
      assert (a + b)[0] == a[0];
      assert (a + b)[1..] == a[1..] + b;
      ProcessAllAppend(Process(clients, a[0]).0, a[1..], b);
    }
  }

  /** A run fails only at a deposit or withdrawal with a bad amount. */
  lemma {:induction false} ProcessAllErrorsComeFromAmounts(clients: map<ClientId, Client>, ts: seq<Transaction>)
    requires ProcessAll(clients, ts).1.Err?
    ensures exists t ::
      t in ts && IsAmountRecord(t) && GetAmount(t).Err? && ProcessAll(clients, ts).1 == Err(GetAmount(t).error)
    decreases |ts|
  {
    var (next, r) := Process(clients, ts[0]);
    if r.Err? {
      ErrorsComeOnlyFromAmounts(ClientOf(clients, ts[0].client), ts[0]);
      assert ts[0] in ts;
    } else {
      ProcessAllErrorsComeFromAmounts(next, ts[1..]);
      var t :|
        t in ts[1..] && IsAmountRecord(t) && GetAmount(t).Err? && ProcessAll(next, ts[1..]).1 == Err(GetAmount(t).error);
      assert t in ts;
    }
  }

  /**
   * A charged-back transaction is final: in a valid account it belongs to a
   * locked account, so no later record changes anything about it (or about
   * the account).
   */
  lemma ChargebackIsFinal(c: Client, t: Transaction, tx: TxId)
    requires ClientValid(c)
    requires tx in c.transactions && c.transactions[tx].disputeState == ChargedBack
    ensures Step(c, t) == (c, Ok(()))
  {
  }
}
