/**
 * Where a client's money comes from. `held` is the sum of the deposits
 * under open dispute, and `available + held` is the sum of all deposits
 * minus all withdrawals, leaving out those charged back. Every record keeps
 * this true, as long as deposits and withdrawals come with transaction ids
 * the client has not used before: a repeated id replaces the earlier record
 * and can leave funds held that no record accounts for.
 */
module Accounting {
  import opened Types
  import opened Engine
  import opened EngineProperties

  /**
   * What a recorded transaction adds to the client's total: a deposit its
   * amount, a withdrawal minus its amount, a charged-back one nothing.
   */
  function NetEffect(s: StoredTransaction): real {
    if s.disputeState == ChargedBack then 0.0
    else if s.txType == Deposit then s.amount
    else -s.amount
  }

  /** What a recorded transaction adds to the held funds: a deposit under open dispute, its amount. */
  function HeldShare(s: StoredTransaction): real {
    if s.disputeState == Open && s.txType == Deposit then s.amount else 0.0
  }

  /** The sum of `w` over the recorded transactions of `m`, in no particular order. */
  ghost function SumOver(m: map<TxId, StoredTransaction>, w: StoredTransaction -> real): real
    decreases |m|
  {
    if m == map[] then 0.0
    else
      var k :| k in m;
      assert (m - {k}).Keys == m.Keys - {k};
      w(m[k]) + SumOver(m - {k}, w)
  }

  /** The sum may be computed by taking out any one transaction first. */
  lemma {:induction false} SumOverRemove(m: map<TxId, StoredTransaction>, w: StoredTransaction -> real, k: TxId)
    requires k in m
    ensures SumOver(m, w) == w(m[k]) + SumOver(m - {k}, w)
    decreases |m|
  {
    var k0 :| k0 in m && SumOver(m, w) == w(m[k0]) + SumOver(m - {k0}, w);
    if k0 != k {
      assert (m - {k0}).Keys == m.Keys - {k0};
      assert (m - {k}).Keys == m.Keys - {k};
      SumOverRemove(m - {k0}, w, k);
      SumOverRemove(m - {k}, w, k0);
      assert (m - {k0}) - {k} == (m - {k}) - {k0};
    }
  }

  /** Replacing or adding one transaction changes the sum by the difference of its weights. */
  lemma SumOverUpdate(m: map<TxId, StoredTransaction>, w: StoredTransaction -> real, k: TxId, v: StoredTransaction)
    ensures SumOver(m[k := v], w) == SumOver(m, w) - (if k in m then w(m[k]) else 0.0) + w(v)
  {
    SumOverRemove(m[k := v], w, k);
    assert m[k := v] - {k} == m - {k};
    if k in m {
      SumOverRemove(m, w, k);
    } else {
      assert m - {k} == m;
    }
  }

  lemma {:induction false} SumOverNonNegative(m: map<TxId, StoredTransaction>, w: StoredTransaction -> real)
    requires forall k :: k in m ==> w(m[k]) >= 0.0
    ensures SumOver(m, w) >= 0.0
    decreases |m|
  {
    if m != map[] {
      var k :| k in m;
      SumOverRemove(m, w, k);
      assert (m - {k}).Keys == m.Keys - {k};
      SumOverNonNegative(m - {k}, w);
    }
  }

  /** The held funds that the recorded transactions account for. */
  ghost function HeldOf(c: Client): real {
    SumOver(c.transactions, HeldShare)
  }

  /** The total funds that the recorded transactions account for. */
  ghost function NetOf(c: Client): real {
    SumOver(c.transactions, NetEffect)
  }

  /** The account's balances agree with its recorded transactions. */
  ghost predicate Balanced(c: Client) {
    c.held == HeldOf(c) && Total(c) == NetOf(c)
  }

  lemma DefaultClientBalanced()
    ensures Balanced(DefaultClient())
  {
  }

  /**
   * Every record keeps the balances in agreement with the recorded
   * transactions, provided a deposit or withdrawal that reuses an id
   * changes nothing (its amount check fails, or the withdrawal is not
   * covered).
   */
  lemma StepKeepsBalanced(c: Client, t: Transaction)
    requires Balanced(c)
    requires IsAmountRecord(t) && t.tx in c.transactions ==> Step(c, t).0 == c
    ensures Balanced(Step(c, t).0)
  {
    var after := Step(c, t).0;
    if after != c {
      var v := after.transactions[t.tx];
      assert after.transactions == c.transactions[t.tx := v];
      SumOverUpdate(c.transactions, HeldShare, t.tx, v);
      SumOverUpdate(c.transactions, NetEffect, t.tx, v);
    }
  }

  /** Every account of the engine is balanced. */
  ghost predicate AllBalanced(clients: map<ClientId, Client>) {
    forall id :: id in clients ==> Balanced(clients[id])
  }

  /**
   * Every record keeps the engine balanced (an account it creates starts
   * balanced), provided a deposit or withdrawal that reuses an id of its
   * client changes nothing.
   */
  lemma ProcessKeepsBalanced(clients: map<ClientId, Client>, t: Transaction)
    requires AllBalanced(clients)
    requires var c := ClientOf(clients, t.client);
      IsAmountRecord(t) && t.tx in c.transactions ==> Step(c, t).0 == c
    ensures AllBalanced(Process(clients, t).0)
  {
    var c := ClientOf(clients, t.client);
    if t.client !in clients {
      DefaultClientBalanced();
    }
    StepKeepsBalanced(c, t);
    var after := Process(clients, t).0;
    forall id | id in after
      ensures Balanced(after[id])
    {
      if id == t.client {
        assert after[id] == Step(c, t).0;
      }
    }
  }

  /**
   * No deposit or withdrawal of the log `ts` reuses a transaction id of its
   * client: neither one already recorded in `clients`, nor one of an
   * earlier deposit or withdrawal of the log.
   */
  ghost predicate FreshAmountIds(clients: map<ClientId, Client>, ts: seq<Transaction>) {
    (forall j :: 0 <= j < |ts| && IsAmountRecord(ts[j]) ==>
      ts[j].tx !in ClientOf(clients, ts[j].client).transactions) &&
    (forall i, j ::
      0 <= i < j < |ts| && IsAmountRecord(ts[i]) && IsAmountRecord(ts[j]) && ts[i].client == ts[j].client ==>
        ts[i].tx != ts[j].tx)
  }

  /** After the first record of a log with fresh ids, the rest of the log still has fresh ids. */
  lemma FreshAmountIdsTail(clients: map<ClientId, Client>, ts: seq<Transaction>)
    requires ts != [] && FreshAmountIds(clients, ts)
    ensures FreshAmountIds(Process(clients, ts[0]).0, ts[1..])
  {
    var t := ts[0];
    var next := Process(clients, t).0;
    var rest := ts[1..];
    forall j | 0 <= j < |rest| && IsAmountRecord(rest[j])
      ensures rest[j].tx !in ClientOf(next, rest[j].client).transactions
    {
      assert rest[j] == ts[j + 1];
      if rest[j].client == t.client {
        var c := ClientOf(clients, t.client);
        assert ClientOf(next, t.client) == Step(c, t).0;
        StepFollowsDisputeMachine(c, t, rest[j].tx);
      } else {
        assert rest[j].client in next <==> rest[j].client in clients;
      }
    }
    forall i, j | 0 <= i < j < |rest| && IsAmountRecord(rest[i]) && IsAmountRecord(rest[j]) &&
      rest[i].client == rest[j].client
      ensures rest[i].tx != rest[j].tx
    {
      assert rest[i] == ts[i + 1] && rest[j] == ts[j + 1];
    }
  }

  /**
   * A whole log whose deposits and withdrawals use fresh ids keeps every
   * account of the engine balanced, wherever the run stops.
   */
  lemma {:induction false} ProcessAllKeepsBalanced(clients: map<ClientId, Client>, ts: seq<Transaction>)
    requires AllBalanced(clients)
    requires FreshAmountIds(clients, ts)
    ensures AllBalanced(ProcessAll(clients, ts).0)
    decreases |ts|
  {
    if ts != [] {
      ProcessKeepsBalanced(clients, ts[0]);
      FreshAmountIdsTail(clients, ts);
      ProcessAllKeepsBalanced(Process(clients, ts[0]).0, ts[1..]);
    }
  }

  /** In a valid, balanced account the held funds are never negative. */
  lemma HeldIsNonNegative(c: Client)
    requires ClientValid(c) && Balanced(c)
    ensures c.held >= 0.0
  {
    SumOverNonNegative(c.transactions, HeldShare);
  }

  /**
   * Reusing the id of a deposit under dispute breaks the agreement: the new
   * deposit replaces the open record, the held amount stays held, and no
   * record accounts for it any more.
   */
  lemma ReusedIdBreaksBalance(c: Client, t: Transaction)
    requires Balanced(c) && !c.locked
    requires t.txType == Deposit && GetAmount(t).Ok?
    requires t.tx in c.transactions && c.transactions[t.tx].txType == Deposit
    requires c.transactions[t.tx].disputeState == Open && c.transactions[t.tx].amount > 0.0
    ensures Step(c, t).0.held == c.held
    ensures HeldOf(Step(c, t).0) == c.held - c.transactions[t.tx].amount
    ensures !Balanced(Step(c, t).0)
  {
    var v := StoredTransaction(Deposit, t.amount.value, Undisputed);
    assert Step(c, t).0.transactions == c.transactions[t.tx := v];
    SumOverUpdate(c.transactions, HeldShare, t.tx, v);
  }

  /**
   * The log that shows it: deposit, dispute, then a second deposit with the
   * same id. The first amount stays held for good, since neither a resolve
   * nor a chargeback finds an open record to release it.
   */
  lemma DuplicateIdStrandsHeldFunds(client: ClientId, tx: TxId, first: Amount, second: Amount)
    requires first > 0.0 && second > 0.0
    ensures var c1 := Step(DefaultClient(), Transaction(Deposit, client, tx, Some(first))).0;
      var c2 := Step(c1, Transaction(Dispute, client, tx, None)).0;
      var c3 := Step(c2, Transaction(Deposit, client, tx, Some(second))).0;
      Balanced(c2) && !Balanced(c3) &&
      c3.held == first && HeldOf(c3) == 0.0 &&
      Step(c3, Transaction(Resolve, client, tx, None)).0 == c3 &&
      Step(c3, Transaction(Chargeback, client, tx, None)).0 == c3
  {
    var deposit := Transaction(Deposit, client, tx, Some(first));
    var dispute := Transaction(Dispute, client, tx, None);
    var c1 := Step(DefaultClient(), deposit).0;
    var c2 := Step(c1, dispute).0;
    DefaultClientBalanced();
    StepKeepsBalanced(DefaultClient(), deposit);
    StepKeepsBalanced(c1, dispute);
    assert c2.transactions[tx] == StoredTransaction(Deposit, first, Open);
    ReusedIdBreaksBalance(c2, Transaction(Deposit, client, tx, Some(second)));
  }
}
