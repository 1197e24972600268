/**
 * The step-by-step logs of the engine's own tests, stated as facts about
 * the model: from an empty engine, each record succeeds and leaves exactly
 * the listed accounts. Every test addresses a single client.
 */
module Scenarios {
  import opened Types
  import opened Engine

  /**
   * Starting from `start`, every record of `steps` succeeds and leaves the
   * engine's accounts as listed beside it.
   */
  predicate Replays(start: map<ClientId, Client>, steps: seq<(Transaction, map<ClientId, Client>)>)
    decreases |steps|
  {
    steps == [] ||
    (Process(start, steps[0].0) == (steps[0].1, Ok(())) && Replays(steps[0].1, steps[1..]))
  }

  /**
   * Starting from account `c`, every record of `steps` addresses client `id`,
   * succeeds and leaves the account listed beside it.
   */
  predicate AccountReplays(id: ClientId, c: Client, steps: seq<(Transaction, Client)>)
    decreases |steps|
  {
    steps == [] ||
    (steps[0].0.client == id && Step(c, steps[0].0) == (steps[0].1, Ok(())) &&
     AccountReplays(id, steps[0].1, steps[1..]))
  }

  /** The engine states of a single-client log: just that client's account. */
  function Lift(id: ClientId, steps: seq<(Transaction, Client)>): (r: seq<(Transaction, map<ClientId, Client>)>)
    ensures |r| == |steps|
    ensures forall i :: 0 <= i < |steps| ==> r[i] == (steps[i].0, map[id := steps[i].1])
  {
    seq(|steps|, i requires 0 <= i < |steps| => (steps[i].0, map[id := steps[i].1]))
  }

  /**
   * A log that replays on one account replays on an engine that holds at
   * most that account, in particular on the empty engine when the account
   * is the default one.
   */
  lemma {:induction false} LiftReplays(id: ClientId, start: map<ClientId, Client>, steps: seq<(Transaction, Client)>)
    requires start.Keys <= {id}
    requires AccountReplays(id, ClientOf(start, id), steps)
    ensures Replays(start, Lift(id, steps))
    decreases |steps|
  {
    if steps != [] {
      var (t, next) := steps[0];
      assert start[id := next] == map[id := next];
      assert Process(start, t) == (map[id := next], Ok(()));
      LiftReplays(id, map[id := next], steps[1..]);
      assert Lift(id, steps)[1..] == Lift(id, steps[1..]);
    }
  }

  /** The records of a log, without the expected states. */
  function Records<S>(steps: seq<(Transaction, S)>): (r: seq<Transaction>)
    ensures |r| == |steps|
    ensures forall i :: 0 <= i < |steps| ==> r[i] == steps[i].0
  {
    seq(|steps|, i requires 0 <= i < |steps| => steps[i].0)
  }

  /**
   * A log that replays also runs to its end as one batch: every record
   * succeeds, and the engine ends in the last listed state.
   */
  lemma {:induction false} ReplaysRunToTheEnd(start: map<ClientId, Client>, steps: seq<(Transaction, map<ClientId, Client>)>)
    requires Replays(start, steps)
    ensures ProcessAll(start, Records(steps)) ==
      (if steps == [] then start else steps[|steps| - 1].1, Ok(()))
    decreases |steps|
  {
    if steps != [] {
      var ts := Records(steps);
      assert ts[0] == steps[0].0;
      assert ts[1..] == Records(steps[1..]);
      assert Process(start, ts[0]) == (steps[0].1, Ok(()));
      ReplaysRunToTheEnd(steps[0].1, steps[1..]);
      assert ProcessAll(start, ts) == ProcessAll(steps[0].1, ts[1..]);
    }
  }

  /**
   * A single-client log that replays from a new account also runs as one
   * batch from the empty engine, ending with just that client's last listed
   * account.
   */
  lemma AccountLogRunsToTheEnd(id: ClientId, steps: seq<(Transaction, Client)>)
    requires steps != [] && AccountReplays(id, DefaultClient(), steps)
    ensures ProcessAll(map[], Records(steps)) == (map[id := After(DefaultClient(), steps)], Ok(()))
  {
    LiftReplays(id, map[], steps);
    ReplaysRunToTheEnd(map[], Lift(id, steps));
    assert Records(Lift(id, steps)) == Records(steps);
  }

  /** A record for client 1. */
  function Rec(kind: TransactionType, tx: TxId, amount: Option<Amount>): Transaction {
    Transaction(kind, 1, tx, amount)
  }

  function Dep(amount: Amount, state: DisputeState): StoredTransaction {
    StoredTransaction(Deposit, amount, state)
  }

  function Wd(amount: Amount, state: DisputeState): StoredTransaction {
    StoredTransaction(Withdrawal, amount, state)
  }

  /**
   * The account after the records of `steps`, when each record leaves the
   * account listed beside it.
   */
  function After(c: Client, steps: seq<(Transaction, Client)>): Client {
    if steps == [] then c else steps[|steps| - 1].1
  }

  /** Two logs that replay one after the other replay as one. */
  lemma {:induction false} AccountReplaysAppend(id: ClientId, c: Client, a: seq<(Transaction, Client)>, b: seq<(Transaction, Client)>)
    requires AccountReplays(id, c, a)
    requires AccountReplays(id, After(c, a), b)
    ensures AccountReplays(id, c, a + b)
    decreases |a|
  {
    if a != [] {
      assert (a + b)[0] == a[0];
      assert (a + b)[1..] == a[1..] + b;
      assert After(a[0].1, a[1..]) == After(c, a);
      AccountReplaysAppend(id, a[0].1, a[1..], b);
    } else {
      assert a + b == b;
    }
  }

  lemma MissingDepositAmountFails()
    ensures Process(map[], Rec(Deposit, 1, None)) == (map[1 := DefaultClient()], Err(AmountMissing(1)))
  {
  }

  lemma MissingWithdrawalAmountFails()
    ensures Process(map[], Rec(Withdrawal, 1, None)) == (map[1 := DefaultClient()], Err(AmountMissing(1)))
  {
  }

  lemma ZeroAmountFails()
    ensures Process(map[], Rec(Withdrawal, 1, Some(0.0))) == (map[1 := DefaultClient()], Err(AmountNotPositive(0.0)))
  {
  }

  lemma NegativeAmountFails()
    ensures Process(map[], Rec(Withdrawal, 1, Some(-1.0))) == (map[1 := DefaultClient()], Err(AmountNotPositive(-1.0)))
  {
  }

  function DepositLog(): seq<(Transaction, Client)> {
    [
      (Rec(Deposit, 1, Some(1.5)), Client(1.5, 0.0, false, map[1 := Dep(1.5, Undisputed)])),
      (Rec(Deposit, 2, Some(2.5)), Client(4.0, 0.0, false, map[1 := Dep(1.5, Undisputed), 2 := Dep(2.5, Undisputed)]))]
  }

  lemma DepositScenario()
    ensures AccountReplays(1, DefaultClient(), DepositLog())
    ensures Replays(map[], Lift(1, DepositLog()))
    ensures ProcessAll(map[], Records(DepositLog())) == (map[1 := Client(4.0, 0.0, false, map[1 := Dep(1.5, Undisputed), 2 := Dep(2.5, Undisputed)])], Ok(()))
  {
    LiftReplays(1, map[], DepositLog());
    AccountLogRunsToTheEnd(1, DepositLog());
  }

  function WithdrawalLog(): seq<(Transaction, Client)> {
    [
      (Rec(Withdrawal, 1, Some(2.5)), Client(0.0, 0.0, false, map[])),
      (Rec(Deposit, 2, Some(1.5)), Client(1.5, 0.0, false, map[2 := Dep(1.5, Undisputed)])),
      (Rec(Withdrawal, 3, Some(0.4)), Client(1.1, 0.0, false, map[2 := Dep(1.5, Undisputed), 3 := Wd(0.4, Undisputed)])),
      (Rec(Withdrawal, 4, Some(1.5)), Client(1.1, 0.0, false, map[2 := Dep(1.5, Undisputed), 3 := Wd(0.4, Undisputed)]))]
  }

  lemma WithdrawalScenario()
    ensures AccountReplays(1, DefaultClient(), WithdrawalLog())
    ensures Replays(map[], Lift(1, WithdrawalLog()))
    ensures ProcessAll(map[], Records(WithdrawalLog())) == (map[1 := Client(1.1, 0.0, false, map[2 := Dep(1.5, Undisputed), 3 := Wd(0.4, Undisputed)])], Ok(()))
  {
    LiftReplays(1, map[], WithdrawalLog());
    AccountLogRunsToTheEnd(1, WithdrawalLog());
  }

  /**
   * A dispute, resolve or chargeback for an id never seen, twice over: the
   * account is created and stays at its default.
   */
  function UnknownIdLog(kind: TransactionType): seq<(Transaction, Client)> {
    [(Rec(kind, 1, None), DefaultClient()), (Rec(kind, 1, None), DefaultClient())]
  }

  lemma UnknownIdScenario(kind: TransactionType)
    requires kind == Dispute || kind == Resolve || kind == Chargeback
    ensures AccountReplays(1, DefaultClient(), UnknownIdLog(kind))
  {
    var c := DefaultClient();
    var t := Rec(kind, 1, None);
    assert t.tx !in c.transactions;
    assert Step(c, t) == (c, Ok(()));
  }

  /**
   * The opening of most tests: deposit 1.5, withdraw 0.4, then try to
   * withdraw 1.5 more than is available, which is dropped.
   */
  function SetupLog(): seq<(Transaction, Client)> {
    [
      (Rec(Deposit, 1, Some(1.5)), Client(1.5, 0.0, false, map[1 := Dep(1.5, Undisputed)])),
      (Rec(Withdrawal, 2, Some(0.4)), Client(1.1, 0.0, false, map[1 := Dep(1.5, Undisputed), 2 := Wd(0.4, Undisputed)])),
      (Rec(Withdrawal, 3, Some(1.5)), Client(1.1, 0.0, false, map[1 := Dep(1.5, Undisputed), 2 := Wd(0.4, Undisputed)]))]
  }

  lemma SetupScenario()
    ensures AccountReplays(1, DefaultClient(), SetupLog())
    ensures After(DefaultClient(), SetupLog()) == Client(1.1, 0.0, false, map[1 := Dep(1.5, Undisputed), 2 := Wd(0.4, Undisputed)])
  {
  }

  /** A deposit disputed twice: held once, the second dispute is ignored. */
  function DisputeDepositTail(): seq<(Transaction, Client)> {
    [
      (Rec(Dispute, 1, None), Client(-0.4, 1.5, false, map[1 := Dep(1.5, Open), 2 := Wd(0.4, Undisputed)])),
      (Rec(Dispute, 1, None), Client(-0.4, 1.5, false, map[1 := Dep(1.5, Open), 2 := Wd(0.4, Undisputed)]))]
  }

  function DisputeDepositLog(): seq<(Transaction, Client)> {
    UnknownIdLog(Dispute) + SetupLog() + DisputeDepositTail()
  }

  lemma DisputeDepositTailReplays()
    ensures AccountReplays(1, Client(1.1, 0.0, false, map[1 := Dep(1.5, Undisputed), 2 := Wd(0.4, Undisputed)]), DisputeDepositTail())
  {
    assert map[1 := Dep(1.5, Undisputed), 2 := Wd(0.4, Undisputed)][1 := Dep(1.5, Open)] == map[1 := Dep(1.5, Open), 2 := Wd(0.4, Undisputed)];
  }

  lemma DisputeDepositScenario()
    ensures AccountReplays(1, DefaultClient(), DisputeDepositLog())
    ensures Replays(map[], Lift(1, DisputeDepositLog()))
    ensures ProcessAll(map[], Records(DisputeDepositLog())) == (map[1 := Client(-0.4, 1.5, false, map[1 := Dep(1.5, Open), 2 := Wd(0.4, Undisputed)])], Ok(()))
  {
    DisputeDepositTailReplays();
    SetupScenario();
    UnknownIdScenario(Dispute);
    AccountReplaysAppend(1, DefaultClient(), UnknownIdLog(Dispute), SetupLog());
    assert After(DefaultClient(), UnknownIdLog(Dispute) + SetupLog()) == Client(1.1, 0.0, false, map[1 := Dep(1.5, Undisputed), 2 := Wd(0.4, Undisputed)]);
    AccountReplaysAppend(1, DefaultClient(), UnknownIdLog(Dispute) + SetupLog(), DisputeDepositTail());
    LiftReplays(1, map[], DisputeDepositLog());
    AccountLogRunsToTheEnd(1, DisputeDepositLog());
  }

  /** A withdrawal disputed twice: only its state changes, once. */
  function DisputeWithdrawalTail(): seq<(Transaction, Client)> {
    [
      (Rec(Dispute, 2, None), Client(1.1, 0.0, false, map[1 := Dep(1.5, Undisputed), 2 := Wd(0.4, Open)])),
      (Rec(Dispute, 2, None), Client(1.1, 0.0, false, map[1 := Dep(1.5, Undisputed), 2 := Wd(0.4, Open)]))]
  }

  function DisputeWithdrawalLog(): seq<(Transaction, Client)> {
    SetupLog() + DisputeWithdrawalTail()
  }

  /** The dispute of the withdrawal opens it; nothing is held for a withdrawal. */
  lemma WithdrawalDisputeOpens()
    ensures Step(Client(1.1, 0.0, false, map[1 := Dep(1.5, Undisputed), 2 := Wd(0.4, Undisputed)]), Rec(Dispute, 2, None))
      == (Client(1.1, 0.0, false, map[1 := Dep(1.5, Undisputed), 2 := Wd(0.4, Open)]), Ok(()))
  {
    assert map[1 := Dep(1.5, Undisputed), 2 := Wd(0.4, Undisputed)][2 := Wd(0.4, Open)] == map[1 := Dep(1.5, Undisputed), 2 := Wd(0.4, Open)];
  }

  /** A second dispute of the open withdrawal is ignored. */
  lemma WithdrawalDisputeIgnored()
    ensures var c := Client(1.1, 0.0, false, map[1 := Dep(1.5, Undisputed), 2 := Wd(0.4, Open)]);
      Step(c, Rec(Dispute, 2, None)) == (c, Ok(()))
  {
  }

  lemma DisputeWithdrawalTailReplays()
    ensures AccountReplays(1, Client(1.1, 0.0, false, map[1 := Dep(1.5, Undisputed), 2 := Wd(0.4, Undisputed)]), DisputeWithdrawalTail())
  {
    var c1 := Client(1.1, 0.0, false, map[1 := Dep(1.5, Undisputed), 2 := Wd(0.4, Open)]);
    var t := Rec(Dispute, 2, None);
    WithdrawalDisputeOpens();
    WithdrawalDisputeIgnored();
    assert AccountReplays(1, c1, [(t, c1)]);
    assert DisputeWithdrawalTail() == [(t, c1), (t, c1)];
  }

  lemma DisputeWithdrawalScenario()
    ensures AccountReplays(1, DefaultClient(), DisputeWithdrawalLog())
    ensures Replays(map[], Lift(1, DisputeWithdrawalLog()))
    ensures ProcessAll(map[], Records(DisputeWithdrawalLog())) == (map[1 := Client(1.1, 0.0, false, map[1 := Dep(1.5, Undisputed), 2 := Wd(0.4, Open)])], Ok(()))
  {
    DisputeWithdrawalTailReplays();
    SetupScenario();
    AccountReplaysAppend(1, DefaultClient(), SetupLog(), DisputeWithdrawalTail());
    LiftReplays(1, map[], DisputeWithdrawalLog());
    AccountLogRunsToTheEnd(1, DisputeWithdrawalLog());
  }

  /** A resolve before any dispute is ignored; after one it releases the held deposit, once. */
  function ResolveDepositTail(): seq<(Transaction, Client)> {
    [
      (Rec(Resolve, 1, None), Client(1.1, 0.0, false, map[1 := Dep(1.5, Undisputed), 2 := Wd(0.4, Undisputed)])),
      (Rec(Dispute, 1, None), Client(-0.4, 1.5, false, map[1 := Dep(1.5, Open), 2 := Wd(0.4, Undisputed)])),
      (Rec(Resolve, 1, None), Client(1.1, 0.0, false, map[1 := Dep(1.5, Undisputed), 2 := Wd(0.4, Undisputed)])),
      (Rec(Resolve, 1, None), Client(1.1, 0.0, false, map[1 := Dep(1.5, Undisputed), 2 := Wd(0.4, Undisputed)]))]
  }

  function ResolveDepositLog(): seq<(Transaction, Client)> {
    UnknownIdLog(Resolve) + SetupLog() + ResolveDepositTail()
  }

  lemma ResolveDepositTailReplays()
    ensures AccountReplays(1, Client(1.1, 0.0, false, map[1 := Dep(1.5, Undisputed), 2 := Wd(0.4, Undisputed)]), ResolveDepositTail())
  {
    assert map[1 := Dep(1.5, Undisputed), 2 := Wd(0.4, Undisputed)][1 := Dep(1.5, Open)] == map[1 := Dep(1.5, Open), 2 := Wd(0.4, Undisputed)];
    assert map[1 := Dep(1.5, Open), 2 := Wd(0.4, Undisputed)][1 := Dep(1.5, Undisputed)] == map[1 := Dep(1.5, Undisputed), 2 := Wd(0.4, Undisputed)];
  }

  lemma ResolveDepositScenario()
    ensures AccountReplays(1, DefaultClient(), ResolveDepositLog())
    ensures Replays(map[], Lift(1, ResolveDepositLog()))
    ensures ProcessAll(map[], Records(ResolveDepositLog())) == (map[1 := Client(1.1, 0.0, false, map[1 := Dep(1.5, Undisputed), 2 := Wd(0.4, Undisputed)])], Ok(()))
  {
    ResolveDepositTailReplays();
    SetupScenario();
    UnknownIdScenario(Resolve);
    AccountReplaysAppend(1, DefaultClient(), UnknownIdLog(Resolve), SetupLog());
    assert After(DefaultClient(), UnknownIdLog(Resolve) + SetupLog()) == Client(1.1, 0.0, false, map[1 := Dep(1.5, Undisputed), 2 := Wd(0.4, Undisputed)]);
    AccountReplaysAppend(1, DefaultClient(), UnknownIdLog(Resolve) + SetupLog(), ResolveDepositTail());
    LiftReplays(1, map[], ResolveDepositLog());
    AccountLogRunsToTheEnd(1, ResolveDepositLog());
  }

  /** A disputed withdrawal resolved twice: it is closed once. */
  function ResolveWithdrawalTail(): seq<(Transaction, Client)> {
    [
      (Rec(Dispute, 2, None), Client(1.1, 0.0, false, map[1 := Dep(1.5, Undisputed), 2 := Wd(0.4, Open)])),
      (Rec(Resolve, 2, None), Client(1.1, 0.0, false, map[1 := Dep(1.5, Undisputed), 2 := Wd(0.4, Undisputed)])),
      (Rec(Resolve, 2, None), Client(1.1, 0.0, false, map[1 := Dep(1.5, Undisputed), 2 := Wd(0.4, Undisputed)]))]
  }

  function ResolveWithdrawalLog(): seq<(Transaction, Client)> {
    SetupLog() + ResolveWithdrawalTail()
  }

  lemma ResolveWithdrawalTailReplays()
    ensures AccountReplays(1, Client(1.1, 0.0, false, map[1 := Dep(1.5, Undisputed), 2 := Wd(0.4, Undisputed)]), ResolveWithdrawalTail())
  {
    assert map[1 := Dep(1.5, Undisputed), 2 := Wd(0.4, Undisputed)][2 := Wd(0.4, Open)] == map[1 := Dep(1.5, Undisputed), 2 := Wd(0.4, Open)];
    assert map[1 := Dep(1.5, Undisputed), 2 := Wd(0.4, Open)][2 := Wd(0.4, Undisputed)] == map[1 := Dep(1.5, Undisputed), 2 := Wd(0.4, Undisputed)];
  }

  lemma ResolveWithdrawalScenario()
    ensures AccountReplays(1, DefaultClient(), ResolveWithdrawalLog())
    ensures Replays(map[], Lift(1, ResolveWithdrawalLog()))
    ensures ProcessAll(map[], Records(ResolveWithdrawalLog())) == (map[1 := Client(1.1, 0.0, false, map[1 := Dep(1.5, Undisputed), 2 := Wd(0.4, Undisputed)])], Ok(()))
  {
    ResolveWithdrawalTailReplays();
    SetupScenario();
    AccountReplaysAppend(1, DefaultClient(), SetupLog(), ResolveWithdrawalTail());
    LiftReplays(1, map[], ResolveWithdrawalLog());
    AccountLogRunsToTheEnd(1, ResolveWithdrawalLog());
  }

  /** A chargeback before any dispute is ignored, even with an amount; after one it removes the held deposit and locks the account. */
  function ChargebackDepositTail(): seq<(Transaction, Client)> {
    [
      (Rec(Chargeback, 1, Some(1.5)), Client(1.1, 0.0, false, map[1 := Dep(1.5, Undisputed), 2 := Wd(0.4, Undisputed)])),
      (Rec(Dispute, 1, None), Client(-0.4, 1.5, false, map[1 := Dep(1.5, Open), 2 := Wd(0.4, Undisputed)])),
      (Rec(Chargeback, 1, None), Client(-0.4, 0.0, true, map[1 := Dep(1.5, ChargedBack), 2 := Wd(0.4, Undisputed)]))]
  }

  function ChargebackDepositLog(): seq<(Transaction, Client)> {
    UnknownIdLog(Chargeback) + SetupLog() + ChargebackDepositTail()
  }

  lemma ChargebackDepositTailReplays()
    ensures AccountReplays(1, Client(1.1, 0.0, false, map[1 := Dep(1.5, Undisputed), 2 := Wd(0.4, Undisputed)]), ChargebackDepositTail())
  {
    assert map[1 := Dep(1.5, Undisputed), 2 := Wd(0.4, Undisputed)][1 := Dep(1.5, Open)] == map[1 := Dep(1.5, Open), 2 := Wd(0.4, Undisputed)];
    assert map[1 := Dep(1.5, Open), 2 := Wd(0.4, Undisputed)][1 := Dep(1.5, ChargedBack)] == map[1 := Dep(1.5, ChargedBack), 2 := Wd(0.4, Undisputed)];
  }

  lemma ChargebackDepositScenario()
    ensures AccountReplays(1, DefaultClient(), ChargebackDepositLog())
    ensures Replays(map[], Lift(1, ChargebackDepositLog()))
    ensures ProcessAll(map[], Records(ChargebackDepositLog())) == (map[1 := Client(-0.4, 0.0, true, map[1 := Dep(1.5, ChargedBack), 2 := Wd(0.4, Undisputed)])], Ok(()))
  {
    ChargebackDepositTailReplays();
    SetupScenario();
    UnknownIdScenario(Chargeback);
    AccountReplaysAppend(1, DefaultClient(), UnknownIdLog(Chargeback), SetupLog());
    assert After(DefaultClient(), UnknownIdLog(Chargeback) + SetupLog()) == Client(1.1, 0.0, false, map[1 := Dep(1.5, Undisputed), 2 := Wd(0.4, Undisputed)]);
    AccountReplaysAppend(1, DefaultClient(), UnknownIdLog(Chargeback) + SetupLog(), ChargebackDepositTail());
    LiftReplays(1, map[], ChargebackDepositLog());
    AccountLogRunsToTheEnd(1, ChargebackDepositLog());
  }

  /** The log of records `ts` that each leave account `c` as it is. */
  function Unchanged(c: Client, ts: seq<Transaction>): (r: seq<(Transaction, Client)>)
    ensures |r| == |ts|
    ensures forall i :: 0 <= i < |ts| ==> r[i] == (ts[i], c)
  {
    seq(|ts|, i requires 0 <= i < |ts| => (ts[i], c))
  }

  /** On a locked account, every log of records for that client replays without any change. */
  lemma {:induction false} LockedReplays(id: ClientId, c: Client, ts: seq<Transaction>)
    requires c.locked
    requires forall t :: t in ts ==> t.client == id
    ensures AccountReplays(id, c, Unchanged(c, ts))
    decreases |ts|
  {
    if ts != [] {
      assert ts[0] in ts;
      assert forall t :: t in ts[1..] ==> t in ts;
      assert Unchanged(c, ts)[1..] == Unchanged(c, ts[1..]);
      LockedReplays(id, c, ts[1..]);
    }
  }

  /** A disputed withdrawal charged back: it is paid back and the account is locked. */
  function ChargebackWithdrawalTail(): seq<(Transaction, Client)> {
    [
      (Rec(Chargeback, 2, Some(1.5)), Client(1.1, 0.0, false, map[1 := Dep(1.5, Undisputed), 2 := Wd(0.4, Undisputed)])),
      (Rec(Dispute, 2, None), Client(1.1, 0.0, false, map[1 := Dep(1.5, Undisputed), 2 := Wd(0.4, Open)])),
      (Rec(Chargeback, 2, None), Client(1.5, 0.0, true, map[1 := Dep(1.5, Undisputed), 2 := Wd(0.4, ChargedBack)]))]
  }

  /** What the test sends after the chargeback: every one of these records is ignored. */
  function AfterLockRecords(): seq<Transaction> {
    [Rec(Deposit, 4, Some(20.0)), Rec(Withdrawal, 5, Some(5.0)), Rec(Dispute, 4, None), Rec(Resolve, 4, None),
     Rec(Dispute, 5, None), Rec(Chargeback, 1, None), Rec(Chargeback, 5, None)]
  }

  function ChargebackWithdrawalLog(): seq<(Transaction, Client)> {
    SetupLog() + ChargebackWithdrawalTail() + Unchanged(Client(1.5, 0.0, true, map[1 := Dep(1.5, Undisputed), 2 := Wd(0.4, ChargedBack)]), AfterLockRecords())
  }

  /** A chargeback of the undisputed withdrawal is ignored, amount or not. */
  lemma ChargebackWithdrawalIgnored()
    ensures var c := Client(1.1, 0.0, false, map[1 := Dep(1.5, Undisputed), 2 := Wd(0.4, Undisputed)]);
      Step(c, Rec(Chargeback, 2, Some(1.5))) == (c, Ok(()))
  {
  }

  /** The chargeback of the open withdrawal pays it back and locks the account. */
  lemma ChargebackWithdrawalLocks()
    ensures Step(Client(1.1, 0.0, false, map[1 := Dep(1.5, Undisputed), 2 := Wd(0.4, Open)]), Rec(Chargeback, 2, None))
      == (Client(1.5, 0.0, true, map[1 := Dep(1.5, Undisputed), 2 := Wd(0.4, ChargedBack)]), Ok(()))
  {
    assert map[1 := Dep(1.5, Undisputed), 2 := Wd(0.4, Open)][2 := Wd(0.4, ChargedBack)] == map[1 := Dep(1.5, Undisputed), 2 := Wd(0.4, ChargedBack)];
  }

  lemma ChargebackWithdrawalTailReplays()
    ensures AccountReplays(1, Client(1.1, 0.0, false, map[1 := Dep(1.5, Undisputed), 2 := Wd(0.4, Undisputed)]), ChargebackWithdrawalTail())
  {
    var steps := ChargebackWithdrawalTail();
    var c0 := Client(1.1, 0.0, false, map[1 := Dep(1.5, Undisputed), 2 := Wd(0.4, Undisputed)]);
    var c2 := Client(1.5, 0.0, true, map[1 := Dep(1.5, Undisputed), 2 := Wd(0.4, ChargedBack)]);
    ChargebackWithdrawalIgnored();
    WithdrawalDisputeOpens();
    ChargebackWithdrawalLocks();
    assert AccountReplays(1, c2, steps[3..]);
    assert AccountReplays(1, c0, steps);
  }

  /** The setup and the chargeback replay on a new account and leave it locked. */
  lemma ChargebackWithdrawalLocksAccount()
    ensures AccountReplays(1, DefaultClient(), SetupLog() + ChargebackWithdrawalTail())
    ensures After(DefaultClient(), SetupLog() + ChargebackWithdrawalTail()) == Client(1.5, 0.0, true, map[1 := Dep(1.5, Undisputed), 2 := Wd(0.4, ChargedBack)])
  {
    ChargebackWithdrawalTailReplays();
    SetupScenario();
    AccountReplaysAppend(1, DefaultClient(), SetupLog(), ChargebackWithdrawalTail());
  }

  /** The whole log replays on the account: the setup, the chargeback, then the ignored records. */
  lemma ChargebackWithdrawalLogReplays()
    ensures AccountReplays(1, DefaultClient(), ChargebackWithdrawalLog())
    ensures After(DefaultClient(), ChargebackWithdrawalLog()) == Client(1.5, 0.0, true, map[1 := Dep(1.5, Undisputed), 2 := Wd(0.4, ChargedBack)])
  {
    var locked := Client(1.5, 0.0, true, map[1 := Dep(1.5, Undisputed), 2 := Wd(0.4, ChargedBack)]);
    var head := SetupLog() + ChargebackWithdrawalTail();
    var rest := Unchanged(locked, AfterLockRecords());
    ChargebackWithdrawalLocksAccount();
    LockedReplays(1, locked, AfterLockRecords());
    AccountReplaysAppend(1, DefaultClient(), head, rest);
    assert ChargebackWithdrawalLog() == head + rest;
    assert (head + rest)[|head + rest| - 1] == rest[|rest| - 1];
  }

  lemma ChargebackWithdrawalScenario()
    ensures AccountReplays(1, DefaultClient(), ChargebackWithdrawalLog())
    ensures Replays(map[], Lift(1, ChargebackWithdrawalLog()))
    ensures ProcessAll(map[], Records(ChargebackWithdrawalLog())) == (map[1 := Client(1.5, 0.0, true, map[1 := Dep(1.5, Undisputed), 2 := Wd(0.4, ChargedBack)])], Ok(()))
  {
    ChargebackWithdrawalLogReplays();
    LiftReplays(1, map[], ChargebackWithdrawalLog());
    AccountLogRunsToTheEnd(1, ChargebackWithdrawalLog());
  }
}
