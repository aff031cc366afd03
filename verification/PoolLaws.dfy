/** The whole pool at work: which part of the pool each operation acts on, and that from whatever state a run has reached the
    operations go through when they may, and move the money they should. */
module PoolLaws {
  import opened Basics
  import opened Ledger
  import E = Escrow
  import EL = EscrowLaws
  import R = Rounds
  import RL = RoundLaws
  import P = Payments
  import PL = PaymentLaws
  import S = Statements
  import T = Treasury
  import Rewards

  // ------------------------------------------------------------------ each operation on its part

  lemma DeskEvents(p: T.Pool, e: T.Event)
    requires T.PoolSound(p) && T.ForDesk(e)
    ensures T.Step(p, e) == T.WithDesk(p, T.Step(p, e).v.desk)
    ensures match e
      case Accepts(r, benchmark, actual) => T.Step(p, e).v.desk == E.Accept(p.v.desk, r, benchmark, actual)
      case Unstarted(r, rejected, actual) => T.Step(p, e).v.desk == E.ReleaseUnstarted(p.v.desk, r, rejected, actual)
      case Unhanded(r, expired) => T.Step(p, e).v.desk == E.ReleaseUnhanded(p.v.desk, r, expired)
      case HandsOver(r, member) => T.Step(p, e).v.desk == E.Acknowledge(p.v.desk, r, member)
      case Concludes(r, state, height) => T.Step(p, e).v.desk == E.RecordOutcome(p.v.desk, r, state, height)
      case Finalizes(r, clear, upheld) => T.Step(p, e).v.desk == R.FinalizeIn(p.v, r, clear, upheld).desk
  {
    T.DeskIs(p, e);
  }

  lemma RoundEvents(p: T.Pool, e: T.Event)
    requires T.PoolSound(p) && T.ForRounds(e)
    ensures T.Step(p, e) == T.WithVault(p, T.Step(p, e).v)
    ensures match e
      case Block(k) => T.Step(p, e).v == R.Observe(p.v, k)
      case Seals(k, complete) => T.Step(p, e).v == R.Seal(p.v, k, complete)
      case Declares(k, expected, withheld) => T.Step(p, e).v == R.Declare(p.v, k, expected, withheld)
      case Receives(x, amount, owner) => T.Step(p, e).v == R.Receive(p.v, x, amount, owner)
      case Attributes(x, owner) => T.Step(p, e).v == R.AttributeReviewed(p.v, x, owner)
      case Rewarded(k, x) => T.Step(p, e).v == R.AttributeReceipt(p.v, k, x)
      case Reimburses(k) => T.Step(p, e).v == R.Reimburse(p.v, k)
      case Settles(k, entries, covered) => Rewards.IsMapping(entries) ==> T.Step(p, e).v == R.Settle(p.v, k, entries, covered)
  {
    T.RoundIs(p, e);
  }

  lemma TillEvents(p: T.Pool, e: T.Event)
    requires T.PoolSound(p) && T.ForTill(e)
    ensures T.Step(p, e) == T.WithTill(p, T.Step(p, e).till)
    ensures match e
      case Asks(owner, request, amount, reserve, allowed) => T.Step(p, e).till == P.Ask(p.till, owner, request, amount, reserve, allowed)
      case Approves(w, allowed) => T.Step(p, e).till == P.Approve(p.till, w, allowed)
      case Releases(w, byOwner) => T.Step(p, e).till == P.ReleaseHold(p.till, w, byOwner)
      case Reconciles(a, tx, c, event, exact, empty) => T.Step(p, e).till == P.Reconcile(p.till, a, tx, c, event, exact, empty)
      case Sponsors(a, tx, c, event, exact) => T.Step(p, e).till == P.ReconcileSponsored(p.till, a, tx, c, event, exact)
      case ReconcilesTopup(k, tx, c, event, exact, empty) => T.Step(p, e).till == P.ReconcileTopup(p.till, k, tx, c, event, exact, empty)
      case Credits(k, topup, confirmed) => T.Step(p, e).till == P.CreditTopup(p.till, k, topup, confirmed)
  {
    T.TillIs(p, e);
  }

  lemma TimedEvents(p: T.Pool, e: T.Event)
    requires T.PoolSound(p) && T.Timed(e)
    ensures e.now < p.clock ==> T.Step(p, e) == p
    ensures e.now >= p.clock ==> T.Step(p, e).clock == e.now
    ensures e.now >= p.clock ==> match e
      case Reserves(now, member, request, amount, limit, open) =>
        T.Step(p, e) == T.WithVault(p.(clock := now), R.ReserveNext(p.v, p.cap, member, request, amount, limit, now, open))
      case Submits(now, r, open) => T.Step(p, e) == T.WithDesk(p.(clock := now), E.MarkSubmitting(p.v.desk, p.cap, r, now, open))
      case Begins(now, w, request, nonce, limit, allowed) =>
        T.Step(p, e) == T.WithTill(p.(clock := now), P.Begin(p.till, p.cap, w, request, nonce, limit, now, allowed))
      case TopsUp(now, request, amount, limit, nonce, allowed) =>
        T.Step(p, e) == T.WithTill(p.(clock := now), P.TopUp(p.till, p.cap, request, amount, limit, nonce, now, allowed))
  {
    T.TimedIs(p, e);
  }

  lemma CommonEvents(p: T.Pool, e: T.Event)
    requires T.PoolSound(p) && (e.Opens? || e.Baseline? || e.Funds?)
    ensures match e
      case Opens(a) => T.Step(p, e) == if a.Owner() in {Common, Chain} then T.WithBooks(p, Opened(p.till.books, a)) else p
      case Baseline(asset, amount) => T.Step(p, e) == T.Enters(p, OpeningKey(asset), asset, amount)
      case Funds(tx, amount) => T.Step(p, e) == T.Enters(p, FundingKey(tx), Native, amount)
  {
    T.CommonIs(p, e);
  }

  // ------------------------------------------------------------------ in every run

  lemma OpenedAccounts(p: T.Pool, a: Account)
    ensures var q := T.WithBooks(p, Opened(p.till.books, a));
      q.till.books.balances.Keys == p.till.books.balances.Keys + {a} && forall y :: Balance(q.till.books, y) == Balance(p.till.books, y)
  {
  }

  /** Accounts that belong to no table row are opened at any time, with zero. */
  lemma OpensInRuns(cap: Option<E.Cap>, es: seq<T.Event>, a: Account)
    requires a.Owner() in {Common, Chain}
    ensures var p, q := T.Run(cap, es), T.Run(cap, es + [T.Opens(a)]);
      q.till.books.balances.Keys == p.till.books.balances.Keys + {a} && forall y :: Balance(q.till.books, y) == Balance(p.till.books, y)
  {
    T.RunOneMore(cap, es, T.Opens(a));
    CommonEvents(T.Run(cap, es), T.Opens(a));
    OpenedAccounts(T.Run(cap, es), a);
  }

  /** Gas brought in from outside is the operator's, once per transaction. */
  lemma FundsInRuns(cap: Option<E.Cap>, es: seq<T.Event>, tx: nat, amount: nat)
    requires var p := T.Run(cap, es);
      amount > 0 && FundingKey(tx) !in p.till.books.keys && {Outside(Native), Operator(Native)} <= p.till.books.balances.Keys
    ensures var p, q := T.Run(cap, es), T.Run(cap, es + [T.Funds(tx, amount)]);
      q.gas == p.gas + amount && Transfers(p.till.books, q.till.books, Outside(Native), Operator(Native), amount)
  {
    T.RunOneMore(cap, es, T.Funds(tx, amount));
    CommonEvents(T.Run(cap, es), T.Funds(tx, amount));
    T.EntersLaw(T.Run(cap, es), FundingKey(tx), Native, amount);
  }

  /** A transfer not seen before is entered, with its whole amount, where its sender's funds are or to wait unattributed. */
  lemma ReceivesInRuns(cap: Option<E.Cap>, es: seq<T.Event>, x: EventId, amount: nat, owner: Option<string>)
    requires var p := T.Run(cap, es); x !in p.v.t.transfers && RL.AllOpen(p.till.books, amount, owner)
    ensures var p, q := T.Run(cap, es), T.Run(cap, es + [T.Receives(x, amount, owner)]);
      && q.v.t.transfers == p.v.t.transfers[x := amount]
      && q.v.t.attributed == (if owner.Some? then p.v.t.attributed[x := Available(owner.value)] else p.v.t.attributed)
      && Transfers(p.till.books, q.till.books, Outside(TIG), if owner.Some? then Available(owner.value) else Unattributed, amount)
  {
    var p, e := T.Run(cap, es), T.Receives(x, amount, owner);
    T.RunOneMore(cap, es, e);
    RoundEvents(p, e);
    RL.ReceiveNew(p.v, x, amount, owner);
  }

  /** A member's work is reserved for the newest round, with its collateral and fee ceiling set aside. */
  lemma ReservesInRuns(cap: Option<E.Cap>, es: seq<T.Event>, now: int, member: string, request: nat, amount: nat, limit: nat, open: bool)
    requires var p := T.Run(cap, es);
      p.clock <= now && p.v.t.newest > 0 && EL.MayReserve(p.v.desk, cap, member, request, amount, limit, now, open)
    ensures var p, q := T.Run(cap, es), T.Run(cap, es + [T.Reserves(now, member, request, amount, limit, open)]);
      && |q.v.desk.rows| == |p.v.desk.rows| + 1 && q.v.desk.rows[|p.v.desk.rows|].round == p.v.t.newest
      && EL.Reserves(p.till.books, q.till.books, |p.v.desk.rows|, member, amount, limit) && q.clock == now
  {
    var p, e := T.Run(cap, es), T.Reserves(now, member, request, amount, limit, open);
    T.RunOneMore(cap, es, e);
    TimedEvents(p, e);
    RL.ReserveNextLaw(p.v, cap, member, request, amount, limit, now, open);
  }

  /** Collateral is finalized under its round's seal: back to the member, or to the round for work that never became active
      or has an upheld report. */
  lemma FinalizesInRuns(cap: Option<E.Cap>, es: seq<T.Event>, r: nat, upheld: bool)
    requires var p := T.Run(cap, es);
      && EL.MayFinalize(p.v.desk, r, true) && p.v.desk.rows[r].round in p.v.t.seals
      && Available(p.v.desk.rows[r].member) in p.till.books.balances
    ensures var p, q := T.Run(cap, es), T.Run(cap, es + [T.Finalizes(r, true, upheld)]);
      var x := p.v.desk.rows[r];
      if x.handedOver && (x.activeAt.None? || upheld) then EL.FinalizedTo(p.v.desk, q.v.desk, r, E.Forfeited, RoundPot(x.round))
      else EL.FinalizedTo(p.v.desk, q.v.desk, r, E.Returned, Available(x.member))
  {
    var p, e := T.Run(cap, es), T.Finalizes(r, true, upheld);
    T.RunOneMore(cap, es, e);
    DeskEvents(p, e);
    RL.FinalizeInLaw(p.v, r, true, upheld);
  }

  /** A round that may be settled is settled for its inputs, and every account gets what the allocation gives it. */
  lemma SettlesInRuns(cap: Option<E.Cap>, es: seq<T.Event>, k: nat, entries: seq<Rewards.Entry>, i: nat)
    requires var p := T.Run(cap, es);
      Rewards.IsMapping(entries) && i < |entries| && RL.MaySettle(p.v, k, entries, true) && RL.PayeesOpen(p.till.books, k, entries)
    ensures var p, q := T.Run(cap, es), T.Run(cap, es + [T.Settles(k, entries, true)]);
      && k in q.v.t.settled && q.v.t.settled[k].entries == entries && Balance(q.till.books, RoundPot(k)) == 0
      && q.v.t.settled[k].pot == R.Received(p.v.t, k) + (if k in p.v.t.reimbursed then p.v.t.reimbursed[k] else 0)
           + E.AllForfeited(p.v.desk.rows, k)
      && Balance(q.till.books, Available(entries[i].key)) ==
           Balance(p.till.books, Available(entries[i].key)) + Rewards.Units(q.v.t.settled[k].pot, entries, entries[i])
  {
    var p, e := T.Run(cap, es), T.Settles(k, entries, true);
    T.RunOneMore(cap, es, e);
    RoundEvents(p, e);
    RL.SettleHappens(p.v, k, entries, true);
    RL.SettleLaw(p.v, k, entries, true);
    S.SettledBalance(p.v, k, entries, true, Available(entries[i].key));
    S.AwardIsAllocation(R.Settlement(R.Inputs(p.v, k), entries), i, |entries|);
  }

  /** A withdrawal whose send is confirmed with the exact transfer is paid: its hold and that amount leave custody. */
  lemma PaysInRuns(cap: Option<E.Cap>, es: seq<T.Event>, a: nat, tx: nat, c: P.Chained, x: EventId, empty: bool)
    requires var t := T.Run(cap, es).till;
      && PL.CustodyOpen(t.books) && PL.Belongs(t, a, tx, c) && PL.Unresolved(t, a) && c.successful
      && PL.FreshTx(t, tx) && PL.FreshEvent(t, tx, Some(x)) && Balance(t.books, Operator(Native)) + t.attempts[a].limit >= c.fee
    ensures var t, u := T.Run(cap, es).till, T.Run(cap, es + [T.Reconciles(a, tx, c, Some(x), true, empty)]).till;
      PL.SettledBy(t, u, a, tx, c.fee, P.Paying, Some(x))
  {
    var p, e := T.Run(cap, es), T.Reconciles(a, tx, c, Some(x), true, empty);
    T.RunOneMore(cap, es, e);
    TillEvents(p, e);
    assert PL.Judges(c, Some(x), true, empty, P.Paying);
    PL.ReconcileHappens(p.till, a, tx, c, Some(x), true, empty);
    PL.ReconcileLaw(p.till, a, tx, c, Some(x), true, empty);
  }
}
