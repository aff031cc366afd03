/** Statements of account: in every run each member's and the operator's balance is exactly what the tables say they
    were given, less what the tables say is still taken from them. */
module Statements {
  import opened Basics
  import opened Ledger
  import opened Sums
  import E = Escrow
  import R = Rounds
  import P = Payments
  import T = Treasury
  import Rewards

  /** The accounts whose balance is explained here; escrow, pots and holds are explained where they are kept. */
  predicate Stated(a: Account) {
    a.Available? || a == Operator(TIG) || a == Unattributed || a == ProtocolFees || a == Operator(Native) || a == Outside(Native)
  }

  // ------------------------------------------------------------------ what each table says

  /** Collateral not returned, from its member; a committed or charged fee, from the operator's protocol balance. */
  function Taken(x: E.Row, a: Account): int {
    if a == Available(x.member) then (if x.outcome == Some(E.Returned) then 0 else x.amount)
    else if a == ProtocolFees then (if x.fee.None? then x.limit else x.fee.value)
    else 0
  }

  function TakenUpTo(rows: seq<E.Row>, n: nat, a: Account): int
    requires n <= |rows|
  {
    if n == 0 then 0 else TakenUpTo(rows, n - 1, a) + Taken(rows[n - 1], a)
  }

  /** A withdrawal is drawn from its owner while pending and once paid. */
  function Drawn(x: P.Withdrawal, a: Account): int {
    if a == P.Source(x) && (x.stage.Pending() || x.stage == P.Paid) then x.amount else 0
  }

  function DrawnUpTo(ws: seq<P.Withdrawal>, n: nat, a: Account): int
    requires n <= |ws|
  {
    if n == 0 then 0 else DrawnUpTo(ws, n - 1, a) + Drawn(ws[n - 1], a)
  }

  /** A top-up costs the operator its amount unless the send failed, and once credited adds it to the fee balance. */
  function Bought(x: P.Topup, a: Account): int {
    if a == Operator(TIG) then (if x.stage in {P.Lost, P.Dropped} then 0 else x.amount)
    else if a == ProtocolFees && x.stage == P.Credited then 0 - x.amount as int
    else 0
  }

  function BoughtUpTo(ks: seq<P.Topup>, n: nat, a: Account): int
    requires n <= |ks|
  {
    if n == 0 then 0 else BoughtUpTo(ks, n - 1, a) + Bought(ks[n - 1], a)
  }

  /** What a send takes in gas: its ceiling while it is open, and the fee it paid, which leaves custody, afterwards. */
  function Gas(open: bool, limit: nat, fee: nat, a: Account): int {
    if a == Operator(Native) then (if open then limit else fee)
    else if a == Outside(Native) && !open then 0 - fee as int
    else 0
  }

  function FeeOf(pay: map<P.Send, P.Payment>, s: P.Send): nat {
    if s in pay then pay[s].fee else 0
  }

  function AttemptGasUpTo(xs: seq<P.Attempt>, pay: map<P.Send, P.Payment>, n: nat, a: Account): int
    requires n <= |xs|
  {
    if n == 0 then 0
    else AttemptGasUpTo(xs, pay, n - 1, a) + Gas(xs[n - 1].fate.None?, xs[n - 1].limit, FeeOf(pay, P.ByAttempt(n - 1)), a)
  }

  function TopupGasUpTo(ks: seq<P.Topup>, pay: map<P.Send, P.Payment>, n: nat, a: Account): int
    requires n <= |ks|
  {
    if n == 0 then 0
    else TopupGasUpTo(ks, pay, n - 1, a) + Gas(ks[n - 1].stage == P.Sending, ks[n - 1].limit, FeeOf(pay, P.ByTopup(n - 1)), a)
  }

  function GasPart(t: P.Till, a: Account): int {
    AttemptGasUpTo(t.attempts, t.payments, |t.attempts|, a) + TopupGasUpTo(t.topups, t.payments, |t.topups|, a)
  }

  /** Where a received transfer went. */
  function Where(t: R.Tables, e: EventId): Account {
    if e in t.attributed then t.attributed[e] else Unattributed
  }

  function Sits(t: R.Tables, a: Account): map<EventId, int> {
    map e | e in t.transfers :: if Where(t, e) == a then t.transfers[e] else 0
  }

  function AwardUpTo(s: R.Settlement, n: nat, member: string): int
    requires n <= |s.entries|
  {
    if n == 0 then 0
    else AwardUpTo(s, n - 1, member) + if s.entries[n - 1].key == member then Rewards.Units(s.pot, s.entries, s.entries[n - 1]) else 0
  }

  function Award(s: R.Settlement, a: Account): int {
    if a == Operator(TIG) then Rewards.FeeDue(s.pot, s.entries)
    else if a.Available? then AwardUpTo(s, |s.entries|, a.member)
    else 0
  }

  function Awards(t: R.Tables, a: Account): map<nat, int> {
    map k | k in t.settled :: Award(t.settled[k], a)
  }

  /** What the operator put back into pots. */
  function Repaid(t: R.Tables, a: Account): map<nat, int> {
    map k | k in t.reimbursed :: if a == Operator(TIG) then t.reimbursed[k] else 0
  }

  ghost function SumOf<K>(m: map<K, int>): int {
    TotalOver(m.Keys, m)
  }

  ghost function DeskPart(rows: seq<E.Row>, a: Account): int {
    TakenUpTo(rows, |rows|, a)
  }

  ghost function TablesPart(t: R.Tables, a: Account): int {
    SumOf(Sits(t, a)) + SumOf(Awards(t, a)) - SumOf(Repaid(t, a))
  }

  ghost function TillPart(t: P.Till, a: Account): int {
    DrawnUpTo(t.withdrawals, |t.withdrawals|, a) + BoughtUpTo(t.topups, |t.topups|, a) + GasPart(t, a)
  }

  /** What the operator brought in, and what it came from. */
  function Brought(p: T.Pool, a: Account): int {
    if a == Operator(TIG) then p.opening else if a == Operator(Native) then p.gas else if a == Outside(Native) then 0 - p.gas as int else 0
  }

  ghost function Statement(p: T.Pool, a: Account): int {
    Brought(p, a) + TablesPart(p.v.t, a) - DeskPart(p.v.desk.rows, a) - TillPart(p.till, a)
  }

  ghost predicate AllStated(p: T.Pool) {
    forall a :: Stated(a) ==> Balance(p.till.books, a) == Statement(p, a)
  }

  // ------------------------------------------------------------------ sums

  lemma SumGrows<K>(m: map<K, int>, k: K, x: int)
    requires k !in m
    ensures SumOf(m[k := x]) == SumOf(m) + x
  {
    var n := m[k := x];
    TotalTakes(n.Keys, n, k);
    assert n.Keys - {k} == m.Keys;
    TotalNarrows(m.Keys, m.Keys, n, m);
  }

  lemma SumChanges<K>(m: map<K, int>, n: map<K, int>, k: K)
    requires m.Keys == n.Keys && k in m && forall x :: x in m && x != k ==> n[x] == m[x]
    ensures SumOf(n) - n[k] == SumOf(m) - m[k]
  {
    TotalTakes(m.Keys, m, k);
    TotalTakes(n.Keys, n, k);
    TotalNarrows(m.Keys - {k}, m.Keys - {k}, m, n);
  }

  lemma {:induction false} TakenChange(rows: seq<E.Row>, r: nat, x: E.Row, n: nat, a: Account)
    requires r < |rows| && n <= |rows|
    ensures TakenUpTo(rows[r := x], n, a) == TakenUpTo(rows, n, a) + if r < n then Taken(x, a) - Taken(rows[r], a) else 0
  {
    if n > 0 { TakenChange(rows, r, x, n - 1, a); }
  }

  lemma {:induction false} TakenPrefix(rows: seq<E.Row>, x: E.Row, n: nat, a: Account)
    requires n <= |rows|
    ensures TakenUpTo(rows + [x], n, a) == TakenUpTo(rows, n, a)
  {
    if n > 0 { TakenPrefix(rows, x, n - 1, a); }
  }

  lemma {:induction false} DrawnChange(ws: seq<P.Withdrawal>, w: nat, x: P.Withdrawal, n: nat, a: Account)
    requires w < |ws| && n <= |ws|
    ensures DrawnUpTo(ws[w := x], n, a) == DrawnUpTo(ws, n, a) + if w < n then Drawn(x, a) - Drawn(ws[w], a) else 0
  {
    if n > 0 { DrawnChange(ws, w, x, n - 1, a); }
  }

  lemma {:induction false} DrawnPrefix(ws: seq<P.Withdrawal>, x: P.Withdrawal, n: nat, a: Account)
    requires n <= |ws|
    ensures DrawnUpTo(ws + [x], n, a) == DrawnUpTo(ws, n, a)
  {
    if n > 0 { DrawnPrefix(ws, x, n - 1, a); }
  }

  lemma {:induction false} BoughtChange(ks: seq<P.Topup>, k: nat, x: P.Topup, n: nat, a: Account)
    requires k < |ks| && n <= |ks|
    ensures BoughtUpTo(ks[k := x], n, a) == BoughtUpTo(ks, n, a) + if k < n then Bought(x, a) - Bought(ks[k], a) else 0
  {
    if n > 0 { BoughtChange(ks, k, x, n - 1, a); }
  }

  lemma {:induction false} BoughtPrefix(ks: seq<P.Topup>, x: P.Topup, n: nat, a: Account)
    requires n <= |ks|
    ensures BoughtUpTo(ks + [x], n, a) == BoughtUpTo(ks, n, a)
  {
    if n > 0 { BoughtPrefix(ks, x, n - 1, a); }
  }

  lemma {:induction false} AttemptGasChange(xs: seq<P.Attempt>, a: nat, x: P.Attempt, pay: map<P.Send, P.Payment>,
                                            more: map<P.Send, P.Payment>, n: nat, y: Account)
    requires a < |xs| && n <= |xs| && forall b: nat :: b != a ==> FeeOf(more, P.ByAttempt(b)) == FeeOf(pay, P.ByAttempt(b))
    ensures AttemptGasUpTo(xs[a := x], more, n, y) == AttemptGasUpTo(xs, pay, n, y)
      + if a < n then Gas(x.fate.None?, x.limit, FeeOf(more, P.ByAttempt(a)), y) - Gas(xs[a].fate.None?, xs[a].limit, FeeOf(pay, P.ByAttempt(a)), y) else 0
  {
    if n > 0 { AttemptGasChange(xs, a, x, pay, more, n - 1, y); }
  }

  lemma {:induction false} AttemptGasPrefix(xs: seq<P.Attempt>, x: P.Attempt, pay: map<P.Send, P.Payment>, n: nat, y: Account)
    requires n <= |xs|
    ensures AttemptGasUpTo(xs + [x], pay, n, y) == AttemptGasUpTo(xs, pay, n, y)
  {
    if n > 0 { AttemptGasPrefix(xs, x, pay, n - 1, y); }
  }

  lemma {:induction false} AttemptGasSame(xs: seq<P.Attempt>, pay: map<P.Send, P.Payment>, more: map<P.Send, P.Payment>, n: nat, y: Account)
    requires n <= |xs| && forall b: nat :: FeeOf(more, P.ByAttempt(b)) == FeeOf(pay, P.ByAttempt(b))
    ensures AttemptGasUpTo(xs, more, n, y) == AttemptGasUpTo(xs, pay, n, y)
  {
    if n > 0 { AttemptGasSame(xs, pay, more, n - 1, y); }
  }

  lemma {:induction false} TopupGasChange(ks: seq<P.Topup>, k: nat, x: P.Topup, pay: map<P.Send, P.Payment>,
                                          more: map<P.Send, P.Payment>, n: nat, y: Account)
    requires k < |ks| && n <= |ks| && forall b: nat :: b != k ==> FeeOf(more, P.ByTopup(b)) == FeeOf(pay, P.ByTopup(b))
    ensures TopupGasUpTo(ks[k := x], more, n, y) == TopupGasUpTo(ks, pay, n, y)
      + if k < n then Gas(x.stage == P.Sending, x.limit, FeeOf(more, P.ByTopup(k)), y) - Gas(ks[k].stage == P.Sending, ks[k].limit, FeeOf(pay, P.ByTopup(k)), y) else 0
  {
    if n > 0 { TopupGasChange(ks, k, x, pay, more, n - 1, y); }
  }

  lemma {:induction false} TopupGasPrefix(ks: seq<P.Topup>, x: P.Topup, pay: map<P.Send, P.Payment>, n: nat, y: Account)
    requires n <= |ks|
    ensures TopupGasUpTo(ks + [x], pay, n, y) == TopupGasUpTo(ks, pay, n, y)
  {
    if n > 0 { TopupGasPrefix(ks, x, pay, n - 1, y); }
  }

  lemma {:induction false} TopupGasSame(ks: seq<P.Topup>, pay: map<P.Send, P.Payment>, more: map<P.Send, P.Payment>, n: nat, y: Account)
    requires n <= |ks| && forall b: nat :: FeeOf(more, P.ByTopup(b)) == FeeOf(pay, P.ByTopup(b))
    ensures TopupGasUpTo(ks, more, n, y) == TopupGasUpTo(ks, pay, n, y)
  {
    if n > 0 { TopupGasSame(ks, pay, more, n - 1, y); }
  }

  // ------------------------------------------------------------------ reservations

  /** A step of the desk moves exactly what its rows say. */
  ghost predicate DeskTells(d: E.Desk, e: E.Desk) {
    forall a :: Stated(a) ==> Balance(e.books, a) + DeskPart(e.rows, a) == Balance(d.books, a) + DeskPart(d.rows, a)
  }

  lemma RowTells(d: E.Desk, c: Books, r: nat, x: E.Row)
    requires r < |d.rows|
    requires forall a :: Stated(a) ==> Balance(c, a) - Balance(d.books, a) == Taken(d.rows[r], a) - Taken(x, a)
    ensures DeskTells(d, E.Desk(c, d.rows[r := x]))
  {
    forall a | Stated(a)
      ensures Balance(c, a) + DeskPart(d.rows[r := x], a) == Balance(d.books, a) + DeskPart(d.rows, a)
    {
      TakenChange(d.rows, r, x, |d.rows|, a);
    }
  }

  lemma NewRowTells(d: E.Desk, c: Books, x: E.Row)
    requires forall a :: Stated(a) ==> Balance(c, a) - Balance(d.books, a) == 0 - Taken(x, a)
    ensures DeskTells(d, E.Desk(c, d.rows + [x]))
  {
    forall a | Stated(a)
      ensures Balance(c, a) + DeskPart(d.rows + [x], a) == Balance(d.books, a) + DeskPart(d.rows, a)
    {
      TakenPrefix(d.rows, x, |d.rows|, a);
    }
  }

  lemma ReservedBalance(b: Books, c: Books, r: nat, member: string, amount: nat, limit: nat, a: Account)
    requires Moved(b, c, E.ReserveMovements(r, member, amount, limit), E.ReserveKeys(r, amount, limit)) && Stated(a)
    ensures Balance(b, a) - Balance(c, a) == if a == Available(member) then amount else if a == ProtocolFees then limit else 0
  {
    E.ReserveNets(r, member, amount, limit);
  }

  lemma ChargedBalance(b: Books, c: Books, r: nat, x: E.Row, actual: nat, a: Account)
    requires Moved(b, c, E.FeeMovements(r, x.limit, actual), E.FeeKeys(r, x)) && Stated(a)
    ensures Balance(c, a) - Balance(b, a) == if a == ProtocolFees then x.limit as int - actual else 0
  {
    E.FeeNets(r, x.limit, actual);
  }

  lemma ReserveTells(d: E.Desk, cap: Option<E.Cap>, member: string, request: nat, round: nat, amount: nat, limit: nat, now: int, open: bool)
    requires E.DeskSound(d)
    ensures DeskTells(d, E.Reserve(d, cap, member, request, round, amount, limit, now, open))
  {
    var e := E.Reserve(d, cap, member, request, round, amount, limit, now, open);
    if e != d {
      var x := E.Fresh(member, request, round, amount, limit, now);
      E.ReserveMoves(d, member, amount, limit);
      forall a | Stated(a) ensures Balance(e.books, a) - Balance(d.books, a) == 0 - Taken(x, a) {
        ReservedBalance(d.books, e.books, |d.rows|, member, amount, limit, a);
      }
      NewRowTells(d, e.books, x);
    }
  }

  lemma MarkTells(d: E.Desk, cap: Option<E.Cap>, r: nat, now: int, open: bool)
    ensures DeskTells(d, E.MarkSubmitting(d, cap, r, now, open))
  {
    if E.MarkSubmitting(d, cap, r, now, open) != d {
      RowTells(d, d.books, r, d.rows[r].(state := E.Uncertain, sentAt := Some(now)));
    }
  }

  lemma AcknowledgeTells(d: E.Desk, r: nat, member: string)
    ensures DeskTells(d, E.Acknowledge(d, r, member))
  {
    if E.Acknowledge(d, r, member) != d { RowTells(d, d.books, r, d.rows[r].(handedOver := true)); }
  }

  lemma OutcomeTells(d: E.Desk, r: nat, state: E.State, height: nat)
    ensures DeskTells(d, E.RecordOutcome(d, r, state, height))
  {
    var e := E.RecordOutcome(d, r, state, height);
    if e != d { RowTells(d, d.books, r, e.rows[r]); }
  }

  lemma AcceptedTells(d: E.Desk, c: Books, r: nat, benchmark: nat, actual: nat)
    requires r < |d.rows| && d.rows[r].fee.None? && Moved(d.books, c, E.FeeMovements(r, d.rows[r].limit, actual), E.FeeKeys(r, d.rows[r]))
    ensures DeskTells(d, E.Desk(c, d.rows[r := d.rows[r].(state := E.Accepted, benchmark := Some(benchmark), fee := Some(actual))]))
  {
    var y := d.rows[r].(state := E.Accepted, benchmark := Some(benchmark), fee := Some(actual));
    forall a | Stated(a) ensures Balance(c, a) - Balance(d.books, a) == Taken(d.rows[r], a) - Taken(y, a) {
      ChargedBalance(d.books, c, r, d.rows[r], actual, a);
    }
    RowTells(d, c, r, y);
  }

  lemma AcceptTells(d: E.Desk, r: nat, benchmark: nat, actual: nat)
    requires E.DeskSound(d)
    ensures DeskTells(d, E.Accept(d, r, benchmark, actual))
  {
    var e := E.Accept(d, r, benchmark, actual);
    if e != d {
      assert E.RowSound(d.books, r, d.rows[r]);
      E.FeesMove(d, r, actual);
      AcceptedTells(d, e.books, r, benchmark, actual);
    }
  }

  /** Returned collateral reaches its member and nobody else. */
  lemma ReturnedTo(b: Books, c: Books, r: nat, x: E.Row, to: Account, key: Key)
    requires E.Emptied(b, c, r, x, to, key)
    ensures forall a :: Stated(a) ==> Balance(c, a) == Balance(b, a) + if a == to then x.amount else 0
  {
    MoveNets([Debit(Collateral(r), x.amount), Credit(to, x.amount)], Collateral(r), to, x.amount);
  }

  lemma UnstartedRow(d: E.Desk, c: Books, e: Books, r: nat, state: E.State, actual: nat)
    requires r < |d.rows| && d.rows[r].fee.None? && d.rows[r].outcome.None?
    requires Moved(d.books, c, E.FeeMovements(r, d.rows[r].limit, actual), E.FeeKeys(r, d.rows[r]))
    requires E.Emptied(c, e, r, d.rows[r], Available(d.rows[r].member), ReturnKey(r))
    ensures DeskTells(d, E.Desk(e, d.rows[r := d.rows[r].(state := state, slotHeld := false, fee := Some(actual), outcome := Some(E.Returned))]))
  {
    var x := d.rows[r];
    var y := x.(state := state, slotHeld := false, fee := Some(actual), outcome := Some(E.Returned));
    ReturnedTo(c, e, r, x, Available(x.member), ReturnKey(r));
    forall a | Stated(a) ensures Balance(e, a) - Balance(d.books, a) == Taken(x, a) - Taken(y, a) {
      ChargedBalance(d.books, c, r, x, actual, a);
    }
    RowTells(d, e, r, y);
  }

  lemma UnstartedTells(d: E.Desk, r: nat, rejected: bool, actual: nat)
    requires E.DeskSound(d)
    ensures DeskTells(d, E.ReleaseUnstarted(d, r, rejected, actual))
  {
    var e := E.ReleaseUnstarted(d, r, rejected, actual);
    if e != d {
      var x, c := d.rows[r], E.Fees(d, r, actual).books;
      assert E.RowSound(d.books, r, x);
      E.FeesMove(d, r, actual);
      E.FeesQuiet(d, r, actual);
      E.CollateralMoves(c, r, x, Available(x.member), ReturnKey(r), 0);
      UnstartedRow(d, c, e.books, r, e.rows[r].state, actual);
    }
  }

  lemma ReturnedRow(d: E.Desk, c: Books, r: nat, y: E.Row, key: Key)
    requires r < |d.rows| && d.rows[r].outcome.None? && E.Emptied(d.books, c, r, d.rows[r], Available(d.rows[r].member), key)
    requires y == d.rows[r].(state := y.state, slotHeld := y.slotHeld, outcome := Some(E.Returned))
    ensures DeskTells(d, E.Desk(c, d.rows[r := y]))
  {
    ReturnedTo(d.books, c, r, d.rows[r], Available(d.rows[r].member), key);
    RowTells(d, c, r, y);
  }

  lemma ForfeitedRow(d: E.Desk, c: Books, r: nat, y: E.Row, key: Key)
    requires r < |d.rows| && d.rows[r].outcome.None? && E.Emptied(d.books, c, r, d.rows[r], RoundPot(d.rows[r].round), key)
    requires y == d.rows[r].(outcome := Some(E.Forfeited))
    ensures DeskTells(d, E.Desk(c, d.rows[r := y]))
  {
    ReturnedTo(d.books, c, r, d.rows[r], RoundPot(d.rows[r].round), key);
    RowTells(d, c, r, y);
  }

  lemma UnhandedTells(d: E.Desk, r: nat, expired: bool)
    requires E.DeskSound(d)
    ensures DeskTells(d, E.ReleaseUnhanded(d, r, expired))
  {
    var e := E.ReleaseUnhanded(d, r, expired);
    if e != d {
      var x := d.rows[r];
      assert E.RowSound(d.books, r, x);
      E.CollateralMoves(d.books, r, x, Available(x.member), UnhandedKey(r), 1);
      ReturnedRow(d, e.books, r, e.rows[r], UnhandedKey(r));
    }
  }

  lemma FinalizeTells(d: E.Desk, r: nat, sealed: bool, upheld: bool)
    requires E.DeskSound(d)
    ensures DeskTells(d, E.Finalize(d, r, sealed, upheld))
  {
    var e := E.Finalize(d, r, sealed, upheld);
    if e != d {
      var x, v := d.rows[r], E.Verdict(d.rows[r], upheld);
      assert E.RowSound(d.books, r, x);
      E.FinalMoves(d.books, r, x, v, if upheld then 1 else 0);
      if v == E.Returned { ReturnedRow(d, e.books, r, e.rows[r], FinalizeKey(r)); } else { ForfeitedRow(d, e.books, r, e.rows[r], FinalizeKey(r)); }
    }
  }

  // ------------------------------------------------------------------ rounds

  /** A step of the round tables, which leaves reservations alone, moves exactly what they say. */
  ghost predicate TablesTell(v: R.Vault, w: R.Vault) {
    && w.desk.rows == v.desk.rows
    && forall a :: Stated(a) ==> Balance(w.desk.books, a) - TablesPart(w.t, a) == Balance(v.desk.books, a) - TablesPart(v.t, a)
  }

  lemma SameTables(v: R.Vault, w: R.Vault)
    requires w.desk.rows == v.desk.rows && w.t.transfers == v.t.transfers && w.t.attributed == v.t.attributed
    requires w.t.settled == v.t.settled && w.t.reimbursed == v.t.reimbursed
    requires forall a :: Stated(a) ==> Balance(w.desk.books, a) == Balance(v.desk.books, a)
    ensures TablesTell(v, w)
  {
    forall a | Stated(a) ensures TablesPart(w.t, a) == TablesPart(v.t, a) {
      assert Sits(w.t, a) == Sits(v.t, a) && Awards(w.t, a) == Awards(v.t, a) && Repaid(w.t, a) == Repaid(v.t, a);
    }
  }

  lemma DeclareTells(v: R.Vault, k: nat, expected: nat, withheld: nat)
    requires R.VaultSound(v)
    ensures TablesTell(v, R.Declare(v, k, expected, withheld))
  {
    OpenMoves(v.desk.books, RoundPot(k));
    SameTables(v, R.Declare(v, k, expected, withheld));
  }

  /** An attribution takes the transfer from the unattributed account to its destination. */
  lemma AttributedTells(v: R.Vault, w: R.Vault, e: EventId, to: Account)
    requires e in v.t.transfers && e !in v.t.attributed && to != Unattributed
    requires Shift(v.desk.books, w.desk.books, Unattributed, to, v.t.transfers[e], AttributeKey(e))
    requires w.desk.rows == v.desk.rows && w.t.transfers == v.t.transfers && w.t.attributed == v.t.attributed[e := to]
    requires w.t.settled == v.t.settled && w.t.reimbursed == v.t.reimbursed
    ensures TablesTell(v, w)
  {
    forall a | Stated(a)
      ensures Balance(w.desk.books, a) - TablesPart(w.t, a) == Balance(v.desk.books, a) - TablesPart(v.t, a)
    {
      SumChanges(Sits(v.t, a), Sits(w.t, a), e);
      assert Awards(w.t, a) == Awards(v.t, a) && Repaid(w.t, a) == Repaid(v.t, a);
    }
  }

  lemma AttributeTells(v: R.Vault, e: EventId, to: Account)
    requires R.VaultSound(v) && (to == Operator(TIG) || to.Available?)
    ensures TablesTell(v, R.Attribute(v, e, to))
  {
    var w := R.Attribute(v, e, to);
    if w != v {
      assert R.EventSound(v, e);
      R.AttributeShift(v, e, to);
      AttributedTells(v, w, e, to);
    }
  }

  lemma ReceiptTells(v: R.Vault, k: nat, e: EventId)
    requires R.VaultSound(v)
    ensures TablesTell(v, R.AttributeReceipt(v, k, e))
  {
    var w := R.AttributeReceipt(v, k, e);
    if w != v {
      assert R.EventSound(v, e);
      R.AttributeShift(v, e, RoundPot(k));
      AttributedTells(v, w, e, RoundPot(k));
    }
  }

  lemma NewTransferPart(t: R.Tables, e: EventId, amount: nat, a: Account)
    requires e !in t.transfers && e !in t.attributed
    ensures TablesPart(t.(transfers := t.transfers[e := amount]), a) == TablesPart(t, a) + if a == Unattributed then amount else 0
  {
    NewTransferSits(t, t.(transfers := t.transfers[e := amount]), e, amount, a);
  }

  lemma NewTransferSits(t: R.Tables, u: R.Tables, e: EventId, amount: nat, a: Account)
    requires e !in t.transfers && e !in t.attributed && u.transfers == t.transfers[e := amount] && u.attributed == t.attributed
    ensures SumOf(Sits(u, a)) == SumOf(Sits(t, a)) + if a == Unattributed then amount else 0
  {
    var x := if a == Unattributed then amount else 0;
    SumGrows(Sits(t, a), e, x);
    assert Sits(u, a) == Sits(t, a)[e := x];
  }

  lemma RefundedSum(t: R.Tables, u: R.Tables, k: nat, amount: nat, a: Account)
    requires k !in t.reimbursed && u.reimbursed == t.reimbursed[k := amount]
    ensures SumOf(Repaid(u, a)) == SumOf(Repaid(t, a)) + if a == Operator(TIG) then amount else 0
  {
    var x := if a == Operator(TIG) then amount else 0;
    SumGrows(Repaid(t, a), k, x);
    assert Repaid(u, a) == Repaid(t, a)[k := x];
  }

  lemma RefundPart(t: R.Tables, k: nat, amount: nat, a: Account)
    requires k !in t.reimbursed
    ensures TablesPart(t.(reimbursed := t.reimbursed[k := amount]), a) == TablesPart(t, a) - if a == Operator(TIG) then amount else 0
  {
    var u := t.(reimbursed := t.reimbursed[k := amount]);
    RefundedSum(t, u, k, amount, a);
    assert Sits(u, a) == Sits(t, a);
  }

  lemma SettledAwards(t: R.Tables, u: R.Tables, k: nat, s: R.Settlement, a: Account)
    requires k !in t.settled && u.settled == t.settled[k := s]
    ensures SumOf(Awards(u, a)) == SumOf(Awards(t, a)) + Award(s, a)
  {
    SumGrows(Awards(t, a), k, Award(s, a));
    assert Awards(u, a) == Awards(t, a)[k := Award(s, a)];
  }

  lemma SettledPart(t: R.Tables, k: nat, s: R.Settlement, a: Account)
    requires k !in t.settled
    ensures TablesPart(t.(settled := t.settled[k := s]), a) == TablesPart(t, a) + Award(s, a)
  {
    var u := t.(settled := t.settled[k := s]);
    SettledAwards(t, u, k, s, a);
    assert Sits(u, a) == Sits(t, a);
  }

  lemma NewTransferTells(v: R.Vault, c: Books, e: EventId, amount: nat)
    requires e !in v.t.transfers && e !in v.t.attributed && Shift(v.desk.books, c, Outside(TIG), Unattributed, amount, ReceiptKey(e))
    ensures TablesTell(v, R.Recorded(v, c, e, amount))
  {
    var w := R.Recorded(v, c, e, amount);
    forall a | Stated(a)
      ensures Balance(c, a) - TablesPart(w.t, a) == Balance(v.desk.books, a) - TablesPart(v.t, a)
    {
      NewTransferPart(v.t, e, amount, a);
    }
  }

  lemma RecordedTells(v: R.Vault, e: EventId, amount: nat)
    requires R.VaultSound(v) && (e in v.t.transfers ==> v.t.transfers[e] == amount) && R.ReceiptPost(v.desk.books, e, amount).Posted?
    ensures TablesTell(v, R.Recorded(v, R.ReceiptPost(v.desk.books, e, amount).books, e, amount))
  {
    var c := R.ReceiptPost(v.desk.books, e, amount).books;
    var w := R.Recorded(v, c, e, amount);
    assert R.EventSound(v, e);
    if e in v.t.transfers {
      assert c == v.desk.books && w.t.transfers == v.t.transfers;
      SameTables(v, w);
    } else {
      PostShift(v.desk.books, Outside(TIG), Unattributed, amount, ReceiptKey(e), 0);
      NewTransferTells(v, c, e, amount);
    }
  }

  lemma ReceiveTells(v: R.Vault, e: EventId, amount: nat, member: Option<string>)
    requires R.VaultSound(v)
    ensures TablesTell(v, R.Receive(v, e, amount, member))
  {
    if R.Receive(v, e, amount, member) != v {
      var w := R.Recorded(v, R.ReceiptPost(v.desk.books, e, amount).books, e, amount);
      RecordedTells(v, e, amount);
      R.KeepsRecorded(v, e, amount);
      if member.Some? { AttributeTells(w, e, Available(member.value)); }
    }
  }

  lemma RefundedTells(v: R.Vault, c: Books, k: nat, amount: nat)
    requires k !in v.t.reimbursed && Shift(v.desk.books, c, Operator(TIG), RoundPot(k), amount, ReimburseKey(k))
    ensures TablesTell(v, R.Refunded(v, c, k, amount))
  {
    var w := R.Refunded(v, c, k, amount);
    forall a | Stated(a)
      ensures Balance(c, a) - TablesPart(w.t, a) == Balance(v.desk.books, a) - TablesPart(v.t, a)
    {
      RefundPart(v.t, k, amount, a);
    }
  }

  lemma ReimburseTells(v: R.Vault, k: nat)
    requires R.VaultSound(v)
    ensures TablesTell(v, R.Reimburse(v, k))
  {
    var w := R.Reimburse(v, k);
    if w != v {
      assert R.PotSound(v, k);
      R.ReimburseShift(v, k);
      RefundedTells(v, w.desk.books, k, v.t.earnings[k].withheld);
    }
  }

  // Settlement.

  lemma {:induction false} SettleGives(k: nat, s: R.Settlement, n: nat, a: Account)
    requires n <= |s.entries| && Stated(a)
    ensures NetUpTo(R.SettleMovements(k, s.pot, s.entries), n + 2, a)
      == if a == Operator(TIG) then Rewards.FeeDue(s.pot, s.entries) else if a.Available? then AwardUpTo(s, n, a.member) else 0
  {
    var ms := R.SettleMovements(k, s.pot, s.entries);
    if n == 0 {
      assert NetUpTo(ms, 1, a) == Part(ms[0], a);
    } else {
      SettleGives(k, s, n - 1, a);
      assert ms[n + 1] == Credit(Available(s.entries[n - 1].key), Rewards.Units(s.pot, s.entries, s.entries[n - 1]));
    }
  }

  lemma {:induction false} NothingAwarded(s: R.Settlement, n: nat, member: string)
    requires s.pot == 0 && n <= |s.entries| && Rewards.IsMapping(s.entries) && Rewards.Accepts(s.entries)
    ensures AwardUpTo(s, n, member) == 0
  {
    if n > 0 {
      NothingAwarded(s, n - 1, member);
      if Rewards.Sum(Rewards.Credits(s.entries)) != 0.0 {
        Rewards.WithinOneUnit(0, s.entries, s.entries[n - 1]);
      }
    }
  }

  /** The settlement journal moves each account by its award. */
  lemma JournalBalance(b: Books, c: Books, k: nat, s: R.Settlement, a: Account)
    requires Balance(c, a) == Balance(b, a) + Net(R.SettleMovements(k, s.pot, s.entries), a) && Stated(a)
    ensures Balance(c, a) == Balance(b, a) + Award(s, a)
  {
    SettleGives(k, s, |s.entries|, a);
  }

  lemma PaidBalance(b: Books, k: nat, s: R.Settlement, a: Account)
    requires BooksSound(b) && Even(b) && SettleKey(k) !in b.keys && Rewards.IsMapping(s.entries) && Rewards.Accepts(s.entries)
    requires Stated(a) && PostIf(b, s.pot > 0, SettleKey(k), R.SettleMovements(k, s.pot, s.entries), 0).Posted?
    ensures Balance(PostIf(b, s.pot > 0, SettleKey(k), R.SettleMovements(k, s.pot, s.entries), 0).books, a) == Balance(b, a) + Award(s, a)
  {
    if s.pot > 0 {
      PostEffect(b, SettleKey(k), R.SettleMovements(k, s.pot, s.entries), 0);
      JournalBalance(b, Post(b, SettleKey(k), R.SettleMovements(k, s.pot, s.entries), 0).books, k, s, a);
    } else if a.Available? {
      NothingAwarded(s, |s.entries|, a.member);
    }
  }

  /** Settling moves each account by its award. */
  lemma SettledBalance(v: R.Vault, k: nat, entries: seq<Rewards.Entry>, covered: bool, a: Account)
    requires R.VaultSound(v) && Rewards.IsMapping(entries) && R.Settle(v, k, entries, covered) != v && Stated(a)
    ensures Balance(R.Settle(v, k, entries, covered).desk.books, a) == Balance(v.desk.books, a) + Award(R.Settlement(R.Inputs(v, k), entries), a)
  {
    assert R.PotSound(v, k);
    PaidBalance(v.desk.books, k, R.Settlement(R.Inputs(v, k), entries), a);
  }

  lemma SettleTells(v: R.Vault, k: nat, entries: seq<Rewards.Entry>, covered: bool)
    requires R.VaultSound(v) && Rewards.IsMapping(entries)
    ensures TablesTell(v, R.Settle(v, k, entries, covered))
  {
    var w := R.Settle(v, k, entries, covered);
    if w != v {
      var s := R.Settlement(R.Inputs(v, k), entries);
      forall a | Stated(a)
        ensures Balance(w.desk.books, a) - TablesPart(w.t, a) == Balance(v.desk.books, a) - TablesPart(v.t, a)
      {
        SettledBalance(v, k, entries, covered, a);
        SettledPart(v.t, k, s, a);
      }
    }
  }

  lemma RoundStepTells(v: R.Vault, e: T.Event)
    requires R.VaultSound(v) && T.ForRounds(e)
    ensures TablesTell(v, T.RoundStep(v, e))
  {
    match e
    case Block(k) => SameTables(v, R.Observe(v, k));
    case Seals(k, complete) => SameTables(v, R.Seal(v, k, complete));
    case Declares(k, expected, withheld) => DeclareTells(v, k, expected, withheld);
    case Receives(x, amount, owner) => ReceiveTells(v, x, amount, owner);
    case Attributes(x, owner) => AttributeTells(v, x, if owner.Some? then Available(owner.value) else Operator(TIG));
    case Rewarded(k, x) => ReceiptTells(v, k, x);
    case Reimburses(k) => ReimburseTells(v, k);
    case Settles(k, entries, covered) => if Rewards.IsMapping(entries) { SettleTells(v, k, entries, covered); }
  }

  // ------------------------------------------------------------------ payments

  /** A step of the payment tables moves exactly what they say. */
  ghost predicate TillTells(t: P.Till, u: P.Till) {
    forall a :: Stated(a) ==> Balance(u.books, a) + TillPart(u, a) == Balance(t.books, a) + TillPart(t, a)
  }

  /** Withdrawal w changes, or is new. */
  ghost predicate OneWithdrawal(t: P.Till, u: P.Till, w: nat) {
    && w <= |t.withdrawals| && w < |u.withdrawals|
    && u.withdrawals == if w < |t.withdrawals| then t.withdrawals[w := u.withdrawals[w]] else t.withdrawals + [u.withdrawals[w]]
  }

  function DrawnMore(t: P.Till, u: P.Till, w: nat, a: Account): int
    requires w < |u.withdrawals|
  {
    Drawn(u.withdrawals[w], a) - if w < |t.withdrawals| then Drawn(t.withdrawals[w], a) else 0
  }

  lemma DrawnStep(t: P.Till, u: P.Till, w: nat, a: Account)
    requires OneWithdrawal(t, u, w)
    ensures DrawnUpTo(u.withdrawals, |u.withdrawals|, a) == DrawnUpTo(t.withdrawals, |t.withdrawals|, a) + DrawnMore(t, u, w, a)
  {
    if w < |t.withdrawals| {
      DrawnChange(t.withdrawals, w, u.withdrawals[w], |t.withdrawals|, a);
    } else {
      DrawnPrefix(t.withdrawals, u.withdrawals[w], w, a);
    }
  }

  lemma WithdrawalTells(t: P.Till, u: P.Till, w: nat)
    requires OneWithdrawal(t, u, w) && u.topups == t.topups && u.attempts == t.attempts && u.payments == t.payments
    requires forall a :: Stated(a) ==> Balance(u.books, a) - Balance(t.books, a) == 0 - DrawnMore(t, u, w, a)
    ensures TillTells(t, u)
  {
    forall a | Stated(a) ensures Balance(u.books, a) + TillPart(u, a) == Balance(t.books, a) + TillPart(t, a) {
      DrawnStep(t, u, w, a);
    }
  }

  /** Top-up k changes, or is new, and with it perhaps its payment. */
  ghost predicate OneTopup(t: P.Till, u: P.Till, k: nat) {
    && k <= |t.topups| && k < |u.topups|
    && u.topups == (if k < |t.topups| then t.topups[k := u.topups[k]] else t.topups + [u.topups[k]])
    && (forall s :: s != P.ByTopup(k) ==> FeeOf(u.payments, s) == FeeOf(t.payments, s))
    && (k == |t.topups| ==> u.payments == t.payments)
  }

  function BoughtMore(t: P.Till, u: P.Till, k: nat, a: Account): int
    requires k < |u.topups|
  {
    Bought(u.topups[k], a) + Gas(u.topups[k].stage == P.Sending, u.topups[k].limit, FeeOf(u.payments, P.ByTopup(k)), a)
    - if k < |t.topups| then Bought(t.topups[k], a) + Gas(t.topups[k].stage == P.Sending, t.topups[k].limit, FeeOf(t.payments, P.ByTopup(k)), a) else 0
  }

  lemma BoughtStep(t: P.Till, u: P.Till, k: nat, a: Account)
    requires OneTopup(t, u, k)
    ensures BoughtUpTo(u.topups, |u.topups|, a) + TopupGasUpTo(u.topups, u.payments, |u.topups|, a)
         == BoughtUpTo(t.topups, |t.topups|, a) + TopupGasUpTo(t.topups, t.payments, |t.topups|, a) + BoughtMore(t, u, k, a)
  {
    if k < |t.topups| {
      BoughtChange(t.topups, k, u.topups[k], |t.topups|, a);
      TopupGasChange(t.topups, k, u.topups[k], t.payments, u.payments, |t.topups|, a);
    } else {
      BoughtPrefix(t.topups, u.topups[k], k, a);
      TopupGasPrefix(t.topups, u.topups[k], t.payments, k, a);
    }
  }

  lemma TopupTells(t: P.Till, u: P.Till, k: nat)
    requires OneTopup(t, u, k) && u.withdrawals == t.withdrawals && u.attempts == t.attempts
    requires forall a :: Stated(a) ==> Balance(u.books, a) - Balance(t.books, a) == 0 - BoughtMore(t, u, k, a)
    ensures TillTells(t, u)
  {
    forall a | Stated(a) ensures Balance(u.books, a) + TillPart(u, a) == Balance(t.books, a) + TillPart(t, a) {
      BoughtStep(t, u, k, a);
      AttemptGasSame(t.attempts, t.payments, u.payments, |t.attempts|, a);
    }
  }

  /** Attempt x changes, or is new, and with it perhaps its payment. */
  ghost predicate OneAttempt(t: P.Till, u: P.Till, x: nat) {
    && x <= |t.attempts| && x < |u.attempts|
    && u.attempts == (if x < |t.attempts| then t.attempts[x := u.attempts[x]] else t.attempts + [u.attempts[x]])
    && (forall s :: s != P.ByAttempt(x) ==> FeeOf(u.payments, s) == FeeOf(t.payments, s))
    && (x == |t.attempts| ==> u.payments == t.payments)
  }

  function GasMore(t: P.Till, u: P.Till, x: nat, a: Account): int
    requires x < |u.attempts|
  {
    Gas(u.attempts[x].fate.None?, u.attempts[x].limit, FeeOf(u.payments, P.ByAttempt(x)), a)
    - if x < |t.attempts| then Gas(t.attempts[x].fate.None?, t.attempts[x].limit, FeeOf(t.payments, P.ByAttempt(x)), a) else 0
  }

  lemma GasStep(t: P.Till, u: P.Till, x: nat, a: Account)
    requires OneAttempt(t, u, x)
    ensures AttemptGasUpTo(u.attempts, u.payments, |u.attempts|, a)
         == AttemptGasUpTo(t.attempts, t.payments, |t.attempts|, a) + GasMore(t, u, x, a)
  {
    if x < |t.attempts| {
      AttemptGasChange(t.attempts, x, u.attempts[x], t.payments, u.payments, |t.attempts|, a);
    } else {
      AttemptGasPrefix(t.attempts, u.attempts[x], t.payments, x, a);
    }
  }

  lemma AttemptTells(t: P.Till, u: P.Till, w: nat, x: nat)
    requires OneWithdrawal(t, u, w) && OneAttempt(t, u, x) && u.topups == t.topups
    requires forall a :: Stated(a) ==> Balance(u.books, a) - Balance(t.books, a) == 0 - DrawnMore(t, u, w, a) - GasMore(t, u, x, a)
    ensures TillTells(t, u)
  {
    forall a | Stated(a) ensures Balance(u.books, a) + TillPart(u, a) == Balance(t.books, a) + TillPart(t, a) {
      DrawnStep(t, u, w, a);
      GasStep(t, u, x, a);
      TopupGasSame(t.topups, t.payments, u.payments, |t.topups|, a);
    }
  }

  lemma AskedTells(t: P.Till, c: Books, x: P.Withdrawal)
    requires x.stage == P.Asked && Shift(t.books, c, P.Source(x), Pending(|t.withdrawals|), x.amount, RequestKey(|t.withdrawals|))
    ensures TillTells(t, t.(books := c, withdrawals := t.withdrawals + [x]))
  {
    WithdrawalTells(t, t.(books := c, withdrawals := t.withdrawals + [x]), |t.withdrawals|);
  }

  lemma AskTells(t: P.Till, member: Option<string>, request: nat, amount: nat, reserve: nat, allowed: bool)
    requires P.TillSound(t)
    ensures TillTells(t, P.Ask(t, member, request, amount, reserve, allowed))
  {
    var u := P.Ask(t, member, request, amount, reserve, allowed);
    if u != t {
      P.AskShift(t, member, request, amount, reserve, allowed);
      AskedTells(t, u.books, P.Withdrawal(member, request, amount, reserve, P.Asked, None));
    }
  }

  lemma ApproveTells(t: P.Till, w: nat, allowed: bool)
    ensures TillTells(t, P.Approve(t, w, allowed))
  {
    if P.Approve(t, w, allowed) != t { WithdrawalTells(t, P.Approve(t, w, allowed), w); }
  }

  lemma ReleasedTells(t: P.Till, c: Books, w: nat, stage: P.Stage)
    requires w < |t.withdrawals| && t.withdrawals[w].stage.Pending() && stage in {P.Declined, P.Withdrawn}
    requires Shift(t.books, c, Pending(w), P.Source(t.withdrawals[w]), t.withdrawals[w].amount, ReleaseKey(w))
    ensures TillTells(t, P.SetStage(t, w, stage).(books := c))
  {
    WithdrawalTells(t, P.SetStage(t, w, stage).(books := c), w);
  }

  lemma ReleaseTells(t: P.Till, w: nat, byOwner: bool)
    requires P.TillSound(t)
    ensures TillTells(t, P.ReleaseHold(t, w, byOwner))
  {
    var u := P.ReleaseHold(t, w, byOwner);
    if u != t {
      P.ReleaseShift(t, w, byOwner);
      ReleasedTells(t, u.books, w, if byOwner then P.Withdrawn else P.Declined);
    }
  }

  lemma BeganTells(t: P.Till, c: Books, w: nat, x: P.Attempt)
    requires w < |t.withdrawals| && t.withdrawals[w].stage == P.Approved && x.fate.None?
    requires Shift(t.books, c, Operator(Native), SendGas(|t.attempts|), x.limit, GasKey(|t.attempts|))
    ensures TillTells(t, P.Began(t, c, w, x))
  {
    AttemptTells(t, P.Began(t, c, w, x), w, |t.attempts|);
  }

  lemma BeginTells(t: P.Till, cap: Option<E.Cap>, w: nat, request: nat, nonce: nat, limit: nat, now: int, allowed: bool)
    requires P.TillSound(t)
    ensures TillTells(t, P.Begin(t, cap, w, request, nonce, limit, now, allowed))
  {
    var u := P.Begin(t, cap, w, request, nonce, limit, now, allowed);
    if u != t {
      P.BeginShift(t, cap, w, request, nonce, limit, now, allowed);
      BeganTells(t, u.books, w, P.Attempt(w, request, nonce, limit, now, None));
    }
  }

  lemma ResolvedMore(t: P.Till, c: Books, a: nat, fate: P.Fate, tx: nat, event: Option<EventId>, fee: nat, y: Account)
    requires a < |t.attempts| && t.attempts[a].w < |t.withdrawals| && t.withdrawals[t.attempts[a].w].stage == P.Unsettled
    requires t.attempts[a].fate.None? && Stated(y)
    ensures var u := P.Resolved(t, c, a, fate, tx, event, fee);
      P.OutcomeNet(a, t.attempts[a], t.withdrawals[t.attempts[a].w].amount, fate, fee, y)
      == 0 - DrawnMore(t, u, t.attempts[a].w, y) - GasMore(t, u, a, y)
  {
  }

  lemma ResolvedBalance(t: P.Till, c: Books, a: nat, fate: P.Fate, tx: nat, event: Option<EventId>, fee: nat, y: Account)
    requires a < |t.attempts| && t.attempts[a].w < |t.withdrawals| && t.withdrawals[t.attempts[a].w].stage == P.Unsettled
    requires t.attempts[a].fate.None? && Stated(y)
    requires P.Settled(t.books, c, a, t.attempts[a], t.withdrawals[t.attempts[a].w].amount, fate, fee)
    ensures var u := P.Resolved(t, c, a, fate, tx, event, fee);
      Balance(c, y) - Balance(t.books, y) == 0 - DrawnMore(t, u, t.attempts[a].w, y) - GasMore(t, u, a, y)
  {
    ResolvedMore(t, c, a, fate, tx, event, fee, y);
  }

  lemma ResolvedTells(t: P.Till, c: Books, a: nat, fate: P.Fate, tx: nat, event: Option<EventId>, fee: nat)
    requires a < |t.attempts| && t.attempts[a].w < |t.withdrawals| && t.withdrawals[t.attempts[a].w].stage == P.Unsettled
    requires t.attempts[a].fate.None?
    requires P.Settled(t.books, c, a, t.attempts[a], t.withdrawals[t.attempts[a].w].amount, fate, fee)
    ensures TillTells(t, P.Resolved(t, c, a, fate, tx, event, fee))
  {
    var u := P.Resolved(t, c, a, fate, tx, event, fee);
    forall y | Stated(y) ensures Balance(c, y) - Balance(t.books, y) == 0 - DrawnMore(t, u, t.attempts[a].w, y) - GasMore(t, u, a, y) {
      ResolvedBalance(t, c, a, fate, tx, event, fee, y);
    }
    AttemptTells(t, u, t.attempts[a].w, a);
  }

  lemma ConcludeTells(t: P.Till, a: nat, tx: nat, fate: P.Fate, event: Option<EventId>, fee: nat)
    requires P.TillSound(t)
    ensures TillTells(t, P.Conclude(t, a, tx, fate, event, fee))
  {
    var u := P.Conclude(t, a, tx, fate, event, fee);
    if u != t {
      P.ConcludeSettles(t, a, tx, fate, event, fee);
      ResolvedTells(t, u.books, a, fate, tx, event, fee);
    }
  }

  lemma ReconcileTells(t: P.Till, a: nat, tx: nat, c: P.Chained, event: Option<EventId>, exact: bool, empty: bool)
    requires P.TillSound(t)
    ensures TillTells(t, P.Reconcile(t, a, tx, c, event, exact, empty))
  {
    if P.Reconcile(t, a, tx, c, event, exact, empty) != t {
      P.RememberedFine(t, tx, c);
      var fate := P.FateOf(c.successful, event, exact, empty);
      if fate.Some? {
        ConcludeTells(P.Remembered(t, tx, c), a, tx, fate.value, if fate.value == P.Paying then event else None, c.fee);
      }
    }
  }

  lemma SponsoredTells(t: P.Till, a: nat, tx: nat, c: P.Chained, event: EventId, exact: bool)
    requires P.TillSound(t)
    ensures TillTells(t, P.ReconcileSponsored(t, a, tx, c, event, exact))
  {
    P.RememberedFine(t, tx, c);
    ConcludeTells(P.Remembered(t, tx, c), a, tx, P.Paying, Some(event), 0);
  }

  lemma ToppedUpTells(t: P.Till, c: Books, x: P.Topup)
    requires x.stage == P.Sending && P.ToppedUp(t.books, c, |t.topups|, x.amount, x.limit)
    ensures TillTells(t, t.(books := c, topups := t.topups + [x]))
  {
    TopupTells(t, t.(books := c, topups := t.topups + [x]), |t.topups|);
  }

  lemma TopUpTells(t: P.Till, cap: Option<E.Cap>, request: nat, amount: nat, limit: nat, nonce: nat, now: int, allowed: bool)
    requires P.TillSound(t)
    ensures TillTells(t, P.TopUp(t, cap, request, amount, limit, nonce, now, allowed))
  {
    var u := P.TopUp(t, cap, request, amount, limit, nonce, now, allowed);
    if u != t {
      P.TopUpBooks(t, cap, request, amount, limit, nonce, now, allowed);
      ToppedUpTells(t, u.books, P.Topup(request, amount, limit, nonce, now, P.Sending));
    }
  }

  /** What a top-up's outcome moves is what its rows say, whatever the books. */
  lemma CashedMore(t: P.Till, c: Books, k: nat, fate: P.Fate, tx: nat, event: Option<EventId>, fee: nat, a: Account)
    requires k < |t.topups| && t.topups[k].stage == P.Sending && Stated(a)
    ensures BoughtMore(t, P.Cashed(t, c, k, fate, tx, event, fee), k, a) == 0 - P.CashNet(k, t.topups[k], fate == P.Paying, fee, a)
  {
    var u := P.Cashed(t, c, k, fate, tx, event, fee);
    assert FeeOf(u.payments, P.ByTopup(k)) == fee && u.topups[k] == t.topups[k].(stage := P.StageOf(fate));
  }

  lemma CashedTells(t: P.Till, c: Books, k: nat, fate: P.Fate, tx: nat, event: Option<EventId>, fee: nat)
    requires k < |t.topups| && t.topups[k].stage == P.Sending && P.CashedIn(t.books, c, k, t.topups[k], fate == P.Paying, fee)
    ensures TillTells(t, P.Cashed(t, c, k, fate, tx, event, fee))
  {
    var u := P.Cashed(t, c, k, fate, tx, event, fee);
    forall a | Stated(a) ensures Balance(c, a) - Balance(t.books, a) == 0 - BoughtMore(t, u, k, a) {
      CashedMore(t, c, k, fate, tx, event, fee, a);
    }
    TopupTells(t, u, k);
  }

  lemma CashTells(t: P.Till, k: nat, tx: nat, fate: P.Fate, event: Option<EventId>, fee: nat)
    requires P.TillSound(t)
    ensures TillTells(t, P.ConcludeTopup(t, k, tx, fate, event, fee))
  {
    var u := P.ConcludeTopup(t, k, tx, fate, event, fee);
    if u != t {
      P.ConcludeTopupBooks(t, k, tx, fate, event, fee);
      CashedTells(t, u.books, k, fate, tx, event, fee);
    }
  }

  lemma ReconcileTopupTells(t: P.Till, k: nat, tx: nat, c: P.Chained, event: Option<EventId>, exact: bool, empty: bool)
    requires P.TillSound(t)
    ensures TillTells(t, P.ReconcileTopup(t, k, tx, c, event, exact, empty))
  {
    if P.ReconcileTopup(t, k, tx, c, event, exact, empty) != t {
      P.RememberedFine(t, tx, c);
      var fate := P.FateOf(c.successful, event, exact, empty);
      if fate.Some? {
        CashTells(P.Remembered(t, tx, c), k, tx, fate.value, if fate.value == P.Paying then event else None, c.fee);
      }
    }
  }

  lemma CreditedTells(t: P.Till, c: Books, k: nat, topup: nat)
    requires k < |t.topups| && t.topups[k].stage == P.Awaiting
    requires Shift(t.books, c, OutsideProtocol, ProtocolFees, t.topups[k].amount, CreditKey(k))
    ensures TillTells(t, P.CreditedTill(t, c, k, topup))
  {
    TopupTells(t, P.CreditedTill(t, c, k, topup), k);
  }

  lemma CreditTells(t: P.Till, k: nat, topup: nat, confirmed: bool)
    requires P.TillSound(t)
    ensures TillTells(t, P.CreditTopup(t, k, topup, confirmed))
  {
    var u := P.CreditTopup(t, k, topup, confirmed);
    if u != t {
      P.CreditBooks(t, k, topup, confirmed);
      CreditedTells(t, u.books, k, topup);
    }
  }

  lemma TillStepTells(t: P.Till, e: T.Event)
    requires P.TillSound(t) && T.ForTill(e)
    ensures TillTells(t, T.TillStep(t, e))
  {
    match e
    case Asks(owner, request, amount, reserve, allowed) => AskTells(t, owner, request, amount, reserve, allowed);
    case Approves(w, allowed) => ApproveTells(t, w, allowed);
    case Releases(w, byOwner) => ReleaseTells(t, w, byOwner);
    case Reconciles(a, tx, c, event, exact, empty) => ReconcileTells(t, a, tx, c, event, exact, empty);
    case Sponsors(a, tx, c, event, exact) => SponsoredTells(t, a, tx, c, event, exact);
    case ReconcilesTopup(k, tx, c, event, exact, empty) => ReconcileTopupTells(t, k, tx, c, event, exact, empty);
    case Credits(k, topup, confirmed) => CreditTells(t, k, topup, confirmed);
  }

  // ------------------------------------------------------------------ the pool

  lemma DeskStepStates(p: T.Pool, d: E.Desk)
    requires AllStated(p) && p.v.desk.books == p.till.books && DeskTells(p.v.desk, d)
    ensures AllStated(T.WithDesk(p, d))
  {
  }

  lemma TablesStepStates(p: T.Pool, w: R.Vault)
    requires AllStated(p) && p.v.desk.books == p.till.books && TablesTell(p.v, w)
    ensures AllStated(T.WithVault(p, w))
  {
  }

  lemma TillStepStates(p: T.Pool, u: P.Till)
    requires AllStated(p) && TillTells(p.till, u)
    ensures AllStated(T.WithTill(p, u))
  {
  }

  lemma DeskStepTells(p: T.Pool, e: T.Event)
    requires T.PoolSound(p) && T.ForDesk(e)
    ensures DeskTells(p.v.desk, T.DeskStep(p, e))
  {
    var d := p.v.desk;
    match e
    case Accepts(r, benchmark, actual) => AcceptTells(d, r, benchmark, actual);
    case Unstarted(r, rejected, actual) => UnstartedTells(d, r, rejected, actual);
    case Unhanded(r, expired) => UnhandedTells(d, r, expired);
    case HandsOver(r, member) => AcknowledgeTells(d, r, member);
    case Concludes(r, state, height) => OutcomeTells(d, r, state, height);
    case Finalizes(r, clear, upheld) =>
      FinalizeTells(d, r, clear && r < |d.rows| && d.rows[r].round in p.v.t.seals, upheld);
  }

  lemma TimedStates(p: T.Pool, e: T.Event)
    requires T.PoolSound(p) && AllStated(p) && T.Timed(e)
    ensures AllStated(T.TimedStep(p, e))
  {
    match e
    case Reserves(now, member, request, amount, limit, open) =>
      ReserveTells(p.v.desk, p.cap, member, request, p.v.t.newest, amount, limit, now, open && p.v.t.newest > 0);
      DeskStepStates(p, R.ReserveNext(p.v, p.cap, member, request, amount, limit, now, open).desk);
    case Submits(now, r, open) =>
      MarkTells(p.v.desk, p.cap, r, now, open);
      DeskStepStates(p, E.MarkSubmitting(p.v.desk, p.cap, r, now, open));
    case Begins(now, w, request, nonce, limit, allowed) =>
      BeginTells(p.till, p.cap, w, request, nonce, limit, now, allowed);
      TillStepStates(p, P.Begin(p.till, p.cap, w, request, nonce, limit, now, allowed));
    case TopsUp(now, request, amount, limit, nonce, allowed) =>
      TopUpTells(p.till, p.cap, request, amount, limit, nonce, now, allowed);
      TillStepStates(p, P.TopUp(p.till, p.cap, request, amount, limit, nonce, now, allowed));
  }

  lemma RicherStatement(p: T.Pool, c: Books, asset: Asset, amount: nat, a: Account)
    requires Stated(a)
    ensures Statement(T.Richer(T.WithBooks(p, c), asset, amount), a)
         == Statement(p, a) + if a == Operator(asset) then amount else if a == Outside(asset) then 0 - amount as int else 0
  {
  }

  lemma EnteredStates(p: T.Pool, c: Books, key: Key, asset: Asset, amount: nat)
    requires AllStated(p) && Shift(p.till.books, c, Outside(asset), Operator(asset), amount, key)
    ensures AllStated(T.Richer(T.WithBooks(p, c), asset, amount))
  {
    forall a | Stated(a) ensures Balance(c, a) == Statement(T.Richer(T.WithBooks(p, c), asset, amount), a) {
      RicherStatement(p, c, asset, amount, a);
    }
  }

  lemma EntersStates(p: T.Pool, key: Key, asset: Asset, amount: nat)
    requires T.PoolSound(p) && AllStated(p)
    ensures AllStated(T.Enters(p, key, asset, amount))
  {
    if T.Enters(p, key, asset, amount) != p {
      PostShift(p.till.books, Outside(asset), Operator(asset), amount, key, 0);
      EnteredStates(p, T.Enters(p, key, asset, amount).till.books, key, asset, amount);
    }
  }

  lemma OpensStates(p: T.Pool, account: Account)
    requires T.PoolSound(p) && AllStated(p)
    ensures AllStated(T.WithBooks(p, Opened(p.till.books, account)))
  {
    OpenMoves(p.till.books, account);
    SameBalances(p, Opened(p.till.books, account));
  }

  lemma SameBalances(p: T.Pool, c: Books)
    requires AllStated(p) && forall a :: Balance(c, a) == Balance(p.till.books, a)
    ensures AllStated(T.WithBooks(p, c))
  {
    forall a | Stated(a) ensures Balance(c, a) == Statement(T.WithBooks(p, c), a) {
      assert Statement(T.WithBooks(p, c), a) == Statement(p, a);
    }
  }

  lemma CommonStates(p: T.Pool, e: T.Event)
    requires T.PoolSound(p) && AllStated(p) && (e.Opens? || e.Baseline? || e.Funds?)
    ensures AllStated(T.CommonStep(p, e))
  {
    match e
    case Opens(account) => OpensStates(p, account);
    case Baseline(asset, amount) => EntersStates(p, OpeningKey(asset), asset, amount);
    case Funds(tx, amount) => EntersStates(p, FundingKey(tx), Native, amount);
  }

  lemma ClockStates(p: T.Pool, now: int)
    requires AllStated(p)
    ensures AllStated(p.(clock := now))
  {
    forall a | Stated(a) ensures Balance(p.till.books, a) == Statement(p.(clock := now), a) {
      assert Statement(p.(clock := now), a) == Statement(p, a);
    }
  }

  lemma TimedStepStates(p: T.Pool, e: T.Event)
    requires T.PoolSound(p) && AllStated(p) && T.Timed(e) && e.now >= p.clock
    ensures AllStated(T.TimedStep(p.(clock := e.now), e))
  {
    T.ClockKeeps(p, e.now);
    ClockStates(p, e.now);
    TimedStates(p.(clock := e.now), e);
  }

  lemma StepStates(p: T.Pool, e: T.Event)
    requires T.PoolSound(p) && AllStated(p)
    ensures AllStated(T.Step(p, e))
  {
    if T.Timed(e) {
      T.TimedIs(p, e);
      if e.now >= p.clock { TimedStepStates(p, e); }
    } else if T.ForDesk(e) {
      T.DeskIs(p, e);
      DeskStepTells(p, e);
      DeskStepStates(p, T.DeskStep(p, e));
    } else if T.ForRounds(e) {
      T.RoundIs(p, e);
      RoundStepTells(p.v, e);
      TablesStepStates(p, T.RoundStep(p.v, e));
    } else if T.ForTill(e) {
      T.TillIs(p, e);
      TillStepTells(p.till, e);
      TillStepStates(p, T.TillStep(p.till, e));
    } else {
      T.CommonIs(p, e);
      CommonStates(p, e);
    }
  }

  lemma StartStates(cap: Option<E.Cap>)
    ensures AllStated(T.Start(cap))
  {
    var p := T.Start(cap);
    forall a | Stated(a) ensures Balance(p.till.books, a) == Statement(p, a) {
      NothingYet(p.v.t, a);
    }
  }

  lemma NothingYet(t: R.Tables, a: Account)
    requires t.transfers == map[] && t.settled == map[] && t.reimbursed == map[]
    ensures TablesPart(t, a) == 0
  {
    TotalZero(Sits(t, a).Keys, Sits(t, a));
    TotalZero(Awards(t, a).Keys, Awards(t, a));
    TotalZero(Repaid(t, a).Keys, Repaid(t, a));
  }

  /** In every run every stated balance is its statement. */
  lemma StatementTheorem(cap: Option<E.Cap>, es: seq<T.Event>)
    ensures AllStated(T.Run(cap, es))
  {
    StartStates(cap);
    forall p, e | T.PoolSound(p) && AllStated(p) ensures AllStated(T.Step(p, e)) {
      StepStates(p, e);
    }
    T.RunInduction(cap, es, AllStated);
  }

  // ------------------------------------------------------------------ what the statement says

  lemma {:induction false} NothingBought(ks: seq<P.Topup>, n: nat, a: Account)
    requires n <= |ks| && a != Operator(TIG) && a != ProtocolFees
    ensures BoughtUpTo(ks, n, a) == 0
  {
    if n > 0 { NothingBought(ks, n - 1, a); }
  }

  lemma {:induction false} NoAttemptGas(xs: seq<P.Attempt>, pay: map<P.Send, P.Payment>, n: nat, a: Account)
    requires n <= |xs| && a != Operator(Native) && a != Outside(Native)
    ensures AttemptGasUpTo(xs, pay, n, a) == 0
  {
    if n > 0 { NoAttemptGas(xs, pay, n - 1, a); }
  }

  lemma {:induction false} NoTopupGas(ks: seq<P.Topup>, pay: map<P.Send, P.Payment>, n: nat, a: Account)
    requires n <= |ks| && a != Operator(Native) && a != Outside(Native)
    ensures TopupGasUpTo(ks, pay, n, a) == 0
  {
    if n > 0 { NoTopupGas(ks, pay, n - 1, a); }
  }

  lemma MembersBuyNothing(t: P.Till, member: string)
    ensures BoughtUpTo(t.topups, |t.topups|, Available(member)) == 0 && GasPart(t, Available(member)) == 0
  {
    NothingBought(t.topups, |t.topups|, Available(member));
    NoAttemptGas(t.attempts, t.payments, |t.attempts|, Available(member));
    NoTopupGas(t.topups, t.payments, |t.topups|, Available(member));
  }

  lemma {:induction false} NothingTaken(rows: seq<E.Row>, n: nat, a: Account)
    requires n <= |rows| && !a.Available? && a != ProtocolFees
    ensures TakenUpTo(rows, n, a) == 0
  {
    if n > 0 { NothingTaken(rows, n - 1, a); }
  }

  lemma {:induction false} NothingDrawn(ws: seq<P.Withdrawal>, n: nat, a: Account)
    requires n <= |ws| && !a.Available? && a != Operator(TIG)
    ensures DrawnUpTo(ws, n, a) == 0
  {
    if n > 0 { NothingDrawn(ws, n - 1, a); }
  }

  lemma {:induction false} NothingRepaid(t: R.Tables, a: Account)
    requires a != Operator(TIG)
    ensures SumOf(Repaid(t, a)) == 0
  {
    TotalZero(Repaid(t, a).Keys, Repaid(t, a));
  }

  lemma MemberStatement(p: T.Pool, member: string)
    requires AllStated(p)
    ensures var a := Available(member);
      Balance(p.till.books, a) == SumOf(Sits(p.v.t, a)) + SumOf(Awards(p.v.t, a))
        - TakenUpTo(p.v.desk.rows, |p.v.desk.rows|, a) - DrawnUpTo(p.till.withdrawals, |p.till.withdrawals|, a)
  {
    MembersBuyNothing(p.till, member);
    NothingRepaid(p.v.t, Available(member));
  }

  /** What a member can spend is the transfers attributed to them and their shares of settled rounds, less collateral
      not returned and withdrawals pending or paid. */
  lemma MemberTheorem(cap: Option<E.Cap>, es: seq<T.Event>, member: string)
    ensures var p, a := T.Run(cap, es), Available(member);
      Balance(p.till.books, a) == SumOf(Sits(p.v.t, a)) + SumOf(Awards(p.v.t, a))
        - TakenUpTo(p.v.desk.rows, |p.v.desk.rows|, a) - DrawnUpTo(p.till.withdrawals, |p.till.withdrawals|, a)
  {
    StatementTheorem(cap, es);
    MemberStatement(T.Run(cap, es), member);
  }

  /** Nothing but sends moves gas: transfers go to members, the operator's TIG, pots and the unattributed account. */
  lemma GasStatement(p: T.Pool, a: Account)
    requires AllStated(p) && (a == Operator(Native) || a == Outside(Native)) && SumOf(Sits(p.v.t, a)) == 0
    ensures Balance(p.till.books, a) == Brought(p, a) - GasPart(p.till, a)
  {
    NothingTaken(p.v.desk.rows, |p.v.desk.rows|, a);
    NothingDrawn(p.till.withdrawals, |p.till.withdrawals|, a);
    NothingBought(p.till.topups, |p.till.topups|, a);
    NothingRepaid(p.v.t, a);
    TotalZero(Awards(p.v.t, a).Keys, Awards(p.v.t, a));
  }

  /** Transfers are attributed to members, the operator's TIG or pots. */
  ghost predicate Placed(p: T.Pool) {
    PlacedIn(p.v.t)
  }

  ghost predicate PlacedIn(t: R.Tables) {
    forall e :: e in t.attributed ==> t.attributed[e] == Operator(TIG) || t.attributed[e].Available? || t.attributed[e].RoundPot?
  }

  lemma RoundStepPlaced(v: R.Vault, e: T.Event)
    requires KeysSound(v.desk.books) && T.ForRounds(e) && PlacedIn(v.t)
    ensures PlacedIn(T.RoundStep(v, e).t)
  {
  }

  lemma TimedPlaced(p: T.Pool, e: T.Event)
    requires KeysSound(p.v.desk.books) && KeysSound(p.till.books) && T.Timed(e)
    ensures T.TimedStep(p, e).v.t == p.v.t
  {
  }

  lemma CommonPlaced(p: T.Pool, e: T.Event)
    requires KeysSound(p.till.books) && (e.Opens? || e.Baseline? || e.Funds?)
    ensures T.CommonStep(p, e).v.t == p.v.t
  {
  }

  lemma StepPlaced(p: T.Pool, e: T.Event)
    requires T.PoolSound(p) && Placed(p)
    ensures Placed(T.Step(p, e))
  {
    if T.Timed(e) {
      T.TimedIs(p, e);
      TimedPlaced(p.(clock := e.now), e);
    } else if T.ForDesk(e) {
      T.DeskIs(p, e);
    } else if T.ForRounds(e) {
      T.RoundIs(p, e);
      RoundStepPlaced(p.v, e);
    } else if T.ForTill(e) {
      T.TillIs(p, e);
    } else {
      T.CommonIs(p, e);
      CommonPlaced(p, e);
    }
  }

  lemma PlacedTheorem(cap: Option<E.Cap>, es: seq<T.Event>)
    ensures Placed(T.Run(cap, es))
  {
    forall p, e | T.PoolSound(p) && Placed(p) ensures Placed(T.Step(p, e)) {
      StepPlaced(p, e);
    }
    T.RunInduction(cap, es, Placed);
  }

  lemma NothingSits(t: R.Tables, a: Account)
    requires PlacedIn(t) && (a == Operator(Native) || a == Outside(Native))
    ensures SumOf(Sits(t, a)) == 0
  {
    TotalZero(Sits(t, a).Keys, Sits(t, a));
  }

  lemma GasExplained(p: T.Pool)
    requires T.PoolSound(p) && AllStated(p) && Placed(p)
    ensures Balance(p.till.books, Operator(Native)) == p.gas - GasPart(p.till, Operator(Native))
    ensures Backing(p.till.books, Native, Custody) == p.gas + GasPart(p.till, Outside(Native))
  {
    NothingSits(p.v.t, Operator(Native));
    NothingSits(p.v.t, Outside(Native));
    GasStatement(p, Operator(Native));
    GasStatement(p, Outside(Native));
    BackingIsMinusOutside(p.till.books, Native, Custody);
  }

  /** In every run the operator's gas is what was brought in, less the ceilings of open sends and the fees of resolved
      ones; and custody holds what was brought in less those fees. */
  lemma GasTheorem(cap: Option<E.Cap>, es: seq<T.Event>)
    ensures var p := T.Run(cap, es);
      && Balance(p.till.books, Operator(Native)) == p.gas - GasPart(p.till, Operator(Native))
      && Backing(p.till.books, Native, Custody) == p.gas + GasPart(p.till, Outside(Native))
  {
    StatementTheorem(cap, es);
    PlacedTheorem(cap, es);
    GasExplained(T.Run(cap, es));
  }

  lemma {:induction false} AwardOfOthers(s: R.Settlement, n: nat, member: string)
    requires n <= |s.entries| && forall i :: 0 <= i < n ==> s.entries[i].key != member
    ensures AwardUpTo(s, n, member) == 0
  {
    if n > 0 { AwardOfOthers(s, n - 1, member); }
  }

  /** A member's award in a settled round is the allocation's amount for their credit. */
  lemma {:induction false} AwardIsAllocation(s: R.Settlement, i: nat, n: nat)
    requires Rewards.IsMapping(s.entries) && i < n <= |s.entries|
    ensures AwardUpTo(s, n, s.entries[i].key) == Rewards.Units(s.pot, s.entries, s.entries[i])
    decreases n
  {
    if i == n - 1 {
      AwardOfOthers(s, n - 1, s.entries[i].key);
    } else {
      AwardIsAllocation(s, i, n - 1);
    }
  }
}
