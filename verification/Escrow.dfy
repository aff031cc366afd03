/** Collateral, slots and fee commitments of benchmark reservations. */
module Escrow {
  import opened Basics
  import opened Ledger

  datatype State = Reserved | Uncertain | Accepted | Rejected | Cancelled | Active | Failed | Expired

  datatype Outcome = Returned | Forfeited

  /** `limit` is the fee ceiling committed, `fee` what was charged in the end; `sentAt` is when the precommit was
      first, and only, committed for sending; `round` is the creation round. */
  datatype Row = Row(member: string, request: nat, round: nat, amount: nat, limit: nat, state: State, slotHeld: bool,
                     benchmark: Option<nat>, fee: Option<nat>, outcome: Option<Outcome>, handedOver: bool,
                     activeAt: Option<nat>, createdAt: int, sentAt: Option<int>)

  datatype Desk = Desk(books: Books, rows: seq<Row>)

  /** The recorded spending cap: a rolling window, and limits per window and per attempt. */
  datatype Cap = Cap(window: nat, feeWindow: nat, feeAttempt: nat, gasWindow: nat, gasAttempt: nat)

  // ------------------------------------------------------------------ spending

  /** Does a reservation's ceiling count at `now`, for a window that starts after `since`? */
  predicate Counts(x: Row, since: int, now: int) {
    || (x.sentAt.Some? && since < x.sentAt.value <= now)
    || (x.state == Reserved && since < x.createdAt <= now)
  }

  function Ceiling(rows: seq<Row>, r: nat, since: int, now: int, exclude: Option<nat>): nat
    requires r < |rows|
  {
    if exclude != Some(r) && Counts(rows[r], since, now) then rows[r].limit else 0
  }

  function Committed(rows: seq<Row>, n: nat, since: int, now: int, exclude: Option<nat>): nat
    requires n <= |rows|
  {
    if n == 0 then 0 else Committed(rows, n - 1, since, now, exclude) + Ceiling(rows, n - 1, since, now, exclude)
  }

  predicate FeeAllowed(rows: seq<Row>, cap: Option<Cap>, now: int, limit: nat, exclude: Option<nat>) {
    && cap.Some? && limit <= cap.value.feeAttempt
    && Committed(rows, |rows|, now - cap.value.window, now, exclude) + limit <= cap.value.feeWindow
  }

  // ------------------------------------------------------------------ operations

  function Slots(rows: seq<Row>, n: nat, member: string): nat
    requires n <= |rows|
  {
    if n == 0 then 0 else Slots(rows, n - 1, member) + if rows[n - 1].member == member && rows[n - 1].slotHeld then 1 else 0
  }

  predicate Requested(rows: seq<Row>, member: string, request: nat) {
    exists r :: 0 <= r < |rows| && rows[r].member == member && rows[r].request == request
  }

  function ReserveMovements(r: nat, member: string, amount: nat, limit: nat): seq<Movement> {
    [Debit(Available(member), amount), Credit(Collateral(r), amount), Debit(ProtocolFees, limit), Credit(Commitment(r), limit)]
  }

  function Fresh(member: string, request: nat, round: nat, amount: nat, limit: nat, now: int): Row {
    Row(member, request, round, amount, limit, Reserved, true, None, None, None, false, None, now, None)
  }

  /** `open` stands for the pause, pilot and offer checks. */
  ghost function Reserve(d: Desk, cap: Option<Cap>, member: string, request: nat, round: nat, amount: nat, limit: nat,
                         now: int, open: bool): Desk
    requires KeysSound(d.books)
  {
    var r := |d.rows|;
    var before := Opened(Opened(d.books, Collateral(r)), Commitment(r));
    if Requested(d.rows, member, request) || !open || Slots(d.rows, r, member) >= 2 || !FeeAllowed(d.rows, cap, now, limit, None) then d
    else
      var p := PostIf(before, amount + limit > 0, ReserveKey(r), ReserveMovements(r, member, amount, limit), 0);
      if p.Refused? then d else Desk(p.books, d.rows + [Fresh(member, request, round, amount, limit, now)])
  }

  function SetRow(d: Desk, r: nat, x: Row): Desk
    requires r < |d.rows|
  {
    d.(rows := d.rows[r := x])
  }

  /** Uncertainty is committed before the only POST. */
  function MarkSubmitting(d: Desk, cap: Option<Cap>, r: nat, now: int, open: bool): Desk {
    if r < |d.rows| && d.rows[r].state == Reserved && open && FeeAllowed(d.rows, cap, now, d.rows[r].limit, Some(r)) then
      SetRow(d, r, d.rows[r].(state := Uncertain, sentAt := Some(now)))
    else d
  }

  function FeeMovements(r: nat, limit: nat, actual: nat): seq<Movement> {
    [Debit(Commitment(r), limit), Credit(ProtocolFees, limit - actual), Credit(OutsideProtocol, actual)]
  }

  /** The commitment is closed: the charge leaves, the rest returns to the operator. */
  ghost function Fees(d: Desk, r: nat, actual: nat): (p: Result)
    requires KeysSound(d.books) && r < |d.rows|
    ensures p.Posted? ==> KeysSound(p.books)
  {
    if actual > d.rows[r].limit then Refused(KeyReused)
    else PostIf(d.books, d.rows[r].limit > 0, FeeKey(r), FeeMovements(r, d.rows[r].limit, actual), actual)
  }

  ghost function Accept(d: Desk, r: nat, benchmark: nat, actual: nat): Desk
    requires KeysSound(d.books)
  {
    if r >= |d.rows| || d.rows[r].benchmark.Some? || d.rows[r].state != Uncertain then d
    else
      var p := Fees(d, r, actual);
      if p.Refused? then d
      else Desk(p.books, d.rows[r := d.rows[r].(state := Accepted, benchmark := Some(benchmark), fee := Some(actual))])
  }

  function ReturnMovements(r: nat, x: Row): seq<Movement> {
    [Debit(Collateral(r), x.amount), Credit(Available(x.member), x.amount)]
  }

  /** Collateral and slot go back before any work began: unsent, or definitively rejected. */
  ghost function ReleaseUnstarted(d: Desk, r: nat, rejected: bool, actual: nat): Desk
    requires KeysSound(d.books)
  {
    if r >= |d.rows| || d.rows[r].state != (if rejected then Uncertain else Reserved) || (!rejected && actual > 0) then d
    else
      var p := Fees(d, r, actual);
      if p.Refused? then d
      else
        var q := PostIf(p.books, d.rows[r].amount > 0, ReturnKey(r), ReturnMovements(r, d.rows[r]), 0);
        if q.Refused? then d
        else Desk(q.books, d.rows[r := d.rows[r].(state := if rejected then Rejected else Cancelled, slotHeld := false,
                                                  fee := Some(actual), outcome := Some(Returned))])
  }

  /** Returns the collateral of an accepted assignment nobody took.  `expired` stands for the operator's pause, the
      expired offer and the absence of results or progress. */
  ghost function ReleaseUnhanded(d: Desk, r: nat, expired: bool): Desk
    requires KeysSound(d.books)
  {
    if r >= |d.rows| || d.rows[r].state != Accepted || d.rows[r].benchmark.None? || !d.rows[r].slotHeld
       || d.rows[r].handedOver || !expired then d
    else
      var p := PostIf(d.books, d.rows[r].amount > 0, UnhandedKey(r), ReturnMovements(r, d.rows[r]), 1);
      if p.Refused? then d
      else Desk(p.books, d.rows[r := d.rows[r].(state := Cancelled, slotHeld := false, outcome := Some(Returned))])
  }

  function Acknowledge(d: Desk, r: nat, member: string): Desk {
    if r < |d.rows| && d.rows[r].member == member && !d.rows[r].handedOver && d.rows[r].state == Accepted then
      SetRow(d, r, d.rows[r].(handedOver := true))
    else d
  }

  function RecordOutcome(d: Desk, r: nat, state: State, height: nat): Desk {
    if r < |d.rows| && state in {Active, Failed, Expired} && d.rows[r].state == Accepted
       && (state == Expired || d.rows[r].handedOver) then
      SetRow(d, r, d.rows[r].(state := state, slotHeld := false, activeAt := if state == Active then Some(height) else None))
    else d
  }

  /** Unhanded work that expired is returned; otherwise work is forfeited if it never became active or a report on
      it was upheld. */
  function Verdict(x: Row, upheld: bool): Outcome {
    if x.handedOver && (x.activeAt.None? || upheld) then Forfeited else Returned
  }

  function FinalTo(x: Row, v: Outcome): Account {
    if v == Returned then Available(x.member) else RoundPot(x.round)
  }

  function FinalBooks(b: Books, x: Row, v: Outcome): Books {
    if v == Forfeited then Opened(b, RoundPot(x.round)) else b
  }

  function FinalMovements(r: nat, x: Row, v: Outcome): seq<Movement> {
    [Debit(Collateral(r), x.amount), Credit(FinalTo(x, v), x.amount)]
  }

  /** `sealed` stands for a matching seal of the creation round's reports with nothing open about this benchmark,
      `upheld` for one of them saying nonreproducible. */
  ghost function Finalize(d: Desk, r: nat, sealed: bool, upheld: bool): Desk
    requires KeysSound(d.books)
  {
    if r >= |d.rows| || d.rows[r].outcome.Some? || !sealed || d.rows[r].state !in {Active, Failed, Expired} || d.rows[r].slotHeld
       || (!d.rows[r].handedOver && d.rows[r].state != Expired) then d
    else
      var v := Verdict(d.rows[r], upheld);
      var p := PostIf(FinalBooks(d.books, d.rows[r], v), d.rows[r].amount > 0, FinalizeKey(r), FinalMovements(r, d.rows[r], v), if upheld then 1 else 0);
      if p.Refused? then d else Desk(p.books, d.rows[r := d.rows[r].(outcome := Some(v))])
  }

  // ------------------------------------------------------------------ invariants

  ghost predicate Life(x: Row) {
    && (x.slotHeld <==> x.state in {Reserved, Uncertain, Accepted})
    && (x.fee.None? <==> x.state in {Reserved, Uncertain}) && (x.fee.Some? ==> x.fee.value <= x.limit)
    && (x.outcome.Some? ==> !x.slotHeld) && (x.state in {Cancelled, Rejected} ==> x.outcome == Some(Returned))
    && (x.state in {Accepted, Active, Failed, Expired} ==> x.benchmark.Some?)
    && (x.state in {Reserved, Uncertain, Rejected} ==> x.benchmark.None?)
    && (x.sentAt.None? <==> x.state == Reserved || (x.state == Cancelled && x.benchmark.None?))
    && (x.handedOver ==> x.state in {Accepted, Active, Failed, Expired}) && (x.state in {Active, Failed} ==> x.handedOver)
    && (x.activeAt.Some? <==> x.state == Active)
  }

  /** Which journals a reservation's life has left. */
  ghost predicate Trace(b: Books, r: nat, x: Row) {
    && (FeeKey(r) in b.keys <==> x.limit > 0 && x.fee.Some?)
    && (ReturnKey(r) in b.keys <==> x.amount > 0 && (x.state == Rejected || (x.state == Cancelled && x.benchmark.None?)))
    && (UnhandedKey(r) in b.keys <==> x.amount > 0 && x.state == Cancelled && x.benchmark.Some?)
    && (FinalizeKey(r) in b.keys <==> x.amount > 0 && x.outcome.Some? && x.state in {Active, Failed, Expired})
  }

  ghost predicate RowSound(b: Books, r: nat, x: Row) {
    && Life(x) && Trace(b, r, x)
    && Balance(b, Collateral(r)) == (if x.outcome.None? then x.amount else 0)
    && Balance(b, Commitment(r)) == (if x.fee.None? then x.limit else 0)
  }

  /** A reservation that does not exist yet has left nothing. */
  ghost predicate Untouched(b: Books, r: nat) {
    && Balance(b, Collateral(r)) == 0 && Balance(b, Commitment(r)) == 0
    && ReserveKey(r) !in b.keys && FeeKey(r) !in b.keys && ReturnKey(r) !in b.keys && UnhandedKey(r) !in b.keys
    && FinalizeKey(r) !in b.keys
  }

  ghost predicate DeskSound(d: Desk) {
    && BooksSound(d.books) && Even(d.books)
    && (forall r :: 0 <= r < |d.rows| ==> RowSound(d.books, r, d.rows[r]))
    && (forall r: nat :: r >= |d.rows| ==> Untouched(d.books, r))
    && (forall member :: Slots(d.rows, |d.rows|, member) <= 2)
  }

  // ------------------------------------------------------------------ every operation keeps them

  predicate KeyAbout(k: Key, r: nat) {
    (k.ReserveKey? || k.FeeKey? || k.ReturnKey? || k.UnhandedKey? || k.FinalizeKey?) && k.r == r
  }

  /** A step of the books that leaves every reservation but r alone. */
  ghost predicate OnlyRow(b: Books, c: Books, r: nat) {
    && BooksSound(c) && Even(c)
    && (forall s: nat :: s != r ==> Balance(c, Collateral(s)) == Balance(b, Collateral(s)))
    && (forall s: nat :: s != r ==> Balance(c, Commitment(s)) == Balance(b, Commitment(s)))
    && (forall k, s: nat :: s != r && KeyAbout(k, s) ==> (k in c.keys <==> k in b.keys))
  }

  lemma MovedOnlyRow(b: Books, c: Books, ms: seq<Movement>, keys: set<Key>, r: nat)
    requires Moved(b, c, ms, keys)
    requires forall s: nat :: s != r ==> Net(ms, Collateral(s)) == 0
    requires forall s: nat :: s != r ==> Net(ms, Commitment(s)) == 0
    requires forall k, s: nat :: k in keys && KeyAbout(k, s) ==> s == r
    ensures OnlyRow(b, c, r)
  {
  }

  lemma OtherRowKept(b: Books, c: Books, r: nat, s: nat, x: Row)
    requires OnlyRow(b, c, r) && s != r
    ensures RowSound(b, s, x) ==> RowSound(c, s, x)
    ensures Untouched(b, s) ==> Untouched(c, s)
  {
    assert KeyAbout(ReserveKey(s), s) && KeyAbout(FeeKey(s), s) && KeyAbout(ReturnKey(s), s);
    assert KeyAbout(UnhandedKey(s), s) && KeyAbout(FinalizeKey(s), s);
  }

  /** An operation on one existing reservation: its new row must be sound, all others stay so. */
  lemma OneRowKeeps(d: Desk, c: Books, r: nat, x: Row)
    requires DeskSound(d) && r < |d.rows| && OnlyRow(d.books, c, r)
    requires RowSound(c, r, x) && x.member == d.rows[r].member && (x.slotHeld ==> d.rows[r].slotHeld)
    ensures DeskSound(Desk(c, d.rows[r := x]))
  {
    var e := Desk(c, d.rows[r := x]);
    forall s | 0 <= s < |e.rows| ensures RowSound(c, s, e.rows[s]) {
      if s != r { OtherRowKept(d.books, c, r, s, d.rows[s]); }
    }
    forall s: nat | s >= |e.rows| ensures Untouched(c, s) {
      assert Untouched(d.books, s);
      OtherRowKept(d.books, c, r, s, x);
    }
    forall member ensures Slots(e.rows, |e.rows|, member) <= 2 {
      SlotsShrink(d.rows, r, x, |d.rows|, member);
      assert Slots(d.rows, |d.rows|, member) <= 2;
    }
  }

  lemma {:induction false} SlotsShrink(rows: seq<Row>, r: nat, x: Row, n: nat, member: string)
    requires r < |rows| && n <= |rows| && x.member == rows[r].member && (x.slotHeld ==> rows[r].slotHeld)
    ensures Slots(rows[r := x], n, member) <= Slots(rows, n, member)
  {
    if n > 0 { SlotsShrink(rows, r, x, n - 1, member); }
  }

  /** Changing a row without touching the books. */
  lemma RowOnlyKeeps(d: Desk, r: nat, x: Row)
    requires DeskSound(d) && r < |d.rows| && RowSound(d.books, r, x)
    requires x.member == d.rows[r].member && (x.slotHeld ==> d.rows[r].slotHeld)
    ensures DeskSound(SetRow(d, r, x))
  {
    OneRowKeeps(d, d.books, r, x);
  }

  lemma KeepsMark(d: Desk, cap: Option<Cap>, r: nat, now: int, open: bool)
    requires DeskSound(d)
    ensures DeskSound(MarkSubmitting(d, cap, r, now, open))
  {
    if r < |d.rows| && d.rows[r].state == Reserved {
      assert RowSound(d.books, r, d.rows[r]);
      RowOnlyKeeps(d, r, d.rows[r].(state := Uncertain, sentAt := Some(now)));
    }
  }

  lemma KeepsAcknowledge(d: Desk, r: nat, member: string)
    requires DeskSound(d)
    ensures DeskSound(Acknowledge(d, r, member))
  {
    if r < |d.rows| && d.rows[r].state == Accepted {
      assert RowSound(d.books, r, d.rows[r]);
      RowOnlyKeeps(d, r, d.rows[r].(handedOver := true));
    }
  }

  lemma KeepsOutcome(d: Desk, r: nat, state: State, height: nat)
    requires DeskSound(d)
    ensures DeskSound(RecordOutcome(d, r, state, height))
  {
    if RecordOutcome(d, r, state, height) != d {
      assert RowSound(d.books, r, d.rows[r]);
      RowOnlyKeeps(d, r, d.rows[r].(state := state, slotHeld := false, activeAt := if state == Active then Some(height) else None));
    }
  }

  function FeeNet(r: nat, limit: int, actual: int, a: Account): int {
    if a == Commitment(r) then -limit else if a == ProtocolFees then limit - actual else if a == OutsideProtocol then actual else 0
  }

  lemma FeeNets(r: nat, limit: nat, actual: nat)
    ensures Level(FeeMovements(r, limit, actual))
    ensures forall a :: Net(FeeMovements(r, limit, actual), a) == FeeNet(r, limit, actual, a)
  {
    var ms := FeeMovements(r, limit, actual);
    forall a ensures Net(ms, a) == FeeNet(r, limit, actual, a) { NetOfFew(ms, a); }
    forall asset, place ensures Flow(ms, asset, place) == 0 { FlowOfFew(ms, asset, place); }
  }

  lemma FeesMove(d: Desk, r: nat, actual: nat)
    requires DeskSound(d) && r < |d.rows| && d.rows[r].fee.None? && Fees(d, r, actual).Posted?
    ensures actual <= d.rows[r].limit
    ensures Moved(d.books, Fees(d, r, actual).books, FeeMovements(r, d.rows[r].limit, actual), FeeKeys(r, d.rows[r]))
  {
    assert RowSound(d.books, r, d.rows[r]);
    FeeNets(r, d.rows[r].limit, actual);
    PostMoves(d.books, d.rows[r].limit > 0, FeeKey(r), FeeMovements(r, d.rows[r].limit, actual), actual);
  }

  function FeeKeys(r: nat, x: Row): set<Key> {
    if x.limit > 0 then {FeeKey(r)} else {}
  }

  function CollateralKeys(key: Key, x: Row): set<Key> {
    if x.amount > 0 then {key} else {}
  }

  /** The row after its fee commitment closed. */
  lemma ChargedRow(b: Books, c: Books, r: nat, x: Row, benchmark: nat, actual: nat)
    requires RowSound(b, r, x) && x.state == Uncertain && actual <= x.limit
    requires Moved(b, c, FeeMovements(r, x.limit, actual), FeeKeys(r, x))
    ensures RowSound(c, r, x.(state := Accepted, benchmark := Some(benchmark), fee := Some(actual)))
  {
    FeeNets(r, x.limit, actual);
  }

  lemma ChargedOnlyRow(b: Books, c: Books, r: nat, x: Row, actual: nat)
    requires Moved(b, c, FeeMovements(r, x.limit, actual), FeeKeys(r, x))
    ensures OnlyRow(b, c, r)
  {
    FeeNets(r, x.limit, actual);
    MovedOnlyRow(b, c, FeeMovements(r, x.limit, actual), FeeKeys(r, x), r);
  }

  lemma KeepsAccept(d: Desk, r: nat, benchmark: nat, actual: nat)
    requires DeskSound(d)
    ensures DeskSound(Accept(d, r, benchmark, actual))
  {
    if Accept(d, r, benchmark, actual) != d {
      var x, c := d.rows[r], Fees(d, r, actual).books;
      assert RowSound(d.books, r, x);
      FeesMove(d, r, actual);
      ChargedRow(d.books, c, r, x, benchmark, actual);
      ChargedOnlyRow(d.books, c, r, x, actual);
      OneRowKeeps(d, c, r, x.(state := Accepted, benchmark := Some(benchmark), fee := Some(actual)));
    }
  }

  /** Collateral leaves once: the row's account empties into `to`. */
  ghost predicate Emptied(b: Books, c: Books, r: nat, x: Row, to: Account, key: Key) {
    && Moved(b, c, [Debit(Collateral(r), x.amount), Credit(to, x.amount)], CollateralKeys(key, x))
    && (to.Available? || to.RoundPot?)
  }

  function ExitKey(r: nat, y: Row): Key {
    if y.state in {Active, Failed, Expired} then FinalizeKey(r)
    else if y.state == Cancelled && y.benchmark.Some? then UnhandedKey(r) else ReturnKey(r)
  }

  lemma EmptiedTrace(b: Books, c: Books, r: nat, x: Row, y: Row, to: Account)
    requires Trace(b, r, x) && Life(x) && x.outcome.None? && Emptied(b, c, r, x, to, ExitKey(r, y))
    requires Life(y) && y.outcome.Some? && y.amount == x.amount && y.limit == x.limit && y.fee == x.fee
    ensures Trace(c, r, y)
  {
  }

  lemma EmptiedRow(b: Books, c: Books, r: nat, x: Row, y: Row, to: Account, key: Key)
    requires RowSound(b, r, x) && x.outcome.None? && Emptied(b, c, r, x, to, key)
    requires Life(y) && y.outcome.Some? && y.amount == x.amount && y.limit == x.limit && y.fee == x.fee
    requires key == ExitKey(r, y)
    ensures RowSound(c, r, y)
  {
    EmptiedTrace(b, c, r, x, y, to);
    MoveNets([Debit(Collateral(r), x.amount), Credit(to, x.amount)], Collateral(r), to, x.amount);
  }

  lemma EmptiedOnlyRow(b: Books, c: Books, r: nat, x: Row, to: Account, key: Key)
    requires Emptied(b, c, r, x, to, key) && KeyAbout(key, r)
    ensures OnlyRow(b, c, r)
  {
    var ms := [Debit(Collateral(r), x.amount), Credit(to, x.amount)];
    MoveNets(ms, Collateral(r), to, x.amount);
    MovedOnlyRow(b, c, ms, CollateralKeys(key, x), r);
  }

  lemma CollateralMoves(b: Books, r: nat, x: Row, to: Account, key: Key, details: int)
    requires BooksSound(b) && Even(b) && key !in b.keys && (to.Available? || to.RoundPot?)
    requires PostIf(b, x.amount > 0, key, [Debit(Collateral(r), x.amount), Credit(to, x.amount)], details).Posted?
    ensures Emptied(b, PostIf(b, x.amount > 0, key, [Debit(Collateral(r), x.amount), Credit(to, x.amount)], details).books, r, x, to, key)
  {
    MoveNets([Debit(Collateral(r), x.amount), Credit(to, x.amount)], Collateral(r), to, x.amount);
    PostMoves(b, x.amount > 0, key, [Debit(Collateral(r), x.amount), Credit(to, x.amount)], details);
  }

  /** An existing reservation whose collateral goes, all else about it being in order. */
  lemma ReleaseKeeps(d: Desk, c: Books, r: nat, y: Row, to: Account, key: Key)
    requires DeskSound(d) && r < |d.rows| && d.rows[r].outcome.None? && Emptied(d.books, c, r, d.rows[r], to, key)
    requires Life(y) && y.outcome.Some? && y == d.rows[r].(state := y.state, slotHeld := y.slotHeld, outcome := y.outcome)
    requires key == ExitKey(r, y)
    ensures DeskSound(Desk(c, d.rows[r := y]))
  {
    var x := d.rows[r];
    assert RowSound(d.books, r, x);
    EmptiedRow(d.books, c, r, x, y, to, key);
    EmptiedOnlyRow(d.books, c, r, x, to, key);
    OneRowKeeps(d, c, r, y);
  }

  lemma KeepsUnhanded(d: Desk, r: nat, expired: bool)
    requires DeskSound(d)
    ensures DeskSound(ReleaseUnhanded(d, r, expired))
  {
    if ReleaseUnhanded(d, r, expired) != d {
      var x := d.rows[r];
      assert RowSound(d.books, r, x);
      CollateralMoves(d.books, r, x, Available(x.member), UnhandedKey(r), 1);
      ReleaseKeeps(d, PostIf(d.books, x.amount > 0, UnhandedKey(r), ReturnMovements(r, x), 1).books, r,
                   x.(state := Cancelled, slotHeld := false, outcome := Some(Returned)), Available(x.member), UnhandedKey(r));
    }
  }

  lemma FinalMoves(b: Books, r: nat, x: Row, v: Outcome, details: int)
    requires BooksSound(b) && Even(b) && FinalizeKey(r) !in b.keys
    requires PostIf(FinalBooks(b, x, v), x.amount > 0, FinalizeKey(r), FinalMovements(r, x, v), details).Posted?
    ensures Emptied(b, PostIf(FinalBooks(b, x, v), x.amount > 0, FinalizeKey(r), FinalMovements(r, x, v), details).books,
                    r, x, FinalTo(x, v), FinalizeKey(r))
  {
    OpenMoves(b, RoundPot(x.round));
    CollateralMoves(FinalBooks(b, x, v), r, x, FinalTo(x, v), FinalizeKey(r), details);
  }

  lemma KeepsFinalize(d: Desk, r: nat, sealed: bool, upheld: bool)
    requires DeskSound(d)
    ensures DeskSound(Finalize(d, r, sealed, upheld))
  {
    if Finalize(d, r, sealed, upheld) != d {
      var x, v := d.rows[r], Verdict(d.rows[r], upheld);
      assert RowSound(d.books, r, x);
      FinalMoves(d.books, r, x, v, if upheld then 1 else 0);
      ReleaseKeeps(d, Finalize(d, r, sealed, upheld).books, r, x.(outcome := Some(v)), FinalTo(x, v), FinalizeKey(r));
    }
  }

  lemma OnlyRowChains(b: Books, c: Books, e: Books, r: nat)
    requires OnlyRow(b, c, r) && OnlyRow(c, e, r)
    ensures OnlyRow(b, e, r)
  {
  }

  /** Closing the commitment leaves the collateral, and its traces, where they were. */
  lemma ChargedLeavesCollateral(b: Books, c: Books, r: nat, x: Row, actual: nat)
    requires Moved(b, c, FeeMovements(r, x.limit, actual), FeeKeys(r, x)) && RowSound(b, r, x) && x.fee.None?
    ensures Balance(c, Collateral(r)) == Balance(b, Collateral(r)) && Balance(c, Commitment(r)) == 0
    ensures FeeKey(r) in c.keys <==> x.limit > 0
    ensures ReturnKey(r) !in c.keys && UnhandedKey(r) !in c.keys && FinalizeKey(r) !in c.keys
  {
    FeeNets(r, x.limit, actual);
  }

  lemma ReturnedRow(c: Books, e: Books, r: nat, x: Row, y: Row)
    requires Emptied(c, e, r, x, Available(x.member), ReturnKey(r)) && Life(y)
    requires y.amount == x.amount && y.limit == x.limit && y.fee.Some? && y.outcome.Some?
    requires y.state == Rejected || (y.state == Cancelled && y.benchmark.None?)
    requires Balance(c, Collateral(r)) == x.amount && Balance(c, Commitment(r)) == 0 && (FeeKey(r) in c.keys <==> x.limit > 0)
    requires ReturnKey(r) !in c.keys && UnhandedKey(r) !in c.keys && FinalizeKey(r) !in c.keys
    ensures RowSound(e, r, y)
  {
    MoveNets([Debit(Collateral(r), x.amount), Credit(Available(x.member), x.amount)], Collateral(r), Available(x.member), x.amount);
  }

  lemma KeepsUnstarted(d: Desk, r: nat, rejected: bool, actual: nat)
    requires DeskSound(d)
    ensures DeskSound(ReleaseUnstarted(d, r, rejected, actual))
  {
    if ReleaseUnstarted(d, r, rejected, actual) != d {
      var x, c := d.rows[r], Fees(d, r, actual).books;
      assert RowSound(d.books, r, x);
      FeesMove(d, r, actual);
      ChargedOnlyRow(d.books, c, r, x, actual);
      ChargedLeavesCollateral(d.books, c, r, x, actual);
      var e := PostIf(c, x.amount > 0, ReturnKey(r), ReturnMovements(r, x), 0).books;
      var y := x.(state := if rejected then Rejected else Cancelled, slotHeld := false, fee := Some(actual), outcome := Some(Returned));
      CollateralMoves(c, r, x, Available(x.member), ReturnKey(r), 0);
      EmptiedOnlyRow(c, e, r, x, Available(x.member), ReturnKey(r));
      OnlyRowChains(d.books, c, e, r);
      ReturnedRow(c, e, r, x, y);
      OneRowKeeps(d, e, r, y);
    }
  }

  function ReserveNet(r: nat, member: string, amount: int, limit: int, a: Account): int {
    if a == Available(member) then -amount else if a == Collateral(r) then amount
    else if a == ProtocolFees then -limit else if a == Commitment(r) then limit else 0
  }

  lemma ReserveNets(r: nat, member: string, amount: nat, limit: nat)
    ensures Level(ReserveMovements(r, member, amount, limit))
    ensures forall a :: Net(ReserveMovements(r, member, amount, limit), a) == ReserveNet(r, member, amount, limit, a)
  {
    var ms := ReserveMovements(r, member, amount, limit);
    forall a ensures Net(ms, a) == ReserveNet(r, member, amount, limit, a) { NetOfFew(ms, a); }
    forall asset, place ensures Flow(ms, asset, place) == 0 { FlowOfFew(ms, asset, place); }
  }

  function ReserveKeys(r: nat, amount: nat, limit: nat): set<Key> {
    if amount + limit > 0 then {ReserveKey(r)} else {}
  }

  lemma ReservedOnlyRow(b: Books, c: Books, r: nat, member: string, amount: nat, limit: nat)
    requires Moved(b, c, ReserveMovements(r, member, amount, limit), ReserveKeys(r, amount, limit))
    ensures OnlyRow(b, c, r)
  {
    ReserveNets(r, member, amount, limit);
    MovedOnlyRow(b, c, ReserveMovements(r, member, amount, limit), ReserveKeys(r, amount, limit), r);
  }

  lemma ReservedRow(b: Books, c: Books, r: nat, x: Row)
    requires Untouched(b, r) && x == Fresh(x.member, x.request, x.round, x.amount, x.limit, x.createdAt)
    requires Moved(b, c, ReserveMovements(r, x.member, x.amount, x.limit), ReserveKeys(r, x.amount, x.limit))
    ensures RowSound(c, r, x)
  {
    ReserveNets(r, x.member, x.amount, x.limit);
  }

  lemma {:induction false} SlotsPrefix(rows: seq<Row>, x: Row, n: nat, member: string)
    requires n <= |rows|
    ensures Slots(rows + [x], n, member) == Slots(rows, n, member)
  {
    if n > 0 { SlotsPrefix(rows, x, n - 1, member); }
  }

  /** A new reservation: its row must be sound, and its member must have had a slot to spare. */
  lemma NewRowKeeps(d: Desk, c: Books, x: Row)
    requires DeskSound(d) && OnlyRow(d.books, c, |d.rows|) && RowSound(c, |d.rows|, x) && Slots(d.rows, |d.rows|, x.member) < 2
    ensures DeskSound(Desk(c, d.rows + [x]))
  {
    var e, r := Desk(c, d.rows + [x]), |d.rows|;
    forall s | 0 <= s < |e.rows| ensures RowSound(c, s, e.rows[s]) {
      if s != r { OtherRowKept(d.books, c, r, s, d.rows[s]); }
    }
    forall s: nat | s >= |e.rows| ensures Untouched(c, s) {
      assert Untouched(d.books, s);
      OtherRowKept(d.books, c, r, s, x);
    }
    forall member ensures Slots(e.rows, |e.rows|, member) <= 2 {
      SlotsPrefix(d.rows, x, r, member);
      assert Slots(d.rows, r, member) <= 2;
    }
  }

  function ReserveBooks(d: Desk): Books {
    Opened(Opened(d.books, Collateral(|d.rows|)), Commitment(|d.rows|))
  }

  lemma ReserveMoves(d: Desk, member: string, amount: nat, limit: nat)
    requires DeskSound(d)
    requires PostIf(ReserveBooks(d), amount + limit > 0, ReserveKey(|d.rows|), ReserveMovements(|d.rows|, member, amount, limit), 0).Posted?
    ensures Moved(d.books, PostIf(ReserveBooks(d), amount + limit > 0, ReserveKey(|d.rows|), ReserveMovements(|d.rows|, member, amount, limit), 0).books,
                  ReserveMovements(|d.rows|, member, amount, limit), ReserveKeys(|d.rows|, amount, limit))
  {
    var r := |d.rows|;
    assert Untouched(d.books, r);
    OpenMoves(d.books, Collateral(r));
    OpenMoves(Opened(d.books, Collateral(r)), Commitment(r));
    ReserveNets(r, member, amount, limit);
    PostMoves(ReserveBooks(d), amount + limit > 0, ReserveKey(r), ReserveMovements(r, member, amount, limit), 0);
  }

  lemma KeepsReserve(d: Desk, cap: Option<Cap>, member: string, request: nat, round: nat, amount: nat, limit: nat, now: int, open: bool)
    requires DeskSound(d)
    ensures DeskSound(Reserve(d, cap, member, request, round, amount, limit, now, open))
  {
    var e := Reserve(d, cap, member, request, round, amount, limit, now, open);
    if e != d {
      var r := |d.rows|;
      assert Untouched(d.books, r);
      ReserveMoves(d, member, amount, limit);
      ReservedOnlyRow(d.books, e.books, r, member, amount, limit);
      ReservedRow(d.books, e.books, r, Fresh(member, request, round, amount, limit, now));
      NewRowKeeps(d, e.books, Fresh(member, request, round, amount, limit, now));
    }
  }

  /** A step of the books that leaves reservations alone. */
  lemma OthersKeep(d: Desk, c: Books)
    requires DeskSound(d) && BooksSound(c) && Even(c) && Leaves(d.books, c, Work)
    ensures DeskSound(Desk(c, d.rows))
  {
    forall r: nat ensures r < |d.rows| ==> RowSound(c, r, d.rows[r]) {
      if r < |d.rows| { assert RowSound(d.books, r, d.rows[r]); }
    }
    forall r: nat | r >= |d.rows| ensures Untouched(c, r) {
      assert Untouched(d.books, r);
    }
  }

  // ------------------------------------------------------------------ what operations do elsewhere

  function ForfeitedUpTo(rows: seq<Row>, n: nat, k: nat): nat
    requires n <= |rows|
  {
    if n == 0 then 0
    else
      ForfeitedUpTo(rows, n - 1, k) + if rows[n - 1].round == k && rows[n - 1].outcome == Some(Forfeited) then rows[n - 1].amount else 0
  }

  function AllForfeited(rows: seq<Row>, k: nat): nat {
    ForfeitedUpTo(rows, |rows|, k)
  }

  predicate Resolved(rows: seq<Row>, k: nat) {
    forall r :: 0 <= r < |rows| && rows[r].round == k ==> rows[r].outcome.Some?
  }

  /** What an operation of the desk does to the rest of the pool: round pots gain exactly what is newly forfeited,
      and nothing else changes. */
  ghost predicate Steps(d: Desk, e: Desk) {
    && |d.rows| <= |e.rows|
    && (forall r :: 0 <= r < |d.rows| ==>
          e.rows[r].round == d.rows[r].round && e.rows[r].amount == d.rows[r].amount
          && (d.rows[r].outcome.Some? ==> e.rows[r].outcome == d.rows[r].outcome))
    && (forall k: nat :: Balance(e.books, RoundPot(k)) - AllForfeited(e.rows, k) == Balance(d.books, RoundPot(k)) - AllForfeited(d.rows, k))
    && (forall k: Key :: k.Owner() == Pots ==> (k in e.books.keys <==> k in d.books.keys))
    && Leaves(d.books, e.books, Payments) && Leaves(d.books, e.books, Events) && Leaves(d.books, e.books, Chain)
  }

  /** Once every outcome of a round is known, nothing more can be forfeited in it. */
  lemma {:induction false} ResolvedForfeits(rows: seq<Row>, other: seq<Row>, n: nat, k: nat)
    requires Resolved(rows, k) && |rows| <= |other| && n <= |other|
    requires forall r :: 0 <= r < |rows| ==> other[r].round == rows[r].round && other[r].amount == rows[r].amount
    requires forall r :: 0 <= r < |rows| && rows[r].outcome.Some? ==> other[r].outcome == rows[r].outcome
    requires forall r :: |rows| <= r < |other| ==> other[r].round != k
    ensures ForfeitedUpTo(other, n, k) == ForfeitedUpTo(rows, if n <= |rows| then n else |rows|, k)
  {
    if n > 0 { ResolvedForfeits(rows, other, n - 1, k); }
  }

  lemma {:induction false} ForfeitedChange(rows: seq<Row>, r: nat, x: Row, n: nat, k: nat)
    requires r < |rows| && n <= |rows| && rows[r].outcome != Some(Forfeited) && x.round == rows[r].round
    ensures ForfeitedUpTo(rows[r := x], n, k)
         == ForfeitedUpTo(rows, n, k) + if r < n && x.round == k && x.outcome == Some(Forfeited) then x.amount else 0
  {
    if n > 0 { ForfeitedChange(rows, r, x, n - 1, k); }
  }

  lemma {:induction false} ForfeitedPrefix(rows: seq<Row>, x: Row, n: nat, k: nat)
    requires n <= |rows|
    ensures ForfeitedUpTo(rows + [x], n, k) == ForfeitedUpTo(rows, n, k)
  {
    if n > 0 { ForfeitedPrefix(rows, x, n - 1, k); }
  }

  ghost predicate Quiet(b: Books, c: Books) {
    Leaves(b, c, Pots) && Leaves(b, c, Payments) && Leaves(b, c, Events) && Leaves(b, c, Chain)
  }

  lemma MovedQuiet(b: Books, c: Books, ms: seq<Movement>, keys: set<Key>)
    requires Moved(b, c, ms, keys) && (forall k: Key :: k in keys ==> k.Owner() == Work)
    requires forall a: Account :: a.Owner() == Pots || a.Owner() == Payments || a.Owner() == Chain ==> Net(ms, a) == 0
    ensures Quiet(b, c)
  {
  }

  /** A row whose outcome does not become forfeiture. */
  lemma QuietSteps(d: Desk, c: Books, r: nat, x: Row)
    requires r < |d.rows| && Quiet(d.books, c) && x.round == d.rows[r].round && x.amount == d.rows[r].amount
    requires x.outcome == d.rows[r].outcome || (d.rows[r].outcome.None? && x.outcome == Some(Returned))
    ensures Steps(d, Desk(c, d.rows[r := x]))
  {
    forall k: nat ensures AllForfeited(d.rows[r := x], k) == AllForfeited(d.rows, k) {
      if x.outcome == d.rows[r].outcome { SameForfeited(d.rows, r, x, |d.rows|, k); } else { ForfeitedChange(d.rows, r, x, |d.rows|, k); }
    }
  }

  lemma {:induction false} SameForfeited(rows: seq<Row>, r: nat, x: Row, n: nat, k: nat)
    requires r < |rows| && n <= |rows| && x.round == rows[r].round && x.outcome == rows[r].outcome && x.amount == rows[r].amount
    ensures ForfeitedUpTo(rows[r := x], n, k) == ForfeitedUpTo(rows, n, k)
  {
    if n > 0 { SameForfeited(rows, r, x, n - 1, k); }
  }

  lemma NewRowSteps(d: Desk, c: Books, x: Row)
    requires Quiet(d.books, c) && x.outcome.None?
    ensures Steps(d, Desk(c, d.rows + [x]))
  {
    forall k: nat ensures AllForfeited(d.rows + [x], k) == AllForfeited(d.rows, k) {
      ForfeitedPrefix(d.rows, x, |d.rows|, k);
    }
  }

  lemma ReservedQuiet(b: Books, c: Books, r: nat, member: string, amount: nat, limit: nat)
    requires Moved(b, c, ReserveMovements(r, member, amount, limit), ReserveKeys(r, amount, limit))
    ensures Quiet(b, c)
  {
    ReserveNets(r, member, amount, limit);
    MovedQuiet(b, c, ReserveMovements(r, member, amount, limit), ReserveKeys(r, amount, limit));
  }

  lemma ReserveSteps(d: Desk, cap: Option<Cap>, member: string, request: nat, round: nat, amount: nat, limit: nat, now: int, open: bool)
    requires DeskSound(d)
    ensures Steps(d, Reserve(d, cap, member, request, round, amount, limit, now, open))
  {
    var e := Reserve(d, cap, member, request, round, amount, limit, now, open);
    if e != d {
      ReserveMoves(d, member, amount, limit);
      ReservedQuiet(d.books, e.books, |d.rows|, member, amount, limit);
      NewRowSteps(d, e.books, Fresh(member, request, round, amount, limit, now));
    }
  }

  lemma MarkSteps(d: Desk, cap: Option<Cap>, r: nat, now: int, open: bool)
    ensures Steps(d, MarkSubmitting(d, cap, r, now, open))
  {
    if r < |d.rows| { QuietSteps(d, d.books, r, d.rows[r].(state := Uncertain, sentAt := Some(now))); }
  }

  lemma AcknowledgeSteps(d: Desk, r: nat, member: string)
    ensures Steps(d, Acknowledge(d, r, member))
  {
    if r < |d.rows| { QuietSteps(d, d.books, r, d.rows[r].(handedOver := true)); }
  }

  lemma OutcomeSteps(d: Desk, r: nat, state: State, height: nat)
    ensures Steps(d, RecordOutcome(d, r, state, height))
  {
    if r < |d.rows| {
      QuietSteps(d, d.books, r, d.rows[r].(state := state, slotHeld := false, activeAt := if state == Active then Some(height) else None));
    }
  }

  lemma ChargedQuiet(b: Books, c: Books, r: nat, x: Row, actual: nat)
    requires Moved(b, c, FeeMovements(r, x.limit, actual), FeeKeys(r, x))
    ensures Quiet(b, c)
  {
    FeeNets(r, x.limit, actual);
    MovedQuiet(b, c, FeeMovements(r, x.limit, actual), FeeKeys(r, x));
  }

  lemma ReturnedQuiet(b: Books, c: Books, r: nat, x: Row, key: Key)
    requires Emptied(b, c, r, x, Available(x.member), key) && key.Owner() == Work
    ensures Quiet(b, c)
  {
    var ms := [Debit(Collateral(r), x.amount), Credit(Available(x.member), x.amount)];
    MoveNets(ms, Collateral(r), Available(x.member), x.amount);
    MovedQuiet(b, c, ms, CollateralKeys(key, x));
  }

  lemma AcceptSteps(d: Desk, r: nat, benchmark: nat, actual: nat)
    requires DeskSound(d)
    ensures Steps(d, Accept(d, r, benchmark, actual))
  {
    if Accept(d, r, benchmark, actual) != d {
      var x, c := d.rows[r], Fees(d, r, actual).books;
      assert RowSound(d.books, r, x);
      FeesMove(d, r, actual);
      ChargedQuiet(d.books, c, r, x, actual);
      QuietSteps(d, c, r, x.(state := Accepted, benchmark := Some(benchmark), fee := Some(actual)));
    }
  }

  lemma UnhandedSteps(d: Desk, r: nat, expired: bool)
    requires DeskSound(d)
    ensures Steps(d, ReleaseUnhanded(d, r, expired))
  {
    if ReleaseUnhanded(d, r, expired) != d {
      var x := d.rows[r];
      var c := ReleaseUnhanded(d, r, expired).books;
      assert RowSound(d.books, r, x);
      CollateralMoves(d.books, r, x, Available(x.member), UnhandedKey(r), 1);
      ReturnedQuiet(d.books, c, r, x, UnhandedKey(r));
      QuietSteps(d, c, r, x.(state := Cancelled, slotHeld := false, outcome := Some(Returned)));
    }
  }

  lemma FeesQuiet(d: Desk, r: nat, actual: nat)
    requires DeskSound(d) && r < |d.rows| && d.rows[r].state in {Reserved, Uncertain} && Fees(d, r, actual).Posted?
    ensures var c := Fees(d, r, actual).books;
      Quiet(d.books, c) && BooksSound(c) && Even(c) && ReturnKey(r) !in c.keys
  {
    var x, c := d.rows[r], Fees(d, r, actual).books;
    assert RowSound(d.books, r, x);
    FeesMove(d, r, actual);
    ChargedQuiet(d.books, c, r, x, actual);
    ChargedLeavesCollateral(d.books, c, r, x, actual);
  }

  lemma ReturnQuiet(c: Books, r: nat, x: Row)
    requires BooksSound(c) && Even(c) && ReturnKey(r) !in c.keys && PostIf(c, x.amount > 0, ReturnKey(r), ReturnMovements(r, x), 0).Posted?
    ensures Quiet(c, PostIf(c, x.amount > 0, ReturnKey(r), ReturnMovements(r, x), 0).books)
  {
    CollateralMoves(c, r, x, Available(x.member), ReturnKey(r), 0);
    ReturnedQuiet(c, PostIf(c, x.amount > 0, ReturnKey(r), ReturnMovements(r, x), 0).books, r, x, ReturnKey(r));
  }

  lemma QuietChains(b: Books, c: Books, e: Books)
    requires Quiet(b, c) && Quiet(c, e)
    ensures Quiet(b, e)
  {
  }

  lemma UnstartedSteps(d: Desk, r: nat, rejected: bool, actual: nat)
    requires DeskSound(d)
    ensures Steps(d, ReleaseUnstarted(d, r, rejected, actual))
  {
    var f := ReleaseUnstarted(d, r, rejected, actual);
    if f != d {
      assert RowSound(d.books, r, d.rows[r]);
      FeesQuiet(d, r, actual);
      ReturnQuiet(Fees(d, r, actual).books, r, d.rows[r]);
      QuietChains(d.books, Fees(d, r, actual).books, f.books);
      QuietSteps(d, f.books, r, f.rows[r]);
    }
  }

  /** Forfeited collateral goes into the pot of its creation round. */
  lemma ForfeitedSteps(d: Desk, c: Books, r: nat, key: Key)
    requires r < |d.rows| && d.rows[r].outcome.None? && key.Owner() == Work
    requires Emptied(d.books, c, r, d.rows[r], RoundPot(d.rows[r].round), key)
    ensures Steps(d, Desk(c, d.rows[r := d.rows[r].(outcome := Some(Forfeited))]))
  {
    ForfeitedRows(d.rows, r);
    ForfeitedBooks(d.books, c, r, d.rows[r], key);
  }

  lemma ForfeitedRows(rows: seq<Row>, r: nat)
    requires r < |rows| && rows[r].outcome.None?
    ensures var other := rows[r := rows[r].(outcome := Some(Forfeited))];
      forall k: nat :: AllForfeited(other, k) == AllForfeited(rows, k) + if rows[r].round == k then rows[r].amount else 0
  {
    forall k: nat
      ensures AllForfeited(rows[r := rows[r].(outcome := Some(Forfeited))], k) == AllForfeited(rows, k) + if rows[r].round == k then rows[r].amount else 0
    {
      ForfeitedChange(rows, r, rows[r].(outcome := Some(Forfeited)), |rows|, k);
    }
  }

  lemma ForfeitedBooks(b: Books, c: Books, r: nat, x: Row, key: Key)
    requires Emptied(b, c, r, x, RoundPot(x.round), key) && key.Owner() == Work
    ensures forall k: nat :: Balance(c, RoundPot(k)) == Balance(b, RoundPot(k)) + if k == x.round then x.amount else 0
    ensures forall k: Key :: k.Owner() != Work ==> (k in c.keys <==> k in b.keys)
    ensures Leaves(b, c, Payments) && Leaves(b, c, Events) && Leaves(b, c, Chain)
  {
    MoveNets([Debit(Collateral(r), x.amount), Credit(RoundPot(x.round), x.amount)], Collateral(r), RoundPot(x.round), x.amount);
  }

  lemma FinalizeSteps(d: Desk, r: nat, sealed: bool, upheld: bool)
    requires DeskSound(d)
    ensures Steps(d, Finalize(d, r, sealed, upheld))
  {
    var f := Finalize(d, r, sealed, upheld);
    if f != d {
      var x, v := d.rows[r], Verdict(d.rows[r], upheld);
      assert RowSound(d.books, r, x);
      FinalMoves(d.books, r, x, v, if upheld then 1 else 0);
      if v == Forfeited {
        ForfeitedSteps(d, f.books, r, FinalizeKey(r));
      } else {
        ReturnedQuiet(d.books, f.books, r, x, FinalizeKey(r));
        QuietSteps(d, f.books, r, x.(outcome := Some(v)));
      }
    }
  }

  // ------------------------------------------------------------------ what the invariant says

  function Exits(b: Books, r: nat): set<Key> {
    set k | k in {ReturnKey(r), UnhandedKey(r), FinalizeKey(r)} && k in b.keys
  }

  /** Collateral is held exactly while no outcome is set, the commitment exactly while no fee is; each leaves once, and
      work that was sent is never released by the unsent path. */
  lemma EscrowMeaning(d: Desk, r: nat)
    requires DeskSound(d) && r < |d.rows|
    ensures var x := d.rows[r];
      && Balance(d.books, Collateral(r)) == (if x.outcome.None? then x.amount else 0)
      && Balance(d.books, Commitment(r)) == (if x.fee.None? then x.limit else 0)
      && |Exits(d.books, r)| == (if x.outcome.Some? && x.amount > 0 then 1 else 0)
      && (x.sentAt.Some? && x.state == Cancelled ==> x.benchmark.Some? && !x.handedOver)
  {
    var x := d.rows[r];
    assert RowSound(d.books, r, x);
    var exits := Exits(d.books, r);
    if x.outcome.Some? && x.amount > 0 {
      var k := if x.state in {Active, Failed, Expired} then FinalizeKey(r)
               else if x.state == Cancelled && x.benchmark.Some? then UnhandedKey(r) else ReturnKey(r);
      assert exits == {k};
    } else {
      assert exits == {};
    }
  }

  lemma NeverThreeSlots(d: Desk, i: nat, j: nat, k: nat)
    requires DeskSound(d) && i < j < k < |d.rows| && d.rows[i].member == d.rows[j].member == d.rows[k].member
    ensures !(d.rows[i].slotHeld && d.rows[j].slotHeld && d.rows[k].slotHeld)
  {
    AtMostTwo(d.rows, i, j, k, d.rows[i].member);
  }

  lemma AtMostTwo(rows: seq<Row>, i: nat, j: nat, k: nat, m: string)
    requires Slots(rows, |rows|, m) <= 2 && i < j < k < |rows| && rows[i].member == rows[j].member == rows[k].member == m
    ensures !(rows[i].slotHeld && rows[j].slotHeld && rows[k].slotHeld)
  {
    SlotCounted(rows, 0, i, m);
    SlotCounted(rows, i + 1, j, m);
    SlotCounted(rows, j + 1, k, m);
    SlotsGrow(rows, k + 1, |rows|, m);
  }

  lemma SlotCounted(rows: seq<Row>, n: nat, r: nat, member: string)
    requires n <= r < |rows| && rows[r].member == member
    ensures Slots(rows, r + 1, member) >= Slots(rows, n, member) + if rows[r].slotHeld then 1 else 0
  {
    SlotsGrow(rows, n, r, member);
  }

  lemma {:induction false} SlotsGrow(rows: seq<Row>, m: nat, n: nat, member: string)
    requires m <= n <= |rows|
    ensures Slots(rows, m, member) <= Slots(rows, n, member)
  {
    if m < n { SlotsGrow(rows, m, n - 1, member); }
  }

  // ------------------------------------------------------------------ the rolling fee window

  /** What was first sent in the half-open interval (from, to], by its ceilings. */
  function Sent(rows: seq<Row>, n: nat, from: int, to: int): nat
    requires n <= |rows|
  {
    if n == 0 then 0
    else
      var x := rows[n - 1];
      Sent(rows, n - 1, from, to) + if x.sentAt.Some? && from < x.sentAt.value <= to then x.limit else 0
  }

  /** ... and by what was charged for it. */
  function Charged(rows: seq<Row>, n: nat, from: int, to: int): nat
    requires n <= |rows|
  {
    if n == 0 then 0
    else
      var x := rows[n - 1];
      Charged(rows, n - 1, from, to) + if x.sentAt.Some? && from < x.sentAt.value <= to && x.fee.Some? then x.fee.value else 0
  }

  function SentFrom(rows: seq<Row>, from: int, window: nat): nat {
    Sent(rows, |rows|, from, from + window)
  }

  ghost predicate Timely(rows: seq<Row>, clock: int) {
    forall r :: 0 <= r < |rows| && rows[r].sentAt.Some? ==> rows[r].sentAt.value <= clock
  }

  /** Every interval of the window's length stays within the limit; without a cap nothing was ever sent. */
  ghost predicate WithinWindow(rows: seq<Row>, cap: Option<Cap>) {
    && (cap.None? ==> forall r :: 0 <= r < |rows| ==> rows[r].sentAt.None?)
    && (cap.Some? ==> forall from: int :: SentFrom(rows, from, cap.value.window) <= cap.value.feeWindow)
  }

  lemma {:induction false} SentIsCommitted(rows: seq<Row>, n: nat, from: int, to: int, since: int, now: int, r: nat)
    requires n <= |rows| && r < |rows| && rows[r].sentAt.None? && Timely(rows, now) && since <= from
    ensures Sent(rows, n, from, to) <= Committed(rows, n, since, now, Some(r))
  {
    if n > 0 { SentIsCommitted(rows, n - 1, from, to, since, now, r); }
  }

  lemma {:induction false} SentOneMore(rows: seq<Row>, n: nat, r: nat, x: Row, from: int, to: int)
    requires n <= |rows| && r < |rows| && rows[r].sentAt.None? && x.sentAt.Some? && x.limit == rows[r].limit
    ensures Sent(rows[r := x], n, from, to) == Sent(rows, n, from, to) + if r < n && from < x.sentAt.value <= to then x.limit else 0
  {
    if n > 0 { SentOneMore(rows, n - 1, r, x, from, to); }
  }

  lemma MarkedWithin(rows: seq<Row>, cap: Cap, r: nat, x: Row, now: int, from: int)
    requires r < |rows| && rows[r].sentAt.None? && Timely(rows, now) && x == rows[r].(state := Uncertain, sentAt := Some(now))
    requires FeeAllowed(rows, Some(cap), now, x.limit, Some(r)) && SentFrom(rows, from, cap.window) <= cap.feeWindow
    ensures SentFrom(rows[r := x], from, cap.window) <= cap.feeWindow
  {
    SentOneMore(rows, |rows|, r, x, from, from + cap.window);
    if from < now <= from + cap.window {
      SentIsCommitted(rows, |rows|, from, from + cap.window, now - cap.window, now, r);
    }
  }

  lemma MarkKeepsWindow(d: Desk, cap: Option<Cap>, r: nat, now: int, open: bool)
    requires WithinWindow(d.rows, cap) && Timely(d.rows, now) && (r < |d.rows| ==> Life(d.rows[r]))
    ensures WithinWindow(MarkSubmitting(d, cap, r, now, open).rows, cap) && Timely(MarkSubmitting(d, cap, r, now, open).rows, now)
  {
    var e := MarkSubmitting(d, cap, r, now, open);
    if e != d {
      forall from: int ensures SentFrom(e.rows, from, cap.value.window) <= cap.value.feeWindow {
        assert SentFrom(d.rows, from, cap.value.window) <= cap.value.feeWindow;
        MarkedWithin(d.rows, cap.value, r, e.rows[r], now, from);
      }
    }
  }

  /** Rows that were neither sent nor given another ceiling. */
  ghost predicate SameSends(rows: seq<Row>, other: seq<Row>) {
    && |rows| <= |other|
    && (forall r :: 0 <= r < |rows| ==> other[r].sentAt == rows[r].sentAt && other[r].limit == rows[r].limit)
    && (forall r :: |rows| <= r < |other| ==> other[r].sentAt.None?)
  }

  lemma {:induction false} SameSent(rows: seq<Row>, other: seq<Row>, n: nat, from: int, to: int)
    requires SameSends(rows, other) && n <= |other|
    ensures Sent(other, n, from, to) == Sent(rows, if n <= |rows| then n else |rows|, from, to)
  {
    if n > 0 { SameSent(rows, other, n - 1, from, to); }
  }

  lemma OthersKeepWindow(rows: seq<Row>, other: seq<Row>, cap: Option<Cap>, clock: int)
    requires SameSends(rows, other) && WithinWindow(rows, cap) && Timely(rows, clock)
    ensures WithinWindow(other, cap) && Timely(other, clock)
  {
    if cap.Some? {
      forall from: int ensures SentFrom(other, from, cap.value.window) <= cap.value.feeWindow {
        SameSent(rows, other, |other|, from, from + cap.value.window);
        assert SentFrom(rows, from, cap.value.window) <= cap.value.feeWindow;
      }
    }
  }

  lemma {:induction false} ChargedWithinSent(b: Books, rows: seq<Row>, n: nat, from: int, to: int)
    requires n <= |rows| && forall r :: 0 <= r < |rows| ==> RowSound(b, r, rows[r])
    ensures Charged(rows, n, from, to) <= Sent(rows, n, from, to)
  {
    if n > 0 {
      ChargedWithinSent(b, rows, n - 1, from, to);
      assert RowSound(b, n - 1, rows[n - 1]);
    }
  }

  lemma ChargesWithinWindow(d: Desk, cap: Cap, from: int)
    requires DeskSound(d) && WithinWindow(d.rows, Some(cap))
    ensures SentFrom(d.rows, from, cap.window) <= cap.feeWindow
    ensures Charged(d.rows, |d.rows|, from, from + cap.window) <= cap.feeWindow
  {
    assert SentFrom(d.rows, from, cap.window) <= cap.feeWindow;
    ChargedWithinSent(d.books, d.rows, |d.rows|, from, from + cap.window);
  }

  // ------------------------------------------------------------------ operations, seen from outside

  /** An operation that sends nothing and reserves nothing new. */
  ghost predicate Proper(d: Desk, e: Desk) {
    DeskSound(e) && Steps(d, e) && |e.rows| == |d.rows| && SameSends(d.rows, e.rows)
  }

  /** An operation that sends nothing and at most reserves new work in the given round. */
  ghost predicate Grown(d: Desk, e: Desk, round: nat) {
    && DeskSound(e) && Steps(d, e) && SameSends(d.rows, e.rows)
    && (forall r :: |d.rows| <= r < |e.rows| ==> e.rows[r].round == round)
  }

  lemma ReserveGrown(d: Desk, cap: Option<Cap>, member: string, request: nat, round: nat, amount: nat, limit: nat, now: int, open: bool)
    requires DeskSound(d)
    ensures Grown(d, Reserve(d, cap, member, request, round, amount, limit, now, open), round)
  {
    KeepsReserve(d, cap, member, request, round, amount, limit, now, open);
    ReserveSteps(d, cap, member, request, round, amount, limit, now, open);
  }

  lemma AcceptProper(d: Desk, r: nat, benchmark: nat, actual: nat)
    requires DeskSound(d)
    ensures Proper(d, Accept(d, r, benchmark, actual))
  {
    KeepsAccept(d, r, benchmark, actual);
    AcceptSteps(d, r, benchmark, actual);
  }

  lemma UnstartedProper(d: Desk, r: nat, rejected: bool, actual: nat)
    requires DeskSound(d)
    ensures Proper(d, ReleaseUnstarted(d, r, rejected, actual))
  {
    KeepsUnstarted(d, r, rejected, actual);
    UnstartedSteps(d, r, rejected, actual);
  }

  lemma UnhandedProper(d: Desk, r: nat, expired: bool)
    requires DeskSound(d)
    ensures Proper(d, ReleaseUnhanded(d, r, expired))
  {
    KeepsUnhanded(d, r, expired);
    UnhandedSteps(d, r, expired);
  }

  lemma AcknowledgeProper(d: Desk, r: nat, member: string)
    requires DeskSound(d)
    ensures Proper(d, Acknowledge(d, r, member))
  {
    KeepsAcknowledge(d, r, member);
    AcknowledgeSteps(d, r, member);
  }

  lemma OutcomeProper(d: Desk, r: nat, state: State, height: nat)
    requires DeskSound(d)
    ensures Proper(d, RecordOutcome(d, r, state, height))
  {
    KeepsOutcome(d, r, state, height);
    OutcomeSteps(d, r, state, height);
  }

  lemma FinalizeProper(d: Desk, r: nat, sealed: bool, upheld: bool)
    requires DeskSound(d)
    ensures Proper(d, Finalize(d, r, sealed, upheld))
  {
    KeepsFinalize(d, r, sealed, upheld);
    FinalizeSteps(d, r, sealed, upheld);
  }

  // ------------------------------------------------------------------ the desk

  /** The reservations table over the shared journal.  A method that raises in the original returns false; its
      transaction is rolled back and nothing changes. */
  class BenchmarkDesk {
    const journal: JournalStore
    var rows: seq<Row>

    constructor (journal: JournalStore)
      ensures this.journal == journal && rows == []
    {
      this.journal, rows := journal, [];
    }

    function Contents(): Desk
      reads this, journal
    {
      Desk(journal.Contents(), rows)
    }

    method SlotsHeld(member: string) returns (count: nat)
      ensures count == Slots(rows, |rows|, member)
    {
      count := 0;
      for r := 0 to |rows|
        invariant count == Slots(rows, r, member)
      {
        if rows[r].member == member && rows[r].slotHeld { count := count + 1; }
      }
    }

    /** The fee ceilings committed inside the window. */
    method CommittedFees(since: int, now: int, exclude: Option<nat>) returns (total: nat)
      ensures total == Committed(rows, |rows|, since, now, exclude)
    {
      total := 0;
      for r := 0 to |rows|
        invariant total == Committed(rows, r, since, now, exclude)
      {
        if exclude != Some(r) && Counts(rows[r], since, now) { total := total + rows[r].limit; }
      }
    }

    method CheckFee(cap: Option<Cap>, now: int, limit: nat, exclude: Option<nat>) returns (ok: bool)
      ensures ok == FeeAllowed(rows, cap, now, limit, exclude)
    {
      if cap.None? || limit > cap.value.feeAttempt { return false; }
      var used := CommittedFees(now - cap.value.window, now, exclude);
      return used + limit <= cap.value.feeWindow;
    }

    method ReserveWork(cap: Option<Cap>, member: string, request: nat, round: nat, amount: nat, limit: nat, now: int, open: bool)
      returns (ok: bool)
      requires KeysSound(journal.Contents())
      modifies this, journal
      ensures Contents() == Reserve(old(Contents()), cap, member, request, round, amount, limit, now, open)
      ensures ok == (|rows| > |old(rows)|)
      ensures ok ==> rows == old(rows) + [Fresh(member, request, round, amount, limit, now)]
    {
      if exists r :: 0 <= r < |rows| && rows[r].member == member && rows[r].request == request { return false; }
      if !open { return false; }
      var slots := SlotsHeld(member);
      if slots >= 2 { return false; }
      var allowed := CheckFee(cap, now, limit, None);
      if !allowed { return false; }
      var before := journal.Contents();
      journal.Open(Collateral(|rows|));
      journal.Open(Commitment(|rows|));
      ok := journal.PostUnlessEmpty(amount + limit > 0, ReserveKey(|rows|), ReserveMovements(|rows|, member, amount, limit), 0);
      if !ok { journal.Restore(before); return; }
      rows := rows + [Fresh(member, request, round, amount, limit, now)];
    }

    method Submit(cap: Option<Cap>, r: nat, now: int, open: bool) returns (ok: bool)
      modifies this
      ensures Contents() == MarkSubmitting(old(Contents()), cap, r, now, open)
      ensures ok == (rows != old(rows))
      ensures ok ==> r < |rows| && rows[r].state == Uncertain && rows[r].sentAt == Some(now)
    {
      if r >= |rows| || rows[r].state != Reserved || !open { return false; }
      var allowed := CheckFee(cap, now, rows[r].limit, Some(r));
      if !allowed { return false; }
      rows := rows[r := rows[r].(state := Uncertain, sentAt := Some(now))];
      return true;
    }

    method PayFees(r: nat, actual: nat) returns (ok: bool)
      requires KeysSound(journal.Contents()) && r < |rows|
      modifies journal
      ensures ok == Fees(old(Contents()), r, actual).Posted?
      ensures journal.Contents() == if ok then Fees(old(Contents()), r, actual).books else old(journal.Contents())
    {
      if actual > rows[r].limit { return false; }
      ok := journal.PostUnlessEmpty(rows[r].limit > 0, FeeKey(r), FeeMovements(r, rows[r].limit, actual), actual);
    }

    method AcceptWork(r: nat, benchmark: nat, actual: nat) returns (ok: bool)
      requires KeysSound(journal.Contents())
      modifies this, journal
      ensures Contents() == Accept(old(Contents()), r, benchmark, actual)
      ensures ok == (rows != old(rows))
      ensures ok ==> r < |rows| && rows[r].benchmark == Some(benchmark)
    {
      if r >= |rows| || rows[r].benchmark.Some? || rows[r].state != Uncertain { return false; }
      ok := PayFees(r, actual);
      if !ok { return; }
      rows := rows[r := rows[r].(state := Accepted, benchmark := Some(benchmark), fee := Some(actual))];
    }

    method Release(r: nat, rejected: bool, actual: nat) returns (ok: bool)
      requires KeysSound(journal.Contents())
      modifies this, journal
      ensures Contents() == ReleaseUnstarted(old(Contents()), r, rejected, actual)
      ensures ok == (rows != old(rows))
      ensures ok ==> r < |rows| && rows[r].outcome == Some(Returned) && !rows[r].slotHeld
    {
      if r >= |rows| || rows[r].state != (if rejected then Uncertain else Reserved) { return false; }
      if !rejected && actual > 0 { return false; }
      var before := journal.Contents();
      ok := PayFees(r, actual);
      if !ok { return; }
      ok := journal.PostUnlessEmpty(rows[r].amount > 0, ReturnKey(r), ReturnMovements(r, rows[r]), 0);
      if !ok { journal.Restore(before); return; }
      rows := rows[r := rows[r].(state := if rejected then Rejected else Cancelled, slotHeld := false, fee := Some(actual),
                                 outcome := Some(Returned))];
    }

    method ReleaseUnclaimed(r: nat, expired: bool) returns (ok: bool)
      requires KeysSound(journal.Contents())
      modifies this, journal
      ensures Contents() == ReleaseUnhanded(old(Contents()), r, expired)
      ensures ok == (rows != old(rows))
      ensures ok ==> r < |rows| && rows[r].outcome == Some(Returned)
    {
      if r >= |rows| || rows[r].state != Accepted || rows[r].benchmark.None? || !rows[r].slotHeld { return false; }
      if rows[r].handedOver || !expired { return false; }
      ok := journal.PostUnlessEmpty(rows[r].amount > 0, UnhandedKey(r), ReturnMovements(r, rows[r]), 1);
      if !ok { return; }
      rows := rows[r := rows[r].(state := Cancelled, slotHeld := false, outcome := Some(Returned))];
    }

    method HandOver(r: nat, member: string)
      modifies this
      ensures Contents() == Acknowledge(old(Contents()), r, member)
    {
      if r < |rows| && rows[r].member == member && !rows[r].handedOver && rows[r].state == Accepted {
        rows := rows[r := rows[r].(handedOver := true)];
      }
    }

    method Conclude(r: nat, state: State, height: nat)
      modifies this
      ensures Contents() == RecordOutcome(old(Contents()), r, state, height)
    {
      if r >= |rows| || state !in {Active, Failed, Expired} || rows[r].state != Accepted { return; }
      if state != Expired && !rows[r].handedOver { return; }
      rows := rows[r := rows[r].(state := state, slotHeld := false, activeAt := if state == Active then Some(height) else None)];
    }

    method FinalizeCollateral(r: nat, sealed: bool, upheld: bool) returns (ok: bool)
      requires KeysSound(journal.Contents())
      modifies this, journal
      ensures Contents() == Finalize(old(Contents()), r, sealed, upheld)
      ensures ok == (rows != old(rows))
      ensures ok ==> r < |rows| && rows[r].outcome == Some(Verdict(old(rows)[r], upheld))
      ensures ok ==> rows == old(rows)[r := old(rows)[r].(outcome := rows[r].outcome)]
      ensures ok && !old(rows)[r].handedOver ==> rows[r].outcome == Some(Returned)
      ensures ok && old(rows)[r].handedOver && old(rows)[r].activeAt.Some? && !upheld ==> rows[r].outcome == Some(Returned)
      ensures ok && old(rows)[r].handedOver && (old(rows)[r].activeAt.None? || upheld) ==> rows[r].outcome == Some(Forfeited)
    {
      if r >= |rows| || rows[r].outcome.Some? || !sealed { return false; }
      if rows[r].state !in {Active, Failed, Expired} || rows[r].slotHeld { return false; }
      if !rows[r].handedOver && rows[r].state != Expired { return false; }
      var x := rows[r];
      var outcome := if !x.handedOver then Returned else if x.activeAt.None? || upheld then Forfeited else Returned;
      var before := journal.Contents();
      if outcome == Forfeited { journal.Open(RoundPot(x.round)); }
      ok := journal.PostUnlessEmpty(x.amount > 0, FinalizeKey(r), FinalMovements(r, x, outcome), if upheld then 1 else 0);
      if !ok { journal.Restore(before); return; }
      rows := rows[r := x.(outcome := Some(outcome))];
    }
  }
}
