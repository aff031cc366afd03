/** What each operation on reservations does, case by case: exactly when it takes effect on a sound desk, how the row
    changes, and which balances move by how much. */
module EscrowLaws {
  import opened Basics
  import opened Ledger
  import opened Escrow

  // ------------------------------------------------------------------ counting

  /** Held slots, row by row. */
  lemma SlotsOfMore(rows: seq<Row>, x: Row, member: string)
    ensures Slots([], 0, member) == 0
    ensures Slots(rows + [x], |rows| + 1, member) == Slots(rows, |rows|, member) + if x.member == member && x.slotHeld then 1 else 0
  {
    SlotsPrefix(rows, x, |rows|, member);
  }

  lemma {:induction false} CommittedPrefix(rows: seq<Row>, x: Row, n: nat, since: int, now: int, exclude: Option<nat>)
    requires n <= |rows|
    ensures Committed(rows + [x], n, since, now, exclude) == Committed(rows, n, since, now, exclude)
  {
    if n > 0 { CommittedPrefix(rows, x, n - 1, since, now, exclude); }
  }

  /** Committed fee ceilings, row by row: what was sent inside the window, and what was reserved inside it and not sent. */
  lemma CommittedOfMore(rows: seq<Row>, x: Row, since: int, now: int, exclude: Option<nat>)
    ensures Committed([], 0, since, now, exclude) == 0
    ensures Committed(rows + [x], |rows| + 1, since, now, exclude) == Committed(rows, |rows|, since, now, exclude) +
      if exclude != Some(|rows|) && ((x.sentAt.Some? && since < x.sentAt.value <= now) || (x.state == Reserved && since < x.createdAt <= now))
      then x.limit else 0
  {
    CommittedPrefix(rows, x, |rows|, since, now, exclude);
  }

  /** A cap is recorded, and the ceiling fits the attempt and what the window has left. */
  predicate Affordable(rows: seq<Row>, cap: Option<Cap>, now: int, limit: nat, exclude: Option<nat>) {
    && cap.Some? && limit <= cap.value.feeAttempt
    && Committed(rows, |rows|, now - cap.value.window, now, exclude) + limit <= cap.value.feeWindow
  }

  // ------------------------------------------------------------------ what ends without money

  /** Committing to send needs reserved work and room in the window, and changes only the row's state and time. */
  lemma MarkLaw(d: Desk, cap: Option<Cap>, r: nat, now: int, open: bool)
    ensures var may := r < |d.rows| && d.rows[r].state == Reserved && open && Affordable(d.rows, cap, now, d.rows[r].limit, Some(r));
      MarkSubmitting(d, cap, r, now, open) ==
        if may then d.(rows := d.rows[r := d.rows[r].(state := Uncertain, sentAt := Some(now))]) else d
  {
  }

  /** The owner acknowledges accepted work, once. */
  lemma AcknowledgeLaw(d: Desk, r: nat, member: string)
    ensures var may := r < |d.rows| && d.rows[r].member == member && d.rows[r].state == Accepted && !d.rows[r].handedOver;
      Acknowledge(d, r, member) == if may then d.(rows := d.rows[r := d.rows[r].(handedOver := true)]) else d
  {
  }

  /** Accepted work gets one definitive outcome and frees its slot; only handed-over work can be active or have failed, and
      only active work has an activation height. */
  lemma OutcomeLaw(d: Desk, r: nat, state: State, height: nat)
    ensures var e := RecordOutcome(d, r, state, height);
      && (e != d ==>
            && r < |d.rows| && d.rows[r].state == Accepted && (state == Expired || (d.rows[r].handedOver && state in {Active, Failed}))
            && e == d.(rows := d.rows[r := d.rows[r].(state := state, slotHeld := false, activeAt := e.rows[r].activeAt)])
            && e.rows[r].activeAt == if state == Active then Some(height) else None)
      && (r < |d.rows| && d.rows[r].state == Accepted && (state == Expired || (d.rows[r].handedOver && state in {Active, Failed})) ==>
            e.rows[r].state == state && !e.rows[r].slotHeld)
  {
  }

  // ------------------------------------------------------------------ reserving

  /** Collateral leaves the member's funds, the fee ceiling the operator's fees. */
  ghost predicate Reserves(b: Books, c: Books, r: nat, member: string, amount: int, limit: int) {
    forall y :: Balance(c, y) == Balance(b, y) +
      if y == Available(member) then -amount else if y == Collateral(r) then amount
      else if y == ProtocolFees then -limit else if y == Commitment(r) then limit else 0
  }

  predicate Covers(b: Books, a: Account, amount: nat) {
    amount > 0 ==> a in b.balances && Balance(b, a) >= amount
  }

  lemma ReserveCovered(b: Books, r: nat, member: string, amount: nat, limit: nat)
    requires BooksSound(b) && Collateral(r) in b.balances && Commitment(r) in b.balances
    ensures (forall a :: ReserveNet(r, member, amount, limit, a) != 0 ==> a in b.balances) <==>
      (amount > 0 ==> Available(member) in b.balances) && (limit > 0 ==> ProtocolFees in b.balances)
    ensures (forall a: Account :: !a.External() ==> Balance(b, a) + ReserveNet(r, member, amount, limit, a) >= 0) <==>
      Balance(b, Available(member)) >= amount && Balance(b, ProtocolFees) >= limit
  {
    assert ReserveNet(r, member, amount, limit, Available(member)) == 0 - amount;
    assert ReserveNet(r, member, amount, limit, ProtocolFees) == 0 - limit;
    assert forall a: Account :: !a.External() ==> Balance(b, a) >= 0;
  }

  lemma ReservePosts(b: Books, r: nat, member: string, amount: nat, limit: nat)
    requires BooksSound(b) && ReserveKey(r) !in b.keys && amount + limit > 0 && Collateral(r) in b.balances && Commitment(r) in b.balances
    ensures Post(b, ReserveKey(r), ReserveMovements(r, member, amount, limit), 0).Posted? <==>
      Covers(b, Available(member), amount) && Covers(b, ProtocolFees, limit)
  {
    ReserveNets(r, member, amount, limit);
    PostsExactly(b, ReserveKey(r), ReserveMovements(r, member, amount, limit), 0);
    ReserveCovered(b, r, member, amount, limit);
    assert Net(ReserveMovements(r, member, amount, limit), Collateral(r)) == amount;
    assert Net(ReserveMovements(r, member, amount, limit), Commitment(r)) == limit;
  }

  lemma ReservePostsOn(d: Desk, member: string, amount: nat, limit: nat)
    requires BooksSound(d.books) && ReserveKey(|d.rows|) !in d.books.keys
    ensures PostIf(ReserveBooks(d), amount + limit > 0, ReserveKey(|d.rows|), ReserveMovements(|d.rows|, member, amount, limit), 0).Posted? <==>
      Covers(d.books, Available(member), amount) && Covers(d.books, ProtocolFees, limit)
  {
    var r := |d.rows|;
    OpenedKeeps(d.books, Collateral(r));
    OpenedKeeps(Opened(d.books, Collateral(r)), Commitment(r));
    if amount + limit > 0 { ReservePosts(ReserveBooks(d), r, member, amount, limit); }
  }

  /** Once per request, while offers are open, with fewer than two slots held, within the cap, and out of funds that cover
      collateral and ceiling. */
  predicate MayReserve(d: Desk, cap: Option<Cap>, member: string, request: nat, amount: nat, limit: nat, now: int, open: bool) {
    && (forall r :: 0 <= r < |d.rows| ==> !(d.rows[r].member == member && d.rows[r].request == request)) && open
    && Slots(d.rows, |d.rows|, member) <= 1 && Affordable(d.rows, cap, now, limit, None)
    && Covers(d.books, Available(member), amount) && Covers(d.books, ProtocolFees, limit)
  }

  lemma ReserveHappens(d: Desk, cap: Option<Cap>, member: string, request: nat, round: nat, amount: nat, limit: nat, now: int, open: bool)
    requires BooksSound(d.books) && ReserveKey(|d.rows|) !in d.books.keys
    ensures Reserve(d, cap, member, request, round, amount, limit, now, open).rows != d.rows <==>
      MayReserve(d, cap, member, request, amount, limit, now, open)
  {
    ReservePostsOn(d, member, amount, limit);
    assert Requested(d.rows, member, request) <==> !forall r :: 0 <= r < |d.rows| ==> !(d.rows[r].member == member && d.rows[r].request == request);
    assert FeeAllowed(d.rows, cap, now, limit, None) <==> Affordable(d.rows, cap, now, limit, None);
  }

  /** A reservation is made exactly when it may be; its row starts reserved, with a slot, nothing sent and nothing decided. */
  lemma ReserveLaw(d: Desk, cap: Option<Cap>, member: string, request: nat, round: nat, amount: nat, limit: nat, now: int, open: bool)
    requires DeskSound(d)
    ensures var e := Reserve(d, cap, member, request, round, amount, limit, now, open);
      && (e.rows != d.rows <==> MayReserve(d, cap, member, request, amount, limit, now, open)) && (e.rows == d.rows ==> e == d)
      && (e.rows != d.rows ==>
            && e.rows == d.rows + [Row(member, request, round, amount, limit, Reserved, true, None, None, None, false, None, now, None)]
            && Reserves(d.books, e.books, |d.rows|, member, amount, limit))
  {
    assert Escrow.Untouched(d.books, |d.rows|);
    ReserveHappens(d, cap, member, request, round, amount, limit, now, open);
    if Reserve(d, cap, member, request, round, amount, limit, now, open).rows != d.rows {
      ReserveMoves(d, member, amount, limit);
      ReserveNets(|d.rows|, member, amount, limit);
    }
  }

  // ------------------------------------------------------------------ fees

  /** The commitment closes: the charge leaves, the rest goes back to the operator's fees. */
  ghost predicate Charges(b: Books, c: Books, r: nat, limit: int, actual: int) {
    forall y :: Balance(c, y) == Balance(b, y) +
      if y == Commitment(r) then -limit else if y == ProtocolFees then limit - actual else if y == OutsideProtocol then actual else 0
  }

  predicate FeesOpen(b: Books) {
    ProtocolFees in b.balances && OutsideProtocol in b.balances
  }

  lemma FeesPost(d: Desk, r: nat, actual: nat)
    requires BooksSound(d.books) && r < |d.rows| && FeesOpen(d.books)
    requires Balance(d.books, Commitment(r)) == d.rows[r].limit && FeeKey(r) !in d.books.keys
    ensures Fees(d, r, actual).Posted? <==> actual <= d.rows[r].limit
  {
    var limit := d.rows[r].limit;
    if 0 < limit && actual <= limit {
      FeeNets(r, limit, actual);
      PostsExactly(d.books, FeeKey(r), FeeMovements(r, limit, actual), actual);
      assert Net(FeeMovements(r, limit, actual), Commitment(r)) != 0;
      assert Commitment(r) in d.books.balances;
    }
  }

  lemma FeesCharge(d: Desk, r: nat, actual: nat)
    requires DeskSound(d) && r < |d.rows| && d.rows[r].fee.None? && Fees(d, r, actual).Posted?
    ensures Charges(d.books, Fees(d, r, actual).books, r, d.rows[r].limit, actual)
  {
    FeesMove(d, r, actual);
    FeeNets(r, d.rows[r].limit, actual);
  }

  /** Work is accepted exactly when it was sent, is not accepted yet and cost no more than its ceiling. */
  lemma AcceptLaw(d: Desk, r: nat, benchmark: nat, actual: nat)
    requires DeskSound(d) && FeesOpen(d.books)
    ensures var e := Accept(d, r, benchmark, actual);
      && (e != d <==> r < |d.rows| && d.rows[r].state == Uncertain && actual <= d.rows[r].limit)
      && (e != d ==>
            && e.rows == d.rows[r := d.rows[r].(state := Accepted, benchmark := Some(benchmark), fee := Some(actual))]
            && Charges(d.books, e.books, r, d.rows[r].limit, actual))
  {
    if r < |d.rows| && d.rows[r].state == Uncertain {
      assert RowSound(d.books, r, d.rows[r]);
      FeesPost(d, r, actual);
      if actual <= d.rows[r].limit {
        FeesCharge(d, r, actual);
        assert Accept(d, r, benchmark, actual).rows[r].state == Accepted;
      }
    }
  }

  // ------------------------------------------------------------------ collateral

  lemma ReturnPosts(b: Books, r: nat, x: Row, to: Account, key: Key, details: int)
    requires BooksSound(b) && key !in b.keys && Balance(b, Collateral(r)) == x.amount && (to.Available? || to.RoundPot?)
    ensures PostIf(b, x.amount > 0, key, [Debit(Collateral(r), x.amount), Credit(to, x.amount)], details).Posted? <==>
      (x.amount > 0 ==> to in b.balances)
  {
    if x.amount > 0 {
      TransferPosts(b, Collateral(r), to, x.amount, key, details);
      assert Collateral(r) in b.balances;
    }
  }

  lemma EmptiedTransfers(b: Books, c: Books, r: nat, x: Row, to: Account, key: Key)
    requires Emptied(b, c, r, x, to, key)
    ensures Transfers(b, c, Collateral(r), to, x.amount)
  {
    MoveNets([Debit(Collateral(r), x.amount), Credit(to, x.amount)], Collateral(r), to, x.amount);
  }

  /** Accepted work that nobody took goes back whole. */
  lemma UnhandedLaw(d: Desk, r: nat, expired: bool)
    requires DeskSound(d)
    ensures var e := ReleaseUnhanded(d, r, expired);
      && (e != d <==>
            && r < |d.rows| && d.rows[r].state == Accepted && !d.rows[r].handedOver && expired
            && (d.rows[r].amount > 0 ==> Available(d.rows[r].member) in d.books.balances))
      && (e != d ==>
            && e.rows == d.rows[r := d.rows[r].(state := Cancelled, slotHeld := false, outcome := Some(Returned))]
            && Transfers(d.books, e.books, Collateral(r), Available(d.rows[r].member), d.rows[r].amount))
  {
    if r < |d.rows| && d.rows[r].state == Accepted && !d.rows[r].handedOver && expired {
      var x := d.rows[r];
      assert RowSound(d.books, r, x);
      ReturnPosts(d.books, r, x, Available(x.member), UnhandedKey(r), 1);
      var e := ReleaseUnhanded(d, r, expired);
      if e != d {
        CollateralMoves(d.books, r, x, Available(x.member), UnhandedKey(r), 1);
        EmptiedTransfers(d.books, e.books, r, x, Available(x.member), UnhandedKey(r));
      }
      assert PostIf(d.books, x.amount > 0, UnhandedKey(r), ReturnMovements(r, x), 1).Posted? ==> e.rows[r].state == Cancelled;
    }
  }

  // ------------------------------------------------------------------ the verdict

  /** A definitive outcome under a sealed report round, not finalized before; work that was never handed over must have
      expired. */
  predicate MayFinalize(d: Desk, r: nat, sealed: bool) {
    && r < |d.rows| && sealed && d.rows[r].outcome.None?
    && (d.rows[r].state == Expired || (d.rows[r].handedOver && d.rows[r].state in {Active, Failed}))
  }

  /** The collateral of row x goes to account `to`, and the row is marked with outcome v. */
  ghost predicate FinalizedTo(d: Desk, e: Desk, r: nat, v: Outcome, to: Account) {
    r < |d.rows| && e.rows == d.rows[r := d.rows[r].(outcome := Some(v))] && Transfers(d.books, e.books, Collateral(r), to, d.rows[r].amount)
  }

  lemma FinalizePosts(d: Desk, r: nat, v: Outcome, details: int)
    requires BooksSound(d.books) && r < |d.rows| && FinalizeKey(r) !in d.books.keys && Balance(d.books, Collateral(r)) == d.rows[r].amount
    ensures var x := d.rows[r];
      PostIf(FinalBooks(d.books, x, v), x.amount > 0, FinalizeKey(r), FinalMovements(r, x, v), details).Posted? <==>
        (v == Returned && x.amount > 0 ==> Available(x.member) in d.books.balances)
  {
    var x := d.rows[r];
    OpenedKeeps(d.books, RoundPot(x.round));
    ReturnPosts(FinalBooks(d.books, x, v), r, x, FinalTo(x, v), FinalizeKey(r), details);
  }

  lemma FinalizeGoes(d: Desk, r: nat, sealed: bool, upheld: bool)
    requires DeskSound(d) && Finalize(d, r, sealed, upheld) != d
    ensures var e, v := Finalize(d, r, sealed, upheld), Verdict(d.rows[r], upheld);
      FinalizedTo(d, e, r, v, FinalTo(d.rows[r], v))
  {
    var x, v := d.rows[r], Verdict(d.rows[r], upheld);
    assert RowSound(d.books, r, x);
    FinalMoves(d.books, r, x, v, if upheld then 1 else 0);
    EmptiedTransfers(d.books, Finalize(d, r, sealed, upheld).books, r, x, FinalTo(x, v), FinalizeKey(r));
  }

  /** Who gets the collateral in the end: the member for work that was never handed over, and for handed-over work that became
      active with no report upheld; the creation round's pot for handed-over work that never became active or has an upheld
      report.  Exactly the amount, exactly once. */
  lemma FinalizeLaw(d: Desk, r: nat, sealed: bool, upheld: bool)
    requires DeskSound(d)
    ensures var e := Finalize(d, r, sealed, upheld);
      && (e != d ==>
            && MayFinalize(d, r, sealed)
            && var x := d.rows[r];
            && (!x.handedOver ==> FinalizedTo(d, e, r, Returned, Available(x.member)))
            && (x.handedOver && x.activeAt.Some? && !upheld ==> FinalizedTo(d, e, r, Returned, Available(x.member)))
            && (x.handedOver && (x.activeAt.None? || upheld) ==> FinalizedTo(d, e, r, Forfeited, RoundPot(x.round))))
      && (MayFinalize(d, r, sealed) && Available(d.rows[r].member) in d.books.balances ==> e != d)
  {
    var e := Finalize(d, r, sealed, upheld);
    if MayFinalize(d, r, sealed) {
      var x, v := d.rows[r], Verdict(d.rows[r], upheld);
      assert RowSound(d.books, r, x);
      FinalizePosts(d, r, v, if upheld then 1 else 0);
      assert Available(x.member) in d.books.balances ==> e.rows[r].outcome.Some?;
    }
    if e != d { FinalizeGoes(d, r, sealed, upheld); }
  }

  // ------------------------------------------------------------------ work that never began

  /** Both at once: the commitment closes and the collateral returns. */
  ghost predicate Undoes(b: Books, c: Books, r: nat, x: Row, actual: int) {
    forall y :: Balance(c, y) == Balance(b, y) +
      if y == Commitment(r) then 0 - x.limit else if y == ProtocolFees then x.limit - actual else if y == OutsideProtocol then actual
      else if y == Collateral(r) then 0 - x.amount else if y == Available(x.member) then x.amount as int else 0
  }

  lemma UndoneBoth(b: Books, c: Books, e: Books, r: nat, x: Row, actual: int)
    requires Charges(b, c, r, x.limit, actual) && Transfers(c, e, Collateral(r), Available(x.member), x.amount)
    ensures Undoes(b, e, r, x, actual)
  {
  }

  predicate MayUndo(d: Desk, r: nat, rejected: bool, actual: nat) {
    && r < |d.rows| && d.rows[r].state == (if rejected then Uncertain else Reserved)
    && actual <= d.rows[r].limit && (!rejected ==> actual == 0)
    && (d.rows[r].amount > 0 ==> Available(d.rows[r].member) in d.books.balances)
  }

  lemma FeesSameAccounts(d: Desk, r: nat, actual: nat)
    requires BooksSound(d.books) && r < |d.rows| && FeeKey(r) !in d.books.keys && Fees(d, r, actual).Posted?
    ensures Fees(d, r, actual).books.balances.Keys == d.books.balances.Keys
  {
    if d.rows[r].limit > 0 { PostEffect(d.books, FeeKey(r), FeeMovements(r, d.rows[r].limit, actual), actual); }
  }

  lemma ReturnAfter(b: Books, c: Books, r: nat, x: Row, actual: int)
    requires Charges(b, c, r, x.limit, actual) && BooksSound(c) && Even(c) && ReturnKey(r) !in c.keys && Balance(c, Collateral(r)) == x.amount
    ensures var q := PostIf(c, x.amount > 0, ReturnKey(r), ReturnMovements(r, x), 0);
      && (q.Posted? <==> (x.amount > 0 ==> Available(x.member) in c.balances))
      && (q.Posted? ==> Undoes(b, q.books, r, x, actual))
  {
    ReturnPosts(c, r, x, Available(x.member), ReturnKey(r), 0);
    var q := PostIf(c, x.amount > 0, ReturnKey(r), ReturnMovements(r, x), 0);
    if q.Posted? {
      CollateralMoves(c, r, x, Available(x.member), ReturnKey(r), 0);
      EmptiedTransfers(c, q.books, r, x, Available(x.member), ReturnKey(r));
      UndoneBoth(b, c, q.books, r, x, actual);
    }
  }

  lemma UndoneReturn(d: Desk, r: nat, actual: nat)
    requires DeskSound(d) && r < |d.rows| && d.rows[r].state in {Reserved, Uncertain} && Fees(d, r, actual).Posted?
    ensures var x, c := d.rows[r], Fees(d, r, actual).books;
      var q := PostIf(c, x.amount > 0, ReturnKey(r), ReturnMovements(r, x), 0);
      && (q.Posted? <==> (x.amount > 0 ==> Available(x.member) in d.books.balances))
      && (q.Posted? ==> Undoes(d.books, q.books, r, x, actual))
  {
    var x, c := d.rows[r], Fees(d, r, actual).books;
    assert RowSound(d.books, r, x);
    FeesMove(d, r, actual);
    FeesCharge(d, r, actual);
    ChargedLeavesCollateral(d.books, c, r, x, actual);
    FeesSameAccounts(d, r, actual);
    ReturnAfter(d.books, c, r, x, actual);
  }

  /** Work that was never sent costs nothing; definitively rejected work may cost its fee; either way the slot is free and
      collateral and the unused ceiling are back. */
  lemma UnstartedLaw(d: Desk, r: nat, rejected: bool, actual: nat)
    requires DeskSound(d) && FeesOpen(d.books)
    ensures var e := ReleaseUnstarted(d, r, rejected, actual);
      && (e != d <==> MayUndo(d, r, rejected, actual))
      && (e != d ==>
            && r < |d.rows|
            && e.rows == d.rows[r := d.rows[r].(state := if rejected then Rejected else Cancelled, slotHeld := false,
                                                fee := Some(actual), outcome := Some(Returned))]
            && Undoes(d.books, e.books, r, d.rows[r], actual))
  {
    if r < |d.rows| && d.rows[r].state == (if rejected then Uncertain else Reserved) && (!rejected ==> actual == 0) {
      assert RowSound(d.books, r, d.rows[r]);
      FeesPost(d, r, actual);
      if actual <= d.rows[r].limit {
        UndoneReturn(d, r, actual);
        assert MayUndo(d, r, rejected, actual) ==> ReleaseUnstarted(d, r, rejected, actual).rows[r].outcome.Some?;
      }
    }
  }
}
