/** What each payment operation does, case by case: exactly when it takes effect on sound tables, which rows it changes and
    how, and which balances move by how much. */
module PaymentLaws {
  import opened Basics
  import opened Ledger
  import opened Escrow
  import opened Payments

  // ------------------------------------------------------------------ gas

  /** The committed gas, send by send. */
  lemma GasOfMore(t: Till, x: Attempt, y: Topup, since: int, now: int)
    ensures Gas(t.(attempts := [], topups := []), since, now) == 0
    ensures Gas(t.(attempts := t.attempts + [x]), since, now) == Gas(t, since, now) + if since < x.sentAt <= now then x.limit else 0
    ensures Gas(t.(topups := t.topups + [y]), since, now) == Gas(t, since, now) + if since < y.sentAt <= now then y.limit else 0
  {
    AttemptGasSame(t.attempts + [x], t.attempts, |t.attempts|, since, now);
    TopupGasSame(t.topups + [y], t.topups, |t.topups|, since, now);
  }

  predicate Affordable(t: Till, cap: Option<Cap>, now: int, limit: nat) {
    cap.Some? && 0 < limit <= cap.value.gasAttempt && Gas(t, now - cap.value.window, now) + limit <= cap.value.gasWindow
  }

  predicate FreeNonce(t: Till, nonce: nat) {
    && (forall a :: 0 <= a < |t.attempts| ==> t.attempts[a].nonce != nonce)
    && (forall k :: 0 <= k < |t.topups| ==> t.topups[k].nonce != nonce)
  }

  // ------------------------------------------------------------------ withdrawals

  function Funds(member: Option<string>): Account {
    match member
    case Some(m) => Available(m)
    case None => Operator(TIG)
  }

  /** Once per request, while none of the member's is pending, out of funds that cover it, for the operator with the
      reserve on top. */
  predicate MayAsk(t: Till, member: Option<string>, request: nat, amount: nat, reserve: nat, allowed: bool) {
    && amount > 0 && allowed
    && (forall w :: 0 <= w < |t.withdrawals| && t.withdrawals[w].member == member ==>
          t.withdrawals[w].request != request && t.withdrawals[w].stage in {Paid, Declined, Withdrawn})
    && Funds(member) in t.books.balances && Balance(t.books, Funds(member)) >= amount
    && (member.None? ==> Balance(t.books, Operator(TIG)) >= amount + reserve)
  }

  lemma NonePending(t: Till, member: Option<string>, request: nat)
    ensures !AskedBefore(t, member, request) && !HasPending(t, member) <==>
      forall w :: 0 <= w < |t.withdrawals| && t.withdrawals[w].member == member ==>
        t.withdrawals[w].request != request && t.withdrawals[w].stage in {Paid, Declined, Withdrawn}
  {
  }

  lemma AskPosts(b: Books, w: nat, member: Option<string>, amount: nat, key: Key)
    requires BooksSound(b) && key !in b.keys && amount > 0
    ensures Post(Opened(b, Pending(w)), key, TransferMovements(Funds(member), Pending(w), amount), 0).Posted? <==>
      Funds(member) in b.balances && Balance(b, Funds(member)) >= amount
  {
    OpenedKeeps(b, Pending(w));
    TransferPosts(Opened(b, Pending(w)), Funds(member), Pending(w), amount, key, 0);
  }

  lemma AskHappens(t: Till, member: Option<string>, request: nat, amount: nat, reserve: nat, allowed: bool)
    requires BooksSound(t.books) && RequestKey(|t.withdrawals|) !in t.books.keys
    ensures Ask(t, member, request, amount, reserve, allowed) != t <==> MayAsk(t, member, request, amount, reserve, allowed)
  {
    var w, x := |t.withdrawals|, Withdrawal(member, request, amount, reserve, Asked, None);
    NonePending(t, member, request);
    assert Source(x) == Funds(member);
    if amount > 0 { AskPosts(t.books, w, member, amount, RequestKey(w)); }
  }

  lemma AskLaw(t: Till, member: Option<string>, request: nat, amount: nat, reserve: nat, allowed: bool)
    requires TillSound(t)
    ensures var u := Ask(t, member, request, amount, reserve, allowed);
      && (u != t <==> MayAsk(t, member, request, amount, reserve, allowed))
      && (u != t ==>
            && u == t.(books := u.books, withdrawals := t.withdrawals + [Withdrawal(member, request, amount, reserve, Asked, None)])
            && Transfers(t.books, u.books, Funds(member), Pending(|t.withdrawals|), amount))
  {
    assert WithdrawalHeld(t, |t.withdrawals|);
    AskHappens(t, member, request, amount, reserve, allowed);
    if Ask(t, member, request, amount, reserve, allowed) != t { AskShift(t, member, request, amount, reserve, allowed); }
  }

  /** Approval is for what was asked, and changes nothing but the stage. */
  lemma ApproveLaw(t: Till, w: nat, allowed: bool)
    ensures w < |t.withdrawals| && t.withdrawals[w].stage == Asked && allowed ==>
      Approve(t, w, allowed) == t.(withdrawals := t.withdrawals[w := t.withdrawals[w].(stage := Approved)])
    ensures !(w < |t.withdrawals| && t.withdrawals[w].stage == Asked && allowed) ==> Approve(t, w, allowed) == t
  {
  }

  predicate MayRelease(t: Till, w: nat) {
    w < |t.withdrawals| && t.withdrawals[w].stage in {Asked, Approved} && Funds(t.withdrawals[w].member) in t.books.balances
  }

  lemma ReleaseHappens(t: Till, w: nat, byOwner: bool)
    requires BooksSound(t.books) && w < |t.withdrawals| && ReleaseKey(w) !in t.books.keys && t.withdrawals[w].stage in {Asked, Approved}
    requires Balance(t.books, Pending(w)) == t.withdrawals[w].amount > 0
    ensures ReleaseHold(t, w, byOwner) != t <==> MayRelease(t, w)
  {
    var x := t.withdrawals[w];
    assert Source(x) == Funds(x.member);
    TransferPosts(t.books, Pending(w), Source(x), x.amount, ReleaseKey(w), if byOwner then 1 else 0);
    assert ReleaseHold(t, w, byOwner) != t ==> ReleaseHold(t, w, byOwner).withdrawals[w].stage in {Withdrawn, Declined};
  }

  /** A hold returns whole to where it came from, only before a send, and then the withdrawal is over. */
  lemma ReleaseLaw(t: Till, w: nat, byOwner: bool)
    requires TillSound(t)
    ensures var u := ReleaseHold(t, w, byOwner);
      && (u != t <==> MayRelease(t, w))
      && (u != t ==>
            && u == t.(books := u.books, withdrawals := t.withdrawals[w := t.withdrawals[w].(stage := if byOwner then Withdrawn else Declined)])
            && Transfers(t.books, u.books, Pending(w), Funds(t.withdrawals[w].member), t.withdrawals[w].amount))
  {
    if w < |t.withdrawals| && t.withdrawals[w].stage in {Asked, Approved} {
      assert WithdrawalHeld(t, w);
      ReleaseHappens(t, w, byOwner);
      if ReleaseHold(t, w, byOwner) != t { ReleaseShift(t, w, byOwner); }
    }
  }

  /** For approved work, once per request, within both gas limits, with a free nonce, out of native funds that cover the
      ceiling, and for the operator with the reserve still there. */
  predicate MayBegin(t: Till, cap: Option<Cap>, w: nat, request: nat, nonce: nat, limit: nat, now: int, allowed: bool) {
    && w < |t.withdrawals| && t.withdrawals[w].stage == Approved && allowed
    && (forall i :: 0 <= i < |t.attempts| ==> !(t.attempts[i].w == w && t.attempts[i].request == request))
    && (t.withdrawals[w].member.None? ==> Balance(t.books, Operator(TIG)) >= t.withdrawals[w].reserve)
    && Affordable(t, cap, now, limit) && FreeNonce(t, nonce)
    && Operator(Native) in t.books.balances && Balance(t.books, Operator(Native)) >= limit
  }

  lemma BeginHappens(t: Till, cap: Option<Cap>, w: nat, request: nat, nonce: nat, limit: nat, now: int, allowed: bool)
    requires BooksSound(t.books) && GasKey(|t.attempts|) !in t.books.keys
    ensures Begin(t, cap, w, request, nonce, limit, now, allowed) != t <==> MayBegin(t, cap, w, request, nonce, limit, now, allowed)
  {
    var a := |t.attempts|;
    OpenedKeeps(t.books, SendGas(a));
    assert NonceTaken(t, nonce) <==> !FreeNonce(t, nonce);
    assert GasAllowed(t, cap, now, limit) <==> Affordable(t, cap, now, limit);
    if limit > 0 { TransferPosts(Opened(t.books, SendGas(a)), Operator(Native), SendGas(a), limit, GasKey(a), 0); }
  }

  lemma BeginLaw(t: Till, cap: Option<Cap>, w: nat, request: nat, nonce: nat, limit: nat, now: int, allowed: bool)
    requires TillSound(t)
    ensures var u, a := Begin(t, cap, w, request, nonce, limit, now, allowed), |t.attempts|;
      && (u != t <==> MayBegin(t, cap, w, request, nonce, limit, now, allowed))
      && (u != t ==>
            && w < |t.withdrawals|
            && u == t.(books := u.books, attempts := t.attempts + [Attempt(w, request, nonce, limit, now, None)],
                       withdrawals := t.withdrawals[w := t.withdrawals[w].(stage := Unsettled)])
            && Transfers(t.books, u.books, Operator(Native), SendGas(a), limit))
  {
    assert AttemptHeld(t, |t.attempts|);
    BeginHappens(t, cap, w, request, nonce, limit, now, allowed);
    if Begin(t, cap, w, request, nonce, limit, now, allowed) != t { BeginShift(t, cap, w, request, nonce, limit, now, allowed); }
  }

  // ------------------------------------------------------------------ the outcome of a send

  /** What a finalized transaction with this sender and nonce says about a send: a failed one without a token event did
      nothing, a successful one with exactly the frozen transfer paid, a successful empty one used the nonce up; anything
      else decides nothing. */
  predicate Judges(c: Chained, event: Option<EventId>, exact: bool, empty: bool, fate: Fate) {
    match fate
    case Paying => c.successful && event.Some? && exact
    case Reverted => !c.successful && event.None?
    case Voided => c.successful && event.None? && empty
  }

  lemma JudgedOnce(c: Chained, event: Option<EventId>, exact: bool, empty: bool)
    ensures forall fate :: FateOf(c.successful, event, exact, empty) == Some(fate) <==> Judges(c, event, exact, empty, fate)
  {
  }

  /** The transaction is recorded already with these facts, or is new and no other of its sender has its nonce. */
  predicate Agrees(t: Till, tx: nat, c: Chained) {
    && (tx in t.chain ==> t.chain[tx] == c)
    && (tx !in t.chain ==> forall y :: y in t.chain ==> t.chain[y].sender != c.sender || t.chain[y].nonce != c.nonce)
  }

  /** The gas hold empties into the fee and its rest; what is paid leaves the withdrawal's hold and custody. */
  ghost predicate Spends(b: Books, c: Books, a: nat, w: nat, limit: int, fee: int, paid: int) {
    forall y :: Balance(c, y) == Balance(b, y) +
      if y == SendGas(a) then -limit else if y == Operator(Native) then limit - fee else if y == Outside(Native) then fee
      else if y == Pending(w) then -paid else if y == Outside(TIG) then paid else 0
  }

  /** The accounts every outcome may need. */
  predicate CustodyOpen(b: Books) {
    {Operator(Native), Operator(TIG), Outside(Native), Outside(TIG)} <= b.balances.Keys
  }

  lemma OutcomePosts(b: Books, a: nat, x: Attempt, w: Withdrawal, fate: Fate, fee: int, tx: int)
    requires BooksSound(b) && OutcomeKey(a) !in b.keys && CustodyOpen(b)
    requires Balance(b, SendGas(a)) == x.limit > 0 && Balance(b, Pending(x.w)) == w.amount > 0
    ensures Post(b, OutcomeKey(a), OutcomeMovements(a, x, w, fate, fee), tx).Posted? <==> Balance(b, Operator(Native)) + x.limit >= fee
  {
    var ms := OutcomeMovements(a, x, w, fate, fee);
    OutcomeNets(a, x, w, fate, fee);
    PostsExactly(b, OutcomeKey(a), ms, tx);
    assert Net(ms, SendGas(a)) != 0;
    assert SendGas(a) in b.balances && Pending(x.w) in b.balances;
  }

  /** A send whose outcome is not known yet. */
  predicate Unresolved(t: Till, a: nat) {
    a < |t.attempts| && t.attempts[a].fate.None?
  }

  predicate FreshTx(t: Till, tx: nat) {
    forall s :: s in t.payments ==> t.payments[s].tx != tx
  }

  /** A token event of the transaction that paid no withdrawal. */
  predicate FreshEvent(t: Till, tx: nat, event: Option<EventId>) {
    event.Some? && event.value.0 == tx && forall w :: 0 <= w < |t.withdrawals| ==> t.withdrawals[w].event != event
  }

  lemma ConcludeHappens(t: Till, a: nat, tx: nat, fate: Fate, event: Option<EventId>, fee: nat)
    requires TillSound(t) && CustodyOpen(t.books)
    ensures Conclude(t, a, tx, fate, event, fee) != t <==>
      && Unresolved(t, a) && FreshTx(t, tx) && (fate == Paying ==> FreshEvent(t, tx, event))
      && Balance(t.books, Operator(Native)) + t.attempts[a].limit >= fee
  {
    if Unresolved(t, a) {
      var x := t.attempts[a];
      assert Open(t, a, x.w);
      assert AttemptHeld(t, a) && WithdrawalHeld(t, x.w);
      assert Exists(t, ByAttempt(a)) && !Done(t, ByAttempt(a));
      OutcomePosts(t.books, a, x, t.withdrawals[x.w], fate, fee, tx);
      assert FreshTx(t, tx) <==> !TxUsed(t, tx);
    }
  }

  /** The attempt has its outcome; the withdrawal is paid by the event, or may be tried again; one payment is recorded. */
  ghost predicate SettledBy(t: Till, u: Till, a: nat, tx: nat, fee: nat, fate: Fate, event: Option<EventId>) {
    && Unresolved(t, a) && t.attempts[a].w < |t.withdrawals|
    && var w, x := t.attempts[a].w, t.withdrawals[t.attempts[a].w];
    && u.attempts == t.attempts[a := t.attempts[a].(fate := Some(fate))]
    && u.withdrawals == t.withdrawals[w := if fate == Paying then x.(stage := Paid, event := event) else x.(stage := Approved)]
    && u.payments == t.payments[ByAttempt(a) := Payment(tx, event, fee)] && u.topups == t.topups && u.credits == t.credits
    && Spends(t.books, u.books, a, w, t.attempts[a].limit, fee, if fate == Paying then x.amount else 0)
  }

  lemma ConcludeLaw(t: Till, a: nat, tx: nat, fate: Fate, event: Option<EventId>, fee: nat)
    requires Held(t)
    ensures var u := Conclude(t, a, tx, fate, event, fee);
      && (u.attempts == t.attempts ==> u == t) && u.chain == t.chain
      && (u.attempts != t.attempts ==> SettledBy(t, u, a, tx, fee, fate, event))
  {
    var u := Conclude(t, a, tx, fate, event, fee);
    if u != t {
      ConcludeSettles(t, a, tx, fate, event, fee);
      assert u.attempts[a] != t.attempts[a];
    }
  }

  lemma RememberedHeld(t: Till, tx: nat, c: Chained)
    requires TillSound(t)
    ensures Held(Remembered(t, tx, c)) && Remembered(t, tx, c) == t.(chain := Remembered(t, tx, c).chain)
  {
    RememberedFine(t, tx, c);
  }

  lemma SettledFrom(t: Till, v: Till, u: Till, a: nat, tx: nat, fee: nat, fate: Fate, event: Option<EventId>)
    requires v == t.(chain := v.chain) && SettledBy(v, u, a, tx, fee, fate, event)
    ensures SettledBy(t, u, a, tx, fee, fate, event)
  {
  }

  /** The transaction is this attempt's and its evidence can be kept. */
  predicate Belongs(t: Till, a: nat, tx: nat, c: Chained) {
    a < |t.attempts| && c.sender == 0 && c.nonce == t.attempts[a].nonce && Agrees(t, tx, c)
  }

  /** What becomes of a till whose evidence was kept: nothing more, or the send is settled as the transaction says. */
  ghost predicate Decided(t: Till, u: Till, a: nat, tx: nat, c: Chained, event: Option<EventId>, exact: bool, empty: bool) {
    || u == t.(chain := u.chain)
    || exists fate :: Judges(c, event, exact, empty, fate) && SettledBy(t, u, a, tx, c.fee, fate, if fate == Paying then event else None)
  }

  lemma ConcludeDecides(t: Till, v: Till, a: nat, tx: nat, c: Chained, event: Option<EventId>, exact: bool, empty: bool, fate: Fate)
    requires Held(v) && v == t.(chain := v.chain) && Judges(c, event, exact, empty, fate)
    ensures var u := Conclude(v, a, tx, fate, if fate == Paying then event else None, c.fee);
      Decided(t, u, a, tx, c, event, exact, empty) && u.chain == v.chain
  {
    var e := if fate == Paying then event else None;
    var u := Conclude(v, a, tx, fate, e, c.fee);
    ConcludeLaw(v, a, tx, fate, e, c.fee);
    if u.attempts != v.attempts { SettledFrom(t, v, u, a, tx, c.fee, fate, e); }
  }

  /** Reconciling a send changes nothing but the chain evidence, or settles it as the transaction says. */
  lemma ReconcileLaw(t: Till, a: nat, tx: nat, c: Chained, event: Option<EventId>, exact: bool, empty: bool)
    requires TillSound(t)
    ensures var u := Reconcile(t, a, tx, c, event, exact, empty);
      && Decided(t, u, a, tx, c, event, exact, empty)
      && u.chain == (if Belongs(t, a, tx, c) then t.chain[tx := c] else t.chain)
      && (u != t ==> Belongs(t, a, tx, c))
  {
    if Belongs(t, a, tx, c) {
      RememberedHeld(t, tx, c);
      JudgedOnce(c, event, exact, empty);
      var fate := FateOf(c.successful, event, exact, empty);
      if fate.Some? { ConcludeDecides(t, Remembered(t, tx, c), a, tx, c, event, exact, empty, fate.value); }
    }
  }

  /** And exactly when it settles: the attempt is open, the transaction has its sender and nonce and agrees with what is
      recorded, it decides, and neither it nor its event was used before. */
  lemma ReconcileHappens(t: Till, a: nat, tx: nat, c: Chained, event: Option<EventId>, exact: bool, empty: bool)
    requires TillSound(t) && CustodyOpen(t.books)
    ensures Reconcile(t, a, tx, c, event, exact, empty).attempts != t.attempts <==>
      && Belongs(t, a, tx, c) && Unresolved(t, a)
      && (exists fate :: Judges(c, event, exact, empty, fate) && (fate == Paying ==> FreshEvent(t, tx, event)))
      && FreshTx(t, tx) && Balance(t.books, Operator(Native)) + t.attempts[a].limit >= c.fee
  {
    if Belongs(t, a, tx, c) {
      JudgedOnce(c, event, exact, empty);
      RememberedFine(t, tx, c);
      var v, fate := Remembered(t, tx, c), FateOf(c.successful, event, exact, empty);
      if fate.Some? {
        var e := if fate.value == Paying then event else None;
        ConcludeHappens(v, a, tx, fate.value, e, c.fee);
        ConcludeLaw(v, a, tx, fate.value, e, c.fee);
        assert Judges(c, event, exact, empty, fate.value);
      }
    }
  }

  /** A payment that somebody else sent: exactly when the successful transaction holds exactly the frozen transfer and
      neither was used before; it costs custody no gas. */
  lemma SponsoredLaw(t: Till, a: nat, tx: nat, c: Chained, event: EventId, exact: bool)
    requires TillSound(t) && CustodyOpen(t.books)
    ensures var u := ReconcileSponsored(t, a, tx, c, event, exact);
      && (u != t <==>
            && Unresolved(t, a) && c.sender != 0 && c.successful && exact && Agrees(t, tx, c)
            && FreshTx(t, tx) && FreshEvent(t, tx, Some(event)))
      && (u != t ==> SettledBy(t, u, a, tx, 0, Paying, Some(event)) && u.chain == t.chain[tx := c])
  {
    if c.sender != 0 && c.successful && exact && Agrees(t, tx, c) {
      var v := Remembered(t, tx, c);
      RememberedFine(t, tx, c);
      ConcludeHappens(v, a, tx, Paying, Some(event), 0);
      SponsoredSettles(t, v, a, tx, event);
    }
  }

  lemma SponsoredSettles(t: Till, v: Till, a: nat, tx: nat, event: EventId)
    requires Held(v) && v == t.(chain := v.chain)
    ensures var u := Conclude(v, a, tx, Paying, Some(event), 0);
      u.chain == v.chain && (u != v ==> SettledBy(t, u, a, tx, 0, Paying, Some(event)) && u.attempts != t.attempts)
  {
    var u := Conclude(v, a, tx, Paying, Some(event), 0);
    ConcludeLaw(v, a, tx, Paying, Some(event), 0);
    if u.attempts != v.attempts { SettledFrom(t, v, u, a, tx, 0, Paying, Some(event)); }
  }

  // ------------------------------------------------------------------ top-ups

  /** Amount and gas ceiling move from the operator into the top-up's own holds. */
  ghost predicate SetsAside(b: Books, c: Books, k: nat, amount: int, limit: int) {
    forall y :: Balance(c, y) == Balance(b, y) +
      if y == Operator(TIG) then -amount else if y == TopupHold(k, TIG) then amount
      else if y == Operator(Native) then -limit else if y == TopupHold(k, Native) then limit else 0
  }

  /** Once per request, within both gas limits, with a free nonce, out of operator funds that cover both. */
  predicate MayTopUp(t: Till, cap: Option<Cap>, request: nat, amount: nat, limit: nat, nonce: nat, now: int, allowed: bool) {
    && amount > 0 && allowed && (forall k :: 0 <= k < |t.topups| ==> t.topups[k].request != request)
    && Affordable(t, cap, now, limit) && FreeNonce(t, nonce)
    && Operator(TIG) in t.books.balances && Balance(t.books, Operator(TIG)) >= amount
    && Operator(Native) in t.books.balances && Balance(t.books, Operator(Native)) >= limit
  }

  lemma TopupCovered(b: Books, k: nat, amount: nat, limit: nat)
    requires BooksSound(b) && amount > 0 && limit > 0 && TopupHold(k, TIG) in b.balances && TopupHold(k, Native) in b.balances
    ensures (forall a :: TopupNet(k, amount, limit, a) != 0 ==> a in b.balances) <==>
      Operator(TIG) in b.balances && Operator(Native) in b.balances
    ensures (forall a: Account :: !a.External() ==> Balance(b, a) + TopupNet(k, amount, limit, a) >= 0) <==>
      Balance(b, Operator(TIG)) >= amount && Balance(b, Operator(Native)) >= limit
  {
    assert TopupNet(k, amount, limit, Operator(TIG)) == 0 - amount && TopupNet(k, amount, limit, Operator(Native)) == 0 - limit;
    assert forall a: Account :: !a.External() ==> Balance(b, a) >= 0;
  }

  lemma TopupPostsOn(b: Books, k: nat, amount: nat, limit: nat)
    requires BooksSound(b) && TopupKey(k) !in b.keys && amount > 0 && limit > 0
    requires TopupHold(k, TIG) in b.balances && TopupHold(k, Native) in b.balances
    ensures Post(b, TopupKey(k), TopupMovements(k, amount, limit), 0).Posted? <==>
      && Operator(TIG) in b.balances && Balance(b, Operator(TIG)) >= amount
      && Operator(Native) in b.balances && Balance(b, Operator(Native)) >= limit
  {
    TopupNets(k, amount, limit);
    PostsExactly(b, TopupKey(k), TopupMovements(k, amount, limit), 0);
    TopupCovered(b, k, amount, limit);
    assert Net(TopupMovements(k, amount, limit), Operator(TIG)) != 0;
  }

  lemma TopupPosts(t: Till, amount: nat, limit: nat)
    requires BooksSound(t.books) && TopupKey(|t.topups|) !in t.books.keys && amount > 0 && limit > 0
    ensures Post(HoldBooks(t), TopupKey(|t.topups|), TopupMovements(|t.topups|, amount, limit), 0).Posted? <==>
      && Operator(TIG) in t.books.balances && Balance(t.books, Operator(TIG)) >= amount
      && Operator(Native) in t.books.balances && Balance(t.books, Operator(Native)) >= limit
  {
    OpenedKeeps(t.books, TopupHold(|t.topups|, TIG));
    OpenedKeeps(Opened(t.books, TopupHold(|t.topups|, TIG)), TopupHold(|t.topups|, Native));
    TopupPostsOn(HoldBooks(t), |t.topups|, amount, limit);
  }

  lemma TopUpLaw(t: Till, cap: Option<Cap>, request: nat, amount: nat, limit: nat, nonce: nat, now: int, allowed: bool)
    requires TillSound(t)
    ensures var u := TopUp(t, cap, request, amount, limit, nonce, now, allowed);
      && (u != t <==> MayTopUp(t, cap, request, amount, limit, nonce, now, allowed))
      && (u != t ==>
            && u == t.(books := u.books, topups := t.topups + [Topup(request, amount, limit, nonce, now, Sending)])
            && SetsAside(t.books, u.books, |t.topups|, amount, limit))
  {
    assert NonceTaken(t, nonce) <==> !FreeNonce(t, nonce);
    assert GasAllowed(t, cap, now, limit) <==> Affordable(t, cap, now, limit);
    assert TopupHeld(t, |t.topups|);
    if amount > 0 && limit > 0 { TopupPosts(t, amount, limit); }
    if TopUp(t, cap, request, amount, limit, nonce, now, allowed) != t { TopUpBooks(t, cap, request, amount, limit, nonce, now, allowed); }
  }

  predicate InFlight(t: Till, k: nat) {
    k < |t.topups| && t.topups[k].stage == Sending
  }

  /** Both holds empty: the amount out of custody or back to the operator, the gas into the fee and its rest. */
  ghost predicate Cashes(b: Books, c: Books, k: nat, amount: int, limit: int, fee: int, left: bool) {
    forall y :: Balance(c, y) == Balance(b, y) +
      if y == TopupHold(k, TIG) then -amount else if y == TopupHold(k, Native) then -limit
      else if y == Operator(TIG) then (if left then 0 else amount) else if y == Outside(TIG) then (if left then amount else 0)
      else if y == Operator(Native) then limit - fee else if y == Outside(Native) then fee else 0
  }

  /** The top-up awaits the protocol, failed or was cancelled; one payment is recorded. */
  ghost predicate CashedBy(t: Till, u: Till, k: nat, tx: nat, fee: nat, fate: Fate, event: Option<EventId>) {
    && InFlight(t, k)
    && u.topups == t.topups[k := t.topups[k].(stage := match fate case Paying => Awaiting case Reverted => Lost case Voided => Dropped)]
    && u.payments == t.payments[ByTopup(k) := Payment(tx, event, fee)]
    && u.withdrawals == t.withdrawals && u.attempts == t.attempts && u.credits == t.credits
    && Cashes(t.books, u.books, k, t.topups[k].amount, t.topups[k].limit, fee, fate == Paying)
  }

  lemma ConcludeTopupLaw(t: Till, k: nat, tx: nat, fate: Fate, event: Option<EventId>, fee: nat)
    requires Held(t)
    ensures var u := ConcludeTopup(t, k, tx, fate, event, fee);
      && (u.topups == t.topups ==> u == t) && u.chain == t.chain
      && (u.topups != t.topups ==> CashedBy(t, u, k, tx, fee, fate, event))
  {
    var u := ConcludeTopup(t, k, tx, fate, event, fee);
    if u != t {
      ConcludeTopupBooks(t, k, tx, fate, event, fee);
      assert u.topups[k] != t.topups[k];
    }
  }

  predicate BelongsToTopup(t: Till, k: nat, tx: nat, c: Chained) {
    k < |t.topups| && c.sender == 0 && c.nonce == t.topups[k].nonce && Agrees(t, tx, c)
  }

  ghost predicate TopupDecided(t: Till, u: Till, k: nat, tx: nat, c: Chained, event: Option<EventId>, exact: bool, empty: bool) {
    || u == t.(chain := u.chain)
    || exists fate :: Judges(c, event, exact, empty, fate) && CashedBy(t, u, k, tx, c.fee, fate, if fate == Paying then event else None)
  }

  lemma CashedFrom(t: Till, v: Till, u: Till, k: nat, tx: nat, fee: nat, fate: Fate, event: Option<EventId>)
    requires v == t.(chain := v.chain) && CashedBy(v, u, k, tx, fee, fate, event)
    ensures CashedBy(t, u, k, tx, fee, fate, event)
  {
  }

  lemma ConcludeTopupDecides(t: Till, v: Till, k: nat, tx: nat, c: Chained, event: Option<EventId>, exact: bool, empty: bool, fate: Fate)
    requires Held(v) && v == t.(chain := v.chain) && Judges(c, event, exact, empty, fate)
    ensures var u := ConcludeTopup(v, k, tx, fate, if fate == Paying then event else None, c.fee);
      TopupDecided(t, u, k, tx, c, event, exact, empty) && u.chain == v.chain
  {
    var e := if fate == Paying then event else None;
    var u := ConcludeTopup(v, k, tx, fate, e, c.fee);
    ConcludeTopupLaw(v, k, tx, fate, e, c.fee);
    if u.topups != v.topups { CashedFrom(t, v, u, k, tx, c.fee, fate, e); }
  }

  /** Reconciling a top-up changes nothing but the chain evidence, or settles it as the transaction says. */
  lemma ReconcileTopupLaw(t: Till, k: nat, tx: nat, c: Chained, event: Option<EventId>, exact: bool, empty: bool)
    requires TillSound(t)
    ensures var u := ReconcileTopup(t, k, tx, c, event, exact, empty);
      && TopupDecided(t, u, k, tx, c, event, exact, empty)
      && u.chain == (if BelongsToTopup(t, k, tx, c) then t.chain[tx := c] else t.chain)
      && (u != t ==> BelongsToTopup(t, k, tx, c))
  {
    if BelongsToTopup(t, k, tx, c) {
      RememberedHeld(t, tx, c);
      JudgedOnce(c, event, exact, empty);
      var fate := FateOf(c.successful, event, exact, empty);
      if fate.Some? { ConcludeTopupDecides(t, Remembered(t, tx, c), k, tx, c, event, exact, empty, fate.value); }
    }
  }

  lemma CashCovered(b: Books, k: nat, x: Topup, left: bool, fee: int)
    requires BooksSound(b) && CustodyOpen(b)
    requires Balance(b, TopupHold(k, TIG)) == x.amount > 0 && Balance(b, TopupHold(k, Native)) == x.limit > 0
    ensures forall a :: CashNet(k, x, left, fee, a) != 0 ==> a in b.balances
    ensures (forall a: Account :: !a.External() ==> Balance(b, a) + CashNet(k, x, left, fee, a) >= 0) <==>
      Balance(b, Operator(Native)) + x.limit >= fee
  {
    assert TopupHold(k, TIG) in b.balances && TopupHold(k, Native) in b.balances;
    assert CashNet(k, x, left, fee, Operator(Native)) == x.limit - fee;
    assert forall a: Account :: !a.External() ==> Balance(b, a) >= 0;
  }

  lemma CashPosts(b: Books, k: nat, x: Topup, left: bool, fee: int, tx: int)
    requires BooksSound(b) && CashKey(k) !in b.keys && CustodyOpen(b)
    requires Balance(b, TopupHold(k, TIG)) == x.amount > 0 && Balance(b, TopupHold(k, Native)) == x.limit > 0
    ensures Post(b, CashKey(k), CashMovements(k, x, left, fee), tx).Posted? <==> Balance(b, Operator(Native)) + x.limit >= fee
  {
    CashNets(k, x, left, fee);
    PostsExactly(b, CashKey(k), CashMovements(k, x, left, fee), tx);
    CashCovered(b, k, x, left, fee);
    assert Net(CashMovements(k, x, left, fee), TopupHold(k, TIG)) != 0;
  }

  lemma ConcludeTopupHappens(t: Till, k: nat, tx: nat, fate: Fate, event: Option<EventId>, fee: nat)
    requires TillSound(t) && CustodyOpen(t.books)
    ensures ConcludeTopup(t, k, tx, fate, event, fee) != t <==>
      && InFlight(t, k) && FreshTx(t, tx) && (fate == Paying ==> event.Some? && event.value.0 == tx)
      && Balance(t.books, Operator(Native)) + t.topups[k].limit >= fee
  {
    if InFlight(t, k) {
      assert TopupHeld(t, k);
      assert Exists(t, ByTopup(k)) && !Done(t, ByTopup(k));
      CashPosts(t.books, k, t.topups[k], fate == Paying, fee, tx);
      assert FreshTx(t, tx) <==> !TxUsed(t, tx);
    }
  }

  lemma ReconcileTopupHappens(t: Till, k: nat, tx: nat, c: Chained, event: Option<EventId>, exact: bool, empty: bool)
    requires TillSound(t) && CustodyOpen(t.books)
    ensures ReconcileTopup(t, k, tx, c, event, exact, empty).topups != t.topups <==>
      && BelongsToTopup(t, k, tx, c) && InFlight(t, k)
      && (exists fate :: Judges(c, event, exact, empty, fate) && (fate == Paying ==> event.value.0 == tx))
      && FreshTx(t, tx) && Balance(t.books, Operator(Native)) + t.topups[k].limit >= c.fee
  {
    if BelongsToTopup(t, k, tx, c) {
      JudgedOnce(c, event, exact, empty);
      RememberedFine(t, tx, c);
      var v, fate := Remembered(t, tx, c), FateOf(c.successful, event, exact, empty);
      if fate.Some? {
        var e := if fate.value == Paying then event else None;
        ConcludeTopupHappens(v, k, tx, fate.value, e, c.fee);
        ConcludeTopupLaw(v, k, tx, fate.value, e, c.fee);
        assert Judges(c, event, exact, empty, fate.value);
      }
    }
  }

  /** The protocol's confirmation credits a top-up that left custody, once, with its full amount. */
  lemma CreditLaw(t: Till, k: nat, topup: nat, confirmed: bool)
    requires TillSound(t)
    ensures var u := CreditTopup(t, k, topup, confirmed);
      && (u != t <==>
            && k < |t.topups| && t.topups[k].stage == Awaiting && confirmed && topup !in t.credits
            && OutsideProtocol in t.books.balances && ProtocolFees in t.books.balances)
      && (u != t ==>
            && u == t.(books := u.books, credits := t.credits[topup := k], topups := t.topups[k := t.topups[k].(stage := Credited)])
            && Transfers(t.books, u.books, OutsideProtocol, ProtocolFees, t.topups[k].amount))
  {
    if k < |t.topups| && t.topups[k].stage == Awaiting {
      assert TopupHeld(t, k);
      TransferPosts(t.books, OutsideProtocol, ProtocolFees, t.topups[k].amount, CreditKey(k), topup);
      if CreditTopup(t, k, topup, confirmed) != t { CreditBooks(t, k, topup, confirmed); }
    }
  }
}
