/** The whole pool: reservations, rounds and payments over one journal and one clock, and what holds in every run. */
module Treasury {
  import opened Basics
  import opened Ledger
  import E = Escrow
  import R = Rounds
  import P = Payments
  import Rewards

  /** What came into custody outside recorded transfers: `opening` in TIG, `gas` in the native asset.  The spending cap is
      fixed over a run. */
  datatype Pool = Pool(v: R.Vault, till: P.Till, clock: int, cap: Option<E.Cap>, opening: nat, gas: nat)

  datatype Event =
    | Opens(account: Account)
    | Baseline(asset: Asset, amount: nat)
    | Funds(tx: nat, amount: nat)
    | Block(k: nat)
    | Seals(k: nat, complete: bool)
    | Reserves(now: int, member: string, request: nat, amount: nat, limit: nat, open: bool)
    | Submits(now: int, r: nat, open: bool)
    | Accepts(r: nat, benchmark: nat, actual: nat)
    | Unstarted(r: nat, rejected: bool, actual: nat)
    | Unhanded(r: nat, expired: bool)
    | HandsOver(r: nat, member: string)
    | Concludes(r: nat, state: E.State, height: nat)
    | Finalizes(r: nat, clear: bool, upheld: bool)
    | Declares(k: nat, expected: nat, withheld: nat)
    | Receives(e: EventId, amount: nat, owner: Option<string>)
    | Attributes(e: EventId, owner: Option<string>)
    | Rewarded(k: nat, e: EventId)
    | Reimburses(k: nat)
    | Settles(k: nat, entries: seq<Rewards.Entry>, covered: bool)
    | Asks(owner: Option<string>, request: nat, amount: nat, reserve: nat, allowed: bool)
    | Approves(w: nat, allowed: bool)
    | Releases(w: nat, byOwner: bool)
    | Begins(now: int, w: nat, request: nat, nonce: nat, limit: nat, allowed: bool)
    | Reconciles(a: nat, tx: nat, c: P.Chained, event: Option<EventId>, exact: bool, empty: bool)
    | Sponsors(a: nat, tx: nat, c: P.Chained, paidBy: EventId, exact: bool)
    | TopsUp(now: int, request: nat, amount: nat, limit: nat, nonce: nat, allowed: bool)
    | ReconcilesTopup(t: nat, tx: nat, c: P.Chained, event: Option<EventId>, exact: bool, empty: bool)
    | Credits(t: nat, topup: nat, confirmed: bool)

  predicate Timed(e: Event) {
    e.Reserves? || e.Submits? || e.Begins? || e.TopsUp?
  }

  // ------------------------------------------------------------------ steps

  function WithVault(p: Pool, w: R.Vault): Pool {
    p.(v := w, till := p.till.(books := w.desk.books))
  }

  function WithDesk(p: Pool, d: E.Desk): Pool {
    WithVault(p, p.v.(desk := d))
  }

  function WithTill(p: Pool, u: P.Till): Pool {
    p.(till := u, v := R.WithBooks(p.v, u.books))
  }

  function WithBooks(p: Pool, c: Books): Pool {
    WithVault(p, R.WithBooks(p.v, c))
  }

  function Richer(p: Pool, asset: Asset, amount: nat): Pool {
    if asset == TIG then p.(opening := p.opening + amount) else p.(gas := p.gas + amount)
  }

  /** Value from outside becomes the operator's, once per key. */
  ghost function Enters(p: Pool, key: Key, asset: Asset, amount: nat): Pool
    requires KeysSound(p.till.books)
  {
    if key in p.till.books.keys then p
    else
      var q := PostIf(p.till.books, amount > 0, key, TransferMovements(Outside(asset), Operator(asset), amount), 0);
      if q.Refused? then p else Richer(WithBooks(p, q.books), asset, amount)
  }

  predicate ForDesk(e: Event) {
    e.Accepts? || e.Unstarted? || e.Unhanded? || e.HandsOver? || e.Concludes? || e.Finalizes?
  }

  ghost function DeskStep(p: Pool, e: Event): E.Desk
    requires KeysSound(p.v.desk.books) && ForDesk(e)
  {
    var d := p.v.desk;
    match e
    case Accepts(r, benchmark, actual) => E.Accept(d, r, benchmark, actual)
    case Unstarted(r, rejected, actual) => E.ReleaseUnstarted(d, r, rejected, actual)
    case Unhanded(r, expired) => E.ReleaseUnhanded(d, r, expired)
    case HandsOver(r, member) => E.Acknowledge(d, r, member)
    case Concludes(r, state, height) => E.RecordOutcome(d, r, state, height)
    case Finalizes(r, clear, upheld) => R.FinalizeIn(p.v, r, clear, upheld).desk
  }

  predicate ForRounds(e: Event) {
    e.Block? || e.Seals? || e.Declares? || e.Receives? || e.Attributes? || e.Rewarded? || e.Reimburses? || e.Settles?
  }

  ghost function RoundStep(v: R.Vault, e: Event): R.Vault
    requires KeysSound(v.desk.books) && ForRounds(e)
  {
    match e
    case Block(k) => R.Observe(v, k)
    case Seals(k, complete) => R.Seal(v, k, complete)
    case Declares(k, expected, withheld) => R.Declare(v, k, expected, withheld)
    case Receives(x, amount, owner) => R.Receive(v, x, amount, owner)
    case Attributes(x, owner) => R.AttributeReviewed(v, x, owner)
    case Rewarded(k, x) => R.AttributeReceipt(v, k, x)
    case Reimburses(k) => R.Reimburse(v, k)
    case Settles(k, entries, covered) => if Rewards.IsMapping(entries) then R.Settle(v, k, entries, covered) else v
  }

  predicate ForTill(e: Event) {
    e.Asks? || e.Approves? || e.Releases? || e.Reconciles? || e.Sponsors? || e.ReconcilesTopup? || e.Credits?
  }

  ghost function TillStep(t: P.Till, e: Event): P.Till
    requires KeysSound(t.books) && ForTill(e)
  {
    match e
    case Asks(owner, request, amount, reserve, allowed) => P.Ask(t, owner, request, amount, reserve, allowed)
    case Approves(w, allowed) => P.Approve(t, w, allowed)
    case Releases(w, byOwner) => P.ReleaseHold(t, w, byOwner)
    case Reconciles(a, tx, c, event, exact, empty) => P.Reconcile(t, a, tx, c, event, exact, empty)
    case Sponsors(a, tx, c, event, exact) => P.ReconcileSponsored(t, a, tx, c, event, exact)
    case ReconcilesTopup(k, tx, c, event, exact, empty) => P.ReconcileTopup(t, k, tx, c, event, exact, empty)
    case Credits(k, topup, confirmed) => P.CreditTopup(t, k, topup, confirmed)
  }

  ghost function TimedStep(p: Pool, e: Event): Pool
    requires KeysSound(p.v.desk.books) && KeysSound(p.till.books) && Timed(e)
  {
    match e
    case Reserves(now, member, request, amount, limit, open) =>
      WithVault(p, R.ReserveNext(p.v, p.cap, member, request, amount, limit, now, open))
    case Submits(now, r, open) => WithDesk(p, E.MarkSubmitting(p.v.desk, p.cap, r, now, open))
    case Begins(now, w, request, nonce, limit, allowed) =>
      WithTill(p, P.Begin(p.till, p.cap, w, request, nonce, limit, now, allowed))
    case TopsUp(now, request, amount, limit, nonce, allowed) =>
      WithTill(p, P.TopUp(p.till, p.cap, request, amount, limit, nonce, now, allowed))
  }

  ghost function CommonStep(p: Pool, e: Event): Pool
    requires KeysSound(p.till.books) && (e.Opens? || e.Baseline? || e.Funds?)
  {
    match e
    case Opens(account) => if account.Owner() == Common || account.Owner() == Chain then WithBooks(p, Opened(p.till.books, account)) else p
    case Baseline(asset, amount) => Enters(p, OpeningKey(asset), asset, amount)
    case Funds(tx, amount) => Enters(p, FundingKey(tx), Native, amount)
  }

  /** One committed transaction, or two where the original uses two; the clock never runs backwards. */
  ghost function Step(p: Pool, e: Event): Pool
    requires KeysSound(p.v.desk.books) && KeysSound(p.till.books)
  {
    if Timed(e) then (if e.now < p.clock then p else TimedStep(p.(clock := e.now), e))
    else if ForDesk(e) then WithDesk(p, DeskStep(p, e))
    else if ForRounds(e) then WithVault(p, RoundStep(p.v, e))
    else if ForTill(e) then WithTill(p, TillStep(p.till, e))
    else CommonStep(p, e)
  }

  // ------------------------------------------------------------------ the invariant

  /** Custody's TIG came from the opening and recorded transfers, and left by paid withdrawals and top-ups. */
  ghost predicate Conserved(p: Pool) {
    Balance(p.till.books, Outside(TIG)) == P.Outgone(p.till) - R.Incoming(p.v.t) - p.opening
  }

  ghost predicate Windowed(p: Pool) {
    && E.WithinWindow(p.v.desk.rows, p.cap) && E.Timely(p.v.desk.rows, p.clock)
    && P.GasWithin(p.till, p.cap) && P.GasTimely(p.till, p.clock)
  }

  ghost predicate PoolSound(p: Pool) {
    R.VaultSound(p.v) && P.TillSound(p.till) && p.v.desk.books == p.till.books && Windowed(p) && Conserved(p)
  }

  function Start(cap: Option<E.Cap>): Pool {
    Pool(R.Vault(E.Desk(EMPTY, []), R.Tables(0, {}, map[], [], map[], map[], map[], map[])),
         P.Till(EMPTY, [], [], [], map[], map[], map[]), 0, cap, 0, 0)
  }

  lemma EmptySound()
    ensures BooksSound(EMPTY) && Even(EMPTY)
  {
    forall asset, place ensures PlaceTotal(EMPTY.balances, asset, place) == 0 {}
  }

  lemma StartVault(cap: Option<E.Cap>)
    ensures R.VaultSound(Start(cap).v)
  {
    EmptySound();
    assert forall k: nat :: R.PotSound(Start(cap).v, k);
    assert forall e: EventId :: R.EventSound(Start(cap).v, e);
  }

  lemma StartTill(cap: Option<E.Cap>)
    ensures P.TillSound(Start(cap).till)
  {
    EmptySound();
    assert forall w: nat :: P.WithdrawalHeld(Start(cap).till, w);
    assert forall a: nat :: P.AttemptHeld(Start(cap).till, a);
    assert forall k: nat :: P.TopupHeld(Start(cap).till, k);
  }

  lemma StartSound(cap: Option<E.Cap>)
    ensures PoolSound(Start(cap))
  {
    StartVault(cap);
    StartTill(cap);
  }

  // ------------------------------------------------------------------ every step keeps it

  /** A vault step keeps the pool sound if it keeps the vault and the fee window, and only banks transfers. */
  lemma VaultStepKeeps(p: Pool, w: R.Vault)
    requires PoolSound(p) && R.VaultSound(w) && R.Banked(p.v, w)
    requires E.WithinWindow(w.desk.rows, p.cap) && E.Timely(w.desk.rows, p.clock)
    ensures PoolSound(WithVault(p, w))
  {
    P.OthersKeepTill(p.till, w.desk.books);
    P.NoSendStaysWithin(p.till, p.till.(books := w.desk.books), p.cap, p.clock);
  }

  lemma KeptKeeps(p: Pool, w: R.Vault)
    requires PoolSound(p) && R.Kept(p.v, w)
    ensures PoolSound(WithVault(p, w))
  {
    VaultStepKeeps(p, w);
  }

  lemma DeskStepKeeps(p: Pool, d: E.Desk)
    requires PoolSound(p) && E.DeskSound(d) && E.Steps(p.v.desk, d) && E.WithinWindow(d.rows, p.cap) && E.Timely(d.rows, p.clock)
    requires forall r :: |p.v.desk.rows| <= r < |d.rows| ==> d.rows[r].round == p.v.t.newest
    ensures PoolSound(WithDesk(p, d))
  {
    R.DeskStepKeeps(p.v, d);
    R.AsideBanks(p.v, p.v.(desk := d));
    VaultStepKeeps(p, p.v.(desk := d));
  }

  lemma ProperKeeps(p: Pool, d: E.Desk)
    requires PoolSound(p) && E.Proper(p.v.desk, d)
    ensures PoolSound(WithDesk(p, d))
  {
    E.OthersKeepWindow(p.v.desk.rows, d.rows, p.cap, p.clock);
    DeskStepKeeps(p, d);
  }

  lemma TillStepKeeps(p: Pool, u: P.Till)
    requires PoolSound(p) && P.Fine(p.till, u) && P.GasWithin(u, p.cap) && P.GasTimely(u, p.clock)
    ensures PoolSound(WithTill(p, u))
  {
    R.OthersKeepVault(p.v, u.books);
  }

  lemma QuietKeeps(p: Pool, u: P.Till)
    requires PoolSound(p) && P.Quietly(p.till, u)
    ensures PoolSound(WithTill(p, u))
  {
    P.NoSendStaysWithin(p.till, u, p.cap, p.clock);
    TillStepKeeps(p, u);
  }

  lemma SendKeeps(p: Pool, u: P.Till, limit: nat)
    requires PoolSound(p) && P.MaySend(p.till, u, p.cap, limit, p.clock)
    ensures PoolSound(WithTill(p, u))
  {
    P.GasStaysWithin(p.till, u, p.cap, limit, p.clock);
    TillStepKeeps(p, u);
  }

  lemma GrownKeeps(p: Pool, d: E.Desk)
    requires PoolSound(p) && E.Grown(p.v.desk, d, p.v.t.newest)
    ensures PoolSound(WithDesk(p, d))
  {
    E.OthersKeepWindow(p.v.desk.rows, d.rows, p.cap, p.clock);
    DeskStepKeeps(p, d);
  }

  lemma KeepsReserves(p: Pool, member: string, request: nat, amount: nat, limit: nat, open: bool)
    requires PoolSound(p)
    ensures PoolSound(WithVault(p, R.ReserveNext(p.v, p.cap, member, request, amount, limit, p.clock, open)))
  {
    E.ReserveGrown(p.v.desk, p.cap, member, request, p.v.t.newest, amount, limit, p.clock, open && p.v.t.newest > 0);
    GrownKeeps(p, R.ReserveNext(p.v, p.cap, member, request, amount, limit, p.clock, open).desk);
  }

  lemma KeepsSubmits(p: Pool, r: nat, open: bool)
    requires PoolSound(p)
    ensures PoolSound(WithDesk(p, E.MarkSubmitting(p.v.desk, p.cap, r, p.clock, open)))
  {
    var d := E.MarkSubmitting(p.v.desk, p.cap, r, p.clock, open);
    E.KeepsMark(p.v.desk, p.cap, r, p.clock, open);
    E.MarkSteps(p.v.desk, p.cap, r, p.clock, open);
    if r < |p.v.desk.rows| { assert E.RowSound(p.v.desk.books, r, p.v.desk.rows[r]); }
    E.MarkKeepsWindow(p.v.desk, p.cap, r, p.clock, open);
    DeskStepKeeps(p, d);
  }

  lemma CommonKeeps(p: Pool, c: Books, opening: nat)
    requires PoolSound(p) && BooksSound(c) && Even(c)
    requires Leaves(p.till.books, c, Work) && Leaves(p.till.books, c, Pots) && Leaves(p.till.books, c, Events) && Leaves(p.till.books, c, Payments)
    requires Balance(c, Outside(TIG)) + opening == Balance(p.till.books, Outside(TIG)) + p.opening
    ensures PoolSound(WithBooks(p, c).(opening := opening))
  {
    R.OthersKeepVault(p.v, c);
    P.OthersKeepTill(p.till, c);
    P.NoSendStaysWithin(p.till, p.till.(books := c), p.cap, p.clock);
  }

  lemma KeepsOpens(p: Pool, a: Account)
    requires PoolSound(p)
    ensures PoolSound(WithBooks(p, Opened(p.till.books, a)))
  {
    OpenMoves(p.till.books, a);
    CommonKeeps(p, Opened(p.till.books, a), p.opening);
  }

  lemma EnteredKeeps(p: Pool, c: Books, key: Key, asset: Asset, amount: nat)
    requires PoolSound(p) && key.Owner() == Common && Shift(p.till.books, c, Outside(asset), Operator(asset), amount, key)
    ensures PoolSound(Richer(WithBooks(p, c), asset, amount))
  {
    var b := p.till.books;
    ShiftSpares(b, c, Outside(asset), Operator(asset), amount, key, Work);
    ShiftSpares(b, c, Outside(asset), Operator(asset), amount, key, Pots);
    ShiftSpares(b, c, Outside(asset), Operator(asset), amount, key, Events);
    ShiftSpares(b, c, Outside(asset), Operator(asset), amount, key, Payments);
    CommonKeeps(p, c, p.opening + if asset == TIG then amount else 0);
  }

  lemma KeepsEnters(p: Pool, key: Key, asset: Asset, amount: nat)
    requires PoolSound(p) && key.Owner() == Common
    ensures PoolSound(Enters(p, key, asset, amount))
  {
    if Enters(p, key, asset, amount) != p {
      PostShift(p.till.books, Outside(asset), Operator(asset), amount, key, 0);
      EnteredKeeps(p, PostIf(p.till.books, amount > 0, key, TransferMovements(Outside(asset), Operator(asset), amount), 0).books, key, asset, amount);
    }
  }

  /** What comes in from outside is the operator's, whole and once per key, and is counted as such. */
  lemma EntersLaw(p: Pool, key: Key, asset: Asset, amount: nat)
    requires PoolSound(p) && amount > 0
    ensures var q := Enters(p, key, asset, amount);
      && (q != p <==> key !in p.till.books.keys && Outside(asset) in p.till.books.balances && Operator(asset) in p.till.books.balances)
      && (q != p ==>
            && Transfers(p.till.books, q.till.books, Outside(asset), Operator(asset), amount)
            && q.opening == p.opening + (if asset == TIG then amount else 0) && q.gas == p.gas + (if asset == Native then amount else 0))
  {
    if key !in p.till.books.keys {
      TransferPosts(p.till.books, Outside(asset), Operator(asset), amount, key, 0);
      if Enters(p, key, asset, amount) != p { PostShift(p.till.books, Outside(asset), Operator(asset), amount, key, 0); }
    }
  }

  lemma KeepsDeskSteps(p: Pool, e: Event)
    requires PoolSound(p) && ForDesk(e)
    ensures E.Proper(p.v.desk, DeskStep(p, e))
  {
    var d := p.v.desk;
    match e {
      case Accepts(r, benchmark, actual) => E.AcceptProper(d, r, benchmark, actual);
      case Unstarted(r, rejected, actual) => E.UnstartedProper(d, r, rejected, actual);
      case Unhanded(r, expired) => E.UnhandedProper(d, r, expired);
      case HandsOver(r, member) => E.AcknowledgeProper(d, r, member);
      case Concludes(r, state, height) => E.OutcomeProper(d, r, state, height);
      case Finalizes(r, clear, upheld) => E.FinalizeProper(d, r, clear && r < |d.rows| && d.rows[r].round in p.v.t.seals, upheld);
    }
  }

  lemma KeepsRoundSteps(v: R.Vault, e: Event)
    requires R.VaultSound(v) && ForRounds(e)
    ensures R.Kept(v, RoundStep(v, e))
  {
    match e {
      case Block(k) => R.ObserveKept(v, k, false);
      case Seals(k, complete) => R.ObserveKept(v, k, complete);
      case Declares(k, expected, withheld) => R.DeclareKept(v, k, expected, withheld);
      case Receives(x, amount, owner) => R.ReceiveKept(v, x, amount, owner);
      case Attributes(x, owner) => R.ReviewedKept(v, x, owner);
      case Rewarded(k, x) => R.ReceiptKept(v, k, x);
      case Reimburses(k) => R.ReimburseKept(v, k);
      case Settles(k, entries, covered) =>
        if Rewards.IsMapping(entries) { R.SettleKept(v, k, entries, covered); } else { R.AsideBanks(v, v); }
    }
  }

  lemma KeepsTillSteps(t: P.Till, e: Event)
    requires P.TillSound(t) && ForTill(e)
    ensures P.Quietly(t, TillStep(t, e))
  {
    match e {
      case Asks(owner, request, amount, reserve, allowed) => P.AsksQuietly(t, owner, request, amount, reserve, allowed);
      case Approves(w, allowed) => P.DecidesQuietly(t, w, allowed, false);
      case Releases(w, byOwner) => P.DecidesQuietly(t, w, false, byOwner);
      case Reconciles(a, tx, c, event, exact, empty) => P.ReconcilesQuietly(t, a, tx, c, event, exact, empty);
      case Sponsors(a, tx, c, event, exact) => P.SponsorsQuietly(t, a, tx, c, event, exact);
      case ReconcilesTopup(k, tx, c, event, exact, empty) => P.ReconcilesTopupQuietly(t, k, tx, c, event, exact, empty);
      case Credits(k, topup, confirmed) => P.CreditsQuietly(t, k, topup, confirmed);
    }
  }

  lemma ClockKeeps(p: Pool, now: int)
    requires PoolSound(p) && now >= p.clock
    ensures PoolSound(p.(clock := now))
  {
  }

  lemma KeepsBegins(p: Pool, w: nat, request: nat, nonce: nat, limit: nat, allowed: bool)
    requires PoolSound(p)
    ensures PoolSound(WithTill(p, P.Begin(p.till, p.cap, w, request, nonce, limit, p.clock, allowed)))
  {
    P.BeginMaySend(p.till, p.cap, w, request, nonce, limit, p.clock, allowed);
    SendKeeps(p, P.Begin(p.till, p.cap, w, request, nonce, limit, p.clock, allowed), limit);
  }

  lemma KeepsTopsUp(p: Pool, request: nat, amount: nat, limit: nat, nonce: nat, allowed: bool)
    requires PoolSound(p)
    ensures PoolSound(WithTill(p, P.TopUp(p.till, p.cap, request, amount, limit, nonce, p.clock, allowed)))
  {
    P.TopUpMaySend(p.till, p.cap, request, amount, limit, nonce, p.clock, allowed);
    SendKeeps(p, P.TopUp(p.till, p.cap, request, amount, limit, nonce, p.clock, allowed), limit);
  }

  lemma KeepsTimed(p: Pool, e: Event)
    requires PoolSound(p) && Timed(e) && e.now == p.clock
    ensures PoolSound(TimedStep(p, e))
  {
    match e {
      case Reserves(now, member, request, amount, limit, open) => KeepsReserves(p, member, request, amount, limit, open);
      case Submits(now, r, open) => KeepsSubmits(p, r, open);
      case Begins(now, w, request, nonce, limit, allowed) => KeepsBegins(p, w, request, nonce, limit, allowed);
      case TopsUp(now, request, amount, limit, nonce, allowed) => KeepsTopsUp(p, request, amount, limit, nonce, allowed);
    }
  }

  lemma DeskStepsKeep(p: Pool, e: Event)
    requires PoolSound(p) && ForDesk(e)
    ensures PoolSound(WithDesk(p, DeskStep(p, e)))
  {
    KeepsDeskSteps(p, e);
    ProperKeeps(p, DeskStep(p, e));
  }

  lemma RoundStepsKeep(p: Pool, e: Event)
    requires PoolSound(p) && ForRounds(e)
    ensures PoolSound(WithVault(p, RoundStep(p.v, e)))
  {
    KeepsRoundSteps(p.v, e);
    KeptKeeps(p, RoundStep(p.v, e));
  }

  lemma TillStepsKeep(p: Pool, e: Event)
    requires PoolSound(p) && ForTill(e)
    ensures PoolSound(WithTill(p, TillStep(p.till, e)))
  {
    KeepsTillSteps(p.till, e);
    QuietKeeps(p, TillStep(p.till, e));
  }

  lemma CommonStepKeeps(p: Pool, e: Event)
    requires PoolSound(p) && (e.Opens? || e.Baseline? || e.Funds?)
    ensures PoolSound(CommonStep(p, e))
  {
    match e
    case Opens(account) => KeepsOpens(p, account);
    case Baseline(asset, amount) => KeepsEnters(p, OpeningKey(asset), asset, amount);
    case Funds(tx, amount) => KeepsEnters(p, FundingKey(tx), Native, amount);
  }

  lemma TimedStepsKeep(p: Pool, e: Event)
    requires PoolSound(p) && Timed(e) && e.now >= p.clock
    ensures PoolSound(TimedStep(p.(clock := e.now), e))
  {
    ClockKeeps(p, e.now);
    KeepsTimed(p.(clock := e.now), e);
  }

  /** Which of the partial steps an event takes. */
  lemma TimedIs(p: Pool, e: Event)
    requires KeysSound(p.v.desk.books) && KeysSound(p.till.books) && Timed(e)
    ensures Step(p, e) == if e.now < p.clock then p else TimedStep(p.(clock := e.now), e)
  {
  }

  lemma DeskIs(p: Pool, e: Event)
    requires KeysSound(p.v.desk.books) && KeysSound(p.till.books) && ForDesk(e)
    ensures Step(p, e) == WithDesk(p, DeskStep(p, e))
  {
  }

  lemma RoundIs(p: Pool, e: Event)
    requires KeysSound(p.v.desk.books) && KeysSound(p.till.books) && ForRounds(e)
    ensures Step(p, e) == WithVault(p, RoundStep(p.v, e))
  {
  }

  lemma TillIs(p: Pool, e: Event)
    requires KeysSound(p.v.desk.books) && KeysSound(p.till.books) && ForTill(e)
    ensures Step(p, e) == WithTill(p, TillStep(p.till, e))
  {
  }

  lemma OpensIs(p: Pool, e: Event)
    requires KeysSound(p.v.desk.books) && KeysSound(p.till.books) && e.Opens?
    ensures Step(p, e) == CommonStep(p, e)
  {
  }

  lemma FundsIs(p: Pool, e: Event)
    requires KeysSound(p.v.desk.books) && KeysSound(p.till.books) && e.Funds?
    ensures Step(p, e) == CommonStep(p, e)
  {
  }

  lemma CommonIs(p: Pool, e: Event)
    requires KeysSound(p.v.desk.books) && KeysSound(p.till.books) && (e.Opens? || e.Baseline? || e.Funds?)
    ensures Step(p, e) == CommonStep(p, e)
  {
    if e.Opens? { OpensIs(p, e); }
    if e.Funds? { FundsIs(p, e); }
  }

  lemma StepKeeps(p: Pool, e: Event)
    requires PoolSound(p)
    ensures PoolSound(Step(p, e))
  {
    var q := Step(p, e);
    assert PoolSound(q) by {
      if Timed(e) {
        TimedIs(p, e);
        if e.now >= p.clock { TimedStepsKeep(p, e); }
      } else if ForDesk(e) {
        DeskIs(p, e);
        DeskStepsKeep(p, e);
      } else if ForRounds(e) {
        RoundIs(p, e);
        RoundStepsKeep(p, e);
      } else if ForTill(e) {
        TillIs(p, e);
        TillStepsKeep(p, e);
      } else {
        CommonIs(p, e);
        CommonStepKeeps(p, e);
      }
    }
  }

  lemma StepKeepsCap(p: Pool, e: Event)
    requires PoolSound(p)
    ensures Step(p, e).cap == p.cap
  {
  }

  /** The state after any sequence of operations, under a fixed spending cap. */
  ghost function Run(cap: Option<E.Cap>, es: seq<Event>): (p: Pool)
    ensures PoolSound(p) && p.cap == cap
    decreases |es|
  {
    if es == [] then
      StartSound(cap);
      Start(cap)
    else
      var q := Run(cap, es[..|es| - 1]);
      StepKeeps(q, es[|es| - 1]);
      StepKeepsCap(q, es[|es| - 1]);
      Step(q, es[|es| - 1])
  }

  /** What the start has and every step from a sound state keeps, every run has. */
  lemma {:induction false} RunInduction(cap: Option<E.Cap>, es: seq<Event>, holds: Pool -> bool)
    requires holds(Start(cap))
    requires forall p, e :: PoolSound(p) && holds(p) ==> holds(Step(p, e))
    ensures holds(Run(cap, es))
    decreases |es|
  {
    if es != [] { RunInduction(cap, es[..|es| - 1], holds); }
  }

  lemma RunOneMore(cap: Option<E.Cap>, es: seq<Event>, e: Event)
    ensures Run(cap, es + [e]) == Step(Run(cap, es), e)
  {
    assert (es + [e])[..|es|] == es;
  }

  // ------------------------------------------------------------------ theorems

  /** In every run: balances are the sums of their entries, only external accounts can be negative, and what the pool
      holds at each place is what came in from outside there. */
  lemma BooksTheorem(cap: Option<E.Cap>, es: seq<Event>)
    ensures var b := Run(cap, es).till.books;
      && Audited(b) && Covered(b)
      && Backing(b, TIG, Custody) == -Balance(b, Outside(TIG))
      && Backing(b, Native, Custody) == -Balance(b, Outside(Native))
      && Backing(b, TIG, Protocol) == -Balance(b, OutsideProtocol)
  {
    var b := Run(cap, es).till.books;
    BackingIsMinusOutside(b, TIG, Custody);
    BackingIsMinusOutside(b, Native, Custody);
    BackingIsMinusOutside(b, TIG, Protocol);
  }

  /** In every run custody holds exactly its opening, plus every recorded transfer, minus paid withdrawals and the
      top-ups that left. */
  lemma CustodyConservation(cap: Option<E.Cap>, es: seq<Event>)
    ensures var p := Run(cap, es);
      Backing(p.till.books, TIG, Custody) == p.opening + R.Incoming(p.v.t) - P.Outgone(p.till)
  {
    BackingIsMinusOutside(Run(cap, es).till.books, TIG, Custody);
  }

  /** In every run a reservation's collateral and fee commitment are held exactly while undecided, each has left at
      most once, and work that was sent is never released as unsent. */
  lemma EscrowTheorem(cap: Option<E.Cap>, es: seq<Event>, r: nat)
    requires r < |Run(cap, es).v.desk.rows|
    ensures var p := Run(cap, es);
      var x, b := p.v.desk.rows[r], p.till.books;
      && Balance(b, Collateral(r)) == (if x.outcome.None? then x.amount else 0)
      && Balance(b, Commitment(r)) == (if x.fee.None? then x.limit else 0)
      && |E.Exits(b, r)| == (if x.outcome.Some? && x.amount > 0 then 1 else 0)
      && (x.sentAt.Some? && x.state == E.Cancelled ==> x.benchmark.Some? && !x.handedOver)
  {
    E.EscrowMeaning(Run(cap, es).v.desk, r);
  }

  /** In every run no member holds three slots. */
  lemma SlotTheorem(cap: Option<E.Cap>, es: seq<Event>, i: nat, j: nat, k: nat)
    requires var rows := Run(cap, es).v.desk.rows;
      i < j < k < |rows| && rows[i].member == rows[j].member == rows[k].member
    ensures var rows := Run(cap, es).v.desk.rows;
      !(rows[i].slotHeld && rows[j].slotHeld && rows[k].slotHeld)
  {
    E.NeverThreeSlots(Run(cap, es).v.desk, i, j, k);
  }

  /** In every run a round's account holds its receipts, reimbursement and forfeits until settlement and nothing from
      then on; and a settled round has no undecided work and gets no more. */
  lemma RoundTheorem(cap: Option<E.Cap>, es: seq<Event>, k: nat)
    ensures var p := Run(cap, es);
      && Balance(p.till.books, RoundPot(k)) == (if k in p.v.t.settled then 0 else R.Inputs(p.v, k))
      && (k in p.v.t.settled ==> E.Resolved(p.v.desk.rows, k) && k + 3 <= p.v.t.newest)
  {
    assert R.PotSound(Run(cap, es).v, k);
  }

  /** A settled round stays as it is: its record, its reservations and their outcomes; new work is in later rounds. */
  ghost predicate SettledKept(v: R.Vault, w: R.Vault, k: nat) {
    && k in v.t.settled && k in w.t.settled && w.t.settled[k] == v.t.settled[k] && |w.desk.rows| >= |v.desk.rows|
    && (forall r :: 0 <= r < |v.desk.rows| ==> w.desk.rows[r].round == v.desk.rows[r].round)
    && (forall r :: 0 <= r < |v.desk.rows| && v.desk.rows[r].outcome.Some? ==> w.desk.rows[r].outcome == v.desk.rows[r].outcome)
    && (forall r :: |v.desk.rows| <= r < |w.desk.rows| ==> w.desk.rows[r].round > k)
  }

  lemma SettledChains(v: R.Vault, w: R.Vault, x: R.Vault, k: nat)
    requires SettledKept(v, w, k) && SettledKept(w, x, k)
    ensures SettledKept(v, x, k)
  {
  }

  lemma RoundStepSettled(v: R.Vault, e: Event, k: nat)
    requires KeysSound(v.desk.books) && ForRounds(e) && k in v.t.settled
    ensures SettledKept(v, RoundStep(v, e), k)
  {
  }

  lemma DeskStepSettled(v: R.Vault, d: E.Desk, k: nat)
    requires E.Steps(v.desk, d) && |d.rows| == |v.desk.rows| && k in v.t.settled
    ensures SettledKept(v, v.(desk := d), k)
  {
  }

  lemma ReserveSettled(v: R.Vault, cap: Option<E.Cap>, member: string, request: nat, amount: nat, limit: nat, now: int, open: bool, k: nat)
    requires KeysSound(v.desk.books) && R.PotSound(v, k) && k in v.t.settled
    ensures SettledKept(v, R.ReserveNext(v, cap, member, request, amount, limit, now, open), k)
  {
  }

  lemma TimedSettled(p: Pool, e: Event, k: nat)
    requires KeysSound(p.v.desk.books) && KeysSound(p.till.books) && Timed(e) && R.PotSound(p.v, k) && k in p.v.t.settled
    ensures SettledKept(p.v, TimedStep(p, e).v, k)
  {
    if e.Reserves? { ReserveSettled(p.v, p.cap, e.member, e.request, e.amount, e.limit, e.now, e.open, k); }
  }

  lemma BooksSettled(v: R.Vault, b: Books, k: nat)
    requires k in v.t.settled
    ensures SettledKept(v, R.WithBooks(v, b), k)
  {
  }

  lemma CommonSettled(p: Pool, e: Event, k: nat)
    requires KeysSound(p.till.books) && (e.Opens? || e.Baseline? || e.Funds?) && k in p.v.t.settled
    ensures SettledKept(p.v, CommonStep(p, e).v, k)
  {
    BooksSettled(p.v, CommonStep(p, e).v.desk.books, k);
  }

  lemma TimedStepSettled(p: Pool, e: Event, k: nat)
    requires PoolSound(p) && k in p.v.t.settled && Timed(e)
    ensures SettledKept(p.v, Step(p, e).v, k)
  {
    TimedIs(p, e);
    BooksSettled(p.v, p.v.desk.books, k);
    assert R.PotSound(p.v, k);
    if e.now >= p.clock { TimedSettled(p.(clock := e.now), e, k); }
  }

  lemma DeskStepsSettled(p: Pool, e: Event, k: nat)
    requires PoolSound(p) && k in p.v.t.settled && ForDesk(e)
    ensures SettledKept(p.v, WithDesk(p, DeskStep(p, e)).v, k)
  {
    KeepsDeskSteps(p, e);
    var d := DeskStep(p, e);
    DeskStepSettled(p.v, d, k);
  }

  lemma StepSettled(p: Pool, e: Event, k: nat)
    requires PoolSound(p) && k in p.v.t.settled
    ensures SettledKept(p.v, Step(p, e).v, k)
  {
    if Timed(e) {
      TimedStepSettled(p, e, k);
    } else if ForDesk(e) {
      DeskIs(p, e);
      DeskStepsSettled(p, e, k);
    } else if ForRounds(e) {
      RoundIs(p, e);
      RoundStepSettled(p.v, e, k);
    } else if ForTill(e) {
      TillIs(p, e);
      BooksSettled(p.v, TillStep(p.till, e).books, k);
    } else {
      CommonIs(p, e);
      CommonSettled(p, e, k);
    }
  }

  /** What holds of a run and of every run one longer holds of all its continuations. */
  lemma {:induction false} Onward(es: seq<Event>, more: seq<Event>, holds: seq<Event> -> bool)
    requires holds(es) && forall xs, x :: holds(xs) ==> holds(xs + [x])
    ensures holds(es + more)
    decreases |more|
  {
    if more == [] {
      assert es + more == es;
    } else {
      var n := |more| - 1;
      Onward(es, more[..n], holds);
      assert es + more[..n] + [more[n]] == es + more;
    }
  }

  lemma StillSettled(v: R.Vault, p: Pool, e: Event, k: nat)
    requires PoolSound(p) && SettledKept(v, p.v, k)
    ensures SettledKept(v, Step(p, e).v, k)
  {
    StepSettled(p, e, k);
    SettledChains(v, p.v, Step(p, e).v, k);
  }

  lemma NextSettled(cap: Option<E.Cap>, v: R.Vault, es: seq<Event>, e: Event, k: nat)
    requires SettledKept(v, Run(cap, es).v, k)
    ensures SettledKept(v, Run(cap, es + [e]).v, k)
  {
    RunOneMore(cap, es, e);
    StillSettled(v, Run(cap, es), e, k);
  }

  lemma AllSettled(cap: Option<E.Cap>, v: R.Vault, k: nat)
    ensures forall es, e :: SettledKept(v, Run(cap, es).v, k) ==> SettledKept(v, Run(cap, es + [e]).v, k)
  {
    forall es, e | SettledKept(v, Run(cap, es).v, k) ensures SettledKept(v, Run(cap, es + [e]).v, k) {
      NextSettled(cap, v, es, e, k);
    }
  }

  /** Once settled, a round stays settled with the same pot and credits whatever happens afterwards, its reservations keep
      their outcomes, and none is ever made in it again. */
  lemma SettledOnce(cap: Option<E.Cap>, es: seq<Event>, more: seq<Event>, k: nat)
    requires k in Run(cap, es).v.t.settled
    ensures SettledKept(Run(cap, es).v, Run(cap, es + more).v, k)
  {
    var v := Run(cap, es).v;
    AllSettled(cap, v, k);
    BooksSettled(v, v.desk.books, k);
    Onward(es, more, (xs: seq<Event>) => SettledKept(v, Run(cap, xs).v, k));
  }

  /** In every run and in every interval of the cap's length, fee ceilings first sent, hence also the fees charged,
      and gas ceilings of withdrawals and top-ups together, stay within their limits. */
  lemma SpendingTheorem(cap: E.Cap, es: seq<Event>, from: int)
    ensures var p := Run(Some(cap), es);
      && E.SentFrom(p.v.desk.rows, from, cap.window) <= cap.feeWindow
      && E.Charged(p.v.desk.rows, |p.v.desk.rows|, from, from + cap.window) <= cap.feeWindow
      && P.GasFrom(p.till, from, cap.window) <= cap.gasWindow
  {
    SpendingOf(Run(Some(cap), es), cap, from);
  }

  lemma SpendingOf(p: Pool, cap: E.Cap, from: int)
    requires PoolSound(p) && p.cap == Some(cap)
    ensures E.SentFrom(p.v.desk.rows, from, cap.window) <= cap.feeWindow
    ensures E.Charged(p.v.desk.rows, |p.v.desk.rows|, from, from + cap.window) <= cap.feeWindow
    ensures P.GasFrom(p.till, from, cap.window) <= cap.gasWindow
  {
    E.ChargesWithinWindow(p.v.desk, cap, from);
  }

  /** In every run a withdrawal's hold is its amount exactly while pending, it is unsettled exactly when one attempt, and
      only one, lacks an outcome, and paid exactly when one attempt, and only one, paid. */
  lemma PaymentTheorem(cap: Option<E.Cap>, es: seq<Event>, w: nat)
    requires w < |Run(cap, es).till.withdrawals|
    ensures var t := Run(cap, es).till;
      && Balance(t.books, Pending(w)) == (if t.withdrawals[w].stage.Pending() then t.withdrawals[w].amount else 0)
      && (t.withdrawals[w].stage == P.Unsettled <==> exists a: nat :: P.Open(t, a, w))
      && (forall a: nat, b: nat :: P.Open(t, a, w) && P.Open(t, b, w) ==> a == b)
      && (t.withdrawals[w].stage == P.Paid <==> exists a: nat :: P.Pays(t, a, w))
      && (forall a: nat, b: nat :: P.Pays(t, a, w) && P.Pays(t, b, w) ==> a == b)
  {
    P.WithdrawalMeaning(Run(cap, es).till, w);
  }

  /** In every run the holds of a send are full until it is resolved and then empty. */
  lemma HoldTheorem(cap: Option<E.Cap>, es: seq<Event>, a: nat, k: nat)
    ensures var t := Run(cap, es).till;
      && (a < |t.attempts| ==> Balance(t.books, SendGas(a)) == if t.attempts[a].fate.None? then t.attempts[a].limit else 0)
      && (k < |t.topups| ==>
            && Balance(t.books, TopupHold(k, TIG)) == (if t.topups[k].stage == P.Sending then t.topups[k].amount else 0)
            && Balance(t.books, TopupHold(k, Native)) == (if t.topups[k].stage == P.Sending then t.topups[k].limit else 0))
  {
    var t := Run(cap, es).till;
    if a < |t.attempts| { P.GasMeaning(t, a); }
    if k < |t.topups| { P.TopupMeaning(t, k); }
  }

  /** In every run each nonce, each transaction and each token event explains at most one send. */
  lemma ExplanationTheorem(cap: Option<E.Cap>, es: seq<Event>, s: P.Send, r: P.Send)
    requires s != r
    ensures var t := Run(cap, es).till;
      && (P.Exists(t, s) && P.Exists(t, r) ==> P.NonceOf(t, s) != P.NonceOf(t, r))
      && (s in t.payments && r in t.payments ==>
            t.payments[s].tx != t.payments[r].tx && (t.payments[s].event.Some? ==> t.payments[s].event != t.payments[r].event))
  {
    P.OneExplanationEach(Run(cap, es).till, s, r);
  }
}
