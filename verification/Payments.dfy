/** Custody payments: member and operator withdrawals and protocol top-ups share one nonce fence, and every send is
    resolved by one confirmed transaction. */
module Payments {
  import opened Basics
  import opened Ledger
  import opened Escrow

  datatype Stage = Asked | Approved | Unsettled | Paid | Declined | Withdrawn
  {
    predicate Pending() { Asked? || Approved? || Unsettled? }
  }

  /** `member` is absent for the operator's own withdrawals, which keep `reserve` back. */
  datatype Withdrawal = Withdrawal(member: Option<string>, request: nat, amount: nat, reserve: nat, stage: Stage, event: Option<EventId>)

  datatype Fate = Paying | Reverted | Voided

  datatype Attempt = Attempt(w: nat, request: nat, nonce: nat, limit: nat, sentAt: int, fate: Option<Fate>)

  datatype TopStage = Sending | Awaiting | Lost | Dropped | Credited
  {
    predicate Left() { Awaiting? || Credited? }
  }

  datatype Topup = Topup(request: nat, amount: nat, limit: nat, nonce: nat, sentAt: int, stage: TopStage)

  datatype Send = ByAttempt(a: nat) | ByTopup(t: nat)

  datatype Payment = Payment(tx: nat, event: Option<EventId>, fee: nat)

  /** A finalized transaction; sender 0 is the custody wallet. */
  datatype Chained = Chained(sender: nat, nonce: nat, successful: bool, fee: nat, block: nat)

  /** `credits` records which protocol top-up confirmation was consumed by which send. */
  datatype Till = Till(books: Books, withdrawals: seq<Withdrawal>, attempts: seq<Attempt>, topups: seq<Topup>,
                       chain: map<nat, Chained>, payments: map<Send, Payment>, credits: map<nat, nat>)

  // ------------------------------------------------------------------ fences

  predicate NonceTaken(t: Till, nonce: nat) {
    || (exists a :: 0 <= a < |t.attempts| && t.attempts[a].nonce == nonce)
    || (exists k :: 0 <= k < |t.topups| && t.topups[k].nonce == nonce)
  }

  predicate TxUsed(t: Till, tx: nat) {
    exists s :: s in t.payments && t.payments[s].tx == tx
  }

  predicate EventPaid(t: Till, e: EventId) {
    exists w :: 0 <= w < |t.withdrawals| && t.withdrawals[w].event == Some(e)
  }

  /** Gas ceilings of sends within (since, now]. */
  function AttemptGas(xs: seq<Attempt>, n: nat, since: int, now: int): nat
    requires n <= |xs|
  {
    if n == 0 then 0 else AttemptGas(xs, n - 1, since, now) + if since < xs[n - 1].sentAt <= now then xs[n - 1].limit else 0
  }

  function TopupGas(xs: seq<Topup>, n: nat, since: int, now: int): nat
    requires n <= |xs|
  {
    if n == 0 then 0 else TopupGas(xs, n - 1, since, now) + if since < xs[n - 1].sentAt <= now then xs[n - 1].limit else 0
  }

  function Gas(t: Till, since: int, now: int): nat {
    AttemptGas(t.attempts, |t.attempts|, since, now) + TopupGas(t.topups, |t.topups|, since, now)
  }

  predicate GasAllowed(t: Till, cap: Option<Cap>, now: int, limit: nat) {
    cap.Some? && 0 < limit <= cap.value.gasAttempt && Gas(t, now - cap.value.window, now) + limit <= cap.value.gasWindow
  }

  /** Confirmed facts are kept once; neither a hash nor a sender's nonce can get another meaning. */
  predicate Consistent(t: Till, tx: nat, c: Chained) {
    if tx in t.chain then t.chain[tx] == c
    else forall y :: y in t.chain ==> !(t.chain[y].sender == c.sender && t.chain[y].nonce == c.nonce)
  }

  function Remembered(t: Till, tx: nat, c: Chained): Till {
    if Consistent(t, tx, c) then t.(chain := t.chain[tx := c]) else t
  }

  // ------------------------------------------------------------------ withdrawals

  function Source(x: Withdrawal): Account {
    if x.member.Some? then Available(x.member.value) else Operator(TIG)
  }

  predicate HasPending(t: Till, member: Option<string>) {
    exists w :: 0 <= w < |t.withdrawals| && t.withdrawals[w].member == member && t.withdrawals[w].stage.Pending()
  }

  predicate AskedBefore(t: Till, member: Option<string>, request: nat) {
    exists w :: 0 <= w < |t.withdrawals| && t.withdrawals[w].member == member && t.withdrawals[w].request == request
  }

  /** `allowed` stands for the seven days between a member's payments. */
  ghost function Ask(t: Till, member: Option<string>, request: nat, amount: nat, reserve: nat, allowed: bool): Till
    requires KeysSound(t.books)
  {
    var w := |t.withdrawals|;
    var x := Withdrawal(member, request, amount, reserve, Asked, None);
    if amount == 0 || AskedBefore(t, member, request) || HasPending(t, member) || !allowed
       || (member.None? && Balance(t.books, Operator(TIG)) < amount + reserve) then t
    else
      var p := Post(Opened(t.books, Pending(w)), RequestKey(w), TransferMovements(Source(x), Pending(w), amount), 0);
      if p.Refused? then t else t.(books := p.books, withdrawals := t.withdrawals + [x])
  }

  function SetStage(t: Till, w: nat, stage: Stage): Till
    requires w < |t.withdrawals|
  {
    t.(withdrawals := t.withdrawals[w := t.withdrawals[w].(stage := stage)])
  }

  function Approve(t: Till, w: nat, allowed: bool): Till {
    if w < |t.withdrawals| && t.withdrawals[w].stage == Asked && allowed then SetStage(t, w, Approved) else t
  }

  /** Rejected by the operator or cancelled by its owner, before any unresolved send. */
  ghost function ReleaseHold(t: Till, w: nat, byOwner: bool): Till
    requires KeysSound(t.books)
  {
    if w >= |t.withdrawals| || t.withdrawals[w].stage !in {Asked, Approved} then t
    else
      var x := t.withdrawals[w];
      var p := Post(t.books, ReleaseKey(w), TransferMovements(Pending(w), Source(x), x.amount), if byOwner then 1 else 0);
      if p.Refused? then t else SetStage(t, w, if byOwner then Withdrawn else Declined).(books := p.books)
  }

  predicate Tried(t: Till, w: nat, request: nat) {
    exists a :: 0 <= a < |t.attempts| && t.attempts[a].w == w && t.attempts[a].request == request
  }

  /** Nonce and gas are committed before the wallet is asked to send.  `allowed` stands for the fresh preflight, the
      approved route and the wallet's reconciled balances. */
  ghost function Begin(t: Till, cap: Option<Cap>, w: nat, request: nat, nonce: nat, limit: nat, now: int, allowed: bool): Till
    requires KeysSound(t.books)
  {
    var a := |t.attempts|;
    if w >= |t.withdrawals| || Tried(t, w, request) || !allowed || t.withdrawals[w].stage != Approved
       || (t.withdrawals[w].member.None? && Balance(t.books, Operator(TIG)) < t.withdrawals[w].reserve)
       || !GasAllowed(t, cap, now, limit) || NonceTaken(t, nonce) then t
    else
      var p := Post(Opened(t.books, SendGas(a)), GasKey(a), TransferMovements(Operator(Native), SendGas(a), limit), 0);
      if p.Refused? then t
      else SetStage(t, w, Unsettled).(books := p.books, attempts := t.attempts + [Attempt(w, request, nonce, limit, now, None)])
  }

  /** Failed, paid by the exact frozen transfer, or void: an empty self-send that consumed the nonce. */
  function FateOf(successful: bool, event: Option<EventId>, exact: bool, empty: bool): Option<Fate> {
    if !successful then (if event.None? then Some(Reverted) else None)
    else if event.Some? then (if exact then Some(Paying) else None)
    else if empty then Some(Voided) else None
  }

  function OutcomeMovements(a: nat, x: Attempt, w: Withdrawal, fate: Fate, fee: int): seq<Movement> {
    [Debit(SendGas(a), x.limit), Credit(Operator(Native), x.limit - fee), Credit(Outside(Native), fee)]
    + if fate == Paying then [Debit(Pending(x.w), w.amount), Credit(Outside(TIG), w.amount)] else []
  }

  function Resolved(t: Till, b: Books, a: nat, fate: Fate, tx: nat, event: Option<EventId>, fee: nat): Till
    requires a < |t.attempts| && t.attempts[a].w < |t.withdrawals|
  {
    var w := t.attempts[a].w;
    t.(books := b, payments := t.payments[ByAttempt(a) := Payment(tx, event, fee)],
       attempts := t.attempts[a := t.attempts[a].(fate := Some(fate))],
       withdrawals := t.withdrawals[w := if fate == Paying then t.withdrawals[w].(stage := Paid, event := event)
                                         else t.withdrawals[w].(stage := Approved)])
  }

  /** One transaction settles an attempt; `sponsored` payments were sent by someone else and cost custody no gas. */
  ghost function Conclude(t: Till, a: nat, tx: nat, fate: Fate, event: Option<EventId>, fee: nat): Till
    requires KeysSound(t.books)
  {
    if a >= |t.attempts| || t.attempts[a].w >= |t.withdrawals| || t.attempts[a].fate.Some? || t.withdrawals[t.attempts[a].w].stage != Unsettled
       || (fate == Paying && (event.None? || event.value.0 != tx || EventPaid(t, event.value)))
       || TxUsed(t, tx) || ByAttempt(a) in t.payments then t
    else
      var p := Post(t.books, OutcomeKey(a), OutcomeMovements(a, t.attempts[a], t.withdrawals[t.attempts[a].w], fate, fee), tx);
      if p.Refused? then t else Resolved(t, p.books, a, fate, tx, event, fee)
  }

  /** The chain evidence is kept even if the accounting that follows fails. */
  ghost function Reconcile(t: Till, a: nat, tx: nat, c: Chained, event: Option<EventId>, exact: bool, empty: bool): Till
    requires KeysSound(t.books)
  {
    if a >= |t.attempts| || c.sender != 0 || c.nonce != t.attempts[a].nonce || !Consistent(t, tx, c) then t
    else
      var u := Remembered(t, tx, c);
      var fate := FateOf(c.successful, event, exact, empty);
      if fate.None? then u else Conclude(u, a, tx, fate.value, if fate.value == Paying then event else None, c.fee)
  }

  ghost function ReconcileSponsored(t: Till, a: nat, tx: nat, c: Chained, event: EventId, exact: bool): Till
    requires KeysSound(t.books)
  {
    if a >= |t.attempts| || c.sender == 0 || !c.successful || !exact || !Consistent(t, tx, c) then t
    else
      var u := Conclude(Remembered(t, tx, c), a, tx, Paying, Some(event), 0);
      if u == Remembered(t, tx, c) then t else u
  }

  // ------------------------------------------------------------------ top-ups

  predicate ToppedBefore(t: Till, request: nat) {
    exists k :: 0 <= k < |t.topups| && t.topups[k].request == request
  }

  function TopupMovements(k: nat, amount: int, limit: int): seq<Movement> {
    [Debit(Operator(TIG), amount), Credit(TopupHold(k, TIG), amount), Debit(Operator(Native), limit), Credit(TopupHold(k, Native), limit)]
  }

  ghost function TopUp(t: Till, cap: Option<Cap>, request: nat, amount: nat, limit: nat, nonce: nat, now: int, allowed: bool): Till
    requires KeysSound(t.books)
  {
    var k := |t.topups|;
    if amount == 0 || ToppedBefore(t, request) || !allowed || !GasAllowed(t, cap, now, limit) || NonceTaken(t, nonce) then t
    else
      var p := Post(Opened(Opened(t.books, TopupHold(k, TIG)), TopupHold(k, Native)), TopupKey(k), TopupMovements(k, amount, limit), 0);
      if p.Refused? then t
      else t.(books := p.books, topups := t.topups + [Topup(request, amount, limit, nonce, now, Sending)])
  }

  function CashMovements(k: nat, x: Topup, left: bool, fee: int): seq<Movement> {
    [Debit(TopupHold(k, TIG), x.amount), Credit(if left then Outside(TIG) else Operator(TIG), x.amount),
     Debit(TopupHold(k, Native), x.limit), Credit(Operator(Native), x.limit - fee), Credit(Outside(Native), fee)]
  }

  function StageOf(fate: Fate): TopStage {
    match fate
    case Paying => Awaiting
    case Reverted => Lost
    case Voided => Dropped
  }

  function Cashed(t: Till, b: Books, k: nat, fate: Fate, tx: nat, event: Option<EventId>, fee: nat): Till
    requires k < |t.topups|
  {
    t.(books := b, payments := t.payments[ByTopup(k) := Payment(tx, event, fee)],
       topups := t.topups[k := t.topups[k].(stage := StageOf(fate))])
  }

  ghost function ConcludeTopup(t: Till, k: nat, tx: nat, fate: Fate, event: Option<EventId>, fee: nat): Till
    requires KeysSound(t.books)
  {
    if k >= |t.topups| || t.topups[k].stage != Sending || (fate == Paying && (event.None? || event.value.0 != tx))
       || TxUsed(t, tx) || ByTopup(k) in t.payments then t
    else
      var p := Post(t.books, CashKey(k), CashMovements(k, t.topups[k], fate == Paying, fee), tx);
      if p.Refused? then t else Cashed(t, p.books, k, fate, tx, event, fee)
  }

  ghost function ReconcileTopup(t: Till, k: nat, tx: nat, c: Chained, event: Option<EventId>, exact: bool, empty: bool): Till
    requires KeysSound(t.books)
  {
    if k >= |t.topups| || c.sender != 0 || c.nonce != t.topups[k].nonce || !Consistent(t, tx, c) then t
    else
      var u := Remembered(t, tx, c);
      var fate := FateOf(c.successful, event, exact, empty);
      if fate.None? then u else ConcludeTopup(u, k, tx, fate.value, if fate.value == Paying then event else None, c.fee)
  }

  /** The protocol confirms the exact transfer; `confirmed` stands for its unique match. */
  ghost function CreditTopup(t: Till, k: nat, topup: nat, confirmed: bool): Till
    requires KeysSound(t.books)
  {
    if k >= |t.topups| || t.topups[k].stage != Awaiting || !confirmed || topup in t.credits then t
    else
      var p := Post(t.books, CreditKey(k), TransferMovements(OutsideProtocol, ProtocolFees, t.topups[k].amount), topup);
      if p.Refused? then t
      else t.(books := p.books, credits := t.credits[topup := k], topups := t.topups[k := t.topups[k].(stage := Credited)])
  }

  // ------------------------------------------------------------------ invariants

  /** The hold of a withdrawal is its amount exactly while it is pending. */
  ghost predicate WithdrawalSound(b: Books, w: nat, x: Withdrawal) {
    && x.amount > 0 && Balance(b, Pending(w)) == (if x.stage.Pending() then x.amount else 0)
    && (ReleaseKey(w) in b.keys <==> x.stage in {Declined, Withdrawn})
  }

  /** A gas hold is full until its attempt is resolved, then empty. */
  ghost predicate AttemptSound(b: Books, a: nat, x: Attempt) {
    && x.limit > 0 && Balance(b, SendGas(a)) == (if x.fate.None? then x.limit else 0)
    && (OutcomeKey(a) in b.keys <==> x.fate.Some?)
  }

  ghost predicate TopupSound(b: Books, k: nat, x: Topup) {
    && Balance(b, TopupHold(k, TIG)) == (if x.stage == Sending then x.amount else 0)
    && Balance(b, TopupHold(k, Native)) == (if x.stage == Sending then x.limit else 0)
    && x.amount > 0 && x.limit > 0 && (CashKey(k) in b.keys <==> x.stage != Sending) && (CreditKey(k) in b.keys <==> x.stage == Credited)
  }

  ghost predicate NoWithdrawal(b: Books, w: nat) {
    Balance(b, Pending(w)) == 0 && RequestKey(w) !in b.keys && ReleaseKey(w) !in b.keys
  }

  ghost predicate NoAttempt(b: Books, a: nat) {
    Balance(b, SendGas(a)) == 0 && GasKey(a) !in b.keys && OutcomeKey(a) !in b.keys
  }

  ghost predicate NoTopup(b: Books, k: nat) {
    && Balance(b, TopupHold(k, TIG)) == 0 && Balance(b, TopupHold(k, Native)) == 0
    && TopupKey(k) !in b.keys && CashKey(k) !in b.keys && CreditKey(k) !in b.keys
  }

  /** The holds and traces of everything in the tables, and of nothing else. */
  ghost predicate Held(t: Till) {
    && BooksSound(t.books) && Even(t.books)
    && (forall w: nat :: WithdrawalHeld(t, w)) && (forall a: nat :: AttemptHeld(t, a)) && (forall k: nat :: TopupHeld(t, k))
  }

  predicate Open(t: Till, a: nat, w: nat) {
    a < |t.attempts| && t.attempts[a].w == w && t.attempts[a].fate.None?
  }

  predicate Pays(t: Till, a: nat, w: nat) {
    a < |t.attempts| && t.attempts[a].w == w && t.attempts[a].fate == Some(Paying)
  }

  /** A withdrawal is unsettled exactly when one attempt lacks an outcome, and paid exactly when one attempt paid. */
  ghost predicate Staged(t: Till) {
    && (forall a :: 0 <= a < |t.attempts| ==> t.attempts[a].w < |t.withdrawals|)
    && (forall a: nat, w: nat :: Open(t, a, w) ==> w < |t.withdrawals| && t.withdrawals[w].stage == Unsettled)
    && (forall a: nat, w: nat :: Pays(t, a, w) ==> w < |t.withdrawals| && t.withdrawals[w].stage == Paid)
    && (forall a: nat, c: nat, w: nat :: Open(t, a, w) && Open(t, c, w) ==> a == c)
    && (forall a: nat, c: nat, w: nat :: Pays(t, a, w) && Pays(t, c, w) ==> a == c)
    && (forall w :: 0 <= w < |t.withdrawals| && t.withdrawals[w].stage == Unsettled ==> exists a: nat :: Open(t, a, w))
    && (forall w :: 0 <= w < |t.withdrawals| && t.withdrawals[w].stage == Paid ==> exists a: nat :: Pays(t, a, w))
  }

  predicate Exists(t: Till, s: Send) {
    match s
    case ByAttempt(a) => a < |t.attempts|
    case ByTopup(k) => k < |t.topups|
  }

  function NonceOf(t: Till, s: Send): nat
    requires Exists(t, s)
  {
    match s
    case ByAttempt(a) => t.attempts[a].nonce
    case ByTopup(k) => t.topups[k].nonce
  }

  /** No two sends share a nonce. */
  ghost predicate NoncesApart(t: Till) {
    forall s, r :: Exists(t, s) && Exists(t, r) && NonceOf(t, s) == NonceOf(t, r) ==> s == r
  }

  predicate Done(t: Till, s: Send)
    requires Exists(t, s)
  {
    match s
    case ByAttempt(a) => t.attempts[a].fate.Some?
    case ByTopup(k) => t.topups[k].stage != Sending
  }

  /** A send is explained by one transaction, which explains no other, and pays by an event of that transaction. */
  ghost predicate Explained(t: Till) {
    && (forall s :: Exists(t, s) ==> (s in t.payments <==> Done(t, s)))
    && (forall s :: s in t.payments ==> Exists(t, s) && (t.payments[s].event.Some? ==> t.payments[s].event.value.0 == t.payments[s].tx))
    && (forall s, r :: s in t.payments && r in t.payments && t.payments[s].tx == t.payments[r].tx ==> s == r)
    && (forall a: nat, w: nat :: Pays(t, a, w) && w < |t.withdrawals| && ByAttempt(a) in t.payments ==>
          t.withdrawals[w].event.Some? && t.payments[ByAttempt(a)].event == t.withdrawals[w].event)
  }

  ghost predicate TillSound(t: Till) {
    Held(t) && Staged(t) && NoncesApart(t) && Explained(t)
  }

  // ------------------------------------------------------------------ holds

  /** A step of the books that touches only some of the payment accounts and keys. */
  ghost predicate Touches(b: Books, c: Books, accounts: set<Account>, keys: set<Key>) {
    && BooksSound(c) && Even(c)
    && (forall a: Account :: a.Owner() == Payments && a !in accounts ==> Balance(c, a) == Balance(b, a))
    && (forall k: Key :: k.Owner() == Payments && k !in keys ==> (k in c.keys <==> k in b.keys))
  }

  lemma SameWithdrawal(b: Books, c: Books, accounts: set<Account>, keys: set<Key>, w: nat, x: Withdrawal)
    requires Touches(b, c, accounts, keys) && Pending(w) !in accounts && RequestKey(w) !in keys && ReleaseKey(w) !in keys
    ensures WithdrawalSound(b, w, x) ==> WithdrawalSound(c, w, x)
    ensures NoWithdrawal(b, w) ==> NoWithdrawal(c, w)
  {
  }

  lemma SameAttempt(b: Books, c: Books, accounts: set<Account>, keys: set<Key>, a: nat, x: Attempt)
    requires Touches(b, c, accounts, keys) && SendGas(a) !in accounts && GasKey(a) !in keys && OutcomeKey(a) !in keys
    ensures AttemptSound(b, a, x) ==> AttemptSound(c, a, x)
    ensures NoAttempt(b, a) ==> NoAttempt(c, a)
  {
  }

  lemma SameTopupTraces(b: Books, c: Books, accounts: set<Account>, keys: set<Key>, k: nat)
    requires Touches(b, c, accounts, keys) && TopupHold(k, TIG) !in accounts && TopupHold(k, Native) !in accounts
    requires TopupKey(k) !in keys && CashKey(k) !in keys && CreditKey(k) !in keys
    ensures forall asset :: asset in {TIG, Native} ==> Balance(c, TopupHold(k, asset)) == Balance(b, TopupHold(k, asset))
    ensures forall key :: key in {TopupKey(k), CashKey(k), CreditKey(k)} ==> (key in c.keys <==> key in b.keys)
  {
    forall asset | asset in {TIG, Native} ensures Balance(c, TopupHold(k, asset)) == Balance(b, TopupHold(k, asset)) {
      assert TopupHold(k, asset) !in accounts;
    }
  }

  lemma SameTopup(b: Books, c: Books, accounts: set<Account>, keys: set<Key>, k: nat, x: Topup)
    requires Touches(b, c, accounts, keys) && TopupHold(k, TIG) !in accounts && TopupHold(k, Native) !in accounts
    requires TopupKey(k) !in keys && CashKey(k) !in keys && CreditKey(k) !in keys
    ensures TopupSound(b, k, x) ==> TopupSound(c, k, x)
    ensures NoTopup(b, k) ==> NoTopup(c, k)
  {
    SameTopupTraces(b, c, accounts, keys, k);
  }

  ghost predicate WithdrawalHeld(t: Till, w: nat) {
    if w < |t.withdrawals| then WithdrawalSound(t.books, w, t.withdrawals[w]) else NoWithdrawal(t.books, w)
  }

  ghost predicate AttemptHeld(t: Till, a: nat) {
    if a < |t.attempts| then AttemptSound(t.books, a, t.attempts[a]) else NoAttempt(t.books, a)
  }

  ghost predicate TopupHeld(t: Till, k: nat) {
    if k < |t.topups| then TopupSound(t.books, k, t.topups[k]) else NoTopup(t.books, k)
  }

  ghost predicate SameW(t: Till, u: Till, accounts: set<Account>, keys: set<Key>, w: nat) {
    && Pending(w) !in accounts && RequestKey(w) !in keys && ReleaseKey(w) !in keys
    && (w < |t.withdrawals| <==> w < |u.withdrawals|) && (w < |t.withdrawals| ==> u.withdrawals[w] == t.withdrawals[w])
  }

  ghost predicate SameA(t: Till, u: Till, accounts: set<Account>, keys: set<Key>, a: nat) {
    && SendGas(a) !in accounts && GasKey(a) !in keys && OutcomeKey(a) !in keys
    && (a < |t.attempts| <==> a < |u.attempts|) && (a < |t.attempts| ==> u.attempts[a] == t.attempts[a])
  }

  ghost predicate SameK(t: Till, u: Till, accounts: set<Account>, keys: set<Key>, k: nat) {
    && TopupHold(k, TIG) !in accounts && TopupHold(k, Native) !in accounts
    && TopupKey(k) !in keys && CashKey(k) !in keys && CreditKey(k) !in keys
    && (k < |t.topups| <==> k < |u.topups|) && (k < |t.topups| ==> u.topups[k] == t.topups[k])
  }

  /** What an operation does not name stays held as it was. */
  lemma HeldStep(t: Till, u: Till, accounts: set<Account>, keys: set<Key>)
    requires Held(t) && Touches(t.books, u.books, accounts, keys)
    requires forall w: nat :: SameW(t, u, accounts, keys, w) || WithdrawalHeld(u, w)
    requires forall a: nat :: SameA(t, u, accounts, keys, a) || AttemptHeld(u, a)
    requires forall k: nat :: SameK(t, u, accounts, keys, k) || TopupHeld(u, k)
    ensures Held(u)
  {
    forall w: nat ensures WithdrawalHeld(u, w) {
      assert WithdrawalHeld(t, w);
      if SameW(t, u, accounts, keys, w) { SameWithdrawal(t.books, u.books, accounts, keys, w, if w < |t.withdrawals| then t.withdrawals[w] else AnyWithdrawal()); }
    }
    forall a: nat ensures AttemptHeld(u, a) {
      assert AttemptHeld(t, a);
      if SameA(t, u, accounts, keys, a) { SameAttempt(t.books, u.books, accounts, keys, a, if a < |t.attempts| then t.attempts[a] else AnyAttempt()); }
    }
    forall k: nat ensures TopupHeld(u, k) {
      assert TopupHeld(t, k);
      if SameK(t, u, accounts, keys, k) { SameTopup(t.books, u.books, accounts, keys, k, if k < |t.topups| then t.topups[k] else AnyTopup()); }
    }
  }

  function AnyWithdrawal(): Withdrawal {
    Withdrawal(None, 0, 0, 0, Asked, None)
  }

  function AnyAttempt(): Attempt {
    Attempt(0, 0, 0, 0, 0, None)
  }

  function AnyTopup(): Topup {
    Topup(0, 0, 0, 0, 0, Sending)
  }

  lemma ShiftTouches(b: Books, c: Books, from: Account, to: Account, amount: int, key: Key, accounts: set<Account>, keys: set<Key>)
    requires Shift(b, c, from, to, amount, key) && key in keys
    requires (from.Owner() == Payments ==> from in accounts) && (to.Owner() == Payments ==> to in accounts)
    ensures Touches(b, c, accounts, keys)
  {
  }

  lemma StillTouches(b: Books)
    requires BooksSound(b) && Even(b)
    ensures Touches(b, b, {}, {})
  {
  }

  /** The parts of the pool that payments never touch. */
  ghost predicate Elsewhere(b: Books, c: Books) {
    Leaves(b, c, Work) && Leaves(b, c, Pots) && Leaves(b, c, Events)
  }

  lemma ShiftElsewhere(b: Books, c: Books, from: Account, to: Account, amount: int, key: Key)
    requires Shift(b, c, from, to, amount, key) && key.Owner() == Payments
    requires from.Owner() !in {Work, Pots, Events} && to.Owner() !in {Work, Pots, Events}
    ensures Elsewhere(b, c)
  {
    ShiftSpares(b, c, from, to, amount, key, Work);
    ShiftSpares(b, c, from, to, amount, key, Pots);
    ShiftSpares(b, c, from, to, amount, key, Events);
  }

  // Asking.

  lemma AskShift(t: Till, member: Option<string>, request: nat, amount: nat, reserve: nat, allowed: bool)
    requires Held(t) && Ask(t, member, request, amount, reserve, allowed) != t
    ensures var u, w, x := Ask(t, member, request, amount, reserve, allowed), |t.withdrawals|, Withdrawal(member, request, amount, reserve, Asked, None);
      && amount > 0 && Shift(t.books, u.books, Source(x), Pending(w), amount, RequestKey(w))
      && u == t.(books := u.books, withdrawals := t.withdrawals + [x])
  {
    var w, x := |t.withdrawals|, Withdrawal(member, request, amount, reserve, Asked, None);
    assert WithdrawalHeld(t, w);
    OpenMoves(t.books, Pending(w));
    PostShift(Opened(t.books, Pending(w)), Source(x), Pending(w), amount, RequestKey(w), 0);
  }

  /** A new hold is filled. */
  lemma FilledHold(b: Books, c: Books, w: nat, x: Withdrawal)
    requires NoWithdrawal(b, w) && x.amount > 0 && x.stage == Asked && Shift(b, c, Source(x), Pending(w), x.amount, RequestKey(w))
    ensures WithdrawalSound(c, w, x)
  {
  }

  /** One element is changed, or appended. */
  ghost predicate SameBut<T>(s: seq<T>, r: seq<T>, i: nat) {
    (|r| == |s| || (|r| == |s| + 1 && i == |s|)) && forall v :: 0 <= v < |s| && v != i ==> r[v] == s[v]
  }

  /** Only withdrawal w is named, and the other tables are the same. */
  lemma OnlyWithdrawal(t: Till, u: Till, accounts: set<Account>, keys: set<Key>, w: nat)
    requires u.attempts == t.attempts && u.topups == t.topups && accounts <= {Pending(w)} && keys <= {RequestKey(w), ReleaseKey(w)}
    requires SameBut(t.withdrawals, u.withdrawals, w)
    ensures forall v: nat :: v != w ==> SameW(t, u, accounts, keys, v)
    ensures (forall a: nat :: SameA(t, u, accounts, keys, a)) && (forall k: nat :: SameK(t, u, accounts, keys, k))
  {
  }

  lemma WithdrawalStep(t: Till, u: Till, accounts: set<Account>, keys: set<Key>, w: nat)
    requires Held(t) && Touches(t.books, u.books, accounts, keys) && WithdrawalHeld(u, w)
    requires u.attempts == t.attempts && u.topups == t.topups && accounts <= {Pending(w)} && keys <= {RequestKey(w), ReleaseKey(w)}
    requires SameBut(t.withdrawals, u.withdrawals, w)
    ensures Held(u)
  {
    OnlyWithdrawal(t, u, accounts, keys, w);
    HeldStep(t, u, accounts, keys);
  }

  lemma AskedHeld(t: Till, c: Books, x: Withdrawal)
    requires Held(t) && x.amount > 0 && x.stage == Asked && Shift(t.books, c, Source(x), Pending(|t.withdrawals|), x.amount, RequestKey(|t.withdrawals|))
    ensures Held(t.(books := c, withdrawals := t.withdrawals + [x]))
  {
    var u, w := t.(books := c, withdrawals := t.withdrawals + [x]), |t.withdrawals|;
    assert WithdrawalHeld(t, w);
    FilledHold(t.books, c, w, x);
    ShiftTouches(t.books, c, Source(x), Pending(w), x.amount, RequestKey(w), {Pending(w)}, {RequestKey(w)});
    WithdrawalStep(t, u, {Pending(w)}, {RequestKey(w)}, w);
  }

  /** Stages change within the pending ones without touching the books. */
  lemma RestagedHeld(t: Till, w: nat, stage: Stage)
    requires Held(t) && w < |t.withdrawals| && t.withdrawals[w].stage.Pending() && stage.Pending()
    ensures Held(SetStage(t, w, stage))
  {
    StillTouches(t.books);
    assert WithdrawalHeld(t, w);
    WithdrawalStep(t, SetStage(t, w, stage), {}, {}, w);
  }

  // Releasing.

  lemma ReleaseShift(t: Till, w: nat, byOwner: bool)
    requires Held(t) && ReleaseHold(t, w, byOwner) != t
    ensures var u := ReleaseHold(t, w, byOwner);
      && w < |t.withdrawals| && t.withdrawals[w].stage in {Asked, Approved}
      && Shift(t.books, u.books, Pending(w), Source(t.withdrawals[w]), t.withdrawals[w].amount, ReleaseKey(w))
      && u == SetStage(t, w, if byOwner then Withdrawn else Declined).(books := u.books)
  {
    assert WithdrawalHeld(t, w);
    PostShift(t.books, Pending(w), Source(t.withdrawals[w]), t.withdrawals[w].amount, ReleaseKey(w), if byOwner then 1 else 0);
  }

  lemma EmptiedHold(b: Books, c: Books, w: nat, x: Withdrawal, stage: Stage)
    requires WithdrawalSound(b, w, x) && x.stage.Pending() && stage in {Declined, Withdrawn}
    requires Shift(b, c, Pending(w), Source(x), x.amount, ReleaseKey(w))
    ensures WithdrawalSound(c, w, x.(stage := stage))
  {
  }

  lemma ReleasedHeld(t: Till, c: Books, w: nat, stage: Stage)
    requires Held(t) && w < |t.withdrawals| && t.withdrawals[w].stage.Pending() && stage in {Declined, Withdrawn}
    requires Shift(t.books, c, Pending(w), Source(t.withdrawals[w]), t.withdrawals[w].amount, ReleaseKey(w))
    ensures Held(SetStage(t, w, stage).(books := c))
  {
    var x := t.withdrawals[w];
    assert WithdrawalHeld(t, w);
    EmptiedHold(t.books, c, w, x, stage);
    ShiftTouches(t.books, c, Pending(w), Source(x), x.amount, ReleaseKey(w), {Pending(w)}, {ReleaseKey(w)});
    WithdrawalStep(t, SetStage(t, w, stage).(books := c), {Pending(w)}, {ReleaseKey(w)}, w);
  }

  // Beginning a send.

  function Began(t: Till, c: Books, w: nat, x: Attempt): Till
    requires w < |t.withdrawals|
  {
    SetStage(t, w, Unsettled).(books := c, attempts := t.attempts + [x])
  }

  lemma BeginShift(t: Till, cap: Option<Cap>, w: nat, request: nat, nonce: nat, limit: nat, now: int, allowed: bool)
    requires Held(t) && Begin(t, cap, w, request, nonce, limit, now, allowed) != t
    ensures var u, a, x := Begin(t, cap, w, request, nonce, limit, now, allowed), |t.attempts|, Attempt(w, request, nonce, limit, now, None);
      && w < |t.withdrawals| && t.withdrawals[w].stage == Approved && limit > 0 && !NonceTaken(t, nonce) && GasAllowed(t, cap, now, limit)
      && Shift(t.books, u.books, Operator(Native), SendGas(a), limit, GasKey(a)) && u == Began(t, u.books, w, x)
  {
    var a := |t.attempts|;
    assert AttemptHeld(t, a);
    OpenMoves(t.books, SendGas(a));
    PostShift(Opened(t.books, SendGas(a)), Operator(Native), SendGas(a), limit, GasKey(a), 0);
  }

  lemma FilledGas(b: Books, c: Books, a: nat, x: Attempt)
    requires NoAttempt(b, a) && x.limit > 0 && x.fate.None? && Shift(b, c, Operator(Native), SendGas(a), x.limit, GasKey(a))
    ensures AttemptSound(c, a, x)
  {
  }

  /** Only attempt a and withdrawal w are named, and top-ups are the same. */
  lemma AttemptStep(t: Till, u: Till, accounts: set<Account>, keys: set<Key>, a: nat, w: nat)
    requires Held(t) && Touches(t.books, u.books, accounts, keys) && AttemptHeld(u, a) && WithdrawalHeld(u, w)
    requires u.topups == t.topups && accounts <= {SendGas(a), Pending(w)} && keys <= {GasKey(a), OutcomeKey(a)}
    requires SameBut(t.withdrawals, u.withdrawals, w)
    requires SameBut(t.attempts, u.attempts, a)
    ensures Held(u)
  {
    OnlyAttempt(t, u, accounts, keys, a, w);
    HeldStep(t, u, accounts, keys);
  }

  lemma OnlyAttempt(t: Till, u: Till, accounts: set<Account>, keys: set<Key>, a: nat, w: nat)
    requires u.topups == t.topups && accounts <= {SendGas(a), Pending(w)} && keys <= {GasKey(a), OutcomeKey(a)}
    requires SameBut(t.withdrawals, u.withdrawals, w)
    requires SameBut(t.attempts, u.attempts, a)
    ensures (forall v: nat :: v != w ==> SameW(t, u, accounts, keys, v)) && (forall b: nat :: b != a ==> SameA(t, u, accounts, keys, b))
    ensures forall k: nat :: SameK(t, u, accounts, keys, k)
  {
  }

  lemma SameHold(b: Books, c: Books, a: nat, limit: int, w: nat, x: Withdrawal, stage: Stage)
    requires WithdrawalSound(b, w, x) && x.stage.Pending() && stage.Pending() && Shift(b, c, Operator(Native), SendGas(a), limit, GasKey(a))
    ensures WithdrawalSound(c, w, x.(stage := stage))
  {
  }

  lemma BeganRows(t: Till, c: Books, w: nat, x: Attempt)
    requires AttemptHeld(t, |t.attempts|) && w < |t.withdrawals| && WithdrawalHeld(t, w)
    requires t.withdrawals[w].stage == Approved && x.limit > 0 && x.fate.None?
    requires Shift(t.books, c, Operator(Native), SendGas(|t.attempts|), x.limit, GasKey(|t.attempts|))
    ensures AttemptHeld(Began(t, c, w, x), |t.attempts|) && WithdrawalHeld(Began(t, c, w, x), w)
    ensures Touches(t.books, c, {SendGas(|t.attempts|)}, {GasKey(|t.attempts|)})
  {
    var a := |t.attempts|;
    FilledGas(t.books, c, a, x);
    SameHold(t.books, c, a, x.limit, w, t.withdrawals[w], Unsettled);
    ShiftTouches(t.books, c, Operator(Native), SendGas(a), x.limit, GasKey(a), {SendGas(a)}, {GasKey(a)});
  }

  lemma BeganOnly(t: Till, c: Books, w: nat, x: Attempt)
    requires w < |t.withdrawals|
    ensures var u := Began(t, c, w, x);
      u.topups == t.topups && SameBut(t.withdrawals, u.withdrawals, w) && SameBut(t.attempts, u.attempts, |t.attempts|)
  {
  }

  lemma BeganHeld(t: Till, c: Books, w: nat, x: Attempt)
    requires Held(t) && w < |t.withdrawals| && t.withdrawals[w].stage == Approved && x.limit > 0 && x.fate.None?
    requires Shift(t.books, c, Operator(Native), SendGas(|t.attempts|), x.limit, GasKey(|t.attempts|))
    ensures Held(Began(t, c, w, x))
  {
    assert WithdrawalHeld(t, w) && AttemptHeld(t, |t.attempts|);
    BeganRows(t, c, w, x);
    BeganOnly(t, c, w, x);
    AttemptStep(t, Began(t, c, w, x), {SendGas(|t.attempts|)}, {GasKey(|t.attempts|)}, |t.attempts|, w);
  }

  // Resolving a send.

  function OutcomeNet(a: nat, x: Attempt, amount: int, fate: Fate, fee: int, y: Account): int {
    if y == SendGas(a) then 0 - x.limit as int else if y == Operator(Native) then x.limit - fee else if y == Outside(Native) then fee
    else if fate == Paying && y == Pending(x.w) then -amount else if fate == Paying && y == Outside(TIG) then amount else 0
  }

  lemma OutcomeNets(a: nat, x: Attempt, w: Withdrawal, fate: Fate, fee: int)
    ensures Level(OutcomeMovements(a, x, w, fate, fee))
    ensures forall y :: Net(OutcomeMovements(a, x, w, fate, fee), y) == OutcomeNet(a, x, w.amount, fate, fee, y)
  {
    var ms := OutcomeMovements(a, x, w, fate, fee);
    forall y ensures Net(ms, y) == OutcomeNet(a, x, w.amount, fate, fee, y) { NetOfFew(ms, y); }
    forall asset, place ensures Flow(ms, asset, place) == 0 { FlowOfFew(ms, asset, place); }
  }

  /** The gas hold empties into the fee and its rest; a paid withdrawal's hold leaves custody whole. */
  ghost predicate Settled(b: Books, c: Books, a: nat, x: Attempt, amount: nat, fate: Fate, fee: int) {
    && BooksSound(c) && Even(c) && c.keys.Keys == b.keys.Keys + {OutcomeKey(a)}
    && (forall y :: Balance(c, y) == Balance(b, y) + OutcomeNet(a, x, amount, fate, fee, y))
  }

  lemma PostSettled(b: Books, a: nat, x: Attempt, w: Withdrawal, fate: Fate, fee: int, tx: int)
    requires BooksSound(b) && Even(b) && OutcomeKey(a) !in b.keys && Post(b, OutcomeKey(a), OutcomeMovements(a, x, w, fate, fee), tx).Posted?
    ensures Settled(b, Post(b, OutcomeKey(a), OutcomeMovements(a, x, w, fate, fee), tx).books, a, x, w.amount, fate, fee)
  {
    OutcomeNets(a, x, w, fate, fee);
    PostEffect(b, OutcomeKey(a), OutcomeMovements(a, x, w, fate, fee), tx);
  }

  lemma SettledTouches(b: Books, c: Books, a: nat, x: Attempt, amount: nat, fate: Fate, fee: int)
    requires Settled(b, c, a, x, amount, fate, fee)
    ensures Touches(b, c, {SendGas(a), Pending(x.w)}, {OutcomeKey(a)})
  {
  }

  lemma SettledElsewhere(b: Books, c: Books, a: nat, x: Attempt, amount: nat, fate: Fate, fee: int, part: Domain)
    requires Settled(b, c, a, x, amount, fate, fee) && part in {Work, Pots, Events}
    ensures Leaves(b, c, part)
  {
  }

  lemma SettledRows(b: Books, c: Books, a: nat, x: Attempt, w: Withdrawal, fate: Fate, fee: int, event: Option<EventId>)
    requires Settled(b, c, a, x, w.amount, fate, fee) && AttemptSound(b, a, x) && WithdrawalSound(b, x.w, w) && x.fate.None? && w.stage == Unsettled
    ensures AttemptSound(c, a, x.(fate := Some(fate)))
    ensures WithdrawalSound(c, x.w, if fate == Paying then w.(stage := Paid, event := event) else w.(stage := Approved))
  {
  }

  lemma ResolvedHeld(t: Till, c: Books, a: nat, fate: Fate, tx: nat, event: Option<EventId>, fee: nat)
    requires Held(t) && a < |t.attempts| && t.attempts[a].w < |t.withdrawals| && t.attempts[a].fate.None?
    requires t.withdrawals[t.attempts[a].w].stage == Unsettled
    requires Settled(t.books, c, a, t.attempts[a], t.withdrawals[t.attempts[a].w].amount, fate, fee)
    ensures Held(Resolved(t, c, a, fate, tx, event, fee))
  {
    var x := t.attempts[a];
    var w := t.withdrawals[x.w];
    assert AttemptHeld(t, a) && WithdrawalHeld(t, x.w);
    SettledRows(t.books, c, a, x, w, fate, fee, event);
    SettledTouches(t.books, c, a, x, w.amount, fate, fee);
    AttemptStep(t, Resolved(t, c, a, fate, tx, event, fee), {SendGas(a), Pending(x.w)}, {OutcomeKey(a)}, a, x.w);
  }

  lemma ConcludeSettles(t: Till, a: nat, tx: nat, fate: Fate, event: Option<EventId>, fee: nat)
    requires Held(t) && Conclude(t, a, tx, fate, event, fee) != t
    ensures var u := Conclude(t, a, tx, fate, event, fee);
      && a < |t.attempts| && t.attempts[a].w < |t.withdrawals| && t.attempts[a].fate.None? && t.withdrawals[t.attempts[a].w].stage == Unsettled
      && Settled(t.books, u.books, a, t.attempts[a], t.withdrawals[t.attempts[a].w].amount, fate, fee)
      && u == Resolved(t, u.books, a, fate, tx, event, fee)
  {
    assert AttemptHeld(t, a);
    PostSettled(t.books, a, t.attempts[a], t.withdrawals[t.attempts[a].w], fate, fee, tx);
  }

  // Top-ups.

  function TopupNet(k: nat, amount: int, limit: int, y: Account): int {
    if y == Operator(TIG) then -amount else if y == TopupHold(k, TIG) then amount
    else if y == Operator(Native) then -limit else if y == TopupHold(k, Native) then limit else 0
  }

  lemma TopupNets(k: nat, amount: int, limit: int)
    ensures Level(TopupMovements(k, amount, limit))
    ensures forall y :: Net(TopupMovements(k, amount, limit), y) == TopupNet(k, amount, limit, y)
  {
    var ms := TopupMovements(k, amount, limit);
    forall y ensures Net(ms, y) == TopupNet(k, amount, limit, y) { NetOfFew(ms, y); }
    forall asset, place ensures Flow(ms, asset, place) == 0 { FlowOfFew(ms, asset, place); }
  }

  function CashNet(k: nat, x: Topup, left: bool, fee: int, y: Account): int {
    if y == TopupHold(k, TIG) then 0 - x.amount as int else if y == TopupHold(k, Native) then 0 - x.limit as int
    else if y == (if left then Outside(TIG) else Operator(TIG)) then x.amount
    else if y == Operator(Native) then x.limit - fee else if y == Outside(Native) then fee else 0
  }

  lemma CashNets(k: nat, x: Topup, left: bool, fee: int)
    ensures Level(CashMovements(k, x, left, fee))
    ensures forall y :: Net(CashMovements(k, x, left, fee), y) == CashNet(k, x, left, fee, y)
  {
    var ms := CashMovements(k, x, left, fee);
    forall y ensures Net(ms, y) == CashNet(k, x, left, fee, y) { NetOfFew(ms, y); }
    forall asset, place ensures Flow(ms, asset, place) == 0 { FlowOfFew(ms, asset, place); }
  }

  /** A step of the books by net amounts, under one key. */
  ghost predicate ToppedUp(b: Books, c: Books, k: nat, amount: int, limit: int) {
    && BooksSound(c) && Even(c) && c.keys.Keys == b.keys.Keys + {TopupKey(k)}
    && (forall y :: Balance(c, y) == Balance(b, y) + TopupNet(k, amount, limit, y))
  }

  ghost predicate CashedIn(b: Books, c: Books, k: nat, x: Topup, left: bool, fee: int) {
    && BooksSound(c) && Even(c) && c.keys.Keys == b.keys.Keys + {CashKey(k)}
    && (forall y :: Balance(c, y) == Balance(b, y) + CashNet(k, x, left, fee, y))
  }

  function Holds(k: nat): set<Account> {
    {TopupHold(k, TIG), TopupHold(k, Native)}
  }

  lemma ToppedUpRow(b: Books, c: Books, k: nat, x: Topup)
    requires NoTopup(b, k) && x.stage == Sending && x.amount > 0 && x.limit > 0 && ToppedUp(b, c, k, x.amount, x.limit)
    ensures TopupSound(c, k, x) && Touches(b, c, Holds(k), {TopupKey(k)})
  {
  }

  lemma CashedRow(b: Books, c: Books, k: nat, x: Topup, fate: Fate, fee: int)
    requires TopupSound(b, k, x) && x.stage == Sending && CashedIn(b, c, k, x, fate == Paying, fee)
    ensures TopupSound(c, k, x.(stage := StageOf(fate))) && Touches(b, c, Holds(k), {CashKey(k)})
  {
  }

  lemma CreditedRow(b: Books, c: Books, k: nat, x: Topup)
    requires TopupSound(b, k, x) && x.stage == Awaiting && Shift(b, c, OutsideProtocol, ProtocolFees, x.amount, CreditKey(k))
    ensures TopupSound(c, k, x.(stage := Credited))
  {
  }

  lemma OnlyTopup(t: Till, u: Till, accounts: set<Account>, keys: set<Key>, k: nat)
    requires u.withdrawals == t.withdrawals && u.attempts == t.attempts && SameBut(t.topups, u.topups, k)
    requires accounts <= Holds(k) && keys <= {TopupKey(k), CashKey(k), CreditKey(k)}
    ensures (forall w: nat :: SameW(t, u, accounts, keys, w)) && (forall a: nat :: SameA(t, u, accounts, keys, a))
    ensures forall j: nat :: j != k ==> SameK(t, u, accounts, keys, j)
  {
  }

  lemma TopupStep(t: Till, u: Till, accounts: set<Account>, keys: set<Key>, k: nat)
    requires Held(t) && Touches(t.books, u.books, accounts, keys) && TopupHeld(u, k)
    requires u.withdrawals == t.withdrawals && u.attempts == t.attempts && SameBut(t.topups, u.topups, k)
    requires accounts <= Holds(k) && keys <= {TopupKey(k), CashKey(k), CreditKey(k)}
    ensures Held(u)
  {
    OnlyTopup(t, u, accounts, keys, k);
    HeldStep(t, u, accounts, keys);
  }

  function HoldBooks(t: Till): Books {
    Opened(Opened(t.books, TopupHold(|t.topups|, TIG)), TopupHold(|t.topups|, Native))
  }

  lemma PostToppedUp(t: Till, amount: nat, limit: nat)
    requires Held(t) && amount > 0 && Post(HoldBooks(t), TopupKey(|t.topups|), TopupMovements(|t.topups|, amount, limit), 0).Posted?
    ensures ToppedUp(t.books, Post(HoldBooks(t), TopupKey(|t.topups|), TopupMovements(|t.topups|, amount, limit), 0).books, |t.topups|, amount, limit)
  {
    var k := |t.topups|;
    assert TopupHeld(t, k);
    OpenMoves(t.books, TopupHold(k, TIG));
    OpenMoves(Opened(t.books, TopupHold(k, TIG)), TopupHold(k, Native));
    TopupNets(k, amount, limit);
    PostEffect(HoldBooks(t), TopupKey(k), TopupMovements(k, amount, limit), 0);
  }

  lemma TopUpBooks(t: Till, cap: Option<Cap>, request: nat, amount: nat, limit: nat, nonce: nat, now: int, allowed: bool)
    requires Held(t) && TopUp(t, cap, request, amount, limit, nonce, now, allowed) != t
    ensures var u := TopUp(t, cap, request, amount, limit, nonce, now, allowed);
      && amount > 0 && limit > 0 && !NonceTaken(t, nonce) && GasAllowed(t, cap, now, limit)
      && ToppedUp(t.books, u.books, |t.topups|, amount, limit)
      && u == t.(books := u.books, topups := t.topups + [Topup(request, amount, limit, nonce, now, Sending)])
  {
    PostToppedUp(t, amount, limit);
  }

  lemma ToppedUpHeld(t: Till, c: Books, x: Topup)
    requires Held(t) && x.stage == Sending && x.amount > 0 && x.limit > 0 && ToppedUp(t.books, c, |t.topups|, x.amount, x.limit)
    ensures Held(t.(books := c, topups := t.topups + [x]))
  {
    assert TopupHeld(t, |t.topups|);
    ToppedUpRow(t.books, c, |t.topups|, x);
    TopupStep(t, t.(books := c, topups := t.topups + [x]), Holds(|t.topups|), {TopupKey(|t.topups|)}, |t.topups|);
  }

  lemma ConcludeTopupBooks(t: Till, k: nat, tx: nat, fate: Fate, event: Option<EventId>, fee: nat)
    requires Held(t) && ConcludeTopup(t, k, tx, fate, event, fee) != t
    ensures var u := ConcludeTopup(t, k, tx, fate, event, fee);
      && k < |t.topups| && t.topups[k].stage == Sending && CashedIn(t.books, u.books, k, t.topups[k], fate == Paying, fee)
      && u == Cashed(t, u.books, k, fate, tx, event, fee)
  {
    assert TopupHeld(t, k);
    PostCashed(t.books, k, t.topups[k], fate == Paying, fee, tx);
  }

  lemma PostCashed(b: Books, k: nat, x: Topup, left: bool, fee: int, tx: int)
    requires BooksSound(b) && Even(b) && CashKey(k) !in b.keys && Post(b, CashKey(k), CashMovements(k, x, left, fee), tx).Posted?
    ensures CashedIn(b, Post(b, CashKey(k), CashMovements(k, x, left, fee), tx).books, k, x, left, fee)
  {
    CashNets(k, x, left, fee);
    PostEffect(b, CashKey(k), CashMovements(k, x, left, fee), tx);
  }

  lemma CashedHeld(t: Till, c: Books, k: nat, fate: Fate, tx: nat, event: Option<EventId>, fee: nat)
    requires Held(t) && k < |t.topups| && t.topups[k].stage == Sending && CashedIn(t.books, c, k, t.topups[k], fate == Paying, fee)
    ensures Held(Cashed(t, c, k, fate, tx, event, fee))
  {
    assert TopupHeld(t, k);
    CashedRow(t.books, c, k, t.topups[k], fate, fee);
    TopupStep(t, Cashed(t, c, k, fate, tx, event, fee), Holds(k), {CashKey(k)}, k);
  }

  lemma CreditBooks(t: Till, k: nat, topup: nat, confirmed: bool)
    requires Held(t) && CreditTopup(t, k, topup, confirmed) != t
    ensures var u := CreditTopup(t, k, topup, confirmed);
      && k < |t.topups| && t.topups[k].stage == Awaiting && Shift(t.books, u.books, OutsideProtocol, ProtocolFees, t.topups[k].amount, CreditKey(k))
      && u == t.(books := u.books, credits := t.credits[topup := k], topups := t.topups[k := t.topups[k].(stage := Credited)])
  {
    assert TopupHeld(t, k);
    PostShift(t.books, OutsideProtocol, ProtocolFees, t.topups[k].amount, CreditKey(k), topup);
  }

  lemma CreditedReady(b: Books, c: Books, k: nat, x: Topup)
    requires TopupSound(b, k, x) && x.stage == Awaiting && Shift(b, c, OutsideProtocol, ProtocolFees, x.amount, CreditKey(k))
    ensures TopupSound(c, k, x.(stage := Credited)) && Touches(b, c, Holds(k), {CreditKey(k)})
  {
    CreditedRow(b, c, k, x);
    ShiftTouches(b, c, OutsideProtocol, ProtocolFees, x.amount, CreditKey(k), Holds(k), {CreditKey(k)});
  }

  lemma CreditedHeld(t: Till, c: Books, k: nat, topup: nat)
    requires Held(t) && k < |t.topups| && t.topups[k].stage == Awaiting
    requires Shift(t.books, c, OutsideProtocol, ProtocolFees, t.topups[k].amount, CreditKey(k))
    ensures Held(t.(books := c, credits := t.credits[topup := k], topups := t.topups[k := t.topups[k].(stage := Credited)]))
  {
    assert TopupHeld(t, k);
    CreditedReady(t.books, c, k, t.topups[k]);
    TopupStep(t, t.(books := c, credits := t.credits[topup := k], topups := t.topups[k := t.topups[k].(stage := Credited)]), Holds(k), {CreditKey(k)}, k);
  }

  // ------------------------------------------------------------------ stages, nonces and explanations

  ghost predicate Tabled(t: Till) {
    Staged(t) && NoncesApart(t) && Explained(t)
  }

  /** Nothing about sends changes, and withdrawals change only among stages that involve none. */
  ghost predicate Calm(t: Till, u: Till) {
    && u.attempts == t.attempts && u.payments == t.payments && |t.withdrawals| <= |u.withdrawals|
    && (forall w :: 0 <= w < |t.withdrawals| ==>
          u.withdrawals[w] == t.withdrawals[w]
          || (u.withdrawals[w].event == t.withdrawals[w].event && u.withdrawals[w].stage !in {Unsettled, Paid} && t.withdrawals[w].stage !in {Unsettled, Paid}))
    && (forall w :: |t.withdrawals| <= w < |u.withdrawals| ==> u.withdrawals[w].stage !in {Unsettled, Paid})
  }

  lemma CalmStaged(t: Till, u: Till)
    requires Staged(t) && Calm(t, u)
    ensures Staged(u)
  {
    assert forall a: nat, w: nat :: Open(u, a, w) <==> Open(t, a, w);
    assert forall a: nat, w: nat :: Pays(u, a, w) <==> Pays(t, a, w);
  }

  lemma CalmExplained(t: Till, u: Till)
    requires Explained(t) && Staged(t) && Calm(t, u) && u.topups == t.topups
    ensures Explained(u)
  {
    assert forall s :: Exists(u, s) <==> Exists(t, s);
    assert forall a: nat, w: nat :: Pays(u, a, w) <==> Pays(t, a, w);
  }

  lemma CalmKeeps(t: Till, u: Till)
    requires Tabled(t) && Calm(t, u) && u.topups == t.topups
    ensures Tabled(u)
  {
    CalmStaged(t, u);
    CalmExplained(t, u);
    assert forall s :: Exists(u, s) <==> Exists(t, s);
    assert forall s :: Exists(t, s) ==> NonceOf(u, s) == NonceOf(t, s);
  }

  lemma BeganStaged(t: Till, c: Books, w: nat, x: Attempt)
    requires Staged(t) && w < |t.withdrawals| && t.withdrawals[w].stage == Approved && x.w == w && x.fate.None?
    ensures Staged(Began(t, c, w, x))
  {
    var u, n := Began(t, c, w, x), |t.attempts|;
    assert forall a: nat, v: nat :: Open(u, a, v) <==> Open(t, a, v) || (a == n && v == w);
    assert forall a: nat, v: nat :: Pays(u, a, v) <==> Pays(t, a, v);
    assert forall a: nat :: !Open(t, a, w) && !Pays(t, a, w);
    assert Open(u, n, w);
  }

  lemma BeganNonces(t: Till, c: Books, w: nat, x: Attempt)
    requires NoncesApart(t) && w < |t.withdrawals| && !NonceTaken(t, x.nonce)
    ensures NoncesApart(Began(t, c, w, x))
  {
    var u, n := Began(t, c, w, x), ByAttempt(|t.attempts|);
    assert forall s :: Exists(u, s) <==> Exists(t, s) || s == n;
    assert forall s :: Exists(t, s) ==> NonceOf(u, s) == NonceOf(t, s) && NonceOf(t, s) != x.nonce;
  }

  lemma BeganExplained(t: Till, c: Books, w: nat, x: Attempt)
    requires Explained(t) && Staged(t) && w < |t.withdrawals| && x.fate.None? && t.withdrawals[w].stage == Approved
    ensures Explained(Began(t, c, w, x))
  {
    var u, n := Began(t, c, w, x), ByAttempt(|t.attempts|);
    assert !Exists(t, n) && n !in t.payments;
    assert forall s :: Exists(u, s) <==> Exists(t, s) || s == n;
    assert forall s :: Exists(t, s) ==> (Done(u, s) <==> Done(t, s));
    assert forall a: nat, v: nat :: Pays(u, a, v) <==> Pays(t, a, v);
  }

  lemma ResolvedStaged(t: Till, c: Books, a: nat, fate: Fate, tx: nat, event: Option<EventId>, fee: nat)
    requires Staged(t) && a < |t.attempts| && t.attempts[a].w < |t.withdrawals| && t.attempts[a].fate.None?
    requires t.withdrawals[t.attempts[a].w].stage == Unsettled
    ensures Staged(Resolved(t, c, a, fate, tx, event, fee))
  {
    var u, w := Resolved(t, c, a, fate, tx, event, fee), t.attempts[a].w;
    assert Open(t, a, w);
    assert forall b: nat, v: nat :: Open(u, b, v) <==> Open(t, b, v) && b != a;
    assert forall b: nat, v: nat :: Pays(u, b, v) <==> Pays(t, b, v) || (b == a && v == w && fate == Paying);
    assert forall b: nat :: Open(t, b, w) ==> b == a;
    assert forall b: nat :: !Pays(t, b, w);
    if fate == Paying { assert Pays(u, a, w); }
  }

  lemma ResolvedNonces(t: Till, c: Books, a: nat, fate: Fate, tx: nat, event: Option<EventId>, fee: nat)
    requires NoncesApart(t) && a < |t.attempts| && t.attempts[a].w < |t.withdrawals|
    ensures NoncesApart(Resolved(t, c, a, fate, tx, event, fee))
  {
    var u := Resolved(t, c, a, fate, tx, event, fee);
    assert forall s :: Exists(u, s) <==> Exists(t, s);
    assert forall s :: Exists(t, s) ==> NonceOf(u, s) == NonceOf(t, s);
  }

  lemma ResolvedExplained(t: Till, c: Books, a: nat, fate: Fate, tx: nat, event: Option<EventId>, fee: nat)
    requires Explained(t) && Staged(t) && a < |t.attempts| && t.attempts[a].w < |t.withdrawals| && t.attempts[a].fate.None?
    requires t.withdrawals[t.attempts[a].w].stage == Unsettled && !TxUsed(t, tx)
    requires event.Some? ==> event.value.0 == tx
    requires fate == Paying ==> event.Some?
    ensures Explained(Resolved(t, c, a, fate, tx, event, fee))
  {
    var u, w := Resolved(t, c, a, fate, tx, event, fee), t.attempts[a].w;
    assert forall s :: Exists(u, s) <==> Exists(t, s);
    assert forall s :: Exists(t, s) ==> (Done(u, s) <==> Done(t, s) || s == ByAttempt(a));
    assert forall b: nat, v: nat :: Pays(u, b, v) <==> Pays(t, b, v) || (b == a && v == w && fate == Paying);
    assert forall b: nat :: !Pays(t, b, w);
  }

  lemma ToppedUpTables(t: Till, c: Books, x: Topup)
    requires Tabled(t) && x.stage == Sending && !NonceTaken(t, x.nonce)
    ensures Tabled(t.(books := c, topups := t.topups + [x]))
  {
    var u, n := t.(books := c, topups := t.topups + [x]), ByTopup(|t.topups|);
    assert !Exists(t, n) && n !in t.payments;
    assert forall s :: Exists(u, s) <==> Exists(t, s) || s == n;
    assert forall s :: Exists(t, s) ==> NonceOf(u, s) == NonceOf(t, s) && NonceOf(t, s) != x.nonce && (Done(u, s) <==> Done(t, s));
    CalmStaged(t, u);
    assert forall a: nat, w: nat :: Pays(u, a, w) <==> Pays(t, a, w);
  }

  lemma CashedTables(t: Till, c: Books, k: nat, fate: Fate, tx: nat, event: Option<EventId>, fee: nat)
    requires Tabled(t) && k < |t.topups| && t.topups[k].stage == Sending && !TxUsed(t, tx)
    requires event.Some? ==> event.value.0 == tx
    ensures Tabled(Cashed(t, c, k, fate, tx, event, fee))
  {
    var u := Cashed(t, c, k, fate, tx, event, fee);
    assert forall s :: Exists(u, s) <==> Exists(t, s);
    assert forall s :: Exists(t, s) ==> NonceOf(u, s) == NonceOf(t, s) && (Done(u, s) <==> Done(t, s) || s == ByTopup(k));
    assert forall a: nat, w: nat :: Open(u, a, w) <==> Open(t, a, w);
    assert forall a: nat, w: nat :: Pays(u, a, w) <==> Pays(t, a, w);
  }

  lemma CreditedTables(t: Till, c: Books, k: nat, topup: nat)
    requires Tabled(t) && k < |t.topups| && t.topups[k].stage == Awaiting
    ensures Tabled(t.(books := c, credits := t.credits[topup := k], topups := t.topups[k := t.topups[k].(stage := Credited)]))
  {
    var u := t.(books := c, credits := t.credits[topup := k], topups := t.topups[k := t.topups[k].(stage := Credited)]);
    assert forall s :: Exists(u, s) <==> Exists(t, s);
    assert forall s :: Exists(t, s) ==> NonceOf(u, s) == NonceOf(t, s) && (Done(u, s) <==> Done(t, s));
    CalmStaged(t, u);
    assert forall a: nat, w: nat :: Pays(u, a, w) <==> Pays(t, a, w);
  }

  // ------------------------------------------------------------------ what left custody

  function PaidUpTo(ws: seq<Withdrawal>, n: nat): nat
    requires n <= |ws|
  {
    if n == 0 then 0 else PaidUpTo(ws, n - 1) + if ws[n - 1].stage == Paid then ws[n - 1].amount else 0
  }

  function LeftUpTo(ks: seq<Topup>, n: nat): nat
    requires n <= |ks|
  {
    if n == 0 then 0 else LeftUpTo(ks, n - 1) + if ks[n - 1].stage.Left() then ks[n - 1].amount else 0
  }

  /** Paid withdrawals, and top-ups that left the wallet. */
  function Outgone(t: Till): nat {
    PaidUpTo(t.withdrawals, |t.withdrawals|) + LeftUpTo(t.topups, |t.topups|)
  }

  /** A step in which custody pays out exactly what the tables say it did. */
  ghost predicate Accounted(t: Till, u: Till) {
    Balance(u.books, Outside(TIG)) - Balance(t.books, Outside(TIG)) == Outgone(u) - Outgone(t)
  }

  lemma {:induction false} PaidChange(ws: seq<Withdrawal>, w: nat, x: Withdrawal, n: nat)
    requires w < |ws| && n <= |ws| && x.amount == ws[w].amount && ws[w].stage != Paid
    ensures PaidUpTo(ws[w := x], n) == PaidUpTo(ws, n) + if w < n && x.stage == Paid then x.amount else 0
  {
    if n > 0 { PaidChange(ws, w, x, n - 1); }
  }

  lemma {:induction false} PaidPrefix(ws: seq<Withdrawal>, x: Withdrawal, n: nat)
    requires n <= |ws|
    ensures PaidUpTo(ws + [x], n) == PaidUpTo(ws, n)
  {
    if n > 0 { PaidPrefix(ws, x, n - 1); }
  }

  lemma {:induction false} LeftChange(ks: seq<Topup>, k: nat, x: Topup, n: nat)
    requires k < |ks| && n <= |ks| && x.amount == ks[k].amount
    ensures LeftUpTo(ks[k := x], n) == LeftUpTo(ks, n) + if k < n then (if x.stage.Left() then x.amount else 0) - (if ks[k].stage.Left() then x.amount else 0) else 0
  {
    if n > 0 { LeftChange(ks, k, x, n - 1); }
  }

  lemma {:induction false} LeftPrefix(ks: seq<Topup>, x: Topup, n: nat)
    requires n <= |ks|
    ensures LeftUpTo(ks + [x], n) == LeftUpTo(ks, n)
  {
    if n > 0 { LeftPrefix(ks, x, n - 1); }
  }

  // ------------------------------------------------------------------ every operation keeps them

  /** The result of an operation: everything stays sound, other parts are left alone, and outflow is accounted for. */
  ghost predicate Fine(t: Till, u: Till) {
    TillSound(u) && Elsewhere(t.books, u.books) && Accounted(t, u)
  }

  lemma SourceOutside(x: Withdrawal)
    ensures Source(x).Owner() == Common && Source(x).AssetOf() == TIG && Source(x).Place() == Custody
  {
  }

  lemma AskedAccounted(t: Till, c: Books, x: Withdrawal)
    requires x.stage == Asked && Shift(t.books, c, Source(x), Pending(|t.withdrawals|), x.amount, RequestKey(|t.withdrawals|))
    ensures Accounted(t, t.(books := c, withdrawals := t.withdrawals + [x])) && Elsewhere(t.books, c)
  {
    SourceOutside(x);
    ShiftElsewhere(t.books, c, Source(x), Pending(|t.withdrawals|), x.amount, RequestKey(|t.withdrawals|));
    PaidPrefix(t.withdrawals, x, |t.withdrawals|);
  }

  lemma AskedFine(t: Till, c: Books, x: Withdrawal)
    requires TillSound(t) && x.amount > 0 && x.stage == Asked
    requires Shift(t.books, c, Source(x), Pending(|t.withdrawals|), x.amount, RequestKey(|t.withdrawals|))
    ensures Fine(t, t.(books := c, withdrawals := t.withdrawals + [x]))
  {
    AskedHeld(t, c, x);
    CalmKeeps(t, t.(books := c, withdrawals := t.withdrawals + [x]));
    AskedAccounted(t, c, x);
  }

  lemma KeepsAsk(t: Till, member: Option<string>, request: nat, amount: nat, reserve: nat, allowed: bool)
    requires TillSound(t)
    ensures Fine(t, Ask(t, member, request, amount, reserve, allowed))
  {
    if Ask(t, member, request, amount, reserve, allowed) != t {
      AskShift(t, member, request, amount, reserve, allowed);
      AskedFine(t, Ask(t, member, request, amount, reserve, allowed).books, Withdrawal(member, request, amount, reserve, Asked, None));
    }
  }

  lemma KeepsApprove(t: Till, w: nat, allowed: bool)
    requires TillSound(t)
    ensures Fine(t, Approve(t, w, allowed))
  {
    var u := Approve(t, w, allowed);
    if u != t {
      RestagedHeld(t, w, Approved);
      CalmKeeps(t, u);
      PaidChange(t.withdrawals, w, u.withdrawals[w], |t.withdrawals|);
    }
  }

  lemma ReleasedAccounted(t: Till, c: Books, w: nat, stage: Stage)
    requires w < |t.withdrawals| && t.withdrawals[w].stage.Pending() && stage in {Declined, Withdrawn}
    requires Shift(t.books, c, Pending(w), Source(t.withdrawals[w]), t.withdrawals[w].amount, ReleaseKey(w))
    ensures Accounted(t, SetStage(t, w, stage).(books := c)) && Elsewhere(t.books, c)
  {
    var x := t.withdrawals[w];
    SourceOutside(x);
    ShiftElsewhere(t.books, c, Pending(w), Source(x), x.amount, ReleaseKey(w));
    PaidChange(t.withdrawals, w, x.(stage := stage), |t.withdrawals|);
  }

  lemma ReleasedFine(t: Till, c: Books, w: nat, stage: Stage)
    requires TillSound(t) && w < |t.withdrawals| && t.withdrawals[w].stage in {Asked, Approved} && stage in {Declined, Withdrawn}
    requires Shift(t.books, c, Pending(w), Source(t.withdrawals[w]), t.withdrawals[w].amount, ReleaseKey(w))
    ensures Fine(t, SetStage(t, w, stage).(books := c))
  {
    ReleasedHeld(t, c, w, stage);
    CalmKeeps(t, SetStage(t, w, stage).(books := c));
    ReleasedAccounted(t, c, w, stage);
  }

  lemma KeepsRelease(t: Till, w: nat, byOwner: bool)
    requires TillSound(t)
    ensures Fine(t, ReleaseHold(t, w, byOwner))
  {
    if ReleaseHold(t, w, byOwner) != t {
      ReleaseShift(t, w, byOwner);
      ReleasedFine(t, ReleaseHold(t, w, byOwner).books, w, if byOwner then Withdrawn else Declined);
    }
  }

  lemma BeganAccounted(t: Till, c: Books, w: nat, x: Attempt)
    requires w < |t.withdrawals| && t.withdrawals[w].stage == Approved
    requires Shift(t.books, c, Operator(Native), SendGas(|t.attempts|), x.limit, GasKey(|t.attempts|))
    ensures Accounted(t, Began(t, c, w, x)) && Elsewhere(t.books, c)
  {
    ShiftElsewhere(t.books, c, Operator(Native), SendGas(|t.attempts|), x.limit, GasKey(|t.attempts|));
    PaidChange(t.withdrawals, w, t.withdrawals[w].(stage := Unsettled), |t.withdrawals|);
  }

  lemma BeganTables(t: Till, c: Books, w: nat, x: Attempt)
    requires Tabled(t) && w < |t.withdrawals| && t.withdrawals[w].stage == Approved && x.fate.None? && x.w == w && !NonceTaken(t, x.nonce)
    ensures Tabled(Began(t, c, w, x))
  {
    BeganStaged(t, c, w, x);
    BeganNonces(t, c, w, x);
    BeganExplained(t, c, w, x);
  }

  lemma BeganFine(t: Till, c: Books, w: nat, x: Attempt)
    requires TillSound(t) && w < |t.withdrawals| && t.withdrawals[w].stage == Approved && x.limit > 0 && x.fate.None? && x.w == w
    requires !NonceTaken(t, x.nonce) && Shift(t.books, c, Operator(Native), SendGas(|t.attempts|), x.limit, GasKey(|t.attempts|))
    ensures Fine(t, Began(t, c, w, x))
  {
    BeganHeld(t, c, w, x);
    BeganTables(t, c, w, x);
    BeganAccounted(t, c, w, x);
  }

  lemma KeepsBegin(t: Till, cap: Option<Cap>, w: nat, request: nat, nonce: nat, limit: nat, now: int, allowed: bool)
    requires TillSound(t)
    ensures Fine(t, Begin(t, cap, w, request, nonce, limit, now, allowed))
  {
    if Begin(t, cap, w, request, nonce, limit, now, allowed) != t {
      BeginShift(t, cap, w, request, nonce, limit, now, allowed);
      BeganFine(t, Begin(t, cap, w, request, nonce, limit, now, allowed).books, w, Attempt(w, request, nonce, limit, now, None));
    }
  }

  lemma ConcludeTables(t: Till, c: Books, a: nat, fate: Fate, tx: nat, event: Option<EventId>, fee: nat)
    requires Tabled(t) && a < |t.attempts| && t.attempts[a].w < |t.withdrawals| && t.attempts[a].fate.None?
    requires t.withdrawals[t.attempts[a].w].stage == Unsettled && !TxUsed(t, tx)
    requires if fate == Paying then event.Some? && event.value.0 == tx else event.None?
    ensures Tabled(Resolved(t, c, a, fate, tx, event, fee))
  {
    ResolvedStaged(t, c, a, fate, tx, event, fee);
    ResolvedNonces(t, c, a, fate, tx, event, fee);
    ResolvedExplained(t, c, a, fate, tx, event, fee);
  }

  lemma ResolvedAccounted(t: Till, c: Books, a: nat, fate: Fate, tx: nat, event: Option<EventId>, fee: nat)
    requires a < |t.attempts| && t.attempts[a].w < |t.withdrawals| && t.withdrawals[t.attempts[a].w].stage == Unsettled
    requires Settled(t.books, c, a, t.attempts[a], t.withdrawals[t.attempts[a].w].amount, fate, fee)
    ensures Accounted(t, Resolved(t, c, a, fate, tx, event, fee))
  {
    var x := t.attempts[a];
    PaidChange(t.withdrawals, x.w, Resolved(t, c, a, fate, tx, event, fee).withdrawals[x.w], |t.withdrawals|);
    assert Balance(c, Outside(TIG)) == Balance(t.books, Outside(TIG)) + OutcomeNet(a, x, t.withdrawals[x.w].amount, fate, fee, Outside(TIG));
  }

  lemma SettledLeaves(b: Books, c: Books, a: nat, x: Attempt, amount: nat, fate: Fate, fee: int)
    requires Settled(b, c, a, x, amount, fate, fee)
    ensures Elsewhere(b, c)
  {
    SettledElsewhere(b, c, a, x, amount, fate, fee, Work);
    SettledElsewhere(b, c, a, x, amount, fate, fee, Pots);
    SettledElsewhere(b, c, a, x, amount, fate, fee, Events);
  }

  lemma KeepsConclude(t: Till, a: nat, tx: nat, fate: Fate, event: Option<EventId>, fee: nat)
    requires TillSound(t) && (fate != Paying ==> event.None?)
    ensures Fine(t, Conclude(t, a, tx, fate, event, fee))
  {
    var u := Conclude(t, a, tx, fate, event, fee);
    if u != t {
      ConcludeSettles(t, a, tx, fate, event, fee);
      ResolvedHeld(t, u.books, a, fate, tx, event, fee);
      ConcludeTables(t, u.books, a, fate, tx, event, fee);
      ResolvedAccounted(t, u.books, a, fate, tx, event, fee);
      SettledLeaves(t.books, u.books, a, t.attempts[a], t.withdrawals[t.attempts[a].w].amount, fate, fee);
    }
  }

  lemma RememberedFine(t: Till, tx: nat, c: Chained)
    requires TillSound(t)
    ensures Fine(t, Remembered(t, tx, c))
  {
    var u := Remembered(t, tx, c);
    StillTouches(t.books);
    assert forall w: nat :: WithdrawalHeld(u, w) <==> WithdrawalHeld(t, w);
    assert forall a: nat :: AttemptHeld(u, a) <==> AttemptHeld(t, a);
    assert forall k: nat :: TopupHeld(u, k) <==> TopupHeld(t, k);
    CalmKeeps(t, u);
  }

  lemma FineChains(t: Till, u: Till, v: Till)
    requires Fine(t, u) && Fine(u, v)
    ensures Fine(t, v)
  {
  }

  lemma FineStill(t: Till)
    requires TillSound(t)
    ensures Fine(t, t)
  {
  }

  lemma ConcludeAfter(t: Till, u: Till, a: nat, tx: nat, fate: Fate, event: Option<EventId>, fee: nat)
    requires Fine(t, u) && (fate != Paying ==> event.None?)
    ensures Fine(t, Conclude(u, a, tx, fate, event, fee))
  {
    KeepsConclude(u, a, tx, fate, event, fee);
    FineChains(t, u, Conclude(u, a, tx, fate, event, fee));
  }

  /** Fate none leaves only the transaction remembered. */
  lemma JudgedFine(t: Till, a: nat, tx: nat, c: Chained, fate: Option<Fate>, event: Option<EventId>)
    requires TillSound(t)
    ensures fate.None? ==> Fine(t, Remembered(t, tx, c))
    ensures fate.Some? ==>
      Fine(t, Conclude(Remembered(t, tx, c), a, tx, fate.value, if fate.value == Paying then event else None, c.fee))
  {
    RememberedFine(t, tx, c);
    if fate.Some? {
      ConcludeAfter(t, Remembered(t, tx, c), a, tx, fate.value, if fate.value == Paying then event else None, c.fee);
    }
  }

  lemma KeepsReconcile(t: Till, a: nat, tx: nat, c: Chained, event: Option<EventId>, exact: bool, empty: bool)
    requires TillSound(t)
    ensures Fine(t, Reconcile(t, a, tx, c, event, exact, empty))
  {
    if Reconcile(t, a, tx, c, event, exact, empty) == t {
      FineStill(t);
    } else {
      JudgedFine(t, a, tx, c, FateOf(c.successful, event, exact, empty), event);
    }
  }

  lemma KeepsSponsored(t: Till, a: nat, tx: nat, c: Chained, event: EventId, exact: bool)
    requires TillSound(t)
    ensures Fine(t, ReconcileSponsored(t, a, tx, c, event, exact))
  {
    FineStill(t);
    RememberedFine(t, tx, c);
    ConcludeAfter(t, Remembered(t, tx, c), a, tx, Paying, Some(event), 0);
  }

  lemma ToppedUpElsewhere(b: Books, c: Books, k: nat, amount: int, limit: int, part: Domain)
    requires ToppedUp(b, c, k, amount, limit) && part in {Work, Pots, Events, Chain}
    ensures Leaves(b, c, part)
  {
  }

  lemma CashedElsewhere(b: Books, c: Books, k: nat, x: Topup, left: bool, fee: int, part: Domain)
    requires CashedIn(b, c, k, x, left, fee) && part in {Work, Pots, Events}
    ensures Leaves(b, c, part)
  {
  }

  lemma ToppedUpAccounted(t: Till, c: Books, x: Topup)
    requires x.stage == Sending && ToppedUp(t.books, c, |t.topups|, x.amount, x.limit)
    ensures Accounted(t, t.(books := c, topups := t.topups + [x])) && Elsewhere(t.books, c)
  {
    ToppedUpElsewhere(t.books, c, |t.topups|, x.amount, x.limit, Work);
    ToppedUpElsewhere(t.books, c, |t.topups|, x.amount, x.limit, Pots);
    ToppedUpElsewhere(t.books, c, |t.topups|, x.amount, x.limit, Events);
    ToppedUpOutside(t, c, x);
  }

  lemma ToppedUpOutside(t: Till, c: Books, x: Topup)
    requires x.stage == Sending && ToppedUp(t.books, c, |t.topups|, x.amount, x.limit)
    ensures Accounted(t, t.(books := c, topups := t.topups + [x]))
  {
    assert TopupNet(|t.topups|, x.amount, x.limit, Outside(TIG)) == 0;
    LeftPrefix(t.topups, x, |t.topups|);
  }

  lemma ToppedUpFine(t: Till, c: Books, x: Topup)
    requires TillSound(t) && x.stage == Sending && x.amount > 0 && x.limit > 0 && !NonceTaken(t, x.nonce)
    requires ToppedUp(t.books, c, |t.topups|, x.amount, x.limit)
    ensures Fine(t, t.(books := c, topups := t.topups + [x]))
  {
    ToppedUpHeld(t, c, x);
    ToppedUpTables(t, c, x);
    ToppedUpAccounted(t, c, x);
  }

  lemma KeepsTopUp(t: Till, cap: Option<Cap>, request: nat, amount: nat, limit: nat, nonce: nat, now: int, allowed: bool)
    requires TillSound(t)
    ensures Fine(t, TopUp(t, cap, request, amount, limit, nonce, now, allowed))
  {
    if TopUp(t, cap, request, amount, limit, nonce, now, allowed) != t {
      TopUpBooks(t, cap, request, amount, limit, nonce, now, allowed);
      ToppedUpFine(t, TopUp(t, cap, request, amount, limit, nonce, now, allowed).books, Topup(request, amount, limit, nonce, now, Sending));
    }
  }

  lemma CashedAccounted(t: Till, c: Books, k: nat, fate: Fate, tx: nat, event: Option<EventId>, fee: nat)
    requires k < |t.topups| && t.topups[k].stage == Sending && CashedIn(t.books, c, k, t.topups[k], fate == Paying, fee)
    ensures Accounted(t, Cashed(t, c, k, fate, tx, event, fee))
  {
    LeftChange(t.topups, k, t.topups[k].(stage := StageOf(fate)), |t.topups|);
    assert Balance(c, Outside(TIG)) == Balance(t.books, Outside(TIG)) + CashNet(k, t.topups[k], fate == Paying, fee, Outside(TIG));
  }

  lemma CashedLeaves(b: Books, c: Books, k: nat, x: Topup, left: bool, fee: int)
    requires CashedIn(b, c, k, x, left, fee)
    ensures Elsewhere(b, c)
  {
    CashedElsewhere(b, c, k, x, left, fee, Work);
    CashedElsewhere(b, c, k, x, left, fee, Pots);
    CashedElsewhere(b, c, k, x, left, fee, Events);
  }

  lemma KeepsConcludeTopup(t: Till, k: nat, tx: nat, fate: Fate, event: Option<EventId>, fee: nat)
    requires TillSound(t) && (fate != Paying ==> event.None?)
    ensures Fine(t, ConcludeTopup(t, k, tx, fate, event, fee))
  {
    var u := ConcludeTopup(t, k, tx, fate, event, fee);
    if u != t {
      ConcludeTopupBooks(t, k, tx, fate, event, fee);
      CashedHeld(t, u.books, k, fate, tx, event, fee);
      CashedTables(t, u.books, k, fate, tx, event, fee);
      CashedAccounted(t, u.books, k, fate, tx, event, fee);
      CashedLeaves(t.books, u.books, k, t.topups[k], fate == Paying, fee);
    }
  }

  lemma ConcludeTopupAfter(t: Till, u: Till, k: nat, tx: nat, fate: Fate, event: Option<EventId>, fee: nat)
    requires Fine(t, u) && (fate != Paying ==> event.None?)
    ensures Fine(t, ConcludeTopup(u, k, tx, fate, event, fee))
  {
    KeepsConcludeTopup(u, k, tx, fate, event, fee);
    FineChains(t, u, ConcludeTopup(u, k, tx, fate, event, fee));
  }

  lemma JudgedTopupFine(t: Till, k: nat, tx: nat, c: Chained, fate: Option<Fate>, event: Option<EventId>)
    requires TillSound(t)
    ensures fate.None? ==> Fine(t, Remembered(t, tx, c))
    ensures fate.Some? ==>
      Fine(t, ConcludeTopup(Remembered(t, tx, c), k, tx, fate.value, if fate.value == Paying then event else None, c.fee))
  {
    RememberedFine(t, tx, c);
    if fate.Some? {
      ConcludeTopupAfter(t, Remembered(t, tx, c), k, tx, fate.value, if fate.value == Paying then event else None, c.fee);
    }
  }

  lemma KeepsReconcileTopup(t: Till, k: nat, tx: nat, c: Chained, event: Option<EventId>, exact: bool, empty: bool)
    requires TillSound(t)
    ensures Fine(t, ReconcileTopup(t, k, tx, c, event, exact, empty))
  {
    if ReconcileTopup(t, k, tx, c, event, exact, empty) == t {
      FineStill(t);
    } else {
      JudgedTopupFine(t, k, tx, c, FateOf(c.successful, event, exact, empty), event);
    }
  }

  function CreditedTill(t: Till, c: Books, k: nat, topup: nat): Till
    requires k < |t.topups|
  {
    t.(books := c, credits := t.credits[topup := k], topups := t.topups[k := t.topups[k].(stage := Credited)])
  }

  lemma CreditedAccounted(t: Till, c: Books, k: nat, topup: nat)
    requires k < |t.topups| && t.topups[k].stage == Awaiting && Shift(t.books, c, OutsideProtocol, ProtocolFees, t.topups[k].amount, CreditKey(k))
    ensures Accounted(t, CreditedTill(t, c, k, topup)) && Elsewhere(t.books, c)
  {
    ShiftElsewhere(t.books, c, OutsideProtocol, ProtocolFees, t.topups[k].amount, CreditKey(k));
    LeftChange(t.topups, k, t.topups[k].(stage := Credited), |t.topups|);
  }

  lemma CreditedFine(t: Till, c: Books, k: nat, topup: nat)
    requires TillSound(t) && k < |t.topups| && t.topups[k].stage == Awaiting
    requires Shift(t.books, c, OutsideProtocol, ProtocolFees, t.topups[k].amount, CreditKey(k))
    ensures Fine(t, CreditedTill(t, c, k, topup))
  {
    CreditedHeld(t, c, k, topup);
    CreditedTables(t, c, k, topup);
    CreditedAccounted(t, c, k, topup);
  }

  lemma KeepsCredit(t: Till, k: nat, topup: nat, confirmed: bool)
    requires TillSound(t)
    ensures Fine(t, CreditTopup(t, k, topup, confirmed))
  {
    if CreditTopup(t, k, topup, confirmed) != t {
      CreditBooks(t, k, topup, confirmed);
      CreditedFine(t, CreditTopup(t, k, topup, confirmed).books, k, topup);
    }
  }

  lemma OthersHeld(t: Till, c: Books)
    requires Held(t) && BooksSound(c) && Even(c) && Leaves(t.books, c, Payments)
    ensures Held(t.(books := c)) && Touches(t.books, c, {}, {})
  {
    var u := t.(books := c);
    assert Touches(t.books, c, {}, {});
    assert forall w: nat :: SameW(t, u, {}, {}, w);
    assert forall a: nat :: SameA(t, u, {}, {}, a);
    assert forall k: nat :: SameK(t, u, {}, {}, k);
    HeldStep(t, u, {}, {});
  }

  /** Steps of other parts of the pool leave payments as they are. */
  lemma OthersKeepTill(t: Till, c: Books)
    requires TillSound(t) && BooksSound(c) && Even(c) && Leaves(t.books, c, Payments)
    ensures TillSound(t.(books := c))
  {
    OthersHeld(t, c);
    CalmKeeps(t, t.(books := c));
  }

  // ------------------------------------------------------------------ what the invariant says

  /** A withdrawal's hold is its amount exactly while it is asked, approved or unsettled; it is unsettled exactly when
      one attempt lacks an outcome; and it is paid exactly when one attempt paid it. */
  lemma WithdrawalMeaning(t: Till, w: nat)
    requires TillSound(t) && w < |t.withdrawals|
    ensures Balance(t.books, Pending(w)) == (if t.withdrawals[w].stage.Pending() then t.withdrawals[w].amount else 0)
    ensures t.withdrawals[w].stage == Unsettled <==> exists a: nat :: Open(t, a, w)
    ensures forall a: nat, b: nat :: Open(t, a, w) && Open(t, b, w) ==> a == b
    ensures t.withdrawals[w].stage == Paid <==> exists a: nat :: Pays(t, a, w)
    ensures forall a: nat, b: nat :: Pays(t, a, w) && Pays(t, b, w) ==> a == b
  {
    assert WithdrawalHeld(t, w);
  }

  /** Gas is held in full until the attempt is resolved, and then not at all. */
  lemma GasMeaning(t: Till, a: nat)
    requires TillSound(t) && a < |t.attempts|
    ensures Balance(t.books, SendGas(a)) == (if t.attempts[a].fate.None? then t.attempts[a].limit else 0)
  {
    assert AttemptHeld(t, a);
  }

  /** So are the two holds of a top-up. */
  lemma TopupMeaning(t: Till, k: nat)
    requires TillSound(t) && k < |t.topups|
    ensures Balance(t.books, TopupHold(k, TIG)) == (if t.topups[k].stage == Sending then t.topups[k].amount else 0)
    ensures Balance(t.books, TopupHold(k, Native)) == (if t.topups[k].stage == Sending then t.topups[k].limit else 0)
  {
    assert TopupHeld(t, k);
  }

  /** Each nonce, each transaction and each token event explains at most one send. */
  lemma OneExplanationEach(t: Till, s: Send, r: Send)
    requires TillSound(t) && s != r
    ensures Exists(t, s) && Exists(t, r) ==> NonceOf(t, s) != NonceOf(t, r)
    ensures s in t.payments && r in t.payments ==> t.payments[s].tx != t.payments[r].tx
    ensures s in t.payments && r in t.payments && t.payments[s].event.Some? ==> t.payments[s].event != t.payments[r].event
  {
  }

  lemma SettledOutflow(b: Books, c: Books, a: nat, x: Attempt, amount: nat, fate: Fate, fee: int)
    requires Settled(b, c, a, x, amount, fate, fee)
    ensures Balance(c, Outside(TIG)) - Balance(b, Outside(TIG)) == if fate == Paying then amount else 0
  {
    assert Balance(c, Outside(TIG)) == Balance(b, Outside(TIG)) + OutcomeNet(a, x, amount, fate, fee, Outside(TIG));
  }

  /** An attempt moves either nothing or its withdrawal's full amount out of custody, the latter exactly when it pays. */
  lemma AllOrNothing(t: Till, a: nat, tx: nat, fate: Fate, event: Option<EventId>, fee: nat)
    requires Held(t)
    ensures var u := Conclude(t, a, tx, fate, event, fee);
      Balance(u.books, Outside(TIG)) - Balance(t.books, Outside(TIG))
        == (if u != t && fate == Paying then t.withdrawals[t.attempts[a].w].amount else 0)
  {
    var u := Conclude(t, a, tx, fate, event, fee);
    if u != t {
      ConcludeSettles(t, a, tx, fate, event, fee);
      SettledOutflow(t.books, u.books, a, t.attempts[a], t.withdrawals[t.attempts[a].w].amount, fate, fee);
    }
  }

  // ------------------------------------------------------------------ the rolling gas window

  function GasFrom(t: Till, from: int, window: nat): nat {
    Gas(t, from, from + window)
  }

  ghost predicate GasTimely(t: Till, clock: int) {
    && (forall a :: 0 <= a < |t.attempts| ==> t.attempts[a].sentAt <= clock)
    && (forall k :: 0 <= k < |t.topups| ==> t.topups[k].sentAt <= clock)
  }

  /** In every interval of the window's length, withdrawal attempts and top-ups together stay within the limit. */
  ghost predicate GasWithin(t: Till, cap: Option<Cap>) {
    && (cap.None? ==> t.attempts == [] && t.topups == [])
    && (cap.Some? ==> forall from: int :: GasFrom(t, from, cap.value.window) <= cap.value.gasWindow)
  }

  lemma {:induction false} AttemptGasLate(xs: seq<Attempt>, n: nat, from: int, to: int, since: int, now: int)
    requires n <= |xs| && since <= from && forall a :: 0 <= a < |xs| ==> xs[a].sentAt <= now
    ensures AttemptGas(xs, n, from, to) <= AttemptGas(xs, n, since, now)
  {
    if n > 0 { AttemptGasLate(xs, n - 1, from, to, since, now); }
  }

  lemma {:induction false} TopupGasLate(xs: seq<Topup>, n: nat, from: int, to: int, since: int, now: int)
    requires n <= |xs| && since <= from && forall k :: 0 <= k < |xs| ==> xs[k].sentAt <= now
    ensures TopupGas(xs, n, from, to) <= TopupGas(xs, n, since, now)
  {
    if n > 0 { TopupGasLate(xs, n - 1, from, to, since, now); }
  }

  lemma {:induction false} AttemptGasSame(xs: seq<Attempt>, ys: seq<Attempt>, n: nat, from: int, to: int)
    requires n <= |xs| && n <= |ys| && forall a :: 0 <= a < n ==> ys[a].limit == xs[a].limit && ys[a].sentAt == xs[a].sentAt
    ensures AttemptGas(ys, n, from, to) == AttemptGas(xs, n, from, to)
  {
    if n > 0 { AttemptGasSame(xs, ys, n - 1, from, to); }
  }

  lemma {:induction false} TopupGasSame(xs: seq<Topup>, ys: seq<Topup>, n: nat, from: int, to: int)
    requires n <= |xs| && n <= |ys| && forall k :: 0 <= k < n ==> ys[k].limit == xs[k].limit && ys[k].sentAt == xs[k].sentAt
    ensures TopupGas(ys, n, from, to) == TopupGas(xs, n, from, to)
  {
    if n > 0 { TopupGasSame(xs, ys, n - 1, from, to); }
  }

  /** The sends of u are those of t, and perhaps one more. */
  ghost predicate SendsAdd(t: Till, u: Till, limit: nat, now: int) {
    && |t.attempts| <= |u.attempts| && |t.topups| <= |u.topups| && |u.attempts| + |u.topups| <= |t.attempts| + |t.topups| + 1
    && (forall a :: 0 <= a < |t.attempts| ==> u.attempts[a].limit == t.attempts[a].limit && u.attempts[a].sentAt == t.attempts[a].sentAt)
    && (forall k :: 0 <= k < |t.topups| ==> u.topups[k].limit == t.topups[k].limit && u.topups[k].sentAt == t.topups[k].sentAt)
    && (forall a :: |t.attempts| <= a < |u.attempts| ==> u.attempts[a].limit == limit && u.attempts[a].sentAt == now)
    && (forall k :: |t.topups| <= k < |u.topups| ==> u.topups[k].limit == limit && u.topups[k].sentAt == now)
  }

  lemma GasAdds(t: Till, u: Till, limit: nat, now: int, from: int, to: int)
    requires SendsAdd(t, u, limit, now)
    ensures Gas(u, from, to) == Gas(t, from, to)
      + if from < now <= to && |u.attempts| + |u.topups| > |t.attempts| + |t.topups| then limit else 0
  {
    AttemptGasSame(t.attempts, u.attempts, |t.attempts|, from, to);
    TopupGasSame(t.topups, u.topups, |t.topups|, from, to);
  }

  lemma GasStaysWithin(t: Till, u: Till, cap: Option<Cap>, limit: nat, now: int)
    requires GasWithin(t, cap) && GasTimely(t, now) && SendsAdd(t, u, limit, now)
    requires |u.attempts| + |u.topups| > |t.attempts| + |t.topups| ==> GasAllowed(t, cap, now, limit)
    ensures GasWithin(u, cap) && GasTimely(u, now)
  {
    if cap.Some? {
      forall from: int ensures GasFrom(u, from, cap.value.window) <= cap.value.gasWindow {
        var to := from + cap.value.window;
        GasAdds(t, u, limit, now, from, to);
        assert GasFrom(t, from, cap.value.window) <= cap.value.gasWindow;
        if from < now <= to {
          AttemptGasLate(t.attempts, |t.attempts|, from, to, now - cap.value.window, now);
          TopupGasLate(t.topups, |t.topups|, from, to, now - cap.value.window, now);
        }
      }
    }
  }

  // ------------------------------------------------------------------ operations, seen from outside

  /** An operation that begins no send. */
  ghost predicate NoSend(t: Till, u: Till) {
    && |u.attempts| == |t.attempts| && |u.topups| == |t.topups|
    && (forall a :: 0 <= a < |t.attempts| ==> u.attempts[a].limit == t.attempts[a].limit && u.attempts[a].sentAt == t.attempts[a].sentAt)
    && (forall k :: 0 <= k < |t.topups| ==> u.topups[k].limit == t.topups[k].limit && u.topups[k].sentAt == t.topups[k].sentAt)
  }

  lemma NoSendStaysWithin(t: Till, u: Till, cap: Option<Cap>, clock: int)
    requires GasWithin(t, cap) && GasTimely(t, clock) && NoSend(t, u)
    ensures GasWithin(u, cap) && GasTimely(u, clock)
  {
    GasStaysWithin(t, u, cap, 0, clock);
  }

  lemma ResolvedSendsNothing(t: Till, c: Books, a: nat, fate: Fate, tx: nat, event: Option<EventId>, fee: nat)
    requires a < |t.attempts| && t.attempts[a].w < |t.withdrawals|
    ensures NoSend(t, Resolved(t, c, a, fate, tx, event, fee))
  {
  }

  lemma CashedSendsNothing(t: Till, c: Books, k: nat, fate: Fate, tx: nat, event: Option<EventId>, fee: nat)
    requires k < |t.topups|
    ensures NoSend(t, Cashed(t, c, k, fate, tx, event, fee))
  {
  }

  lemma ConcludesQuietly(t: Till, a: nat, tx: nat, fate: Fate, event: Option<EventId>, fee: nat)
    requires KeysSound(t.books)
    ensures NoSend(t, Conclude(t, a, tx, fate, event, fee)) && NoSend(t, ConcludeTopup(t, a, tx, fate, event, fee))
  {
    if Conclude(t, a, tx, fate, event, fee) != t {
      ResolvedSendsNothing(t, Conclude(t, a, tx, fate, event, fee).books, a, fate, tx, event, fee);
    }
    if ConcludeTopup(t, a, tx, fate, event, fee) != t {
      CashedSendsNothing(t, ConcludeTopup(t, a, tx, fate, event, fee).books, a, fate, tx, event, fee);
    }
  }

  ghost predicate Quietly(t: Till, u: Till) {
    Fine(t, u) && NoSend(t, u)
  }

  lemma ReconcileSendsNothing(t: Till, a: nat, tx: nat, c: Chained, event: Option<EventId>, exact: bool, empty: bool)
    requires KeysSound(t.books)
    ensures NoSend(t, Reconcile(t, a, tx, c, event, exact, empty)) && NoSend(t, ReconcileTopup(t, a, tx, c, event, exact, empty))
  {
    var u, fate := Remembered(t, tx, c), FateOf(c.successful, event, exact, empty);
    if fate.Some? {
      var e := if fate.value == Paying then event else None;
      ConcludesQuietly(u, a, tx, fate.value, e, c.fee);
      NoSendChains(t, u, Conclude(u, a, tx, fate.value, e, c.fee));
      NoSendChains(t, u, ConcludeTopup(u, a, tx, fate.value, e, c.fee));
    }
  }

  lemma NoSendChains(t: Till, u: Till, v: Till)
    requires NoSend(t, u) && NoSend(u, v)
    ensures NoSend(t, v)
  {
  }

  lemma ReconcilesQuietly(t: Till, a: nat, tx: nat, c: Chained, event: Option<EventId>, exact: bool, empty: bool)
    requires TillSound(t)
    ensures Quietly(t, Reconcile(t, a, tx, c, event, exact, empty))
  {
    KeepsReconcile(t, a, tx, c, event, exact, empty);
    ReconcileSendsNothing(t, a, tx, c, event, exact, empty);
  }

  lemma ReconcilesTopupQuietly(t: Till, k: nat, tx: nat, c: Chained, event: Option<EventId>, exact: bool, empty: bool)
    requires TillSound(t)
    ensures Quietly(t, ReconcileTopup(t, k, tx, c, event, exact, empty))
  {
    KeepsReconcileTopup(t, k, tx, c, event, exact, empty);
    ReconcileSendsNothing(t, k, tx, c, event, exact, empty);
  }

  lemma SponsorsQuietly(t: Till, a: nat, tx: nat, c: Chained, event: EventId, exact: bool)
    requires TillSound(t)
    ensures Quietly(t, ReconcileSponsored(t, a, tx, c, event, exact))
  {
    KeepsSponsored(t, a, tx, c, event, exact);
    ConcludesQuietly(Remembered(t, tx, c), a, tx, Paying, Some(event), 0);
  }

  lemma CreditsQuietly(t: Till, k: nat, topup: nat, confirmed: bool)
    requires TillSound(t)
    ensures Quietly(t, CreditTopup(t, k, topup, confirmed))
  {
    KeepsCredit(t, k, topup, confirmed);
  }

  lemma AsksQuietly(t: Till, member: Option<string>, request: nat, amount: nat, reserve: nat, allowed: bool)
    requires TillSound(t)
    ensures Quietly(t, Ask(t, member, request, amount, reserve, allowed))
  {
    KeepsAsk(t, member, request, amount, reserve, allowed);
  }

  lemma DecidesQuietly(t: Till, w: nat, allowed: bool, byOwner: bool)
    requires TillSound(t)
    ensures Quietly(t, Approve(t, w, allowed)) && Quietly(t, ReleaseHold(t, w, byOwner))
  {
    KeepsApprove(t, w, allowed);
    KeepsRelease(t, w, byOwner);
  }

  /** An operation that may begin one send, within its gas limit. */
  ghost predicate MaySend(t: Till, u: Till, cap: Option<Cap>, limit: nat, now: int) {
    Fine(t, u) && SendsAdd(t, u, limit, now) && (u != t ==> GasAllowed(t, cap, now, limit))
  }

  lemma BeginMaySend(t: Till, cap: Option<Cap>, w: nat, request: nat, nonce: nat, limit: nat, now: int, allowed: bool)
    requires TillSound(t)
    ensures MaySend(t, Begin(t, cap, w, request, nonce, limit, now, allowed), cap, limit, now)
  {
    KeepsBegin(t, cap, w, request, nonce, limit, now, allowed);
  }

  lemma TopUpMaySend(t: Till, cap: Option<Cap>, request: nat, amount: nat, limit: nat, nonce: nat, now: int, allowed: bool)
    requires TillSound(t)
    ensures MaySend(t, TopUp(t, cap, request, amount, limit, nonce, now, allowed), cap, limit, now)
  {
    KeepsTopUp(t, cap, request, amount, limit, nonce, now, allowed);
  }

  // ------------------------------------------------------------------ the tables

  /** The withdrawal, attempt, top-up and chain tables over the shared journal.  A method that raises in the original
      returns false and its transaction is rolled back. */
  class PaymentDesk {
    const journal: JournalStore
    var withdrawals: seq<Withdrawal>
    var attempts: seq<Attempt>
    var topups: seq<Topup>
    var chain: map<nat, Chained>
    var payments: map<Send, Payment>
    var credits: map<nat, nat>

    constructor (journal: JournalStore)
      ensures this.journal == journal && fresh(this)
      ensures Contents() == Till(journal.Contents(), [], [], [], map[], map[], map[])
    {
      this.journal := journal;
      withdrawals, attempts, topups, chain, payments, credits := [], [], [], map[], map[], map[];
    }

    function Contents(): Till
      reads this, journal
    {
      Till(journal.Contents(), withdrawals, attempts, topups, chain, payments, credits)
    }

    /** Gas ceilings of all custody sends inside the window. */
    method CommittedGas(since: int, now: int) returns (total: nat)
      ensures total == Gas(Contents(), since, now)
    {
      total := 0;
      for a := 0 to |attempts|
        invariant total == AttemptGas(attempts, a, since, now)
      {
        if since < attempts[a].sentAt <= now { total := total + attempts[a].limit; }
      }
      for k := 0 to |topups|
        invariant total == AttemptGas(attempts, |attempts|, since, now) + TopupGas(topups, k, since, now)
      {
        if since < topups[k].sentAt <= now { total := total + topups[k].limit; }
      }
    }

    method CheckGas(cap: Option<Cap>, now: int, limit: nat) returns (ok: bool)
      ensures ok == GasAllowed(Contents(), cap, now, limit)
    {
      if cap.None? || limit == 0 || limit > cap.value.gasAttempt { return false; }
      var used := CommittedGas(now - cap.value.window, now);
      return used + limit <= cap.value.gasWindow;
    }

    /** Confirmed transaction facts are written once. */
    method SaveTransaction(tx: nat, c: Chained) returns (ok: bool)
      modifies `chain
      ensures ok == Consistent(old(Contents()), tx, c)
      ensures ok <==> if tx in old(chain) then old(chain)[tx] == c
                      else forall y :: y in old(chain) ==> old(chain)[y].sender != c.sender || old(chain)[y].nonce != c.nonce
      ensures chain == if ok then old(chain)[tx := c] else old(chain)
      ensures Contents() == Remembered(old(Contents()), tx, c)
    {
      if tx in chain {
        assert chain[tx] == c ==> chain[tx := c] == chain;
        return chain[tx] == c;
      }
      if exists y :: y in chain && chain[y].sender == c.sender && chain[y].nonce == c.nonce { return false; }
      chain := chain[tx := c];
      return true;
    }

    method RequestWithdrawal(member: Option<string>, request: nat, amount: nat, reserve: nat, allowed: bool) returns (ok: bool)
      requires KeysSound(journal.Contents())
      modifies `withdrawals, journal
      ensures Contents() == Ask(old(Contents()), member, request, amount, reserve, allowed)
      ensures ok == (|withdrawals| > |old(withdrawals)|)
    {
      if amount == 0 || AskedBefore(Contents(), member, request) || HasPending(Contents(), member) || !allowed { return false; }
      if member.None? && Balance(journal.Contents(), Operator(TIG)) < amount + reserve { return false; }
      var before := journal.Contents();
      var w := |withdrawals|;
      var x := Withdrawal(member, request, amount, reserve, Asked, None);
      journal.Open(Pending(w));
      var refusal, id := journal.PostMovements(RequestKey(w), TransferMovements(Source(x), Pending(w), amount), 0);
      if refusal.Some? { journal.Restore(before); return false; }
      withdrawals := withdrawals + [x];
      return true;
    }

    method ApproveWithdrawal(w: nat, allowed: bool)
      modifies `withdrawals
      ensures Contents() == Approve(old(Contents()), w, allowed)
    {
      if w < |withdrawals| && withdrawals[w].stage == Asked && allowed {
        withdrawals := withdrawals[w := withdrawals[w].(stage := Approved)];
      }
    }

    method ReleaseWithdrawal(w: nat, byOwner: bool) returns (ok: bool)
      requires KeysSound(journal.Contents())
      modifies `withdrawals, journal
      ensures Contents() == ReleaseHold(old(Contents()), w, byOwner)
      ensures ok == (withdrawals != old(withdrawals))
    {
      if w >= |withdrawals| || withdrawals[w].stage !in {Asked, Approved} { return false; }
      var x := withdrawals[w];
      var refusal, id := journal.PostMovements(ReleaseKey(w), TransferMovements(Pending(w), Source(x), x.amount), if byOwner then 1 else 0);
      if refusal.Some? { return false; }
      withdrawals := withdrawals[w := x.(stage := if byOwner then Withdrawn else Declined)];
      return true;
    }

    method BeginSend(cap: Option<Cap>, w: nat, request: nat, nonce: nat, limit: nat, now: int, allowed: bool) returns (ok: bool)
      requires KeysSound(journal.Contents())
      modifies `withdrawals, `attempts, journal
      ensures Contents() == Begin(old(Contents()), cap, w, request, nonce, limit, now, allowed)
      ensures ok == (|attempts| > |old(attempts)|)
    {
      if w >= |withdrawals| || Tried(Contents(), w, request) || !allowed || withdrawals[w].stage != Approved { return false; }
      if withdrawals[w].member.None? && Balance(journal.Contents(), Operator(TIG)) < withdrawals[w].reserve { return false; }
      var affordable := CheckGas(cap, now, limit);
      if !affordable || NonceTaken(Contents(), nonce) { return false; }
      var before := journal.Contents();
      var a := |attempts|;
      journal.Open(SendGas(a));
      var refusal, id := journal.PostMovements(GasKey(a), TransferMovements(Operator(Native), SendGas(a), limit), 0);
      if refusal.Some? { journal.Restore(before); return false; }
      attempts := attempts + [Attempt(w, request, nonce, limit, now, None)];
      withdrawals := withdrawals[w := withdrawals[w].(stage := Unsettled)];
      return true;
    }

    method ConcludeSend(a: nat, tx: nat, fate: Fate, event: Option<EventId>, fee: nat) returns (ok: bool)
      requires KeysSound(journal.Contents())
      modifies `withdrawals, `attempts, `payments, journal
      ensures Contents() == Conclude(old(Contents()), a, tx, fate, event, fee)
      ensures !ok ==> Contents() == old(Contents())
      ensures ok ==> a < |attempts| && attempts[a].fate == Some(fate) && old(attempts)[a].fate.None?
    {
      if a >= |attempts| || attempts[a].w >= |withdrawals| || attempts[a].fate.Some? { return false; }
      var x := attempts[a];
      var w := withdrawals[x.w];
      if w.stage != Unsettled { return false; }
      if fate == Paying && (event.None? || event.value.0 != tx || EventPaid(Contents(), event.value)) { return false; }
      if TxUsed(Contents(), tx) || ByAttempt(a) in payments { return false; }
      var refusal, id := journal.PostMovements(OutcomeKey(a), OutcomeMovements(a, x, w, fate, fee), tx);
      if refusal.Some? { return false; }
      payments := payments[ByAttempt(a) := Payment(tx, event, fee)];
      attempts := attempts[a := x.(fate := Some(fate))];
      if fate == Paying {
        withdrawals := withdrawals[x.w := w.(stage := Paid, event := event)];
      } else {
        withdrawals := withdrawals[x.w := w.(stage := Approved)];
      }
      return true;
    }

    /** Two transactions: the chain evidence is kept whatever becomes of the accounting. */
    method ReconcileSend(a: nat, tx: nat, c: Chained, event: Option<EventId>, exact: bool, empty: bool) returns (ok: bool)
      requires KeysSound(journal.Contents())
      modifies `withdrawals, `attempts, `payments, `chain, journal
      ensures Contents() == Reconcile(old(Contents()), a, tx, c, event, exact, empty)
      ensures ok == (attempts != old(attempts))
      ensures !ok ==> withdrawals == old(withdrawals) && payments == old(payments) && journal.Contents() == old(journal.Contents())
      ensures ok ==>
        && a < |attempts| && old(attempts)[a].fate.None? && c.sender == 0 && c.nonce == old(attempts)[a].nonce
        && (attempts[a].fate == Some(Paying) <==> c.successful && event.Some?) && (attempts[a].fate == Some(Paying) ==> exact)
        && (attempts[a].fate == Some(Reverted) <==> !c.successful) && (attempts[a].fate == Some(Reverted) ==> event.None?)
        && (attempts[a].fate == Some(Voided) ==> c.successful && event.None? && empty)
    {
      if a >= |attempts| || c.sender != 0 || c.nonce != attempts[a].nonce { return false; }
      var saved := SaveTransaction(tx, c);
      if !saved { return false; }
      var fate := FateOf(c.successful, event, exact, empty);
      if fate.None? { return false; }
      ok := ConcludeSend(a, tx, fate.value, if fate.value == Paying then event else None, c.fee);
    }

    method StartTopup(cap: Option<Cap>, request: nat, amount: nat, limit: nat, nonce: nat, now: int, allowed: bool) returns (ok: bool)
      requires KeysSound(journal.Contents())
      modifies `topups, journal
      ensures Contents() == TopUp(old(Contents()), cap, request, amount, limit, nonce, now, allowed)
      ensures ok == (|topups| > |old(topups)|)
    {
      if amount == 0 || ToppedBefore(Contents(), request) || !allowed { return false; }
      var affordable := CheckGas(cap, now, limit);
      if !affordable || NonceTaken(Contents(), nonce) { return false; }
      var before := journal.Contents();
      var k := |topups|;
      journal.Open(TopupHold(k, TIG));
      journal.Open(TopupHold(k, Native));
      var refusal, id := journal.PostMovements(TopupKey(k), TopupMovements(k, amount, limit), 0);
      if refusal.Some? { journal.Restore(before); return false; }
      topups := topups + [Topup(request, amount, limit, nonce, now, Sending)];
      return true;
    }

    method ConcludeTopupSend(k: nat, tx: nat, fate: Fate, event: Option<EventId>, fee: nat) returns (ok: bool)
      requires KeysSound(journal.Contents())
      modifies `topups, `payments, journal
      ensures Contents() == ConcludeTopup(old(Contents()), k, tx, fate, event, fee)
      ensures ok == (topups != old(topups))
      ensures !ok ==> Contents() == old(Contents())
      ensures ok ==> k < |topups| && old(topups)[k].stage == Sending && topups[k].stage == StageOf(fate)
    {
      if k >= |topups| || topups[k].stage != Sending { return false; }
      if fate == Paying && (event.None? || event.value.0 != tx) { return false; }
      if TxUsed(Contents(), tx) || ByTopup(k) in payments { return false; }
      var x := topups[k];
      var refusal, id := journal.PostMovements(CashKey(k), CashMovements(k, x, fate == Paying, fee), tx);
      if refusal.Some? { return false; }
      payments := payments[ByTopup(k) := Payment(tx, event, fee)];
      topups := topups[k := x.(stage := StageOf(fate))];
      return true;
    }

    method ReconcileTopupSend(k: nat, tx: nat, c: Chained, event: Option<EventId>, exact: bool, empty: bool) returns (ok: bool)
      requires KeysSound(journal.Contents())
      modifies `topups, `payments, `chain, journal
      ensures Contents() == ReconcileTopup(old(Contents()), k, tx, c, event, exact, empty)
      ensures ok == (topups != old(topups))
      ensures !ok ==> payments == old(payments) && journal.Contents() == old(journal.Contents())
      ensures ok ==>
        && k < |topups| && old(topups)[k].stage == Sending && c.sender == 0 && c.nonce == old(topups)[k].nonce
        && (topups[k].stage == Awaiting <==> c.successful && event.Some?) && (topups[k].stage == Awaiting ==> exact)
        && (topups[k].stage == Lost <==> !c.successful) && (topups[k].stage == Lost ==> event.None?)
        && (topups[k].stage == Dropped ==> c.successful && event.None? && empty)
    {
      if k >= |topups| || c.sender != 0 || c.nonce != topups[k].nonce { return false; }
      var saved := SaveTransaction(tx, c);
      if !saved { return false; }
      var fate := FateOf(c.successful, event, exact, empty);
      if fate.None? { return false; }
      ok := ConcludeTopupSend(k, tx, fate.value, if fate.value == Paying then event else None, c.fee);
    }

    method CreditProtocol(k: nat, topup: nat, confirmed: bool) returns (ok: bool)
      requires KeysSound(journal.Contents())
      modifies `topups, `credits, journal
      ensures Contents() == CreditTopup(old(Contents()), k, topup, confirmed)
      ensures ok == (topup !in old(credits) && topup in credits)
    {
      if k >= |topups| || topups[k].stage != Awaiting || !confirmed || topup in credits { return false; }
      var refusal, id := journal.PostMovements(CreditKey(k), TransferMovements(OutsideProtocol, ProtocolFees, topups[k].amount), topup);
      if refusal.Some? { return false; }
      credits := credits[topup := k];
      topups := topups[k := topups[k].(stage := Credited)];
      return true;
    }
  }
}
