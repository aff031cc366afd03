/** Watching the custody wallet: finalized ranges are captured one after another, every incoming transfer is credited
    in its own transaction before the cursor moves, and a stop in between does no harm. */
module CustodyObserver {
  import opened Basics

  type Hash = nat

  /** A token event touching the wallet; one to itself is both incoming and outgoing. */
  datatype Transfer = Transfer(event: EventId, height: nat, incoming: bool, outgoing: bool, amount: nat)
  {
    predicate External() { incoming && !outgoing && amount > 0 }

    function Change(): int {
      (if incoming then amount else 0) - (if outgoing then amount else 0)
    }
  }

  datatype Wallet = Wallet(tig: int, native: int, nonce: nat)

  /** A verified capture of the heights first to last: `before` is the hash of the block before it, `block` that of
      its last one; it is empty when last == first - 1.  A capture is identified by its whole content, the time it was
      made included. */
  datatype Capture = Capture(first: nat, last: nat, target: nat, before: Hash, block: Hash, opening: Wallet, closing: Wallet,
                             transfers: seq<Transfer>, checkedAt: int)

  datatype Stream = Stream(start: nat, last: nat, lastHash: Hash, startHash: Hash, startNonce: nat)

  /** `seen` are the recorded transfers, `postings` the receipts credited to the ledger, in order. */
  datatype Observer = Observer(stream: Option<Stream>, batches: seq<Capture>, seen: map<EventId, Transfer>, postings: seq<EventId>)

  function Changes(ts: seq<Transfer>, n: nat): int
    requires n <= |ts|
  {
    if n == 0 then 0 else Changes(ts, n - 1) + ts[n - 1].Change()
  }

  /** What the reader checks before a capture counts as verified. */
  ghost predicate Verified(c: Capture) {
    && c.first > 0 && c.first <= c.last + 1 && c.last <= c.target
    && (c.last + 1 == c.first ==> c.block == c.before && c.transfers == [])
    && (forall i :: 0 <= i < |c.transfers| ==> c.first <= c.transfers[i].height <= c.last)
    && (forall i, j :: 0 <= i < j < |c.transfers| ==> c.transfers[i].event != c.transfers[j].event)
    && c.closing.tig - c.opening.tig == Changes(c.transfers, |c.transfers|)
  }

  // ------------------------------------------------------------------ steps

  /** One receipt transaction: a transfer is recorded once, and credited once when it came from outside.  None when it
      contradicts what is recorded. */
  function Credited(o: Observer, t: Transfer): Option<Observer> {
    if t.event in o.seen && o.seen[t.event] != t then None
    else
      Some(o.(seen := o.seen[t.event := t],
              postings := if t.External() && t.event !in o.postings then o.postings + [t.event] else o.postings))
  }

  /** The first n transfers, up to the first contradiction. */
  function CreditedUpTo(o: Observer, ts: seq<Transfer>, n: nat): (r: (Observer, bool))
    requires n <= |ts|
    ensures r.0.stream == o.stream && r.0.batches == o.batches
  {
    if n == 0 then (o, true)
    else
      var (p, ok) := CreditedUpTo(o, ts, n - 1);
      if !ok then (p, false)
      else if Credited(p, ts[n - 1]).None? then (p, false)
      else (Credited(p, ts[n - 1]).value, true)
  }

  /** The next range, adjoining the cursor and anchored at its hash.  An old range, or a capture already recorded, changes
      nothing; anything else is refused. */
  predicate Next(o: Observer, c: Capture) {
    o.stream.Some? && c !in o.batches && c.first == o.stream.value.last + 1 && c.before == o.stream.value.lastHash
  }

  function Initialized(o: Observer, c: Capture): Observer {
    if o.stream.Some? || c.first == 0 then o
    else o.(stream := Some(Stream(c.first, c.first - 1, c.before, c.before, c.opening.nonce)))
  }

  function Advanced(o: Observer, c: Capture): Observer
    requires o.stream.Some?
  {
    o.(stream := Some(o.stream.value.(last := c.last, lastHash := c.block)), batches := o.batches + [c])
  }

  /** Recording a capture; `stop` is where the process dies, if it does, before the cursor moves. */
  function Recorded(o: Observer, c: Capture, stop: Option<nat>): Observer {
    if !Next(o, c) then o
    else if stop.Some? && stop.value <= |c.transfers| then CreditedUpTo(o, c.transfers, stop.value).0
    else
      var (p, ok) := CreditedUpTo(o, c.transfers, |c.transfers|);
      if ok then Advanced(p, c) else p
  }

  datatype Event = Starts(c: Capture) | Records(c: Capture, stop: Option<nat>)

  function Step(o: Observer, e: Event): Observer {
    match e
    case Starts(c) => Initialized(o, c)
    case Records(c, stop) => Recorded(o, c, stop)
  }

  const FRESH := Observer(None, [], map[], [])

  function Run(es: seq<Event>): Observer
    decreases |es|
  {
    if es == [] then FRESH else Step(Run(es[..|es| - 1]), es[|es| - 1])
  }

  // ------------------------------------------------------------------ the chain being watched

  /** The finalized chain: every token event touching the wallet, and the wallet after each block. */
  datatype Chain = Chain(events: seq<Transfer>, hashes: nat -> Hash, wallets: nat -> Wallet)

  ghost predicate Sane(chain: Chain) {
    forall i, j :: 0 <= i < j < |chain.events| ==> chain.events[i].event != chain.events[j].event
  }

  /** A verified capture shows the finalized chain: its anchors, the wallet there, and every event in between. */
  ghost predicate Shows(chain: Chain, c: Capture) {
    && Verified(c) && c.before == chain.hashes(c.first - 1) && c.block == chain.hashes(c.last)
    && c.opening == chain.wallets(c.first - 1) && c.closing == chain.wallets(c.last)
    && (forall t :: t in c.transfers ==> t in chain.events)
    && (forall t :: t in chain.events && c.first <= t.height <= c.last ==> t in c.transfers)
  }

  ghost predicate Truthful(chain: Chain, es: seq<Event>) {
    forall i :: 0 <= i < |es| ==> Shows(chain, es[i].c)
  }

  // ------------------------------------------------------------------ invariants

  predicate Ends(batches: seq<Capture>, s: Stream)
    requires batches != []
  {
    && batches[0].first == s.start && batches[|batches| - 1].last == s.last
    && batches[0].before == s.startHash && batches[|batches| - 1].block == s.lastHash
  }

  /** Batches lie end to end from the start to the cursor. */
  ghost predicate Tiled(o: Observer) {
    && (o.stream.None? ==> o.batches == [])
    && (o.stream.Some? ==>
          var s := o.stream.value;
          && s.start > 0
          && (o.batches == [] ==> s.last + 1 == s.start && s.lastHash == s.startHash)
          && (o.batches != [] ==> Ends(o.batches, s))
          && (forall i :: 0 <= i < |o.batches| - 1 ==>
                o.batches[i + 1].first == o.batches[i].last + 1 && o.batches[i + 1].before == o.batches[i].block))
    && (forall i :: 0 <= i < |o.batches| ==> o.batches[i].first <= o.batches[i].last + 1)
  }

  /** A receipt is posted at most once, and for a recorded external transfer; everything in a recorded batch is recorded,
      and credited if external. */
  ghost predicate CreditedOnce(o: Observer) {
    && (forall i, j :: 0 <= i < j < |o.postings| ==> o.postings[i] != o.postings[j])
    && (forall e :: e in o.seen ==> o.seen[e].event == e)
    && (forall e :: e in o.postings ==> e in o.seen && o.seen[e].External())
    && (forall i, t :: 0 <= i < |o.batches| && t in o.batches[i].transfers ==> Held(o, t))
  }

  predicate Held(o: Observer, t: Transfer) {
    t.event in o.seen && o.seen[t.event] == t && (t.External() ==> t.event in o.postings)
  }

  ghost predicate Sound(o: Observer) {
    Tiled(o) && CreditedOnce(o)
  }

  lemma CreditKeeps(o: Observer, t: Transfer)
    requires CreditedOnce(o) && Credited(o, t).Some?
    ensures CreditedOnce(Credited(o, t).value) && Held(Credited(o, t).value, t)
    ensures forall u :: Held(o, u) ==> Held(Credited(o, t).value, u)
  {
    var p := Credited(o, t).value;
    forall i, u | 0 <= i < |p.batches| && u in p.batches[i].transfers ensures Held(p, u) {
      assert Held(o, u);
    }
  }

  lemma {:induction false} CreditsKeep(o: Observer, ts: seq<Transfer>, n: nat)
    requires CreditedOnce(o) && n <= |ts|
    ensures var (p, ok) := CreditedUpTo(o, ts, n);
      && CreditedOnce(p) && p.stream == o.stream && p.batches == o.batches
      && (ok ==> forall i :: 0 <= i < n ==> Held(p, ts[i]))
  {
    if n > 0 {
      CreditsKeep(o, ts, n - 1);
      var (p, ok) := CreditedUpTo(o, ts, n - 1);
      if ok && Credited(p, ts[n - 1]).Some? {
        CreditKeeps(p, ts[n - 1]);
        var q := Credited(p, ts[n - 1]).value;
        forall i | 0 <= i < n ensures Held(q, ts[i]) { if i < n - 1 { assert Held(p, ts[i]); } }
      }
    }
  }

  lemma AdvanceKeeps(o: Observer, c: Capture)
    requires Sound(o) && o.stream.Some? && c.first == o.stream.value.last + 1 && c.before == o.stream.value.lastHash && c.first <= c.last + 1
    requires forall i :: 0 <= i < |c.transfers| ==> Held(o, c.transfers[i])
    ensures Sound(Advanced(o, c))
  {
    var p := Advanced(o, c);
    forall i, t | 0 <= i < |p.batches| && t in p.batches[i].transfers ensures Held(p, t) {
      if i < |o.batches| { assert Held(o, t); }
    }
  }

  lemma StepKeeps(o: Observer, e: Event)
    requires Sound(o) && Verified(e.c)
    ensures Sound(Step(o, e))
  {
    if e.Records? && Next(o, e.c) {
      CreditsKeep(o, e.c.transfers, |e.c.transfers|);
      if e.stop.Some? && e.stop.value <= |e.c.transfers| {
        CreditsKeep(o, e.c.transfers, e.stop.value);
      } else if CreditedUpTo(o, e.c.transfers, |e.c.transfers|).1 {
        AdvanceKeeps(CreditedUpTo(o, e.c.transfers, |e.c.transfers|).0, e.c);
      }
    }
  }

  ghost predicate AllVerified(es: seq<Event>) {
    forall i :: 0 <= i < |es| ==> Verified(es[i].c)
  }

  lemma {:induction false} RunKeeps(es: seq<Event>)
    requires AllVerified(es)
    ensures Sound(Run(es))
    decreases |es|
  {
    if es != [] {
      RunKeeps(es[..|es| - 1]);
      StepKeeps(Run(es[..|es| - 1]), es[|es| - 1]);
    }
  }

  // ------------------------------------------------------------------ tiling

  lemma {:induction false} Reaches(o: Observer, n: nat, h: nat)
    requires Sound(o) && o.stream.Some? && n < |o.batches| && o.stream.value.start <= h <= o.batches[n].last
    ensures exists i :: 0 <= i <= n && o.batches[i].first <= h <= o.batches[i].last
  {
    if o.batches[n].first > h {
      assert n > 0;
      Reaches(o, n - 1, h);
    }
  }

  lemma {:induction false} Apart(o: Observer, i: nat, j: nat)
    requires Sound(o) && i < j < |o.batches|
    ensures o.batches[i].last < o.batches[j].first
    decreases j - i
  {
    assert o.batches[i + 1].first == o.batches[i].last + 1;
    if i + 1 < j {
      Apart(o, i + 1, j);
      assert o.batches[i + 1].first <= o.batches[i + 1].last + 1;
    }
  }

  predicate InBatch(o: Observer, i: nat, h: nat) {
    i < |o.batches| && o.batches[i].first <= h <= o.batches[i].last
  }

  lemma BatchInRange(o: Observer, i: nat, h: nat)
    requires Sound(o) && o.stream.Some? && InBatch(o, i, h)
    ensures o.stream.value.start <= h <= o.stream.value.last
  {
    if 0 < i { Apart(o, 0, i); }
    if i < |o.batches| - 1 { Apart(o, i, |o.batches| - 1); }
  }

  /** Every height from the start to the cursor is in exactly one batch, and no other height is in any. */
  lemma TilingTheorem(es: seq<Event>, h: nat)
    requires AllVerified(es) && Run(es).stream.Some?
    ensures var o, s := Run(es), Run(es).stream.value;
      && (s.start <= h <= s.last <==> exists i: nat :: InBatch(o, i, h))
      && (forall i: nat, j: nat :: InBatch(o, i, h) && InBatch(o, j, h) ==> i == j)
  {
    RunKeeps(es);
    var o, s := Run(es), Run(es).stream.value;
    if s.start <= h <= s.last {
      Reaches(o, |o.batches| - 1, h);
      var i :| 0 <= i < |o.batches| && o.batches[i].first <= h <= o.batches[i].last;
      assert InBatch(o, i, h);
    }
    forall i: nat, j: nat | InBatch(o, i, h) && InBatch(o, j, h) ensures i == j {
      if i < j { Apart(o, i, j); }
      if j < i { Apart(o, j, i); }
    }
    forall i: nat | InBatch(o, i, h) ensures s.start <= h <= s.last { BatchInRange(o, i, h); }
  }

  // ------------------------------------------------------------------ against the chain

  /** What the observer recorded is what the chain shows. */
  ghost predicate Faithful(chain: Chain, o: Observer) {
    && (forall i :: 0 <= i < |o.batches| ==> Shows(chain, o.batches[i]))
    && (forall e :: e in o.seen ==> o.seen[e] in chain.events)
    && (o.stream.Some? ==> o.stream.value.start > 0 && o.stream.value.startNonce == chain.wallets(o.stream.value.start - 1).nonce)
  }

  lemma {:induction false} CreditsFaithful(chain: Chain, o: Observer, ts: seq<Transfer>, n: nat)
    requires Faithful(chain, o) && n <= |ts| && forall t :: t in ts ==> t in chain.events
    ensures Faithful(chain, CreditedUpTo(o, ts, n).0)
  {
    if n > 0 { CreditsFaithful(chain, o, ts, n - 1); }
  }

  lemma {:induction false} RunFaithful(chain: Chain, es: seq<Event>)
    requires Truthful(chain, es)
    ensures Faithful(chain, Run(es)) && AllVerified(es)
    decreases |es|
  {
    if es != [] {
      var n := |es| - 1;
      RunFaithful(chain, es[..n]);
      var e := es[n];
      assert Shows(chain, e.c);
      if e.Records? {
        CreditsFaithful(chain, Run(es[..n]), e.c.transfers, |e.c.transfers|);
        if e.stop.Some? && e.stop.value <= |e.c.transfers| { CreditsFaithful(chain, Run(es[..n]), e.c.transfers, e.stop.value); }
      }
    }
  }

  /** Signed transfers of the first n batches. */
  function BatchChanges(batches: seq<Capture>, n: nat): int
    requires n <= |batches|
  {
    if n == 0 then 0 else BatchChanges(batches, n - 1) + Changes(batches[n - 1].transfers, |batches[n - 1].transfers|)
  }

  lemma BatchTelescopes(chain: Chain, c: Capture)
    requires Shows(chain, c)
    ensures chain.wallets(c.last).tig == chain.wallets(c.first - 1).tig + Changes(c.transfers, |c.transfers|)
  {
  }

  ghost predicate EndToEnd(batches: seq<Capture>, start: nat) {
    && (batches != [] ==> batches[0].first == start)
    && (forall i :: 0 <= i < |batches| - 1 ==> batches[i + 1].first == batches[i].last + 1)
  }

  lemma {:induction false} Telescopes(chain: Chain, batches: seq<Capture>, start: nat, n: nat)
    requires EndToEnd(batches, start) && start > 0 && 0 < n <= |batches|
    requires forall i :: 0 <= i < |batches| ==> Shows(chain, batches[i])
    ensures chain.wallets(batches[n - 1].last).tig == chain.wallets(start - 1).tig + BatchChanges(batches, n)
  {
    BatchTelescopes(chain, batches[n - 1]);
    if n > 1 {
      Telescopes(chain, batches, start, n - 1);
      assert batches[n - 2 + 1].first == batches[n - 2].last + 1;
    }
  }

  lemma {:induction false} ChangesPrefix(ts: seq<Transfer>, t: Transfer, n: nat)
    requires n <= |ts|
    ensures Changes(ts + [t], n) == Changes(ts, n)
  {
    if n > 0 { ChangesPrefix(ts, t, n - 1); }
  }

  /** Signed transfers are summed one by one: what comes in less what goes out. */
  lemma ChangesOfMore(ts: seq<Transfer>, t: Transfer)
    ensures Changes([], 0) == 0
    ensures Changes(ts + [t], |ts| + 1) == Changes(ts, |ts|) +
      (if t.incoming == t.outgoing then 0 else if t.incoming then t.amount else 0 - t.amount)
  {
    ChangesPrefix(ts, t, |ts|);
  }

  lemma {:induction false} BatchesPrefix(batches: seq<Capture>, c: Capture, n: nat)
    requires n <= |batches|
    ensures BatchChanges(batches + [c], n) == BatchChanges(batches, n)
  {
    if n > 0 { BatchesPrefix(batches, c, n - 1); }
  }

  lemma BatchChangesOfMore(batches: seq<Capture>, c: Capture)
    ensures BatchChanges([], 0) == 0
    ensures BatchChanges(batches + [c], |batches| + 1) == BatchChanges(batches, |batches|) + Changes(c.transfers, |c.transfers|)
  {
    BatchesPrefix(batches, c, |batches|);
  }

  /** The wallet's TIG at the cursor is its TIG before the start plus all transfers recorded since. */
  lemma TelescopingTheorem(chain: Chain, es: seq<Event>)
    requires Truthful(chain, es) && Run(es).stream.Some?
    ensures var o, s := Run(es), Run(es).stream.value;
      s.start > 0 && chain.wallets(s.last).tig == chain.wallets(s.start - 1).tig + BatchChanges(o.batches, |o.batches|)
  {
    RunFaithful(chain, es);
    RunKeeps(es);
    var o := Run(es);
    if o.batches != [] { Telescopes(chain, o.batches, o.stream.value.start, |o.batches|); }
  }

  lemma {:induction false} PostedOnce(s: seq<EventId>, e: EventId)
    requires forall i, j :: 0 <= i < j < |s| ==> s[i] != s[j]
    ensures multiset(s)[e] == if e in s then 1 else 0
  {
    if s != [] {
      var n := |s| - 1;
      PostedOnce(s[..n], e);
      assert s == s[..n] + [s[n]];
    }
  }

  /** The event of an external transfer of the chain. */
  ghost predicate Genuine(chain: Chain, e: EventId) {
    exists t :: t in chain.events && t.event == e && t.External()
  }

  /** Every external incoming transfer from the start to the cursor is credited exactly once, however often the process
      stopped between crediting and moving on; and nothing else is ever credited. */
  lemma CreditTheorem(chain: Chain, es: seq<Event>, t: Transfer)
    requires Sane(chain) && Truthful(chain, es) && Run(es).stream.Some? && t in chain.events
    ensures var o, s := Run(es), Run(es).stream.value;
      && (t.External() && s.start <= t.height <= s.last ==> multiset(o.postings)[t.event] == 1)
      && multiset(o.postings)[t.event] <= 1
      && (t.event in o.postings ==> t.External())
      && (forall e :: e in o.postings ==> Genuine(chain, e))
  {
    RunFaithful(chain, es);
    RunKeeps(es);
    var o, s := Run(es), Run(es).stream.value;
    PostedOnce(o.postings, t.event);
    forall e | e in o.postings ensures Genuine(chain, e) {
      assert o.seen[e] in chain.events && o.seen[e].event == e && o.seen[e].External();
    }
    if t.External() && s.start <= t.height <= s.last {
      Reaches(o, |o.batches| - 1, t.height);
      var i :| 0 <= i < |o.batches| && o.batches[i].first <= t.height <= o.batches[i].last;
      assert Shows(chain, o.batches[i]) && t in o.batches[i].transfers;
      assert Held(o, t);
    }
    if t.event in o.postings {
      assert o.seen[t.event] in chain.events && o.seen[t.event].event == t.event;
      SameEventSameTransfer(chain, o.seen[t.event], t);
    }
  }

  lemma SameEventSameTransfer(chain: Chain, t: Transfer, u: Transfer)
    requires Sane(chain) && t in chain.events && u in chain.events && t.event == u.event
    ensures t == u
  {
    var i :| 0 <= i < |chain.events| && chain.events[i] == t;
    var j :| 0 <= j < |chain.events| && chain.events[j] == u;
  }

  // ------------------------------------------------------------------ nonces

  /** A recorded payment: the custody nonce it consumed and the block that finalized it. */
  datatype Paid = Paid(nonce: nat, block: nat)

  function Accounted(payments: seq<Paid>, n: nat, start: nat, last: nat): nat
    requires n <= |payments|
  {
    if n == 0 then 0 else Accounted(payments, n - 1, start, last) + if start <= payments[n - 1].block <= last then 1 else 0
  }

  ghost predicate DistinctNonces(payments: seq<Paid>) {
    forall i, j :: 0 <= i < j < |payments| ==> payments[i].nonce != payments[j].nonce
  }

  function NoncesOf(payments: seq<Paid>, n: nat, start: nat, last: nat): set<nat>
    requires n <= |payments|
  {
    if n == 0 then {}
    else NoncesOf(payments, n - 1, start, last) + if start <= payments[n - 1].block <= last then {payments[n - 1].nonce} else {}
  }

  /** Payment i was finalized in the range and consumed nonce x. */
  predicate Uses(payments: seq<Paid>, i: nat, x: nat, start: nat, last: nat) {
    i < |payments| && payments[i].nonce == x && start <= payments[i].block <= last
  }

  lemma {:induction false} NonceUser(payments: seq<Paid>, n: nat, start: nat, last: nat, x: nat)
    requires n <= |payments|
    ensures x in NoncesOf(payments, n, start, last) <==> exists i: nat :: i < n && Uses(payments, i, x, start, last)
  {
    if n > 0 {
      NonceUser(payments, n - 1, start, last, x);
      if payments[n - 1].nonce == x && start <= payments[n - 1].block <= last { assert Uses(payments, n - 1, x, start, last); }
    }
  }

  lemma {:induction false} NoncesCounted(payments: seq<Paid>, n: nat, start: nat, last: nat)
    requires n <= |payments| && DistinctNonces(payments)
    ensures |NoncesOf(payments, n, start, last)| == Accounted(payments, n, start, last)
  {
    if n > 0 {
      NoncesCounted(payments, n - 1, start, last);
      NonceUser(payments, n - 1, start, last, payments[n - 1].nonce);
    }
  }

  function Range(low: nat, high: nat): (s: set<nat>)
    requires low <= high
    ensures forall x :: x in s <==> low <= x < high
    ensures |s| == high - low
    decreases high - low
  {
    if low == high then {} else Range(low, high - 1) + {high - 1}
  }

  lemma Pigeonhole(s: set<nat>, low: nat, high: nat)
    requires low <= high && |s| == high - low && forall x :: x in s ==> low <= x < high
    ensures s == Range(low, high)
  {
    var all := Range(low, high);
    assert s <= all;
    assert |all - s| == |all| - |s|;
    assert all - s == {};
  }

  /** What the check compares at the cursor besides the anchors. */
  datatype Books = Books(tig: int, native: int, payments: seq<Paid>, unexplained: bool, conflicted: bool, knownCode: bool)

  predicate Healthy(b: Books, s: Stream, c: Capture) {
    && (b.tig, b.native) == (c.closing.tig, c.closing.native)
    && s.startNonce + Accounted(b.payments, |b.payments|, s.start, c.last) == c.closing.nonce
    && !b.unexplained && !b.conflicted && b.knownCode && c.last == c.target
  }

  /** A healthy check means that the recorded payments cover every nonce used since the start, each exactly once.  A
      payment finalized in the range consumed a nonce of the range, as the wallet's transaction counts say. */
  lemma HealthyMeansCovered(b: Books, s: Stream, c: Capture, n: nat)
    requires Healthy(b, s, c) && DistinctNonces(b.payments)
    requires forall i :: 0 <= i < |b.payments| && s.start <= b.payments[i].block <= c.last ==>
      s.startNonce <= b.payments[i].nonce < c.closing.nonce
    ensures s.startNonce <= n < c.closing.nonce <==> exists i: nat :: Uses(b.payments, i, n, s.start, c.last)
    ensures forall i: nat, j: nat :: Uses(b.payments, i, n, s.start, c.last) && Uses(b.payments, j, n, s.start, c.last) ==> i == j
  {
    var used := NoncesOf(b.payments, |b.payments|, s.start, c.last);
    NoncesCounted(b.payments, |b.payments|, s.start, c.last);
    forall x | x in used ensures s.startNonce <= x < c.closing.nonce {
      NonceUser(b.payments, |b.payments|, s.start, c.last, x);
      var i: nat :| i < |b.payments| && Uses(b.payments, i, x, s.start, c.last);
    }
    Pigeonhole(used, s.startNonce, c.closing.nonce);
    NonceUser(b.payments, |b.payments|, s.start, c.last, n);
  }

  // ------------------------------------------------------------------ the tables

  class Watch {
    var stream: Option<Stream>
    var batches: seq<Capture>
    var seen: map<EventId, Transfer>
    var postings: seq<EventId>

    constructor ()
      ensures Contents() == FRESH
    {
      stream, batches, seen, postings := None, [], map[], [];
    }

    function Contents(): Observer
      reads this
    {
      Observer(stream, batches, seen, postings)
    }

    method Initialize(c: Capture)
      modifies `stream
      ensures Contents() == Initialized(old(Contents()), c)
      ensures stream == if old(stream).Some? || c.first == 0 then old(stream)
                        else Some(Stream(c.first, c.first - 1, c.before, c.before, c.opening.nonce))
    {
      if stream.Some? || c.first == 0 { return; }
      stream := Some(Stream(c.first, c.first - 1, c.before, c.before, c.opening.nonce));
    }

    /** Records and credits one transfer, as a transaction of its own. */
    method Receive(t: Transfer) returns (ok: bool)
      modifies `seen, `postings
      ensures ok == Credited(old(Contents()), t).Some?
      ensures Contents() == if ok then Credited(old(Contents()), t).value else old(Contents())
      ensures ok <==> (t.event in old(seen) ==> old(seen)[t.event] == t)
      ensures seen == if ok then old(seen)[t.event := t] else old(seen)
      ensures postings == if ok && t.incoming && !t.outgoing && t.amount > 0 && t.event !in old(postings)
                          then old(postings) + [t.event] else old(postings)
    {
      if t.event in seen && seen[t.event] != t { return false; }
      seen := seen[t.event := t];
      if t.External() && t.event !in postings { postings := postings + [t.event]; }
      return true;
    }

    /** Credits the transfers one by one, stopping at a contradiction or where the process dies. */
    method CreditAll(ts: seq<Transfer>, count: nat) returns (ok: bool)
      requires count <= |ts|
      modifies `seen, `postings
      ensures Contents() == CreditedUpTo(old(Contents()), ts, count).0 && ok == CreditedUpTo(old(Contents()), ts, count).1
    {
      ok := true;
      var i := 0;
      while i < count && ok
        invariant i <= count
        invariant ok ==> (Contents(), true) == CreditedUpTo(old(Contents()), ts, i)
        invariant !ok ==> (Contents(), false) == CreditedUpTo(old(Contents()), ts, i)
      {
        ok := Receive(ts[i]);
        i := i + 1;
      }
      if !ok { CreditsStop(old(Contents()), ts, i, count); }
    }

    method Record(c: Capture, stop: Option<nat>)
      modifies this
      ensures Contents() == Recorded(old(Contents()), c, stop)
      ensures (stream, batches) != (old(stream), old(batches)) ==>
        && old(stream).Some? && c !in old(batches)
        && c.first == old(stream).value.last + 1 && c.before == old(stream).value.lastHash
        && stream == Some(old(stream).value.(last := c.last, lastHash := c.block)) && batches == old(batches) + [c]
      ensures old(stream).Some? && c !in old(batches) && c.first == old(stream).value.last + 1
              && c.before == old(stream).value.lastHash && stop.None? && CreditedUpTo(old(Contents()), c.transfers, |c.transfers|).1 ==>
        batches == old(batches) + [c]
    {
      if stream.None? || c in batches { return; }
      if c.first != stream.value.last + 1 || c.before != stream.value.lastHash { return; }
      var dies := stop.Some? && stop.value <= |c.transfers|;
      var ok := CreditAll(c.transfers, if dies then stop.value else |c.transfers|);
      if dies || !ok { return; }
      batches := batches + [c];
      stream := Some(stream.value.(last := c.last, lastHash := c.block));
    }

    /** The check written with each batch. */
    method Check(b: Books, c: Capture) returns (healthy: bool)
      requires stream.Some?
      ensures healthy == Healthy(b, stream.value, c)
      ensures healthy <==>
        && b.tig == c.closing.tig && b.native == c.closing.native && c.last == c.target
        && stream.value.startNonce + Accounted(b.payments, |b.payments|, stream.value.start, c.last) == c.closing.nonce
        && !b.unexplained && !b.conflicted && b.knownCode
    {
      var count := 0;
      for i := 0 to |b.payments|
        invariant count == Accounted(b.payments, i, stream.value.start, c.last)
      {
        if stream.value.start <= b.payments[i].block <= c.last { count := count + 1; }
      }
      healthy := b.tig == c.closing.tig && b.native == c.closing.native && stream.value.startNonce + count == c.closing.nonce
        && !b.unexplained && !b.conflicted && b.knownCode && c.last == c.target;
    }
  }

  /** After a contradiction nothing more is credited. */
  lemma {:induction false} CreditsStop(o: Observer, ts: seq<Transfer>, i: nat, n: nat)
    requires i <= n <= |ts| && !CreditedUpTo(o, ts, i).1
    ensures CreditedUpTo(o, ts, n) == CreditedUpTo(o, ts, i)
  {
    if i < n { CreditsStop(o, ts, i, n - 1); }
  }
}
