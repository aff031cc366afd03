/** What a healthy custody check means for the payment tables: the wallet's on-chain balance and nonces are fully
    explained by what the pool recorded. */
module CustodyCheck {
  import opened Basics
  import L = Ledger
  import E = Escrow
  import R = Rounds
  import P = Payments
  import T = Treasury
  import C = CustodyObserver
  import S = Statements

  // ------------------------------------------------------------------ the recorded payments

  /** A payment joined with its confirmed transaction; one whose transaction is not recorded is not counted. */
  predicate Confirmed(t: P.Till, s: P.Send) {
    s in t.payments && t.payments[s].tx in t.chain && P.Exists(t, s)
  }

  function Block(t: P.Till, s: P.Send): nat
    requires Confirmed(t, s)
  {
    t.chain[t.payments[s].tx].block
  }

  function Row(t: P.Till, s: P.Send): seq<C.Paid> {
    if Confirmed(t, s) then [C.Paid(P.NonceOf(t, s), Block(t, s))] else []
  }

  function AttemptRows(t: P.Till, n: nat): seq<C.Paid> {
    if n == 0 then [] else AttemptRows(t, n - 1) + Row(t, P.ByAttempt(n - 1))
  }

  function TopupRows(t: P.Till, n: nat): seq<C.Paid> {
    if n == 0 then [] else TopupRows(t, n - 1) + Row(t, P.ByTopup(n - 1))
  }

  function Rows(t: P.Till): seq<C.Paid> {
    AttemptRows(t, |t.attempts|) + TopupRows(t, |t.topups|)
  }

  /** The send whose payment a row is. */
  predicate IsRow(t: P.Till, x: C.Paid, s: P.Send) {
    Confirmed(t, s) && x == C.Paid(P.NonceOf(t, s), Block(t, s))
  }

  lemma {:induction false} AttemptRow(t: P.Till, n: nat, i: nat) returns (a: nat)
    requires i < |AttemptRows(t, n)|
    ensures a < n && IsRow(t, AttemptRows(t, n)[i], P.ByAttempt(a))
  {
    if i < |AttemptRows(t, n - 1)| { a := AttemptRow(t, n - 1, i); } else { a := n - 1; }
  }

  lemma {:induction false} TopupRow(t: P.Till, n: nat, i: nat) returns (k: nat)
    requires i < |TopupRows(t, n)|
    ensures k < n && IsRow(t, TopupRows(t, n)[i], P.ByTopup(k))
  {
    if i < |TopupRows(t, n - 1)| { k := TopupRow(t, n - 1, i); } else { k := n - 1; }
  }

  lemma {:induction false} AttemptListed(t: P.Till, n: nat, a: nat) returns (i: nat)
    requires a < n && Confirmed(t, P.ByAttempt(a))
    ensures i < |AttemptRows(t, n)| && IsRow(t, AttemptRows(t, n)[i], P.ByAttempt(a))
  {
    if a < n - 1 { i := AttemptListed(t, n - 1, a); } else { i := |AttemptRows(t, n - 1)|; }
  }

  lemma {:induction false} TopupListed(t: P.Till, n: nat, k: nat) returns (i: nat)
    requires k < n && Confirmed(t, P.ByTopup(k))
    ensures i < |TopupRows(t, n)| && IsRow(t, TopupRows(t, n)[i], P.ByTopup(k))
  {
    if k < n - 1 { i := TopupListed(t, n - 1, k); } else { i := |TopupRows(t, n - 1)|; }
  }

  lemma SameNonceSameSend(t: P.Till, s: P.Send, r: P.Send)
    requires P.NoncesApart(t) && P.Exists(t, s) && P.Exists(t, r) && P.NonceOf(t, s) == P.NonceOf(t, r)
    ensures s == r
  {
  }

  lemma NoncesDiffer(t: P.Till, s: P.Send, r: P.Send)
    requires P.NoncesApart(t) && P.Exists(t, s) && P.Exists(t, r) && s != r
    ensures P.NonceOf(t, s) != P.NonceOf(t, r)
  {
  }

  lemma {:induction false} AttemptsApart(t: P.Till, n: nat)
    requires P.NoncesApart(t)
    ensures C.DistinctNonces(AttemptRows(t, n))
  {
    if n > 0 {
      AttemptsApart(t, n - 1);
      var before := AttemptRows(t, n - 1);
      if Confirmed(t, P.ByAttempt(n - 1)) {
        forall i | 0 <= i < |before| ensures before[i].nonce != P.NonceOf(t, P.ByAttempt(n - 1)) {
          var a := AttemptRow(t, n - 1, i);
          NoncesDiffer(t, P.ByAttempt(a), P.ByAttempt(n - 1));
        }
      }
    }
  }

  lemma {:induction false} TopupsApart(t: P.Till, n: nat)
    requires P.NoncesApart(t)
    ensures C.DistinctNonces(TopupRows(t, n))
  {
    if n > 0 {
      TopupsApart(t, n - 1);
      var before := TopupRows(t, n - 1);
      if Confirmed(t, P.ByTopup(n - 1)) {
        forall i | 0 <= i < |before| ensures before[i].nonce != P.NonceOf(t, P.ByTopup(n - 1)) {
          var k := TopupRow(t, n - 1, i);
          NoncesDiffer(t, P.ByTopup(k), P.ByTopup(n - 1));
        }
      }
    }
  }

  /** The shared nonce fence makes the recorded payments' nonces distinct. */
  lemma RowsApart(t: P.Till)
    requires P.NoncesApart(t)
    ensures C.DistinctNonces(Rows(t))
  {
    var p, q := AttemptRows(t, |t.attempts|), TopupRows(t, |t.topups|);
    AttemptsApart(t, |t.attempts|);
    TopupsApart(t, |t.topups|);
    forall i, j | 0 <= i < |p| && 0 <= j < |q| ensures p[i].nonce != q[j].nonce {
      var a := AttemptRow(t, |t.attempts|, i);
      var k := TopupRow(t, |t.topups|, j);
      NoncesDiffer(t, P.ByAttempt(a), P.ByTopup(k));
    }
  }

  lemma RowOf(t: P.Till, i: nat) returns (s: P.Send)
    requires i < |Rows(t)|
    ensures IsRow(t, Rows(t)[i], s)
  {
    var n := |AttemptRows(t, |t.attempts|)|;
    if i < n {
      var a := AttemptRow(t, |t.attempts|, i);
      s := P.ByAttempt(a);
    } else {
      var k := TopupRow(t, |t.topups|, i - n);
      s := P.ByTopup(k);
    }
  }

  lemma Listed(t: P.Till, s: P.Send) returns (i: nat)
    requires Confirmed(t, s)
    ensures i < |Rows(t)| && IsRow(t, Rows(t)[i], s)
  {
    match s
    case ByAttempt(a) => i := AttemptListed(t, |t.attempts|, a);
    case ByTopup(k) =>
      i := TopupListed(t, |t.topups|, k);
      i := |AttemptRows(t, |t.attempts|)| + i;
  }

  // ------------------------------------------------------------------ against the chain

  /** The chain counts nonces: a transaction finalized in a block used one that was free before it and is not after. */
  ghost predicate CountsNonces(chain: C.Chain, t: P.Till) {
    && (forall j: nat, k: nat :: j <= k ==> chain.wallets(j).nonce <= chain.wallets(k).nonce)
    && (forall s :: Confirmed(t, s) ==>
          Block(t, s) > 0 && chain.wallets(Block(t, s) - 1).nonce <= P.NonceOf(t, s) < chain.wallets(Block(t, s)).nonce)
  }

  /** Send s, confirmed in the heights from start to last, used nonce n. */
  predicate Explains(t: P.Till, s: P.Send, n: nat, start: nat, last: nat) {
    Confirmed(t, s) && P.NonceOf(t, s) == n && start <= Block(t, s) <= last
  }

  /** A recorded payment was made by this token event. */
  predicate PaidBy(t: P.Till, e: EventId) {
    exists s :: s in t.payments && t.payments[s].event == Some(e)
  }

  /** A token event that took TIG out of the wallet to somebody else. */
  predicate Leaves(x: C.Transfer) {
    x.outgoing && !x.incoming && x.amount > 0
  }

  /** Some recorded transfer out of the wallet, in the range, that no recorded payment made. */
  predicate Unexplained(o: C.Observer, t: P.Till, start: nat, last: nat) {
    exists e :: e in o.seen && Leaves(o.seen[e]) && start <= o.seen[e].height <= last && !PaidBy(t, e)
  }

  /** The books as the check reads them: the observer has recorded the capture's transfers, the cursor stands before it. */
  ghost function Recorded(o: C.Observer, t: P.Till, start: nat, last: nat, conflicted: bool, knownCode: bool): C.Books {
    C.Books(L.Backing(t.books, L.TIG, L.Custody), L.Backing(t.books, L.Native, L.Custody), Rows(t), Unexplained(o, t, start, last),
            conflicted, knownCode)
  }

  /** The observer once the capture's transfers are recorded and credited. */
  function Seen(seen: seq<C.Event>, c: C.Capture): C.Observer {
    C.CreditedUpTo(C.Run(seen), c.transfers, |c.transfers|).0
  }

  /** By then every event of the chain from the start to the end of the capture is recorded. */
  lemma AllSeen(chain: C.Chain, seen: seq<C.Event>, c: C.Capture, x: C.Transfer)
    requires C.Truthful(chain, seen) && C.Next(C.Run(seen), c) && C.Shows(chain, c)
    requires C.CreditedUpTo(C.Run(seen), c.transfers, |c.transfers|).1
    requires x in chain.events && C.Run(seen).stream.value.start <= x.height <= c.last
    ensures x.event in Seen(seen, c).seen && Seen(seen, c).seen[x.event] == x
  {
    C.RunFaithful(chain, seen);
    C.RunKeeps(seen);
    var o, s := C.Run(seen), C.Run(seen).stream.value;
    C.CreditsKeep(o, c.transfers, |c.transfers|);
    if x.height <= s.last {
      C.Reaches(o, |o.batches| - 1, x.height);
      var i :| 0 <= i < |o.batches| && o.batches[i].first <= x.height <= o.batches[i].last;
      assert C.Shows(chain, o.batches[i]) && x in o.batches[i].transfers;
      assert C.Held(Seen(seen, c), x);
    } else {
      var i :| 0 <= i < |c.transfers| && c.transfers[i] == x;
      assert C.Held(Seen(seen, c), c.transfers[i]);
    }
  }

  lemma RowsInRange(chain: C.Chain, t: P.Till, s: C.Stream, c: C.Capture)
    requires CountsNonces(chain, t) && s.start > 0 && s.startNonce == chain.wallets(s.start - 1).nonce && c.closing == chain.wallets(c.last)
    ensures forall i :: 0 <= i < |Rows(t)| && s.start <= Rows(t)[i].block <= c.last ==>
      s.startNonce <= Rows(t)[i].nonce < c.closing.nonce
  {
    forall i | 0 <= i < |Rows(t)| && s.start <= Rows(t)[i].block <= c.last
      ensures s.startNonce <= Rows(t)[i].nonce < c.closing.nonce
    {
      var r := RowOf(t, i);
      assert chain.wallets(s.start - 1).nonce <= chain.wallets(Block(t, r) - 1).nonce;
      assert chain.wallets(Block(t, r)).nonce <= chain.wallets(c.last).nonce;
    }
  }

  lemma Covered(t: P.Till, s: C.Stream, c: C.Capture, b: C.Books, n: nat)
    requires P.NoncesApart(t) && b.payments == Rows(t) && C.Healthy(b, s, c)
    requires forall i :: 0 <= i < |Rows(t)| && s.start <= Rows(t)[i].block <= c.last ==>
      s.startNonce <= Rows(t)[i].nonce < c.closing.nonce
    ensures s.startNonce <= n < c.closing.nonce <==> exists r :: Explains(t, r, n, s.start, c.last)
    ensures forall r, q :: Explains(t, r, n, s.start, c.last) && Explains(t, q, n, s.start, c.last) ==> r == q
  {
    RowsApart(t);
    C.HealthyMeansCovered(b, s, c, n);
    if s.startNonce <= n < c.closing.nonce {
      var i: nat :| C.Uses(b.payments, i, n, s.start, c.last);
      var r := RowOf(t, i);
      assert Explains(t, r, n, s.start, c.last);
    }
    forall r | Explains(t, r, n, s.start, c.last) ensures s.startNonce <= n < c.closing.nonce {
      var i := Listed(t, r);
      assert C.Uses(b.payments, i, n, s.start, c.last);
    }
    forall r, q | Explains(t, r, n, s.start, c.last) && Explains(t, q, n, s.start, c.last) ensures r == q {
      SameNonceSameSend(t, r, q);
    }
  }

  /** Every transfer out of the wallet in the range was made by a recorded payment. */
  lemma OutgoingExplained(chain: C.Chain, seen: seq<C.Event>, t: P.Till, c: C.Capture, x: C.Transfer)
    requires C.Truthful(chain, seen) && C.Next(C.Run(seen), c) && C.Shows(chain, c)
    requires C.CreditedUpTo(C.Run(seen), c.transfers, |c.transfers|).1
    requires !Unexplained(Seen(seen, c), t, C.Run(seen).stream.value.start, c.last)
    requires x in chain.events && C.Run(seen).stream.value.start <= x.height <= c.last && Leaves(x)
    ensures PaidBy(t, x.event)
  {
    AllSeen(chain, seen, c, x);
  }

  /** For every run of the observer and of the pool, at the recording of a capture: when the check finds the two healthy
      together, the wallet on the chain holds, in TIG, the pool's opening plus recorded transfers less paid withdrawals and
      sent top-ups, in the native asset what was brought in less paid fees; every nonce the wallet used since the observer's
      start is explained by exactly one recorded send, and no send explains any other; every transfer out of the wallet was
      made by a recorded payment; and the capture reaches the newest finalized block. */
  lemma HealthTheorem(chain: C.Chain, seen: seq<C.Event>, cap: Option<E.Cap>, es: seq<T.Event>, c: C.Capture,
                      conflicted: bool, knownCode: bool, n: nat)
    requires C.Truthful(chain, seen) && C.Next(C.Run(seen), c) && C.Shows(chain, c)
    requires C.CreditedUpTo(C.Run(seen), c.transfers, |c.transfers|).1
    requires CountsNonces(chain, T.Run(cap, es).till)
    requires var p, s := T.Run(cap, es), C.Run(seen).stream.value;
      C.Healthy(Recorded(Seen(seen, c), p.till, s.start, c.last, conflicted, knownCode), s, c)
    ensures var p, s := T.Run(cap, es), C.Run(seen).stream.value;
      && s.start > 0
      && chain.wallets(c.last).tig == p.opening + R.Incoming(p.v.t) - P.Outgone(p.till)
      && chain.wallets(c.last).native == p.gas + S.GasPart(p.till, L.Outside(L.Native))
      && (chain.wallets(s.start - 1).nonce <= n < chain.wallets(c.last).nonce <==> exists r :: Explains(p.till, r, n, s.start, c.last))
      && (forall r, q :: Explains(p.till, r, n, s.start, c.last) && Explains(p.till, q, n, s.start, c.last) ==> r == q)
      && (forall x :: x in chain.events && s.start <= x.height <= c.last && Leaves(x) ==> PaidBy(p.till, x.event))
      && c.last == c.target && !conflicted && knownCode
  {
    var p, s := T.Run(cap, es), C.Run(seen).stream.value;
    C.RunFaithful(chain, seen);
    T.CustodyConservation(cap, es);
    S.GasTheorem(cap, es);
    RowsInRange(chain, p.till, s, c);
    Covered(p.till, s, c, Recorded(Seen(seen, c), p.till, s.start, c.last, conflicted, knownCode), n);
    forall x | x in chain.events && s.start <= x.height <= c.last && Leaves(x) ensures PaidBy(p.till, x.event) {
      OutgoingExplained(chain, seen, p.till, c, x);
    }
  }
}
