/** What each operation on rounds and incoming transfers does, case by case: exactly when it takes effect on a sound vault,
    which tables change, and which balances move by how much. */
module RoundLaws {
  import opened Basics
  import opened Ledger
  import E = Escrow
  import L = EscrowLaws
  import Rewards
  import opened Rounds

  // ------------------------------------------------------------------ tables only

  /** The newest round is the greatest one seen. */
  lemma ObserveLaw(v: Vault, k: nat)
    ensures Observe(v, k).desk == v.desk && Observe(v, k).t == v.t.(newest := Observe(v, k).t.newest)
    ensures Observe(v, k).t.newest >= v.t.newest && Observe(v, k).t.newest >= k && Observe(v, k).t.newest in {v.t.newest, k}
  {
  }

  /** Reports of a round are sealed exactly when complete and a block three rounds later was seen. */
  lemma SealLaw(v: Vault, k: nat, complete: bool)
    ensures Seal(v, k, complete).desk == v.desk && Seal(v, k, complete).t == v.t.(seals := Seal(v, k, complete).t.seals)
    ensures forall j :: j in Seal(v, k, complete).t.seals <==> j in v.t.seals || (j == k && k > 0 && complete && v.t.newest >= k + 3)
  {
  }

  /** Earnings are declared once, three rounds later; the expected receipts and the withheld cost are recorded as such and no
      balance moves. */
  lemma DeclareLaw(v: Vault, k: nat, expected: nat, withheld: nat)
    ensures var w := Declare(v, k, expected, withheld);
      && (k > 0 && v.t.newest >= k + 3 && k !in v.t.earnings ==>
            && k in w.t.earnings && w.t.earnings[k].expected == expected && w.t.earnings[k].withheld == withheld
            && w.t == v.t.(earnings := v.t.earnings[k := w.t.earnings[k]]) && RoundPot(k) in w.desk.books.balances)
      && (!(k > 0 && v.t.newest >= k + 3 && k !in v.t.earnings) ==> w == v)
      && w.desk.rows == v.desk.rows && forall a :: Balance(w.desk.books, a) == Balance(v.desk.books, a)
  {
  }

  /** New work belongs to the newest round, and there must be one. */
  lemma ReserveNextLaw(v: Vault, cap: Option<E.Cap>, member: string, request: nat, amount: nat, limit: nat, now: int, open: bool)
    requires VaultSound(v)
    ensures var w := ReserveNext(v, cap, member, request, amount, limit, now, open);
      && w.t == v.t
      && (w.desk.rows != v.desk.rows <==> v.t.newest > 0 && L.MayReserve(v.desk, cap, member, request, amount, limit, now, open))
      && (w.desk.rows != v.desk.rows ==>
            && w.desk.rows == v.desk.rows + [E.Row(member, request, v.t.newest, amount, limit, E.Reserved, true, None, None, None, false, None, now, None)]
            && L.Reserves(v.desk.books, w.desk.books, |v.desk.rows|, member, amount, limit))
  {
    L.ReserveLaw(v.desk, cap, member, request, v.t.newest, amount, limit, now, open && v.t.newest > 0);
  }

  /** Collateral is finalized under a seal of the reservation's own round, with nothing open about it. */
  lemma FinalizeInLaw(v: Vault, r: nat, clear: bool, upheld: bool)
    requires VaultSound(v)
    ensures var w := FinalizeIn(v, r, clear, upheld);
      && w.t == v.t
      && (w != v ==> r < |v.desk.rows| && clear && v.desk.rows[r].round in v.t.seals && L.MayFinalize(v.desk, r, true))
      && ((r < |v.desk.rows| && clear && v.desk.rows[r].round in v.t.seals && L.MayFinalize(v.desk, r, true)
           && Available(v.desk.rows[r].member) in v.desk.books.balances) ==> w != v)
      && (w != v ==>
            var x := v.desk.rows[r];
            if x.handedOver && (x.activeAt.None? || upheld) then L.FinalizedTo(v.desk, w.desk, r, E.Forfeited, RoundPot(x.round))
            else L.FinalizedTo(v.desk, w.desk, r, E.Returned, Available(x.member)))
  {
    L.FinalizeLaw(v.desk, r, clear && r < |v.desk.rows| && v.desk.rows[r].round in v.t.seals, upheld);
  }

  // ------------------------------------------------------------------ transfers

  predicate MoneyAccount(a: Account) {
    a == Operator(TIG) || a.Available? || a.RoundPot?
  }

  /** When unattributed funds cover an amount that is to go to an account. */
  predicate Reaches(b: Books, from: Account, to: Account, amount: nat) {
    amount > 0 ==> from in b.balances && to in b.balances && (from.External() || Balance(b, from) >= amount)
  }

  lemma PostIfReaches(b: Books, from: Account, to: Account, amount: nat, key: Key)
    requires BooksSound(b) && key !in b.keys && from != to && from.AssetOf() == to.AssetOf() && from.Place() == to.Place()
    ensures PostIf(b, amount > 0, key, TransferMovements(from, to, amount), 0).Posted? <==> Reaches(b, from, to, amount)
  {
    if amount > 0 { TransferPosts(b, from, to, amount, key, 0); }
  }

  /** A recorded transfer is attributed once, to one account, with its whole amount. */
  lemma AttributeLaw(v: Vault, e: EventId, to: Account)
    requires VaultSound(v) && MoneyAccount(to)
    ensures var w := Attribute(v, e, to);
      && (w != v <==> e in v.t.transfers && e !in v.t.attributed && Reaches(v.desk.books, Unattributed, to, v.t.transfers[e]))
      && (w != v ==>
            && w.t == v.t.(attributed := v.t.attributed[e := to]) && w.desk.rows == v.desk.rows
            && Transfers(v.desk.books, w.desk.books, Unattributed, to, v.t.transfers[e]))
  {
    assert EventSound(v, e);
    if e in v.t.transfers && e !in v.t.attributed {
      PostIfReaches(v.desk.books, Unattributed, to, v.t.transfers[e], AttributeKey(e));
      assert Reaches(v.desk.books, Unattributed, to, v.t.transfers[e]) ==> e in Attribute(v, e, to).t.attributed;
      if Attribute(v, e, to) != v { AttributeShift(v, e, to); }
    }
  }

  function ReviewedTo(member: Option<string>): Account {
    match member
    case Some(m) => Available(m)
    case None => Operator(TIG)
  }

  /** The operator sends an unattributed receipt to a member or takes it as operator funds. */
  lemma ReviewedLaw(v: Vault, e: EventId, member: Option<string>)
    requires VaultSound(v)
    ensures var w := AttributeReviewed(v, e, member);
      && (w != v <==> e in v.t.transfers && e !in v.t.attributed && Reaches(v.desk.books, Unattributed, ReviewedTo(member), v.t.transfers[e]))
      && (w != v ==>
            && w.t == v.t.(attributed := v.t.attributed[e := ReviewedTo(member)]) && w.desk.rows == v.desk.rows
            && Transfers(v.desk.books, w.desk.books, Unattributed, ReviewedTo(member), v.t.transfers[e]))
  {
    AttributeLaw(v, e, if member.Some? then Available(member.value) else Operator(TIG));
  }

  /** A transfer's money is where its sender's funds are, or waits unattributed. */
  function Destination(member: Option<string>): Account {
    match member
    case Some(m) => Available(m)
    case None => Unattributed
  }

  predicate AllOpen(b: Books, amount: nat, member: Option<string>) {
    amount > 0 ==> Outside(TIG) in b.balances && Unattributed in b.balances && Destination(member) in b.balances
  }

  lemma ThroughUnattributed(b: Books, c: Books, d: Books, to: Account, amount: nat)
    requires Transfers(b, c, Outside(TIG), Unattributed, amount) && Transfers(c, d, Unattributed, to, amount)
    requires to.Available?
    ensures Transfers(b, d, Outside(TIG), to, amount)
  {
  }

  lemma ReceiptPosts(v: Vault, e: EventId, amount: nat)
    requires VaultSound(v) && e !in v.t.transfers
    ensures var p := ReceiptPost(v.desk.books, e, amount);
      && (p.Posted? <==> (amount > 0 ==> Outside(TIG) in v.desk.books.balances && Unattributed in v.desk.books.balances))
      && (p.Posted? ==> Transfers(v.desk.books, p.books, Outside(TIG), Unattributed, amount) && p.books.balances.Keys == v.desk.books.balances.Keys)
  {
    assert EventSound(v, e);
    PostIfReaches(v.desk.books, Outside(TIG), Unattributed, amount, ReceiptKey(e));
    if ReceiptPost(v.desk.books, e, amount).Posted? {
      PostShift(v.desk.books, Outside(TIG), Unattributed, amount, ReceiptKey(e), 0);
      if amount > 0 { PostEffect(v.desk.books, ReceiptKey(e), TransferMovements(Outside(TIG), Unattributed, amount), 0); }
    }
  }

  lemma AttributeNew(v: Vault, u: Vault, e: EventId, amount: nat, member: string)
    requires VaultSound(u) && e in u.t.transfers && u.t.transfers[e] == amount && e !in u.t.attributed
    requires Transfers(v.desk.books, u.desk.books, Outside(TIG), Unattributed, amount) && Balance(u.desk.books, Unattributed) >= amount
    requires amount > 0 ==> Unattributed in u.desk.books.balances
    ensures var w := Attribute(u, e, Available(member));
      && (w != u <==> (amount > 0 ==> Available(member) in u.desk.books.balances))
      && (w != u ==>
            && w.t == u.t.(attributed := u.t.attributed[e := Available(member)]) && w.desk.rows == u.desk.rows
            && Transfers(v.desk.books, w.desk.books, Outside(TIG), Available(member), amount))
  {
    AttributeLaw(u, e, Available(member));
    var w := Attribute(u, e, Available(member));
    if w != u { ThroughUnattributed(v.desk.books, u.desk.books, w.desk.books, Available(member), amount); }
  }

  lemma NewAttributed(v: Vault, e: EventId, amount: nat, member: string)
    requires VaultSound(v) && e !in v.t.transfers && ReceiptPost(v.desk.books, e, amount).Posted?
    ensures var u := Recorded(v, ReceiptPost(v.desk.books, e, amount).books, e, amount);
      && KeysSound(u.desk.books)
      && var w := Attribute(u, e, Available(member));
      && (w != u <==> (amount > 0 ==> Available(member) in v.desk.books.balances))
      && (w != u ==>
            && w.t == u.t.(attributed := u.t.attributed[e := Available(member)]) && w.desk.rows == u.desk.rows
            && Transfers(v.desk.books, w.desk.books, Outside(TIG), Available(member), amount))
  {
    var u := Recorded(v, ReceiptPost(v.desk.books, e, amount).books, e, amount);
    assert EventSound(v, e);
    assert Balance(v.desk.books, Unattributed) >= 0;
    ReceiptPosts(v, e, amount);
    KeepsRecorded(v, e, amount);
    AttributeNew(v, u, e, amount, member);
  }

  lemma ReceiveIs(v: Vault, e: EventId, amount: nat, member: Option<string>)
    requires KeysSound(v.desk.books) && e !in v.t.transfers && e !in v.t.attributed
    ensures var p := ReceiptPost(v.desk.books, e, amount);
      && (p.Refused? ==> Receive(v, e, amount, member) == v)
      && (p.Posted? ==>
            var u := Recorded(v, p.books, e, amount);
            Receive(v, e, amount, member) ==
              if member.None? then u
              else if Attribute(u, e, Available(member.value)).t.attributed == u.t.attributed then v
              else Attribute(u, e, Available(member.value)))
  {
  }

  /** A transfer seen for the first time is recorded with its amount, and in the same transaction credited to the member who
      sent it; one from anybody else stays unattributed. */
  lemma ReceiveNew(v: Vault, e: EventId, amount: nat, member: Option<string>)
    requires VaultSound(v) && e !in v.t.transfers
    ensures var w := Receive(v, e, amount, member);
      && (w != v <==> AllOpen(v.desk.books, amount, member))
      && (w != v ==>
            && w.t == v.t.(transfers := v.t.transfers[e := amount],
                           attributed := if member.Some? then v.t.attributed[e := Available(member.value)] else v.t.attributed)
            && w.desk.rows == v.desk.rows && Transfers(v.desk.books, w.desk.books, Outside(TIG), Destination(member), amount))
  {
    assert EventSound(v, e);
    ReceiveIs(v, e, amount, member);
    ReceiptPosts(v, e, amount);
    if ReceiptPost(v.desk.books, e, amount).Posted? && member.Some? { NewAttributed(v, e, amount, member.value); }
  }

  /** One seen before must have the same amount, and then at most its attribution is made up for. */
  lemma ReceiveAgain(v: Vault, e: EventId, amount: nat, member: Option<string>)
    requires VaultSound(v) && e in v.t.transfers
    ensures var w := Receive(v, e, amount, member);
      && (v.t.transfers[e] != amount ==> w == v)
      && (w != v ==>
            && member.Some? && e !in v.t.attributed && w.desk.rows == v.desk.rows
            && w.t == v.t.(attributed := v.t.attributed[e := Available(member.value)])
            && Transfers(v.desk.books, w.desk.books, Unattributed, Available(member.value), amount))
  {
    if v.t.transfers[e] == amount && ReceiptPost(v.desk.books, e, amount).Posted? {
      assert EventSound(v, e);
      assert ReceiptPost(v.desk.books, e, amount).books == v.desk.books;
      assert v.t.transfers[e := amount] == v.t.transfers;
      assert Recorded(v, v.desk.books, e, amount) == v;
      if member.Some? { AttributeLaw(v, e, Available(member.value)); }
    }
  }

  // ------------------------------------------------------------------ pots

  /** What was received for a round, receipt by receipt. */
  lemma ReceivedOfMore(t: Tables, r: Receipt, k: nat)
    ensures Received(t.(receipts := []), k) == 0
    ensures Received(t.(receipts := t.receipts + [r]), k) == Received(t, k) + if r.round == k then r.amount else 0
  {
    ReceivedPrefix(t.receipts, r, |t.receipts|, k);
  }

  /** A recorded, unattributed reward joins a round exactly while it fits what was declared, before settlement. */
  lemma ReceiptLaw(v: Vault, k: nat, e: EventId)
    requires VaultSound(v)
    ensures var w := AttributeReceipt(v, k, e);
      && (w != v <==>
            && k in v.t.earnings && k !in v.t.settled && e in v.t.transfers && v.t.transfers[e] > 0 && e !in v.t.attributed
            && Received(v.t, k) + v.t.transfers[e] <= v.t.earnings[k].expected
            && Reaches(v.desk.books, Unattributed, RoundPot(k), v.t.transfers[e]))
      && (w != v ==>
            && w.t == v.t.(attributed := v.t.attributed[e := RoundPot(k)], receipts := v.t.receipts + [Receipt(e, k, v.t.transfers[e])])
            && w.desk.rows == v.desk.rows && Transfers(v.desk.books, w.desk.books, Unattributed, RoundPot(k), v.t.transfers[e]))
  {
    AttributeLaw(v, e, RoundPot(k));
  }

  /** The operator replaces exactly the withheld cost, once, before settlement. */
  lemma ReimburseLaw(v: Vault, k: nat)
    requires VaultSound(v)
    ensures var w := Reimburse(v, k);
      && (w != v <==>
            && k in v.t.earnings && k !in v.t.reimbursed && k !in v.t.settled
            && Reaches(v.desk.books, Operator(TIG), RoundPot(k), v.t.earnings[k].withheld))
      && (w != v ==>
            && w.t == v.t.(reimbursed := v.t.reimbursed[k := v.t.earnings[k].withheld])
            && w.desk.rows == v.desk.rows && Transfers(v.desk.books, w.desk.books, Operator(TIG), RoundPot(k), v.t.earnings[k].withheld))
  {
    assert PotSound(v, k);
    if k in v.t.earnings && k !in v.t.reimbursed && k !in v.t.settled {
      PostIfReaches(v.desk.books, Operator(TIG), RoundPot(k), v.t.earnings[k].withheld, ReimburseKey(k));
      assert Reaches(v.desk.books, Operator(TIG), RoundPot(k), v.t.earnings[k].withheld) ==> k in Reimburse(v, k).t.reimbursed;
      if Reimburse(v, k) != v { ReimburseShift(v, k); }
    }
  }

  // ------------------------------------------------------------------ settlement

  /** Sealed, covered, declared, every outcome of the round known, and everything declared received and reimbursed; credits
      are of named members and not negative. */
  predicate MaySettle(v: Vault, k: nat, entries: seq<Rewards.Entry>, covered: bool) {
    && k !in v.t.settled && k in v.t.seals && covered && k in v.t.earnings
    && (forall r :: 0 <= r < |v.desk.rows| && v.desk.rows[r].round == k ==> v.desk.rows[r].outcome.Some?)
    && Received(v.t, k) == v.t.earnings[k].expected
    && (if k in v.t.reimbursed then v.t.reimbursed[k] else 0) == v.t.earnings[k].withheld
    && forall i :: 0 <= i < |entries| ==> entries[i].key != "" && entries[i].credit >= 0.0
  }

  predicate PayeesOpen(b: Books, k: nat, entries: seq<Rewards.Entry>) {
    RoundPot(k) in b.balances && Operator(TIG) in b.balances && forall i :: 0 <= i < |entries| ==> Available(entries[i].key) in b.balances
  }

  lemma {:induction false} SettleParts(b: Books, k: nat, pot: nat, entries: seq<Rewards.Entry>, n: nat, a: Account)
    requires n <= |entries| && Rewards.IsMapping(entries) && Rewards.Accepts(entries) && PayeesOpen(b, k, entries) && a != RoundPot(k)
    ensures NetUpTo(SettleMovements(k, pot, entries), n + 2, a) >= 0
    ensures NetUpTo(SettleMovements(k, pot, entries), n + 2, a) != 0 ==> a in b.balances
  {
    var ms := SettleMovements(k, pot, entries);
    if n == 0 {
      assert NetUpTo(ms, 1, a) == Part(ms[0], a);
      assert NetUpTo(ms, 2, a) == NetUpTo(ms, 1, a) + Part(ms[1], a);
    } else {
      SettleParts(b, k, pot, entries, n - 1, a);
      assert ms[n + 1] == Credit(Available(entries[n - 1].key), Rewards.Units(pot, entries, entries[n - 1]));
      UnitsNotNegative(pot, entries, n - 1);
    }
  }

  lemma UnitsNotNegative(pot: nat, entries: seq<Rewards.Entry>, i: nat)
    requires i < |entries| && Rewards.IsMapping(entries) && Rewards.Accepts(entries)
    ensures Rewards.Units(pot, entries, entries[i]) >= 0
  {
    if Rewards.Sum(Rewards.Credits(entries)) != 0.0 { Rewards.WithinOneUnit(pot, entries, entries[i]); }
  }

  lemma SettlePosts(b: Books, k: nat, pot: nat, entries: seq<Rewards.Entry>)
    requires BooksSound(b) && SettleKey(k) !in b.keys && Rewards.IsMapping(entries) && Rewards.Accepts(entries)
    requires PayeesOpen(b, k, entries) && Balance(b, RoundPot(k)) == pot > 0
    ensures Post(b, SettleKey(k), SettleMovements(k, pot, entries), 0).Posted?
  {
    var ms := SettleMovements(k, pot, entries);
    SettleLevel(k, pot, entries);
    SettleNet(k, pot, entries, |entries|, RoundPot(k));
    forall a | a != RoundPot(k) ensures Net(ms, a) >= 0 && (Net(ms, a) != 0 ==> a in b.balances) {
      SettleParts(b, k, pot, entries, |entries|, a);
    }
    PostsExactly(b, SettleKey(k), ms, 0);
    assert Net(ms, RoundPot(k)) == 0 - pot;
  }

  lemma ReadyMeans(v: Vault, k: nat, entries: seq<Rewards.Entry>, covered: bool)
    ensures MaySettle(v, k, entries, covered) <==> Ready(v, k, covered) && Rewards.Accepts(entries)
  {
  }

  /** Once it may be settled, a round is, as soon as everybody's account is open. */
  lemma SettleHappens(v: Vault, k: nat, entries: seq<Rewards.Entry>, covered: bool)
    requires VaultSound(v) && Rewards.IsMapping(entries) && MaySettle(v, k, entries, covered) && PayeesOpen(v.desk.books, k, entries)
    ensures Settle(v, k, entries, covered) != v
  {
    assert PotSound(v, k);
    ReadyMeans(v, k, entries, covered);
    if Inputs(v, k) > 0 { SettlePosts(v.desk.books, k, Inputs(v, k), entries); }
    assert k in Settle(v, k, entries, covered).t.settled;
  }

  lemma ClosedTables(v: Vault, c: Books, k: nat, entries: seq<Rewards.Entry>)
    ensures var w, back := Closed(v, c, k, entries), if k in v.t.reimbursed then v.t.reimbursed[k] else 0;
      && w.desk.rows == v.desk.rows && w.desk.books == c
      && w.t == v.t.(settled := v.t.settled[k := Settlement(Received(v.t, k) + back + E.AllForfeited(v.desk.rows, k), entries)])
  {
  }

  lemma PaidOutEmpty(b: Books, c: Books, k: nat, pot: nat)
    requires PaidOut(b, c, k, pot) && Balance(b, RoundPot(k)) == pot
    ensures Balance(c, RoundPot(k)) == 0
  {
  }

  /** A round is paid out only when it may be settled, so once; the pot recorded is what was received, reimbursed and
      forfeited, and nothing is left in the round's account. */
  lemma SettleLaw(v: Vault, k: nat, entries: seq<Rewards.Entry>, covered: bool)
    requires VaultSound(v) && Rewards.IsMapping(entries) && Settle(v, k, entries, covered) != v
    ensures var w, back := Settle(v, k, entries, covered), if k in v.t.reimbursed then v.t.reimbursed[k] else 0;
      && MaySettle(v, k, entries, covered) && w.desk.rows == v.desk.rows && Balance(w.desk.books, RoundPot(k)) == 0
      && w.t == v.t.(settled := v.t.settled[k := Settlement(Received(v.t, k) + back + E.AllForfeited(v.desk.rows, k), entries)])
  {
    assert PotSound(v, k);
    ReadyMeans(v, k, entries, covered);
    SettlePays(v, k, entries, covered);
    ClosedTables(v, Settle(v, k, entries, covered).desk.books, k, entries);
    PaidOutEmpty(v.desk.books, Settle(v, k, entries, covered).desk.books, k, Inputs(v, k));
  }
}
