/** Round pots: receipts, reimbursement and forfeited collateral gather in a round's account until it is settled,
    once, and nothing can enter it afterwards. */
module Rounds {
  import opened Basics
  import opened Ledger
  import opened Escrow
  import opened Sums
  import Rewards

  datatype Earnings = Earnings(expected: nat, withheld: nat)

  datatype Receipt = Receipt(event: EventId, round: nat, amount: nat)

  /** What a settlement recorded: the pot it paid out and the credits it went by. */
  datatype Settlement = Settlement(pot: nat, entries: seq<Rewards.Entry>)

  /** `newest` is the round of the newest observed block, `seals` the creation rounds whose reports are sealed,
      `transfers` the recorded incoming transfers with their amounts. */
  datatype Tables = Tables(newest: nat, seals: set<nat>, earnings: map<nat, Earnings>, receipts: seq<Receipt>,
                           reimbursed: map<nat, nat>, settled: map<nat, Settlement>, transfers: map<EventId, nat>,
                           attributed: map<EventId, Account>)

  datatype Vault = Vault(desk: Desk, t: Tables)

  function WithBooks(v: Vault, b: Books): Vault {
    v.(desk := v.desk.(books := b))
  }

  // ------------------------------------------------------------------ operations

  /** A block of round k arrives; older blocks may be recovered later. */
  function Observe(v: Vault, k: nat): Vault {
    if k > v.t.newest then v.(t := v.t.(newest := k)) else v
  }

  /** The next queued request is reserved against the newest block, whose round becomes its creation round. */
  ghost function ReserveNext(v: Vault, cap: Option<Cap>, member: string, request: nat, amount: nat, limit: nat, now: int, open: bool): Vault
    requires KeysSound(v.desk.books)
  {
    v.(desk := Reserve(v.desk, cap, member, request, v.t.newest, amount, limit, now, open && v.t.newest > 0))
  }

  /** A report seal needs a block from after round k + 2; `complete` stands for the captured reports. */
  function Seal(v: Vault, k: nat, complete: bool): Vault {
    if k > 0 && complete && v.t.newest >= k + 3 then v.(t := v.t.(seals := v.t.seals + {k})) else v
  }

  ghost function FinalizeIn(v: Vault, r: nat, clear: bool, upheld: bool): Vault
    requires KeysSound(v.desk.books)
  {
    v.(desk := Finalize(v.desk, r, clear && r < |v.desk.rows| && v.desk.rows[r].round in v.t.seals, upheld))
  }

  function Declare(v: Vault, k: nat, expected: nat, withheld: nat): Vault {
    if k == 0 || v.t.newest < k + 3 || k in v.t.earnings then v
    else WithBooks(v, Opened(v.desk.books, RoundPot(k))).(t := v.t.(earnings := v.t.earnings[k := Earnings(expected, withheld)]))
  }

  /** Unattributed funds go to one destination, once. */
  ghost function Attribute(v: Vault, e: EventId, to: Account): Vault
    requires KeysSound(v.desk.books)
  {
    if e !in v.t.transfers || e in v.t.attributed then v
    else
      var p := PostIf(v.desk.books, v.t.transfers[e] > 0, AttributeKey(e), [Debit(Unattributed, v.t.transfers[e]), Credit(to, v.t.transfers[e])], 0);
      if p.Refused? then v else WithBooks(v, p.books).(t := v.t.(attributed := v.t.attributed[e := to]))
  }

  /** A verified incoming transfer is entered once and, when its sender is a member, attributed to them. */
  ghost function Receive(v: Vault, e: EventId, amount: nat, member: Option<string>): Vault
    requires KeysSound(v.desk.books)
  {
    if e in v.t.transfers && v.t.transfers[e] != amount then v
    else
      var p := PostIf(v.desk.books, amount > 0, ReceiptKey(e), [Debit(Outside(TIG), amount), Credit(Unattributed, amount)], 0);
      if p.Refused? then v
      else
        var w := WithBooks(v, p.books).(t := v.t.(transfers := v.t.transfers[e := amount]));
        if member.None? || e in v.t.attributed then w
        else if Attribute(w, e, Available(member.value)).t.attributed == w.t.attributed then v
        else Attribute(w, e, Available(member.value))
  }

  /** The operator's resolution of an unattributed receipt; rewards and operator funds go elsewhere. */
  ghost function AttributeReviewed(v: Vault, e: EventId, member: Option<string>): Vault
    requires KeysSound(v.desk.books)
  {
    Attribute(v, e, if member.Some? then Available(member.value) else Operator(TIG))
  }

  function ReceivedUpTo(rs: seq<Receipt>, n: nat, k: nat): nat
    requires n <= |rs|
  {
    if n == 0 then 0 else ReceivedUpTo(rs, n - 1, k) + if rs[n - 1].round == k then rs[n - 1].amount else 0
  }

  function Received(t: Tables, k: nat): nat {
    ReceivedUpTo(t.receipts, |t.receipts|, k)
  }

  ghost function AttributeReceipt(v: Vault, k: nat, e: EventId): Vault
    requires KeysSound(v.desk.books)
  {
    if k !in v.t.earnings || k in v.t.settled || e !in v.t.transfers || v.t.transfers[e] == 0 || e in v.t.attributed
       || Received(v.t, k) + v.t.transfers[e] > v.t.earnings[k].expected then v
    else
      var w := Attribute(v, e, RoundPot(k));
      if e !in w.t.attributed then v else w.(t := w.t.(receipts := w.t.receipts + [Receipt(e, k, v.t.transfers[e])]))
  }

  ghost function Reimburse(v: Vault, k: nat): Vault
    requires KeysSound(v.desk.books)
  {
    if k in v.t.reimbursed || k !in v.t.earnings || k in v.t.settled then v
    else
      var amount := v.t.earnings[k].withheld;
      var p := PostIf(v.desk.books, amount > 0, ReimburseKey(k), [Debit(Operator(TIG), amount), Credit(RoundPot(k), amount)], 0);
      if p.Refused? then v else WithBooks(v, p.books).(t := v.t.(reimbursed := v.t.reimbursed[k := amount]))
  }

  function Reimbursed(t: Tables, k: nat): nat {
    if k in t.reimbursed then t.reimbursed[k] else 0
  }

  function Inputs(v: Vault, k: nat): nat {
    Received(v.t, k) + Reimbursed(v.t, k) + AllForfeited(v.desk.rows, k)
  }

  function Shares(pot: nat, entries: seq<Rewards.Entry>): seq<Movement> {
    seq(|entries|, i requires 0 <= i < |entries| => Credit(Available(entries[i].key), Rewards.Units(pot, entries, entries[i])))
  }

  function SettleMovements(k: nat, pot: nat, entries: seq<Rewards.Entry>): seq<Movement> {
    [Debit(RoundPot(k), pot), Credit(Operator(TIG), Rewards.FeeDue(pot, entries))] + Shares(pot, entries)
  }

  /** Everything settlement waits for; `covered` stands for complete block and credit coverage. */
  predicate Ready(v: Vault, k: nat, covered: bool) {
    && k !in v.t.settled && k in v.t.seals && covered && k in v.t.earnings && Resolved(v.desk.rows, k)
    && Received(v.t, k) == v.t.earnings[k].expected && Reimbursed(v.t, k) == v.t.earnings[k].withheld
  }

  ghost function Settle(v: Vault, k: nat, entries: seq<Rewards.Entry>, covered: bool): Vault
    requires KeysSound(v.desk.books) && Rewards.IsMapping(entries)
  {
    if !Ready(v, k, covered) || Balance(v.desk.books, RoundPot(k)) != Inputs(v, k) || !Rewards.Accepts(entries) then v
    else
      var p := PostIf(v.desk.books, Inputs(v, k) > 0, SettleKey(k), SettleMovements(k, Inputs(v, k), entries), 0);
      if p.Refused? then v else WithBooks(v, p.books).(t := v.t.(settled := v.t.settled[k := Settlement(Inputs(v, k), entries)]))
  }

  // ------------------------------------------------------------------ invariants

  ghost predicate PotSound(v: Vault, k: nat) {
    && Balance(v.desk.books, RoundPot(k)) == (if k in v.t.settled then 0 else Inputs(v, k))
    && (ReimburseKey(k) in v.desk.books.keys ==> k in v.t.reimbursed)
    && (SettleKey(k) in v.desk.books.keys ==> k in v.t.settled)
    && (k in v.t.seals ==> k + 3 <= v.t.newest)
    && (k in v.t.settled ==> k in v.t.seals && Resolved(v.desk.rows, k))
  }

  ghost predicate EventSound(v: Vault, e: EventId) {
    && (AttributeKey(e) in v.desk.books.keys ==> e in v.t.attributed)
    && (ReceiptKey(e) in v.desk.books.keys <==> e in v.t.transfers && v.t.transfers[e] > 0)
    && (e in v.t.attributed ==> e in v.t.transfers)
  }

  ghost predicate VaultSound(v: Vault) {
    && DeskSound(v.desk)
    && (forall k: nat :: PotSound(v, k))
    && (forall e: EventId :: EventSound(v, e))
    && (forall r :: 0 <= r < |v.desk.rows| ==> v.desk.rows[r].round <= v.t.newest)
  }

  // ------------------------------------------------------------------ the desk's operations keep them

  lemma DeskStepPot(v: Vault, e: Desk, k: nat)
    requires PotSound(v, k) && Steps(v.desk, e) && (k in v.t.settled ==> k + 3 <= v.t.newest)
    requires forall r :: |v.desk.rows| <= r < |e.rows| ==> e.rows[r].round == v.t.newest
    ensures PotSound(v.(desk := e), k)
  {
    if k in v.t.settled {
      ResolvedForfeits(v.desk.rows, e.rows, |e.rows|, k);
      forall r | 0 <= r < |e.rows| && e.rows[r].round == k ensures e.rows[r].outcome.Some? {
        assert r < |v.desk.rows|;
      }
    }
  }

  lemma DeskStepEvent(v: Vault, e: Desk, x: EventId)
    requires EventSound(v, x) && Leaves(v.desk.books, e.books, Events)
    ensures EventSound(v.(desk := e), x)
  {
  }

  /** Whatever the desk does, pots stay sound: new work is in the newest round, which cannot be settled. */
  lemma DeskStepKeeps(v: Vault, e: Desk)
    requires VaultSound(v) && DeskSound(e) && Steps(v.desk, e)
    requires forall r :: |v.desk.rows| <= r < |e.rows| ==> e.rows[r].round == v.t.newest
    ensures VaultSound(v.(desk := e))
  {
    forall k: nat ensures PotSound(v.(desk := e), k) {
      assert PotSound(v, k);
      DeskStepPot(v, e, k);
    }
    forall x: EventId ensures EventSound(v.(desk := e), x) {
      assert EventSound(v, x);
      DeskStepEvent(v, e, x);
    }
  }

  lemma KeepsReserveNext(v: Vault, cap: Option<Cap>, member: string, request: nat, amount: nat, limit: nat, now: int, open: bool)
    requires VaultSound(v)
    ensures VaultSound(ReserveNext(v, cap, member, request, amount, limit, now, open))
  {
    KeepsReserve(v.desk, cap, member, request, v.t.newest, amount, limit, now, open && v.t.newest > 0);
    ReserveSteps(v.desk, cap, member, request, v.t.newest, amount, limit, now, open && v.t.newest > 0);
    DeskStepKeeps(v, ReserveNext(v, cap, member, request, amount, limit, now, open).desk);
  }

  lemma KeepsObserve(v: Vault, k: nat, complete: bool)
    requires VaultSound(v)
    ensures VaultSound(Observe(v, k)) && VaultSound(Seal(v, k, complete))
  {
    var a, b := Observe(v, k), Seal(v, k, complete);
    forall j: nat ensures PotSound(a, j) && PotSound(b, j) { assert PotSound(v, j); }
    forall e: EventId ensures EventSound(a, e) && EventSound(b, e) { assert EventSound(v, e); }
  }

  // ------------------------------------------------------------------ receipts and reimbursement

  /** All TIG that was recorded as coming in. */
  ghost function Incoming(t: Tables): nat {
    CountOver(t.transfers.Keys, t.transfers)
  }

  lemma IncomingGrows(transfers: map<EventId, nat>, e: EventId, amount: nat)
    requires e !in transfers
    ensures CountOver(transfers[e := amount].Keys, transfers[e := amount]) == CountOver(transfers.Keys, transfers) + amount
  {
    var more := transfers[e := amount];
    CountTakes(more.Keys, more, e);
    assert more.Keys - {e} == transfers.Keys;
    CountAgrees(transfers.Keys, more, transfers);
  }

  ghost predicate Aside(b: Books, c: Books) {
    Leaves(b, c, Payments) && Leaves(b, c, Chain)
  }

  /** A step that leaves payments alone and enters exactly the newly recorded transfers from outside. */
  ghost predicate Banked(v: Vault, w: Vault) {
    && Leaves(v.desk.books, w.desk.books, Payments)
    && Balance(w.desk.books, Outside(TIG)) + Incoming(w.t) == Balance(v.desk.books, Outside(TIG)) + Incoming(v.t)
  }

  lemma AsideBanks(v: Vault, w: Vault)
    requires Aside(v.desk.books, w.desk.books) && w.t.transfers == v.t.transfers
    ensures Banked(v, w)
  {
    assert Outside(TIG).Owner() == Chain;
  }

  lemma BankedChains(v: Vault, w: Vault, x: Vault)
    requires Banked(v, w) && Banked(w, x)
    ensures Banked(v, x)
  {
  }

  /** A step of the books and tables that is not the desk's: pots and events must be checked, the rest follows. */
  lemma TablesKeep(v: Vault, w: Vault)
    requires VaultSound(v) && BooksSound(w.desk.books) && Even(w.desk.books) && Leaves(v.desk.books, w.desk.books, Work)
    requires w.desk.rows == v.desk.rows && w.t.newest == v.t.newest
    requires (forall k: nat :: PotSound(w, k)) && (forall e: EventId :: EventSound(w, e))
    ensures VaultSound(w)
  {
    OthersKeep(v.desk, w.desk.books);
  }

  predicate Cash(a: Account) {
    a == Outside(TIG) || a == Operator(TIG) || a == Unattributed || a.Available? || a.RoundPot?
  }

  lemma ShiftLeaves(b: Books, c: Books, from: Account, to: Account, amount: int, key: Key)
    requires Shift(b, c, from, to, amount, key) && Cash(from) && Cash(to) && (key.Owner() == Pots || key.Owner() == Events)
    ensures Leaves(b, c, Work) && Leaves(b, c, Payments)
    ensures from != Outside(TIG) && to != Outside(TIG) ==> Leaves(b, c, Chain)
  {
    ShiftSpares(b, c, from, to, amount, key, Work);
    ShiftSpares(b, c, from, to, amount, key, Payments);
    if from != Outside(TIG) && to != Outside(TIG) { ShiftSpares(b, c, from, to, amount, key, Chain); }
  }

  // An attribution.

  function Attributed(v: Vault, c: Books, e: EventId, to: Account): Vault {
    WithBooks(v, c).(t := v.t.(attributed := v.t.attributed[e := to]))
  }

  lemma AttributeShift(v: Vault, e: EventId, to: Account)
    requires BooksSound(v.desk.books) && Even(v.desk.books) && EventSound(v, e) && Cash(to) && to != Unattributed && Attribute(v, e, to) != v
    ensures e in v.t.transfers && e !in v.t.attributed
    ensures Shift(v.desk.books, Attribute(v, e, to).desk.books, Unattributed, to, v.t.transfers[e], AttributeKey(e))
    ensures Attribute(v, e, to) == Attributed(v, Attribute(v, e, to).desk.books, e, to)
  {
    PostShift(v.desk.books, Unattributed, to, v.t.transfers[e], AttributeKey(e), 0);
  }

  lemma AttributedEvents(v: Vault, c: Books, e: EventId, to: Account, x: EventId)
    requires EventSound(v, x) && e in v.t.transfers && Shift(v.desk.books, c, Unattributed, to, v.t.transfers[e], AttributeKey(e))
    ensures EventSound(Attributed(v, c, e, to), x)
  {
  }

  lemma AttributedPot(v: Vault, c: Books, e: EventId, to: Account, k: nat)
    requires PotSound(v, k) && e in v.t.transfers && Shift(v.desk.books, c, Unattributed, to, v.t.transfers[e], AttributeKey(e)) && !to.RoundPot?
    ensures PotSound(Attributed(v, c, e, to), k)
  {
  }

  lemma AttributedKeeps(v: Vault, c: Books, e: EventId, to: Account)
    requires VaultSound(v) && e in v.t.transfers && Cash(to) && !to.RoundPot? && to != Outside(TIG)
    requires Shift(v.desk.books, c, Unattributed, to, v.t.transfers[e], AttributeKey(e))
    ensures VaultSound(Attributed(v, c, e, to)) && Aside(v.desk.books, c)
  {
    ShiftLeaves(v.desk.books, c, Unattributed, to, v.t.transfers[e], AttributeKey(e));
    forall k: nat ensures PotSound(Attributed(v, c, e, to), k) {
      assert PotSound(v, k);
      AttributedPot(v, c, e, to, k);
    }
    forall x: EventId ensures EventSound(Attributed(v, c, e, to), x) {
      assert EventSound(v, x);
      AttributedEvents(v, c, e, to, x);
    }
    TablesKeep(v, Attributed(v, c, e, to));
  }

  lemma KeepsAttribute(v: Vault, e: EventId, to: Account)
    requires VaultSound(v) && (to == Operator(TIG) || to.Available?)
    ensures VaultSound(Attribute(v, e, to)) && Aside(v.desk.books, Attribute(v, e, to).desk.books)
  {
    var w := Attribute(v, e, to);
    if w != v {
      assert EventSound(v, e);
      AttributeShift(v, e, to);
      AttributedKeeps(v, w.desk.books, e, to);
    }
  }

  // A transfer is recorded; a repeated one finds its journal and changes nothing.

  function Recorded(v: Vault, c: Books, e: EventId, amount: nat): Vault {
    WithBooks(v, c).(t := v.t.(transfers := v.t.transfers[e := amount]))
  }

  lemma RecordedKeeps(v: Vault, c: Books, e: EventId, amount: nat)
    requires VaultSound(v) && e !in v.t.transfers && Shift(v.desk.books, c, Outside(TIG), Unattributed, amount, ReceiptKey(e))
    ensures VaultSound(Recorded(v, c, e, amount))
  {
    var w := Recorded(v, c, e, amount);
    ShiftLeaves(v.desk.books, c, Outside(TIG), Unattributed, amount, ReceiptKey(e));
    forall k: nat ensures PotSound(w, k) {
      assert PotSound(v, k);
      RecordedPot(v, c, e, amount, k);
    }
    forall x: EventId ensures EventSound(w, x) {
      assert EventSound(v, x);
      RecordedEvent(v, c, e, amount, x);
    }
    TablesKeep(v, w);
  }

  lemma RecordedPot(v: Vault, c: Books, e: EventId, amount: nat, k: nat)
    requires PotSound(v, k) && Shift(v.desk.books, c, Outside(TIG), Unattributed, amount, ReceiptKey(e))
    ensures PotSound(Recorded(v, c, e, amount), k)
  {
  }

  lemma RecordedEvent(v: Vault, c: Books, e: EventId, amount: nat, x: EventId)
    requires EventSound(v, x) && e !in v.t.transfers && Shift(v.desk.books, c, Outside(TIG), Unattributed, amount, ReceiptKey(e))
    ensures EventSound(Recorded(v, c, e, amount), x)
  {
  }

  ghost function ReceiptPost(b: Books, e: EventId, amount: nat): Result
    requires KeysSound(b)
  {
    PostIf(b, amount > 0, ReceiptKey(e), TransferMovements(Outside(TIG), Unattributed, amount), 0)
  }

  lemma KeepsRecorded(v: Vault, e: EventId, amount: nat)
    requires VaultSound(v) && (e in v.t.transfers ==> v.t.transfers[e] == amount) && ReceiptPost(v.desk.books, e, amount).Posted?
    ensures var c := ReceiptPost(v.desk.books, e, amount).books;
      VaultSound(Recorded(v, c, e, amount)) && Banked(v, Recorded(v, c, e, amount))
  {
    var c := ReceiptPost(v.desk.books, e, amount).books;
    assert EventSound(v, e);
    if e in v.t.transfers {
      assert c == v.desk.books;
      assert v.t.transfers[e := amount] == v.t.transfers;
    } else {
      PostShift(v.desk.books, Outside(TIG), Unattributed, amount, ReceiptKey(e), 0);
      ShiftLeaves(v.desk.books, c, Outside(TIG), Unattributed, amount, ReceiptKey(e));
      RecordedKeeps(v, c, e, amount);
      IncomingGrows(v.t.transfers, e, amount);
    }
  }

  lemma AttributeAfter(v: Vault, w: Vault, e: EventId, member: string)
    requires VaultSound(w) && Banked(v, w)
    ensures VaultSound(Attribute(w, e, Available(member))) && Banked(v, Attribute(w, e, Available(member)))
  {
    KeepsAttribute(w, e, Available(member));
    AsideBanks(w, Attribute(w, e, Available(member)));
    BankedChains(v, w, Attribute(w, e, Available(member)));
  }

  lemma KeepsReceive(v: Vault, e: EventId, amount: nat, member: Option<string>)
    requires VaultSound(v)
    ensures VaultSound(Receive(v, e, amount, member)) && Banked(v, Receive(v, e, amount, member))
  {
    if Receive(v, e, amount, member) != v {
      KeepsRecorded(v, e, amount);
      var w := Recorded(v, ReceiptPost(v.desk.books, e, amount).books, e, amount);
      if member.Some? { AttributeAfter(v, w, e, member.value); }
    }
  }

  lemma KeepsDeclare(v: Vault, k: nat, expected: nat, withheld: nat)
    requires VaultSound(v)
    ensures VaultSound(Declare(v, k, expected, withheld)) && Aside(v.desk.books, Declare(v, k, expected, withheld).desk.books)
  {
    var w := Declare(v, k, expected, withheld);
    if w != v {
      OpenMoves(v.desk.books, RoundPot(k));
      forall j: nat ensures PotSound(w, j) { assert PotSound(v, j); }
      forall e: EventId ensures EventSound(w, e) { assert EventSound(v, e); }
      TablesKeep(v, w);
    }
  }

  // A reward receipt joins its round.

  lemma {:induction false} ReceivedPrefix(rs: seq<Receipt>, r: Receipt, n: nat, k: nat)
    requires n <= |rs|
    ensures ReceivedUpTo(rs + [r], n, k) == ReceivedUpTo(rs, n, k)
  {
    if n > 0 { ReceivedPrefix(rs, r, n - 1, k); }
  }

  function Joined(v: Vault, c: Books, k: nat, e: EventId, amount: nat): Vault {
    var w := Attributed(v, c, e, RoundPot(k));
    w.(t := w.t.(receipts := w.t.receipts + [Receipt(e, k, amount)]))
  }

  /** A pot stays sound when its balance moves with its inputs and nothing else about it changes. */
  lemma PotMoved(v: Vault, w: Vault, j: nat, d: int)
    requires PotSound(v, j) && w.desk.rows == v.desk.rows
    requires w.t.settled == v.t.settled && w.t.reimbursed == v.t.reimbursed && w.t.seals == v.t.seals && w.t.newest == v.t.newest
    requires Inputs(w, j) == Inputs(v, j) + d && Balance(w.desk.books, RoundPot(j)) == Balance(v.desk.books, RoundPot(j)) + d
    requires forall key :: key in {ReimburseKey(j), SettleKey(j)} && key in w.desk.books.keys ==> key in v.desk.books.keys
    requires j in v.t.settled ==> d == 0
    ensures PotSound(w, j)
  {
  }

  lemma JoinedPot(v: Vault, c: Books, k: nat, e: EventId, amount: nat, j: nat)
    requires PotSound(v, j) && k !in v.t.settled && Shift(v.desk.books, c, Unattributed, RoundPot(k), amount, AttributeKey(e))
    ensures PotSound(Joined(v, c, k, e, amount), j)
  {
    JoinedInputs(v, c, k, e, amount, j);
    PotMoved(v, Joined(v, c, k, e, amount), j, if j == k then amount else 0);
  }

  lemma JoinedInputs(v: Vault, c: Books, k: nat, e: EventId, amount: nat, j: nat)
    ensures Inputs(Joined(v, c, k, e, amount), j) == Inputs(v, j) + if j == k then amount else 0
  {
    ReceivedPrefix(v.t.receipts, Receipt(e, k, amount), |v.t.receipts|, j);
  }

  lemma JoinedKeeps(v: Vault, c: Books, k: nat, e: EventId, amount: nat)
    requires VaultSound(v) && k !in v.t.settled && e in v.t.transfers && amount == v.t.transfers[e]
    requires Shift(v.desk.books, c, Unattributed, RoundPot(k), amount, AttributeKey(e))
    ensures VaultSound(Joined(v, c, k, e, amount))
  {
    ShiftLeaves(v.desk.books, c, Unattributed, RoundPot(k), amount, AttributeKey(e));
    forall j: nat ensures PotSound(Joined(v, c, k, e, amount), j) {
      assert PotSound(v, j);
      JoinedPot(v, c, k, e, amount, j);
    }
    forall x: EventId ensures EventSound(Joined(v, c, k, e, amount), x) {
      assert EventSound(v, x);
      AttributedEvents(v, c, e, RoundPot(k), x);
    }
    TablesKeep(v, Joined(v, c, k, e, amount));
  }

  lemma KeepsReceipt(v: Vault, k: nat, e: EventId)
    requires VaultSound(v)
    ensures VaultSound(AttributeReceipt(v, k, e)) && Aside(v.desk.books, AttributeReceipt(v, k, e).desk.books)
  {
    var w := AttributeReceipt(v, k, e);
    if w != v {
      assert EventSound(v, e);
      AttributeShift(v, e, RoundPot(k));
      ShiftLeaves(v.desk.books, w.desk.books, Unattributed, RoundPot(k), v.t.transfers[e], AttributeKey(e));
      JoinedKeeps(v, w.desk.books, k, e, v.t.transfers[e]);
    }
  }

  // The operator replaces what the protocol withheld.

  function Refunded(v: Vault, c: Books, k: nat, amount: nat): Vault {
    WithBooks(v, c).(t := v.t.(reimbursed := v.t.reimbursed[k := amount]))
  }

  lemma RefundedPot(v: Vault, c: Books, k: nat, amount: nat, j: nat)
    requires PotSound(v, j) && k !in v.t.settled && k !in v.t.reimbursed
    requires Shift(v.desk.books, c, Operator(TIG), RoundPot(k), amount, ReimburseKey(k))
    ensures PotSound(Refunded(v, c, k, amount), j)
  {
  }

  lemma RefundedEvent(v: Vault, c: Books, k: nat, amount: nat, x: EventId)
    requires EventSound(v, x) && Shift(v.desk.books, c, Operator(TIG), RoundPot(k), amount, ReimburseKey(k))
    ensures EventSound(Refunded(v, c, k, amount), x)
  {
  }

  lemma RefundedKeeps(v: Vault, c: Books, k: nat, amount: nat)
    requires VaultSound(v) && k !in v.t.settled && k !in v.t.reimbursed
    requires Shift(v.desk.books, c, Operator(TIG), RoundPot(k), amount, ReimburseKey(k))
    ensures VaultSound(Refunded(v, c, k, amount))
  {
    ShiftLeaves(v.desk.books, c, Operator(TIG), RoundPot(k), amount, ReimburseKey(k));
    forall j: nat ensures PotSound(Refunded(v, c, k, amount), j) {
      assert PotSound(v, j);
      RefundedPot(v, c, k, amount, j);
    }
    forall x: EventId ensures EventSound(Refunded(v, c, k, amount), x) {
      assert EventSound(v, x);
      RefundedEvent(v, c, k, amount, x);
    }
    TablesKeep(v, Refunded(v, c, k, amount));
  }

  lemma ReimburseShift(v: Vault, k: nat)
    requires BooksSound(v.desk.books) && Even(v.desk.books) && PotSound(v, k) && Reimburse(v, k) != v
    ensures k in v.t.earnings && k !in v.t.settled && k !in v.t.reimbursed
    ensures Shift(v.desk.books, Reimburse(v, k).desk.books, Operator(TIG), RoundPot(k), v.t.earnings[k].withheld, ReimburseKey(k))
    ensures Reimburse(v, k) == Refunded(v, Reimburse(v, k).desk.books, k, v.t.earnings[k].withheld)
  {
    PostShift(v.desk.books, Operator(TIG), RoundPot(k), v.t.earnings[k].withheld, ReimburseKey(k), 0);
  }

  lemma KeepsReimburse(v: Vault, k: nat)
    requires VaultSound(v)
    ensures VaultSound(Reimburse(v, k)) && Aside(v.desk.books, Reimburse(v, k).desk.books)
  {
    var w := Reimburse(v, k);
    if w != v {
      assert PotSound(v, k);
      ReimburseShift(v, k);
      ShiftLeaves(v.desk.books, w.desk.books, Operator(TIG), RoundPot(k), v.t.earnings[k].withheld, ReimburseKey(k));
      RefundedKeeps(v, w.desk.books, k, v.t.earnings[k].withheld);
    }
  }

  // ------------------------------------------------------------------ settlement

  lemma {:induction false} TotalTo(s: seq<int>, n: nat)
    requires n < |s|
    ensures Rewards.Total(s[..n + 1]) == Rewards.Total(s[..n]) + s[n]
  {
    if n == 0 {
      assert s[..1] == [s[0]] && s[..1][1..] == [];
    } else {
      TotalTo(s[1..], n - 1);
      assert s[..n + 1][1..] == s[1..][..n] && s[..n][1..] == s[1..][..n - 1];
    }
  }

  /** The members' credits are what the allocation says, so a settlement is level. */
  lemma {:induction false} SettleFlow(k: nat, pot: nat, entries: seq<Rewards.Entry>, n: nat, asset: Asset, place: Location)
    requires n <= |entries|
    ensures FlowUpTo(SettleMovements(k, pot, entries), n + 2, asset, place)
      == if asset == TIG && place == Custody
         then Rewards.FeeDue(pot, entries) - pot + Rewards.Total(Rewards.Amounts(pot, entries)[..n]) else 0
  {
    var ms := SettleMovements(k, pot, entries);
    if n == 0 {
      assert FlowUpTo(ms, 1, asset, place) == FlowPart(ms[0], asset, place);
    } else {
      SettleFlow(k, pot, entries, n - 1, asset, place);
      TotalTo(Rewards.Amounts(pot, entries), n - 1);
      assert ms[n + 1] == Credit(Available(entries[n - 1].key), Rewards.Units(pot, entries, entries[n - 1]));
    }
  }

  lemma SettleLevel(k: nat, pot: nat, entries: seq<Rewards.Entry>)
    requires Rewards.IsMapping(entries)
    ensures Level(SettleMovements(k, pot, entries))
  {
    var amounts := Rewards.Amounts(pot, entries);
    assert amounts[..|entries|] == amounts;
    Rewards.PaysExactlyThePot(pot, entries);
    forall asset, place ensures Flow(SettleMovements(k, pot, entries), asset, place) == 0 {
      SettleFlow(k, pot, entries, |entries|, asset, place);
    }
  }

  lemma {:induction false} SettleNet(k: nat, pot: nat, entries: seq<Rewards.Entry>, n: nat, a: Account)
    requires n <= |entries| && !a.Available? && a != Operator(TIG)
    ensures NetUpTo(SettleMovements(k, pot, entries), n + 2, a) + (if a == RoundPot(k) then pot else 0) == 0
  {
    var ms := SettleMovements(k, pot, entries);
    if n == 0 {
      assert NetUpTo(ms, 1, a) == Part(ms[0], a);
    } else {
      SettleNet(k, pot, entries, n - 1, a);
      assert ms[n + 1] == Credit(Available(entries[n - 1].key), Rewards.Units(pot, entries, entries[n - 1]));
    }
  }

  /** What settling a round does to the books. */
  ghost predicate PaidOut(b: Books, c: Books, k: nat, pot: nat) {
    && BooksSound(c) && Even(c)
    && (forall a: Account :: !a.Available? && a != Operator(TIG) ==> Balance(c, a) == Balance(b, a) - if a == RoundPot(k) then pot else 0)
    && c.keys.Keys == b.keys.Keys + if pot > 0 then {SettleKey(k)} else {}
  }

  lemma MovedPaysOut(b: Books, c: Books, k: nat, pot: nat, entries: seq<Rewards.Entry>)
    requires pot > 0 && Moved(b, c, SettleMovements(k, pot, entries), {SettleKey(k)})
    ensures PaidOut(b, c, k, pot)
  {
    var ms := SettleMovements(k, pot, entries);
    forall a: Account | !a.Available? && a != Operator(TIG) ensures Net(ms, a) + (if a == RoundPot(k) then pot else 0) == 0 {
      SettleNet(k, pot, entries, |entries|, a);
    }
  }

  lemma PostPaidOut(b: Books, k: nat, pot: nat, entries: seq<Rewards.Entry>)
    requires BooksSound(b) && Even(b) && SettleKey(k) !in b.keys && Rewards.IsMapping(entries)
    requires PostIf(b, pot > 0, SettleKey(k), SettleMovements(k, pot, entries), 0).Posted?
    ensures PaidOut(b, PostIf(b, pot > 0, SettleKey(k), SettleMovements(k, pot, entries), 0).books, k, pot)
  {
    if pot > 0 {
      SettleLevel(k, pot, entries);
      PostMoves(b, pot > 0, SettleKey(k), SettleMovements(k, pot, entries), 0);
      MovedPaysOut(b, PostIf(b, pot > 0, SettleKey(k), SettleMovements(k, pot, entries), 0).books, k, pot, entries);
    }
  }

  lemma PaidOutLeaves(b: Books, c: Books, k: nat, pot: nat)
    requires PaidOut(b, c, k, pot)
    ensures Leaves(b, c, Work) && Leaves(b, c, Payments) && Leaves(b, c, Events) && Leaves(b, c, Chain)
  {
    PaidOutSpares(b, c, k, pot, Chain);
    PaidOutSpares(b, c, k, pot, Work);
    PaidOutSpares(b, c, k, pot, Payments);
    PaidOutSpares(b, c, k, pot, Events);
  }

  lemma PaidOutSpares(b: Books, c: Books, k: nat, pot: nat, part: Domain)
    requires PaidOut(b, c, k, pot) && part != Pots && part != Common
    ensures Leaves(b, c, part)
  {
    forall a: Account | a.Owner() == part ensures Balance(c, a) == Balance(b, a) {}
  }

  function Closed(v: Vault, c: Books, k: nat, entries: seq<Rewards.Entry>): Vault {
    WithBooks(v, c).(t := v.t.(settled := v.t.settled[k := Settlement(Inputs(v, k), entries)]))
  }

  lemma ClosedPot(v: Vault, c: Books, k: nat, entries: seq<Rewards.Entry>, j: nat)
    requires PotSound(v, j) && k !in v.t.settled && k in v.t.seals && Resolved(v.desk.rows, k)
    requires PaidOut(v.desk.books, c, k, Inputs(v, k))
    ensures PotSound(Closed(v, c, k, entries), j)
  {
  }

  lemma ClosedKeeps(v: Vault, c: Books, k: nat, entries: seq<Rewards.Entry>)
    requires VaultSound(v) && k !in v.t.settled && k in v.t.seals && Resolved(v.desk.rows, k)
    requires PaidOut(v.desk.books, c, k, Inputs(v, k))
    ensures VaultSound(Closed(v, c, k, entries))
  {
    var w := Closed(v, c, k, entries);
    PaidOutLeaves(v.desk.books, c, k, Inputs(v, k));
    forall j: nat ensures PotSound(w, j) {
      assert PotSound(v, j);
      ClosedPot(v, c, k, entries, j);
    }
    forall x: EventId ensures EventSound(w, x) {
      assert EventSound(v, x);
      ClosedEvent(v, c, k, entries, x);
    }
    TablesKeep(v, w);
  }

  lemma ClosedEvent(v: Vault, c: Books, k: nat, entries: seq<Rewards.Entry>, x: EventId)
    requires EventSound(v, x) && Leaves(v.desk.books, c, Events)
    ensures EventSound(Closed(v, c, k, entries), x)
  {
  }

  lemma SettlePays(v: Vault, k: nat, entries: seq<Rewards.Entry>, covered: bool)
    requires BooksSound(v.desk.books) && Even(v.desk.books) && PotSound(v, k) && Rewards.IsMapping(entries)
    requires Settle(v, k, entries, covered) != v
    ensures Ready(v, k, covered)
    ensures PaidOut(v.desk.books, Settle(v, k, entries, covered).desk.books, k, Inputs(v, k))
    ensures Settle(v, k, entries, covered) == Closed(v, Settle(v, k, entries, covered).desk.books, k, entries)
  {
    PostPaidOut(v.desk.books, k, Inputs(v, k), entries);
  }

  lemma KeepsSettle(v: Vault, k: nat, entries: seq<Rewards.Entry>, covered: bool)
    requires VaultSound(v) && Rewards.IsMapping(entries)
    ensures VaultSound(Settle(v, k, entries, covered)) && Aside(v.desk.books, Settle(v, k, entries, covered).desk.books)
  {
    var w := Settle(v, k, entries, covered);
    if w != v {
      assert PotSound(v, k);
      SettlePays(v, k, entries, covered);
      PaidOutLeaves(v.desk.books, w.desk.books, k, Inputs(v, k));
      ClosedKeeps(v, w.desk.books, k, entries);
    }
  }

  /** The pot always holds what its inputs say, so the last check before paying never fails; and what is paid is
      exactly those inputs. */
  lemma SettlementPaysInputs(v: Vault, k: nat, entries: seq<Rewards.Entry>, covered: bool)
    requires VaultSound(v) && Rewards.IsMapping(entries)
    ensures Ready(v, k, covered) ==> Balance(v.desk.books, RoundPot(k)) == Inputs(v, k)
    ensures Settle(v, k, entries, covered) != v ==>
      Balance(Settle(v, k, entries, covered).desk.books, RoundPot(k)) == 0
      && Rewards.FeeDue(Inputs(v, k), entries) + Rewards.Total(Rewards.Amounts(Inputs(v, k), entries)) == Inputs(v, k)
  {
    assert PotSound(v, k);
    Rewards.PaysExactlyThePot(Inputs(v, k), entries);
    if Settle(v, k, entries, covered) != v { SettlePays(v, k, entries, covered); }
  }

  /** A settled round is over: it holds nothing, all its work is resolved, and new work gets a later round. */
  lemma SettledForGood(v: Vault, k: nat)
    requires VaultSound(v) && k in v.t.settled
    ensures Balance(v.desk.books, RoundPot(k)) == 0 && Resolved(v.desk.rows, k) && k + 3 <= v.t.newest
  {
    assert PotSound(v, k);
  }

  /** An operation on the round tables: it keeps the vault sound, changes no reservation and only banks transfers. */
  ghost predicate Kept(v: Vault, w: Vault) {
    VaultSound(w) && w.desk.rows == v.desk.rows && Banked(v, w)
  }

  lemma DeclareKept(v: Vault, k: nat, expected: nat, withheld: nat)
    requires VaultSound(v)
    ensures Kept(v, Declare(v, k, expected, withheld))
  {
    KeepsDeclare(v, k, expected, withheld);
    AsideBanks(v, Declare(v, k, expected, withheld));
  }

  lemma ObserveKept(v: Vault, k: nat, complete: bool)
    requires VaultSound(v)
    ensures Kept(v, Observe(v, k)) && Kept(v, Seal(v, k, complete))
  {
    KeepsObserve(v, k, complete);
    AsideBanks(v, Observe(v, k));
    AsideBanks(v, Seal(v, k, complete));
  }

  lemma ReceiptKept(v: Vault, k: nat, e: EventId)
    requires VaultSound(v)
    ensures Kept(v, AttributeReceipt(v, k, e))
  {
    KeepsReceipt(v, k, e);
    AsideBanks(v, AttributeReceipt(v, k, e));
  }

  lemma ReimburseKept(v: Vault, k: nat)
    requires VaultSound(v)
    ensures Kept(v, Reimburse(v, k))
  {
    KeepsReimburse(v, k);
    AsideBanks(v, Reimburse(v, k));
  }

  lemma SettleKept(v: Vault, k: nat, entries: seq<Rewards.Entry>, covered: bool)
    requires VaultSound(v) && Rewards.IsMapping(entries)
    ensures Kept(v, Settle(v, k, entries, covered))
  {
    KeepsSettle(v, k, entries, covered);
    AsideBanks(v, Settle(v, k, entries, covered));
  }

  lemma ReceiveKept(v: Vault, e: EventId, amount: nat, member: Option<string>)
    requires VaultSound(v)
    ensures Kept(v, Receive(v, e, amount, member))
  {
    KeepsReceive(v, e, amount, member);
  }

  lemma ReviewedKept(v: Vault, e: EventId, member: Option<string>)
    requires VaultSound(v)
    ensures Kept(v, AttributeReviewed(v, e, member))
  {
    KeepsAttribute(v, e, if member.Some? then Available(member.value) else Operator(TIG));
    AsideBanks(v, AttributeReviewed(v, e, member));
  }

  /** Steps of other parts of the pool leave rounds as they are. */
  lemma OthersKeepVault(v: Vault, c: Books)
    requires VaultSound(v) && BooksSound(c) && Even(c)
    requires Leaves(v.desk.books, c, Work) && Leaves(v.desk.books, c, Pots) && Leaves(v.desk.books, c, Events)
    ensures VaultSound(WithBooks(v, c))
  {
    var w := WithBooks(v, c);
    forall k: nat ensures PotSound(w, k) {
      assert PotSound(v, k);
      OtherPot(v, c, k);
    }
    forall e: EventId ensures EventSound(w, e) {
      assert EventSound(v, e);
      DeskStepEvent(v, w.desk, e);
    }
    TablesKeep(v, w);
  }

  lemma OtherPot(v: Vault, c: Books, k: nat)
    requires PotSound(v, k) && Leaves(v.desk.books, c, Pots)
    ensures PotSound(WithBooks(v, c), k)
  {
  }

  // ------------------------------------------------------------------ the tables

  /** The round, receipt and transfer tables over the reservations and the shared journal.  A method that raises
      in the original returns false and its transaction is rolled back. */
  class RoundDesk {
    const desk: BenchmarkDesk
    var newest: nat
    var seals: set<nat>
    var earnings: map<nat, Earnings>
    var receipts: seq<Receipt>
    var reimbursed: map<nat, nat>
    var settled: map<nat, Settlement>
    var transfers: map<EventId, nat>
    var attributed: map<EventId, Account>

    constructor (desk: BenchmarkDesk)
      ensures this.desk == desk && fresh(this)
      ensures TablesOf() == Tables(0, {}, map[], [], map[], map[], map[], map[])
    {
      this.desk := desk;
      newest, seals, earnings, receipts := 0, {}, map[], [];
      reimbursed, settled, transfers, attributed := map[], map[], map[], map[];
    }

    function TablesOf(): Tables
      reads this
    {
      Tables(newest, seals, earnings, receipts, reimbursed, settled, transfers, attributed)
    }

    function Contents(): Vault
      reads this, desk, desk.journal
    {
      Vault(desk.Contents(), TablesOf())
    }

    method ObserveBlock(k: nat)
      modifies `newest
      ensures Contents() == Observe(old(Contents()), k)
    {
      if k > newest { newest := k; }
    }

    method SealReports(k: nat, complete: bool)
      modifies `seals
      ensures Contents() == Seal(old(Contents()), k, complete)
    {
      if k > 0 && complete && newest >= k + 3 { seals := seals + {k}; }
    }

    method FinalizeWork(r: nat, clear: bool, upheld: bool) returns (ok: bool)
      requires KeysSound(desk.journal.Contents())
      modifies desk, desk.journal
      ensures Contents() == FinalizeIn(old(Contents()), r, clear, upheld)
      ensures ok == (desk.rows != old(desk.rows))
    {
      var sealed := clear && r < |desk.rows| && desk.rows[r].round in seals;
      ok := desk.FinalizeCollateral(r, sealed, upheld);
    }

    method DeclareEarnings(k: nat, expected: nat, withheld: nat)
      modifies `earnings, desk.journal
      ensures Contents() == Declare(old(Contents()), k, expected, withheld)
    {
      if k == 0 || newest < k + 3 || k in earnings { return; }
      desk.journal.Open(RoundPot(k));
      earnings := earnings[k := Earnings(expected, withheld)];
    }

    method AttributeTo(e: EventId, to: Account) returns (ok: bool)
      requires KeysSound(desk.journal.Contents())
      modifies `attributed, desk.journal
      ensures Contents() == Attribute(old(Contents()), e, to)
      ensures ok == (attributed != old(attributed))
    {
      if e !in transfers || e in attributed { return false; }
      ok := desk.journal.PostUnlessEmpty(transfers[e] > 0, AttributeKey(e), [Debit(Unattributed, transfers[e]), Credit(to, transfers[e])], 0);
      if !ok { return; }
      attributed := attributed[e := to];
    }

    method ReceiveTransfer(e: EventId, amount: nat, member: Option<string>) returns (ok: bool)
      requires KeysSound(desk.journal.Contents())
      modifies `transfers, `attributed, desk.journal
      ensures Contents() == Receive(old(Contents()), e, amount, member)
      ensures ok ==> e in transfers && transfers[e] == amount && (member.Some? ==> e in attributed)
      ensures !ok ==> Contents() == old(Contents())
    {
      if e in transfers && transfers[e] != amount { return false; }
      var before, saved := desk.journal.Contents(), transfers;
      ok := desk.journal.PostUnlessEmpty(amount > 0, ReceiptKey(e), [Debit(Outside(TIG), amount), Credit(Unattributed, amount)], 0);
      if !ok { return; }
      transfers := transfers[e := amount];
      if member.None? || e in attributed { return true; }
      ok := AttributeTo(e, Available(member.value));
      if !ok {
        desk.journal.Restore(before);
        transfers := saved;
      }
    }

    method TotalReceived(k: nat) returns (total: nat)
      ensures total == Received(TablesOf(), k)
    {
      total := 0;
      for i := 0 to |receipts|
        invariant total == ReceivedUpTo(receipts, i, k)
      {
        if receipts[i].round == k { total := total + receipts[i].amount; }
      }
    }

    method AttributeReward(k: nat, e: EventId) returns (ok: bool)
      requires KeysSound(desk.journal.Contents())
      modifies `attributed, `receipts, desk.journal
      ensures Contents() == AttributeReceipt(old(Contents()), k, e)
      ensures ok == (|receipts| > |old(receipts)|)
    {
      if k !in earnings || k in settled || e !in transfers || transfers[e] == 0 || e in attributed { return false; }
      var total := TotalReceived(k);
      if total + transfers[e] > earnings[k].expected { return false; }
      ok := AttributeTo(e, RoundPot(k));
      if !ok { return; }
      receipts := receipts + [Receipt(e, k, transfers[e])];
    }

    method ReimburseCost(k: nat) returns (ok: bool)
      requires KeysSound(desk.journal.Contents())
      modifies `reimbursed, desk.journal
      ensures Contents() == Reimburse(old(Contents()), k)
      ensures ok == (k !in old(reimbursed) && k in reimbursed)
    {
      if k in reimbursed || k !in earnings || k in settled { return false; }
      var amount := earnings[k].withheld;
      ok := desk.journal.PostUnlessEmpty(amount > 0, ReimburseKey(k), [Debit(Operator(TIG), amount), Credit(RoundPot(k), amount)], 0);
      if !ok { return; }
      reimbursed := reimbursed[k := amount];
    }

    method TotalForfeited(k: nat) returns (total: nat)
      ensures total == AllForfeited(desk.rows, k)
    {
      total := 0;
      for r := 0 to |desk.rows|
        invariant total == ForfeitedUpTo(desk.rows, r, k)
      {
        if desk.rows[r].round == k && desk.rows[r].outcome == Some(Forfeited) { total := total + desk.rows[r].amount; }
      }
    }

    /** The settlement journal's movements, or nothing when the allocation refuses its credits. */
    static method Payments(k: nat, pot: nat, entries: seq<Rewards.Entry>) returns (ok: bool, ms: seq<Movement>)
      requires Rewards.IsMapping(entries)
      ensures ok == Rewards.Accepts(entries)
      ensures ok ==> ms == SettleMovements(k, pot, entries)
    {
      var p := Rewards.AllocateRewards(pot, entries);
      if p.Refused? { return false, []; }
      ms := [Debit(RoundPot(k), pot), Credit(Operator(TIG), p.fee)];
      ghost var head := ms;
      for i := 0 to |entries|
        invariant ms == head + Shares(pot, entries)[..i]
      {
        ms := ms + [Credit(Available(entries[i].key), p.units[entries[i].key])];
      }
      assert Shares(pot, entries)[..|entries|] == Shares(pot, entries);
      ok := true;
    }

    /** Is everything there, and how much is to be paid? */
    method Prepare(k: nat, covered: bool) returns (ready: bool, pot: nat)
      ensures ready == Ready(Contents(), k, covered)
      ensures ready ==> pot == Inputs(Contents(), k)
    {
      if k in settled || k !in seals || !covered || k !in earnings { return false, 0; }
      if exists r :: 0 <= r < |desk.rows| && desk.rows[r].round == k && desk.rows[r].outcome.None? { return false, 0; }
      var received := TotalReceived(k);
      if received != earnings[k].expected { return false, 0; }
      var reimbursement := if k in reimbursed then reimbursed[k] else 0;
      if reimbursement != earnings[k].withheld { return false, 0; }
      var forfeited := TotalForfeited(k);
      return true, received + reimbursement + forfeited;
    }

    method SettleRound(k: nat, entries: seq<Rewards.Entry>, covered: bool) returns (ok: bool)
      requires KeysSound(desk.journal.Contents()) && Rewards.IsMapping(entries)
      modifies `settled, desk.journal
      ensures Contents() == Settle(old(Contents()), k, entries, covered)
      ensures ok == (k !in old(settled) && k in settled)
    {
      var ready, pot := Prepare(k, covered);
      if !ready { return false; }
      if Balance(desk.journal.Contents(), RoundPot(k)) != pot { return false; }
      var accepted, ms := Payments(k, pot, entries);
      if !accepted { return false; }
      ok := desk.journal.PostUnlessEmpty(pot > 0, SettleKey(k), ms, 0);
      if !ok { return; }
      settled := settled[k := Settlement(pot, entries)];
    }
  }
}
