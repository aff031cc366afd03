/** The append-only journal: balanced, idempotent by event key, with balances kept from inserted entries. */
module Ledger {
  import opened Basics
  import opened Sums

  datatype Asset = TIG | Native

  datatype Location = Custody | Protocol

  /** Which part of the pool an account or event key belongs to; the rest is common to all. */
  datatype Domain = Work | Pots | Events | Payments | Chain | Common

  /** Account identities name their kind, asset and location. */
  datatype Account =
    | Operator(asset: Asset)
    | Outside(asset: Asset)
    | ProtocolFees
    | OutsideProtocol
    | Unattributed
    | Available(member: string)
    | Collateral(r: nat)
    | Commitment(r: nat)
    | RoundPot(k: nat)
    | Pending(w: nat)
    | SendGas(a: nat)
    | TopupHold(t: nat, asset: Asset)
  {
    function AssetOf(): Asset {
      match this
      case Operator(x) => x
      case Outside(x) => x
      case TopupHold(_, x) => x
      case SendGas(_) => Native
      case _ => TIG
    }

    function Place(): Location {
      if ProtocolFees? || OutsideProtocol? || Commitment? then Protocol else Custody
    }

    function Owner(): Domain {
      if Collateral? || Commitment? then Work else if RoundPot? then Pots
      else if Pending? || SendGas? || TopupHold? then Payments else if this == Outside(TIG) then Chain else Common
    }

    predicate External() {
      Outside? || OutsideProtocol?
    }
  }

  /** One event key per thing that can happen. */
  datatype Key =
    | ReserveKey(r: nat) | FeeKey(r: nat) | ReturnKey(r: nat) | UnhandedKey(r: nat) | FinalizeKey(r: nat)
    | ReceiptKey(e: EventId) | AttributeKey(e: EventId) | ReimburseKey(k: nat) | SettleKey(k: nat)
    | RequestKey(w: nat) | ReleaseKey(w: nat) | GasKey(a: nat) | OutcomeKey(a: nat)
    | TopupKey(t: nat) | CashKey(t: nat) | CreditKey(t: nat) | FundingKey(tx: nat) | OpeningKey(asset: Asset)
    | CorrectionKey(n: nat)
  {
    function Owner(): Domain {
      match this
      case ReserveKey(_) => Work
      case FeeKey(_) => Work
      case ReturnKey(_) => Work
      case UnhandedKey(_) => Work
      case FinalizeKey(_) => Work
      case ReimburseKey(_) => Pots
      case SettleKey(_) => Pots
      case ReceiptKey(_) => Events
      case AttributeKey(_) => Events
      case FundingKey(_) => Common
      case OpeningKey(_) => Common
      case CorrectionKey(_) => Common
      case _ => Payments
    }
  }

  type Movement = (Account, int)

  /** `details` stands for the kind and the recorded details of the journal. */
  datatype Journal = Journal(key: Key, amounts: map<Account, int>, details: int, reverses: Option<nat>)

  /** `keys` is the unique index on event keys; balances exist for opened accounts. */
  datatype Books = Books(balances: map<Account, int>, journals: seq<Journal>, keys: map<Key, nat>)

  const EMPTY := Books(map[], [], map[])

  datatype Refusal = Nothing | KeyReused | AlreadyReversed | UnknownAccount | Insufficient | Unbalanced

  datatype Result = Refused(why: Refusal) | Posted(books: Books, id: nat)

  function Balance(b: Books, a: Account): int {
    if a in b.balances then b.balances[a] else 0
  }

  function Opened(b: Books, a: Account): Books {
    if a in b.balances then b else b.(balances := b.balances[a := 0])
  }

  // ------------------------------------------------------------------ movements

  function Debit(a: Account, amount: int): Movement {
    (a, -amount)
  }

  function Credit(a: Account, amount: int): Movement {
    (a, amount)
  }

  function Part(m: Movement, a: Account): int {
    if m.0 == a then m.1 else 0
  }

  function NetUpTo(ms: seq<Movement>, n: nat, a: Account): int
    requires n <= |ms|
  {
    if n == 0 then 0 else NetUpTo(ms, n - 1, a) + Part(ms[n - 1], a)
  }

  function Net(ms: seq<Movement>, a: Account): int {
    NetUpTo(ms, |ms|, a)
  }

  function TouchedUpTo(ms: seq<Movement>, n: nat): set<Account>
    requires n <= |ms|
  {
    if n == 0 then {} else TouchedUpTo(ms, n - 1) + {ms[n - 1].0}
  }

  /** What is entered: the net amount of every account that has one. */
  function Netted(ms: seq<Movement>): map<Account, int> {
    map a | a in TouchedUpTo(ms, |ms|) && Net(ms, a) != 0 :: Net(ms, a)
  }

  predicate At(a: Account, asset: Asset, place: Location) {
    a.AssetOf() == asset && a.Place() == place
  }

  /** What movements bring, in all, to the accounts of an asset at one place. */
  function FlowUpTo(ms: seq<Movement>, n: nat, asset: Asset, place: Location): int
    requires n <= |ms|
  {
    if n == 0 then 0
    else FlowUpTo(ms, n - 1, asset, place) + if At(ms[n - 1].0, asset, place) then ms[n - 1].1 else 0
  }

  function Flow(ms: seq<Movement>, asset: Asset, place: Location): int {
    FlowUpTo(ms, |ms|, asset, place)
  }

  function AtPlace(m: map<Account, int>, asset: Asset, place: Location): map<Account, int> {
    map a | a in m :: if At(a, asset, place) then m[a] else 0
  }

  function OfAsset(m: map<Account, int>, asset: Asset): map<Account, int> {
    map a | a in m :: if a.AssetOf() == asset then m[a] else 0
  }

  ghost function PlaceTotal(m: map<Account, int>, asset: Asset, place: Location): int {
    TotalOver(m.Keys, AtPlace(m, asset, place))
  }

  ghost function AssetTotal(m: map<Account, int>, asset: Asset): int {
    TotalOver(m.Keys, OfAsset(m, asset))
  }

  /** Balanced not only per asset, but per asset and place. */
  ghost predicate Located(m: map<Account, int>) {
    forall asset, place :: PlaceTotal(m, asset, place) == 0
  }

  // ------------------------------------------------------------------ posting

  function Amount(m: map<Account, int>, a: Account): int {
    if a in m then m[a] else 0
  }

  function Entered(b: Books, j: Journal): Books {
    Books(map a | a in b.balances :: b.balances[a] + Amount(j.amounts, a), b.journals + [j], b.keys[j.key := |b.journals|])
  }

  predicate Overdraws(b: Books, m: map<Account, int>) {
    exists a :: a in m && !a.External() && Balance(b, a) + m[a] < 0
  }

  predicate Reversed(b: Books, id: nat) {
    exists j :: 0 <= j < |b.journals| && b.journals[j].reverses == Some(id)
  }

  /** Event keys are unique and indexed. */
  ghost predicate KeysSound(b: Books) {
    && (forall k :: k in b.keys ==> b.keys[k] < |b.journals| && b.journals[b.keys[k]].key == k)
    && (forall j :: 0 <= j < |b.journals| ==> b.journals[j].key in b.keys && b.keys[b.journals[j].key] == j)
  }

  ghost function Enter(b: Books, j: Journal): (r: Result)
    requires KeysSound(b)
    ensures r.Posted? ==> KeysSound(r.books)
  {
    if j.amounts == map[] then Refused(Nothing)
    else if j.key in b.keys then
      (if b.journals[b.keys[j.key]] == j then Posted(b, b.keys[j.key]) else Refused(KeyReused))
    else if j.reverses.Some? && Reversed(b, j.reverses.value) then Refused(AlreadyReversed)
    else if !(j.amounts.Keys <= b.balances.Keys) then Refused(UnknownAccount)
    else if Overdraws(b, j.amounts) then Refused(Insufficient)
    else if AssetTotal(j.amounts, TIG) != 0 || AssetTotal(j.amounts, Native) != 0 then Refused(Unbalanced)
    else Posted(Entered(b, j), |b.journals|)
  }

  ghost function Post(b: Books, key: Key, ms: seq<Movement>, details: int): (r: Result)
    requires KeysSound(b)
    ensures r.Posted? ==> KeysSound(r.books)
  {
    Enter(b, Journal(key, Netted(ms), details, None))
  }

  function Negated(m: map<Account, int>): map<Account, int> {
    map a | a in m :: -m[a]
  }

  /** A correction enters the opposite amounts, once. */
  ghost function Reverse(b: Books, id: nat, key: Key, details: int): Result
    requires KeysSound(b)
  {
    if id >= |b.journals| then Refused(Nothing)
    else Enter(b, Journal(key, Negated(b.journals[id].amounts), details, Some(id)))
  }

  // ------------------------------------------------------------------ what every posting keeps

  /** What the entries of an account add up to. */
  function Entries(js: seq<Journal>, n: nat, a: Account): int
    requires n <= |js|
  {
    if n == 0 then 0 else Entries(js, n - 1, a) + Amount(js[n - 1].amounts, a)
  }

  /** The audit finds nothing: every balance is the sum of its entries. */
  ghost predicate Audited(b: Books) {
    forall a :: Balance(b, a) == Entries(b.journals, |b.journals|, a)
  }

  ghost predicate Covered(b: Books) {
    forall a :: a in b.balances && !a.External() ==> b.balances[a] >= 0
  }

  ghost predicate BooksSound(b: Books) {
    && KeysSound(b) && Audited(b) && Covered(b)
    && forall j :: 0 <= j < |b.journals| ==> b.journals[j].amounts.Keys <= b.balances.Keys
  }

  lemma {:induction false} EntriesOfMore(js: seq<Journal>, j: Journal, n: nat, a: Account)
    requires n <= |js|
    ensures Entries(js + [j], n, a) == Entries(js, n, a)
  {
    if n > 0 { EntriesOfMore(js, j, n - 1, a); }
  }

  lemma EnteredKeeps(b: Books, j: Journal)
    requires BooksSound(b) && j.key !in b.keys && j.amounts.Keys <= b.balances.Keys && !Overdraws(b, j.amounts)
    ensures BooksSound(Entered(b, j))
    ensures forall a :: Balance(Entered(b, j), a) == Balance(b, a) + Amount(j.amounts, a)
  {
    var c := Entered(b, j);
    forall a ensures Balance(c, a) == Entries(c.journals, |c.journals|, a) {
      EntriesOfMore(b.journals, j, |b.journals|, a);
      assert Balance(b, a) == Entries(b.journals, |b.journals|, a);
    }
  }

  /** Whatever is posted, refused or replayed: balances stay the sums of entries, keys stay unique and nothing
      but an external account goes below zero. */
  lemma EnterKeeps(b: Books, j: Journal)
    requires BooksSound(b) && Enter(b, j).Posted?
    ensures BooksSound(Enter(b, j).books)
    ensures forall a :: Balance(Enter(b, j).books, a) == Balance(b, a) + if j.key in b.keys then 0 else Amount(j.amounts, a)
    ensures Enter(b, j).books.keys.Keys == b.keys.Keys + {j.key}
    ensures Enter(b, j).books.balances.Keys == b.balances.Keys
  {
    if j.key !in b.keys { EnteredKeeps(b, j); }
  }

  lemma OpenedKeeps(b: Books, a: Account)
    requires BooksSound(b)
    ensures BooksSound(Opened(b, a)) && Opened(b, a).keys == b.keys
    ensures forall x :: Balance(Opened(b, a), x) == Balance(b, x)
  {
    forall x ensures Balance(Opened(b, a), x) == Entries(Opened(b, a).journals, |b.journals|, x) {
      assert Balance(b, x) == Entries(b.journals, |b.journals|, x);
    }
  }

  /** A recorded event posts nothing more: it is answered with its journal, or refused for differing from it. */
  lemma ReplayChangesNothing(b: Books, j: Journal)
    requires KeysSound(b) && j.key in b.keys
    ensures Enter(b, j).Posted? ==> Enter(b, j).books == b && b.journals[Enter(b, j).id] == j
  {
  }

  /** Posting again what has just been posted gives the same journal and the same books. */
  lemma PostIsIdempotent(b: Books, j: Journal)
    requires BooksSound(b) && Enter(b, j).Posted?
    ensures var once := Enter(b, j);
      KeysSound(once.books) && Enter(once.books, j) == once
  {
    EnterKeeps(b, j);
  }

  /** A reversal takes a journal's effect back exactly, and only one can. */
  lemma ReversalUndoes(b: Books, id: nat, key: Key, details: int, again: Key, other: int)
    requires BooksSound(b) && id < |b.journals| && key !in b.keys && Reverse(b, id, key, details).Posted?
    ensures forall a :: Balance(Reverse(b, id, key, details).books, a) == Balance(b, a) - Amount(b.journals[id].amounts, a)
    ensures KeysSound(Reverse(b, id, key, details).books)
    ensures again !in Reverse(b, id, key, details).books.keys && b.journals[id].amounts != map[] ==>
      Reverse(Reverse(b, id, key, details).books, id, again, other) == Refused(AlreadyReversed)
  {
    var j := Journal(key, Negated(b.journals[id].amounts), details, Some(id));
    EnterKeeps(b, j);
    var c := Reverse(b, id, key, details).books;
    assert c.journals[|b.journals|] == j;
    if b.journals[id].amounts != map[] {
      var a :| a in b.journals[id].amounts;
      assert a in Negated(c.journals[id].amounts);
    }
  }

  // ------------------------------------------------------------------ movements and their totals

  ghost function NetAtPlace(s: set<Account>, ms: seq<Movement>, n: nat, asset: Asset, place: Location): map<Account, int>
    requires n <= |ms|
  {
    map a | a in s :: if At(a, asset, place) then NetUpTo(ms, n, a) else 0
  }

  ghost function OneMovement(s: set<Account>, m: Movement, asset: Asset, place: Location): map<Account, int> {
    map a | a in s :: if At(a, asset, place) then Part(m, a) else 0
  }

  lemma OneMovementTotal(s: set<Account>, m: Movement, asset: Asset, place: Location)
    requires m.0 in s
    ensures TotalOver(s, OneMovement(s, m, asset, place)) == if At(m.0, asset, place) then m.1 else 0
  {
    TotalTakes(s, OneMovement(s, m, asset, place), m.0);
    TotalZero(s - {m.0}, OneMovement(s, m, asset, place));
  }

  lemma {:induction false} TouchedGrows(ms: seq<Movement>, n: nat)
    requires n <= |ms|
    ensures forall i :: 0 <= i < n ==> ms[i].0 in TouchedUpTo(ms, n)
  {
    if n > 0 { TouchedGrows(ms, n - 1); }
  }

  lemma {:induction false} FlowIsTotal(s: set<Account>, ms: seq<Movement>, n: nat, asset: Asset, place: Location)
    requires n <= |ms| && forall i :: 0 <= i < n ==> ms[i].0 in s
    ensures TotalOver(s, NetAtPlace(s, ms, n, asset, place)) == FlowUpTo(ms, n, asset, place)
  {
    if n == 0 {
      TotalZero(s, NetAtPlace(s, ms, 0, asset, place));
    } else {
      FlowIsTotal(s, ms, n - 1, asset, place);
      OneMovementTotal(s, ms[n - 1], asset, place);
      TotalAdds(s, NetAtPlace(s, ms, n - 1, asset, place), OneMovement(s, ms[n - 1], asset, place),
                NetAtPlace(s, ms, n, asset, place));
    }
  }

  /** The entries of a journal total, at every place, what its movements bring there. */
  lemma NettedTotal(ms: seq<Movement>, asset: Asset, place: Location)
    ensures PlaceTotal(Netted(ms), asset, place) == Flow(ms, asset, place)
  {
    var s := TouchedUpTo(ms, |ms|);
    TouchedGrows(ms, |ms|);
    FlowIsTotal(s, ms, |ms|, asset, place);
    TotalNarrows(s, Netted(ms).Keys, NetAtPlace(s, ms, |ms|, asset, place), AtPlace(Netted(ms), asset, place));
  }

  ghost predicate Level(ms: seq<Movement>) {
    forall asset, place :: Flow(ms, asset, place) == 0
  }

  lemma LevelIsLocated(ms: seq<Movement>)
    requires Level(ms)
    ensures Located(Netted(ms))
  {
    forall asset, place ensures PlaceTotal(Netted(ms), asset, place) == 0 {
      NettedTotal(ms, asset, place);
    }
  }

  // ------------------------------------------------------------------ backing

  /** At every place the balances of an asset, external ones included, add up to nothing. */
  ghost predicate Even(b: Books) {
    forall asset, place :: PlaceTotal(b.balances, asset, place) == 0
  }

  /** A journal adds its own totals, at every place. */
  lemma EnteredTotals(b: Books, j: Journal, asset: Asset, place: Location)
    requires j.amounts.Keys <= b.balances.Keys
    ensures PlaceTotal(Entered(b, j).balances, asset, place) == PlaceTotal(b.balances, asset, place) + PlaceTotal(j.amounts, asset, place)
  {
    var c, s := Entered(b, j), b.balances.Keys;
    var padded := map a | a in s :: if At(a, asset, place) then Amount(j.amounts, a) else 0;
    TotalNarrows(s, j.amounts.Keys, padded, AtPlace(j.amounts, asset, place));
    assert c.balances.Keys == s;
    TotalAdds(s, AtPlace(b.balances, asset, place), padded, AtPlace(c.balances, asset, place));
  }

  lemma EnteredEven(b: Books, j: Journal)
    requires Even(b) && Located(j.amounts) && j.amounts.Keys <= b.balances.Keys
    ensures Even(Entered(b, j))
  {
    forall asset, place ensures PlaceTotal(Entered(b, j).balances, asset, place) == 0 {
      EnteredTotals(b, j, asset, place);
    }
  }

  lemma OpenedEven(b: Books, a: Account)
    requires Even(b)
    ensures Even(Opened(b, a))
  {
    var c := Opened(b, a);
    if a !in b.balances {
      forall asset, place ensures PlaceTotal(c.balances, asset, place) == 0 {
        assert PlaceTotal(b.balances, asset, place) == 0;
        TotalNarrows(c.balances.Keys, b.balances.Keys, AtPlace(c.balances, asset, place), AtPlace(b.balances, asset, place));
      }
    }
  }

  function Inside(b: Books, asset: Asset, place: Location): set<Account> {
    set a | a in b.balances && At(a, asset, place) && !a.External()
  }

  /** What the pool holds of an asset at a place. */
  ghost function Backing(b: Books, asset: Asset, place: Location): int {
    TotalOver(Inside(b, asset, place), b.balances)
  }

  function OutsideOf(asset: Asset, place: Location): Account {
    if place == Custody then Outside(asset) else OutsideProtocol
  }

  /** What the pool holds at a place is what came in from outside there: minus the external account. */
  lemma BackingIsMinusOutside(b: Books, asset: Asset, place: Location)
    requires Even(b) && (asset == TIG || place == Custody)
    ensures Backing(b, asset, place) == -Balance(b, OutsideOf(asset, place))
  {
    var outside, inside, m := OutsideOf(asset, place), Inside(b, asset, place), AtPlace(b.balances, asset, place);
    var all := inside + if outside in b.balances then {outside} else {};
    assert forall a :: a in b.balances && At(a, asset, place) ==> a == outside || !a.External();
    TotalNarrows(b.balances.Keys, all, m, b.balances);
    assert PlaceTotal(b.balances, asset, place) == 0;
    if outside in b.balances {
      TotalTakes(all, b.balances, outside);
      assert all - {outside} == inside;
    } else {
      assert all == inside;
    }
  }

  /** The net effect of a short list of movements. */
  lemma NetOfFew(ms: seq<Movement>, a: Account)
    requires |ms| <= 5
    ensures Net(ms, a) == (if |ms| > 0 then Part(ms[0], a) else 0) + (if |ms| > 1 then Part(ms[1], a) else 0)
      + (if |ms| > 2 then Part(ms[2], a) else 0) + (if |ms| > 3 then Part(ms[3], a) else 0) + (if |ms| > 4 then Part(ms[4], a) else 0)
  {
    if |ms| > 0 { assert NetUpTo(ms, 1, a) == Part(ms[0], a); }
    if |ms| > 1 { assert NetUpTo(ms, 2, a) == NetUpTo(ms, 1, a) + Part(ms[1], a); }
    if |ms| > 2 { assert NetUpTo(ms, 3, a) == NetUpTo(ms, 2, a) + Part(ms[2], a); }
    if |ms| > 3 { assert NetUpTo(ms, 4, a) == NetUpTo(ms, 3, a) + Part(ms[3], a); }
  }

  function FlowPart(m: Movement, asset: Asset, place: Location): int {
    if At(m.0, asset, place) then m.1 else 0
  }

  lemma FlowOfFew(ms: seq<Movement>, asset: Asset, place: Location)
    requires |ms| <= 5
    ensures Flow(ms, asset, place) == (if |ms| > 0 then FlowPart(ms[0], asset, place) else 0)
      + (if |ms| > 1 then FlowPart(ms[1], asset, place) else 0) + (if |ms| > 2 then FlowPart(ms[2], asset, place) else 0)
      + (if |ms| > 3 then FlowPart(ms[3], asset, place) else 0) + (if |ms| > 4 then FlowPart(ms[4], asset, place) else 0)
  {
    if |ms| > 0 { assert FlowUpTo(ms, 1, asset, place) == FlowPart(ms[0], asset, place); }
    if |ms| > 1 { assert FlowUpTo(ms, 2, asset, place) == FlowUpTo(ms, 1, asset, place) + FlowPart(ms[1], asset, place); }
    if |ms| > 2 { assert FlowUpTo(ms, 3, asset, place) == FlowUpTo(ms, 2, asset, place) + FlowPart(ms[2], asset, place); }
    if |ms| > 3 { assert FlowUpTo(ms, 4, asset, place) == FlowUpTo(ms, 3, asset, place) + FlowPart(ms[3], asset, place); }
  }

  lemma {:induction false} Untouched(ms: seq<Movement>, n: nat, a: Account)
    requires n <= |ms| && a !in TouchedUpTo(ms, n)
    ensures NetUpTo(ms, n, a) == 0
  {
    if n > 0 { Untouched(ms, n - 1, a); }
  }

  /** A new posting that succeeds moves exactly the net amounts, and takes its key. */
  lemma PostEffect(b: Books, key: Key, ms: seq<Movement>, details: int)
    requires BooksSound(b) && key !in b.keys && Post(b, key, ms, details).Posted?
    ensures var c := Post(b, key, ms, details).books;
      && BooksSound(c) && c.keys.Keys == b.keys.Keys + {key} && c.balances.Keys == b.balances.Keys
      && (forall a :: Balance(c, a) == Balance(b, a) + Net(ms, a))
      && (Even(b) && Level(ms) ==> Even(c))
  {
    var j := Journal(key, Netted(ms), details, None);
    EnterKeeps(b, j);
    forall a ensures Amount(Netted(ms), a) == Net(ms, a) {
      if a !in TouchedUpTo(ms, |ms|) { Untouched(ms, |ms|, a); }
    }
    if Even(b) && Level(ms) {
      LevelIsLocated(ms);
      EnteredEven(b, j);
    }
  }

  lemma AssetByPlace(m: map<Account, int>, asset: Asset)
    ensures AssetTotal(m, asset) == PlaceTotal(m, asset, Custody) + PlaceTotal(m, asset, Protocol)
  {
    TotalAdds(m.Keys, AtPlace(m, asset, Custody), AtPlace(m, asset, Protocol), OfAsset(m, asset));
  }

  lemma NettedAmounts(ms: seq<Movement>, a: Account)
    ensures a in Netted(ms) <==> Net(ms, a) != 0
    ensures Amount(Netted(ms), a) == Net(ms, a)
  {
    if a !in TouchedUpTo(ms, |ms|) { Untouched(ms, |ms|, a); }
  }

  lemma LevelTotals(ms: seq<Movement>)
    requires Level(ms)
    ensures AssetTotal(Netted(ms), TIG) == 0 && AssetTotal(Netted(ms), Native) == 0
  {
    LevelIsLocated(ms);
    AssetByPlace(Netted(ms), TIG);
    AssetByPlace(Netted(ms), Native);
  }

  lemma NothingNetted(ms: seq<Movement>)
    ensures Netted(ms) == map[] <==> forall a :: Net(ms, a) == 0
  {
    forall a ensures a in Netted(ms) <==> Net(ms, a) != 0 { NettedAmounts(ms, a); }
  }

  lemma OverdraftMeans(b: Books, ms: seq<Movement>)
    requires Covered(b)
    ensures !Overdraws(b, Netted(ms)) <==> forall a: Account :: !a.External() ==> Balance(b, a) + Net(ms, a) >= 0
  {
    forall a: Account ensures (a in Netted(ms) <==> Net(ms, a) != 0) && Amount(Netted(ms), a) == Net(ms, a) { NettedAmounts(ms, a); }
    if !Overdraws(b, Netted(ms)) {
      forall a: Account | !a.External() ensures Balance(b, a) + Net(ms, a) >= 0 {
        if a in Netted(ms) { assert Balance(b, a) + Netted(ms)[a] >= 0; }
      }
    }
  }

  lemma AllOpen(b: Books, ms: seq<Movement>)
    ensures Netted(ms).Keys <= b.balances.Keys <==> forall a :: Net(ms, a) != 0 ==> a in b.balances
  {
    forall a ensures a in Netted(ms) <==> Net(ms, a) != 0 { NettedAmounts(ms, a); }
  }

  /** When a posting that balances at every place succeeds: exactly when it moves something, every account it moves is open,
      and no account but an external one would fall below zero. */
  lemma PostsExactly(b: Books, key: Key, ms: seq<Movement>, details: int)
    requires BooksSound(b) && key !in b.keys && Level(ms)
    ensures Post(b, key, ms, details).Posted? <==>
      && (exists a :: Net(ms, a) != 0)
      && (forall a :: Net(ms, a) != 0 ==> a in b.balances)
      && (forall a: Account :: !a.External() ==> Balance(b, a) + Net(ms, a) >= 0)
  {
    LevelTotals(ms);
    NothingNetted(ms);
    OverdraftMeans(b, ms);
    AllOpen(b, ms);
  }

  /** An amount moves between two accounts; all others stay. */
  ghost predicate Transfers(b: Books, c: Books, from: Account, to: Account, amount: int) {
    forall y :: Balance(c, y) == Balance(b, y) + if y == to then amount else if y == from then -amount else 0
  }

  /** A transfer between two accounts of one asset and place goes through exactly when both are open and it is covered. */
  lemma TransferPosts(b: Books, from: Account, to: Account, amount: nat, key: Key, details: int)
    requires BooksSound(b) && key !in b.keys && from != to && amount > 0
    requires from.AssetOf() == to.AssetOf() && from.Place() == to.Place()
    ensures Post(b, key, TransferMovements(from, to, amount), details).Posted? <==>
      from in b.balances && to in b.balances && (from.External() || Balance(b, from) >= amount)
  {
    var ms := TransferMovements(from, to, amount);
    MoveNets(ms, from, to, amount);
    PostsExactly(b, key, ms, details);
    assert Net(ms, to) == amount;
  }

  lemma TwoWay(from: Account, to: Account, amount: int)
    requires from != to && amount != 0
    ensures Netted([(from, -amount), (to, amount)]) == map[from := -amount, to := amount]
  {
    var ms: seq<Movement> := [(from, -amount), (to, amount)];
    NetOfFew(ms, from);
    NetOfFew(ms, to);
    assert TouchedUpTo(ms, 1) == {from} && TouchedUpTo(ms, 2) == {from, to};
  }

  lemma TwoWayTotal(from: Account, to: Account, amount: int, asset: Asset)
    requires from != to && from.AssetOf() == to.AssetOf()
    ensures AssetTotal(map[from := -amount, to := amount], asset) == 0
  {
    var m: map<Account, int> := map[from := -amount, to := amount];
    TotalTakes(m.Keys, OfAsset(m, asset), from);
    TotalTakes(m.Keys - {from}, OfAsset(m, asset), to);
    assert m.Keys - {from} - {to} == {};
  }

  /** A covered move between two accounts of one asset passes every guard of posting. */
  lemma InternalMovePosts(b: Books, from: Account, to: Account, amount: int, key: Key)
    requires KeysSound(b) && key !in b.keys && from != to && amount > 0 && from in b.balances && to in b.balances
    requires from.AssetOf() == to.AssetOf() && b.balances[from] >= amount && (to.External() || b.balances[to] >= 0)
    ensures Post(b, key, [(from, -amount), (to, amount)], 0) == Posted(Entered(b, Journal(key, map[from := -amount, to := amount], 0, None)), |b.journals|)
  {
    var m: map<Account, int> := map[from := -amount, to := amount];
    var j := Journal(key, m, 0, None);
    TwoWay(from, to, amount);
    assert Post(b, key, [(from, -amount), (to, amount)], 0) == Enter(b, j);
    assert from in m && m != map[];
    assert m.Keys <= b.balances.Keys by { assert m.Keys == {from, to}; }
    assert !Overdraws(b, m) by {
      forall a | a in m && !a.External() ensures Balance(b, a) + m[a] >= 0 {
        assert a == from || a == to;
      }
    }
    TwoWayTotal(from, to, amount, TIG);
    TwoWayTotal(from, to, amount, Native);
  }

  /** A new posting keeps every place balanced if and only if its movements balance at every place. */
  lemma PostingKeepsPlaces(b: Books, key: Key, ms: seq<Movement>, details: int)
    requires BooksSound(b) && Even(b) && key !in b.keys && Post(b, key, ms, details).Posted?
    ensures Even(Post(b, key, ms, details).books) <==> Level(ms)
  {
    var j := Journal(key, Netted(ms), details, None);
    forall asset, place
      ensures PlaceTotal(Entered(b, j).balances, asset, place) == Flow(ms, asset, place)
    {
      assert PlaceTotal(b.balances, asset, place) == 0;
      EnteredTotals(b, j, asset, place);
      NettedTotal(ms, asset, place);
    }
  }

  /** Posting itself checks balance per asset only: TIG can leave custody for the protocol in a journal of two
      internal accounts, and then custody backing no longer matches what came in from outside. */
  lemma PostingDoesNotCheckPlaces(b: Books, amount: int)
    requires BooksSound(b) && Even(b) && amount > 0 && OpeningKey(TIG) !in b.keys
    requires Operator(TIG) in b.balances && ProtocolFees in b.balances && Balance(b, Operator(TIG)) >= amount
    ensures var p := Post(b, OpeningKey(TIG), [(Operator(TIG), -amount), (ProtocolFees, amount)], 0);
      p.Posted? && !Even(p.books)
  {
    var ms: seq<Movement> := [(Operator(TIG), -amount), (ProtocolFees, amount)];
    InternalMovePosts(b, Operator(TIG), ProtocolFees, amount, OpeningKey(TIG));
    FlowOfFew(ms, TIG, Custody);
    assert Flow(ms, TIG, Custody) == -amount;
    PostingKeepsPlaces(b, OpeningKey(TIG), ms, 0);
  }

  /** A journal that is left out when there is nothing to enter. */
  ghost function PostIf(b: Books, needed: bool, key: Key, ms: seq<Movement>, details: int): (r: Result)
    requires KeysSound(b)
    ensures r.Posted? ==> KeysSound(r.books)
  {
    if needed then Post(b, key, ms, details) else Posted(b, 0)
  }

  /** What a step of the books is: net movements, and perhaps one new key. */
  ghost predicate Moved(b: Books, c: Books, ms: seq<Movement>, keys: set<Key>) {
    && BooksSound(c) && Even(c) && c.keys.Keys == b.keys.Keys + keys && b.balances.Keys <= c.balances.Keys
    && (forall a :: Balance(c, a) == Balance(b, a) + Net(ms, a))
  }

  /** A step of the books that leaves one part of the pool as it was. */
  ghost predicate Leaves(b: Books, c: Books, part: Domain) {
    && (forall a: Account :: a.Owner() == part ==> Balance(c, a) == Balance(b, a))
    && (forall k: Key :: k.Owner() == part ==> (k in c.keys <==> k in b.keys))
  }

  lemma PostMoves(b: Books, needed: bool, key: Key, ms: seq<Movement>, details: int)
    requires BooksSound(b) && Even(b) && key !in b.keys && PostIf(b, needed, key, ms, details).Posted? && Level(ms)
    requires !needed ==> forall a :: Net(ms, a) == 0
    ensures Moved(b, PostIf(b, needed, key, ms, details).books, ms, if needed then {key} else {})
  {
    if needed { PostEffect(b, key, ms, details); }
  }

  lemma OpenMoves(b: Books, a: Account)
    requires BooksSound(b) && Even(b)
    ensures BooksSound(Opened(b, a)) && Even(Opened(b, a)) && Opened(b, a).keys == b.keys
    ensures forall x :: Balance(Opened(b, a), x) == Balance(b, x)
  {
    OpenedKeeps(b, a);
    OpenedEven(b, a);
  }

  /** Moving an amount between two accounts of the same asset and place. */
  lemma MoveNets(ms: seq<Movement>, from: Account, to: Account, amount: int)
    requires ms == [Debit(from, amount), Credit(to, amount)] && from != to
    requires from.AssetOf() == to.AssetOf() && from.Place() == to.Place()
    ensures Level(ms) && forall a :: Net(ms, a) == if a == from then -amount else if a == to then amount else 0
  {
    forall a ensures Net(ms, a) == if a == from then -amount else if a == to then amount else 0 { NetOfFew(ms, a); }
    forall asset, place ensures Flow(ms, asset, place) == 0 { FlowOfFew(ms, asset, place); }
  }

  /** The books move an amount between two accounts, under one key. */
  ghost predicate Shift(b: Books, c: Books, from: Account, to: Account, amount: int, key: Key) {
    && BooksSound(c) && Even(c)
    && (forall a :: Balance(c, a) == Balance(b, a) + if a == to then amount else if a == from then -amount else 0)
    && c.keys.Keys == b.keys.Keys + if amount > 0 then {key} else {}
  }

  function TransferMovements(from: Account, to: Account, amount: int): seq<Movement> {
    [Debit(from, amount), Credit(to, amount)]
  }

  lemma PostShift(b: Books, from: Account, to: Account, amount: nat, key: Key, details: int)
    requires BooksSound(b) && Even(b) && key !in b.keys && from != to
    requires from.AssetOf() == to.AssetOf() && from.Place() == to.Place()
    requires PostIf(b, amount > 0, key, TransferMovements(from, to, amount), details).Posted?
    ensures Shift(b, PostIf(b, amount > 0, key, TransferMovements(from, to, amount), details).books, from, to, amount, key)
  {
    MoveNets(TransferMovements(from, to, amount), from, to, amount);
    PostMoves(b, amount > 0, key, TransferMovements(from, to, amount), details);
  }

  lemma ShiftSpares(b: Books, c: Books, from: Account, to: Account, amount: int, key: Key, part: Domain)
    requires Shift(b, c, from, to, amount, key) && from.Owner() != part && to.Owner() != part && key.Owner() != part
    ensures Leaves(b, c, part)
  {
  }

  // ------------------------------------------------------------------ the store

  /** The accounts, journals and entries tables.  A method that raises in the original returns the reason and
      changes nothing. */
  class JournalStore {
    var balances: map<Account, int>
    var journals: seq<Journal>
    var keys: map<Key, nat>

    constructor ()
      ensures Contents() == EMPTY
    {
      balances, journals, keys := map[], [], map[];
    }

    function Contents(): Books
      reads this
    {
      Books(balances, journals, keys)
    }

    /** The transaction is rolled back. */
    method Restore(b: Books)
      modifies this
      ensures Contents() == b
    {
      balances, journals, keys := b.balances, b.journals, b.keys;
    }

    method Open(a: Account)
      modifies `balances
      ensures Contents() == Opened(old(Contents()), a)
    {
      if a !in balances { balances := balances[a := 0]; }
    }

    /** Adds up the movements of each account and drops what cancels out. */
    static method NetAmounts(ms: seq<Movement>) returns (amounts: map<Account, int>)
      ensures amounts == Netted(ms)
    {
      var sums: map<Account, int>, i := map[], 0;
      while i < |ms|
        invariant i <= |ms| && sums.Keys == TouchedUpTo(ms, i)
        invariant forall a :: a in sums ==> sums[a] == NetUpTo(ms, i, a)
      {
        var (a, amount) := ms[i];
        if a !in sums { Untouched(ms, i, a); }
        sums := sums[a := (if a in sums then sums[a] else 0) + amount];
        i := i + 1;
      }
      amounts := map a | a in sums && sums[a] != 0 :: sums[a];
    }

    /** The total per asset, refusing on the way to overdraw an account. */
    method CheckFunds(amounts: map<Account, int>) returns (covered: bool, tig: int, native: int)
      requires amounts.Keys <= balances.Keys
      ensures covered == !Overdraws(Contents(), amounts)
      ensures covered ==> tig == AssetTotal(amounts, TIG) && native == AssetTotal(amounts, Native)
    {
      var left := amounts.Keys;
      tig, native := 0, 0;
      while left != {}
        invariant left <= amounts.Keys
        invariant tig + TotalOver(left, OfAsset(amounts, TIG)) == AssetTotal(amounts, TIG)
        invariant native + TotalOver(left, OfAsset(amounts, Native)) == AssetTotal(amounts, Native)
        invariant forall a :: a in amounts.Keys - left && !a.External() ==> Balance(Contents(), a) + amounts[a] >= 0
        decreases left
      {
        var a :| a in left;
        TotalTakes(left, OfAsset(amounts, TIG), a);
        TotalTakes(left, OfAsset(amounts, Native), a);
        if a.AssetOf() == TIG { tig := tig + amounts[a]; } else { native := native + amounts[a]; }
        if !a.External() && balances[a] + amounts[a] < 0 {
          assert a in amounts && Balance(Contents(), a) + amounts[a] < 0;
          return false, tig, native;
        }
        left := left - {a};
      }
      covered := true;
    }

    method Append(j: Journal)
      requires j.amounts.Keys <= balances.Keys
      modifies this
      ensures Contents() == Entered(old(Contents()), j)
    {
      keys := keys[j.key := |journals|];
      journals := journals + [j];
      balances := map a | a in balances :: balances[a] + Amount(j.amounts, a);
    }

    method EnterJournal(j: Journal) returns (refusal: Option<Refusal>, id: nat)
      requires KeysSound(Contents())
      modifies this
      ensures refusal.Some? ==> Enter(old(Contents()), j) == Refused(refusal.value) && Contents() == old(Contents())
      ensures refusal.None? ==> Enter(old(Contents()), j) == Posted(Contents(), id)
      ensures refusal.None? && j.key in old(keys) ==>
        Contents() == old(Contents()) && id == keys[j.key] && journals[id] == j
      ensures refusal.None? && j.key !in old(keys) ==>
        && id == |old(journals)| && journals == old(journals) + [j] && keys == old(keys)[j.key := id]
        && balances.Keys == old(balances).Keys
        && forall a :: a in balances ==> balances[a] == old(balances)[a] + if a in j.amounts then j.amounts[a] else 0
      ensures refusal == Some(Nothing) <==> j.amounts == map[]
      ensures refusal == Some(KeyReused) <==>
        j.amounts != map[] && j.key in old(keys) && old(journals)[old(keys)[j.key]] != j
      ensures refusal == Some(AlreadyReversed) <==>
        && j.amounts != map[] && j.key !in old(keys) && j.reverses.Some?
        && exists i :: 0 <= i < |old(journals)| && old(journals)[i].reverses == j.reverses
      ensures refusal == Some(UnknownAccount) ==> exists a :: a in j.amounts && a !in old(balances)
      ensures refusal == Some(Insufficient) ==>
        exists a :: a in j.amounts && !a.External() && a in old(balances) && old(balances)[a] + j.amounts[a] < 0
      ensures refusal.None? && j.key !in old(keys) ==> forall a :: a in balances && a in j.amounts && !a.External() ==> balances[a] >= 0
    {
      id := 0;
      if j.amounts == map[] { return Some(Nothing), 0; }
      if j.key in keys {
        if journals[keys[j.key]] != j { return Some(KeyReused), 0; }
        return None, keys[j.key];
      }
      if j.reverses.Some? && (exists i :: 0 <= i < |journals| && journals[i].reverses == Some(j.reverses.value)) {
        return Some(AlreadyReversed), 0;
      }
      if !(j.amounts.Keys <= balances.Keys) { return Some(UnknownAccount), 0; }
      var covered, tig, native := CheckFunds(j.amounts);
      if !covered { return Some(Insufficient), 0; }
      if tig != 0 || native != 0 { return Some(Unbalanced), 0; }
      id := |journals|;
      Append(j);
      refusal := None;
    }

    method PostMovements(key: Key, ms: seq<Movement>, details: int) returns (refusal: Option<Refusal>, id: nat)
      requires KeysSound(Contents())
      modifies this
      ensures refusal.Some? ==> Post(old(Contents()), key, ms, details) == Refused(refusal.value) && Contents() == old(Contents())
      ensures refusal.None? ==> Post(old(Contents()), key, ms, details) == Posted(Contents(), id)
    {
      var amounts := NetAmounts(ms);
      refusal, id := EnterJournal(Journal(key, amounts, details, None));
    }

    method PostUnlessEmpty(needed: bool, key: Key, ms: seq<Movement>, details: int) returns (ok: bool)
      requires KeysSound(Contents())
      modifies this
      ensures ok == PostIf(old(Contents()), needed, key, ms, details).Posted?
      ensures Contents() == if ok then PostIf(old(Contents()), needed, key, ms, details).books else old(Contents())
    {
      if !needed { return true; }
      var refusal, id := PostMovements(key, ms, details);
      return refusal.None?;
    }

    method ReverseJournal(id: nat, key: Key, details: int) returns (refusal: Option<Refusal>, correction: nat)
      requires KeysSound(Contents())
      modifies this
      ensures refusal.Some? ==> Reverse(old(Contents()), id, key, details) == Refused(refusal.value) && Contents() == old(Contents())
      ensures refusal.None? ==> Reverse(old(Contents()), id, key, details) == Posted(Contents(), correction)
    {
      if id >= |journals| { return Some(Nothing), 0; }
      refusal, correction := EnterJournal(Journal(key, Negated(journals[id].amounts), details, Some(id)));
    }

    /** The sum of what is held inside. */
    method BackingOf(asset: Asset, place: Location) returns (held: int)
      ensures held == Backing(Contents(), asset, place)
    {
      var left := Inside(Contents(), asset, place);
      held := 0;
      while left != {}
        invariant left <= Inside(Contents(), asset, place)
        invariant held + TotalOver(left, balances) == Backing(Contents(), asset, place)
        decreases left
      {
        var a :| a in left;
        TotalTakes(left, balances, a);
        held := held + balances[a];
        left := left - {a};
      }
    }

    /** Accounts whose balance is not the sum of their entries. */
    method Audit() returns (wrong: set<Account>)
      ensures forall a :: a in wrong <==> a in balances && balances[a] != Entries(journals, |journals|, a)
    {
      wrong := set a | a in balances && balances[a] != Entries(journals, |journals|, a);
    }
  }
}
