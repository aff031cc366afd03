/** The submission fence: an intent is committed as uncertain before its only POST, a lost response is
    recovered by matching the public feed, and nothing uncertain is ever sent again.

    `Db` holds the pool's tables; each operation on it is one transaction.  `World` adds what the pool
    cannot see: who holds permission to POST, what was sent and what the protocol made of it. */
module SubmissionFence {
  import opened Basics

  type BenchId = nat
  type TrackId = nat

  datatype Settings = Settings(player: nat, block: nat, challenge: nat, algorithm: nat, track: Option<TrackId>)

  datatype Track = Track(bundles: nat, fuel: nat, hyperparameters: nat)

  /** A proposal offers every track and names none; the protocol picks one. */
  datatype Payload = Payload(settings: Settings, tracks: map<TrackId, Track>, compute: nat)

  datatype Precommit = Precommit(settings: Settings, compute: nat, details: Track)

  /** What the pool can tell proposals apart by. */
  type MatchKey = (Settings, nat)

  datatype Kind = Proposal | Results | Proofs

  datatype IntentState = Absent | Ready | Uncertain | Accepted | Rejected | Cancelled
  {
    /** Never committed for sending. */
    predicate Unsent() { Absent? || Ready? || Cancelled? }
  }

  datatype Work = Reserved | Sent | Assigned | Released | Ended

  /** A reservation with its one proposal and the uploads that may follow. */
  datatype Row = Row(payload: Payload, key: Option<MatchKey>, seen: set<BenchId>, proposal: IntentState,
                     results: IntentState, proofs: IntentState, work: Work, handedOver: bool,
                     benchmark: Option<BenchId>)
  {
    function At(k: Kind): IntentState {
      match k case Proposal => proposal case Results => results case Proofs => proofs
    }

    function Put(k: Kind, s: IntentState): Row {
      match k
      case Proposal => this.(proposal := s)
      case Results => this.(results := s)
      case Proofs => this.(proofs := s)
    }
  }

  datatype Db = Db(rows: seq<Row>, receipts: map<nat, BenchId>)

  function Key(p: Payload): MatchKey {
    (p.settings, p.compute)
  }

  predicate Matches(p: Payload, r: Precommit) {
    && r.settings.track.Some? && r.settings.track.value in p.tracks
    && r.settings == p.settings.(track := r.settings.track)
    && r.compute == p.compute
    && r.details == p.tracks[r.settings.track.value]
  }

  /** A record can match two proposals only if they share a key. */
  lemma MatchesFixesKey(p: Payload, q: Payload, r: Precommit)
    requires p.settings.track == q.settings.track
    requires Matches(p, r) && Matches(q, r)
    ensures Key(p) == Key(q)
  {
    assert p.settings == r.settings.(track := p.settings.track);
    assert q.settings == r.settings.(track := q.settings.track);
  }

  // ------------------------------------------------------------------ operations on the tables

  function SetRow(d: Db, r: nat, x: Row): Db
    requires r < |d.rows|
  {
    d.(rows := d.rows[r := x])
  }

  /** A reservation and its proposal are created together. */
  function Proposed(d: Db, p: Payload): Db {
    d.(rows := d.rows + [Row(p.(settings := p.settings.(track := None)), None, {}, Ready, Absent, Absent,
                             Reserved, false, None)])
  }

  predicate Working(x: Row) {
    x.work == Assigned && x.handedOver
  }

  /** A member's first result or proof upload queues one intent of that kind. */
  function Uploaded(d: Db, r: nat, k: Kind): Db {
    if k.Proposal? || r >= |d.rows| || !Working(d.rows[r]) || d.rows[r].At(k) != Absent then d
    else SetRow(d, r, d.rows[r].Put(k, Ready))
  }

  predicate KeyUnresolved(d: Db, key: MatchKey) {
    exists r :: 0 <= r < |d.rows| && d.rows[r].key == Some(key) && d.rows[r].proposal == Uncertain
  }

  /** Whether a worker may now perform the first POST.  `permitted` stands for the checks this model does
      not read: pause, preflight age and block, archive metadata and the spending cap. */
  predicate MayBegin(d: Db, r: nat, k: Kind, permitted: bool) {
    && r < |d.rows| && d.rows[r].At(k) == Ready
    && (match k
        case Proposal => permitted && d.rows[r].work == Reserved && !KeyUnresolved(d, Key(d.rows[r].payload))
        case Results => Working(d.rows[r])
        case Proofs => Working(d.rows[r]) && d.rows[r].results == Accepted)
  }

  function Begun(d: Db, r: nat, k: Kind, seen: set<BenchId>): Db
    requires r < |d.rows|
  {
    var x := d.rows[r].Put(k, Uncertain);
    SetRow(d, r, if k.Proposal? then x.(key := Some(Key(x.payload)), seen := seen, work := Sent) else x)
  }

  function Withdrawn(d: Db, r: nat): Db {
    if r < |d.rows| && d.rows[r].proposal == Ready then
      SetRow(d, r, d.rows[r].(proposal := Cancelled, work := Released))
    else d
  }

  /** An identity already recorded for another reservation, or a second identity for this one. */
  predicate Contradicts(d: Db, r: nat, b: BenchId) {
    if r in d.receipts then d.receipts[r] != b
    else exists s :: 0 <= s < |d.rows| && s != r && d.rows[s].benchmark == Some(b)
  }

  function Received(d: Db, r: nat, b: BenchId): Db
    requires r < |d.rows|
  {
    SetRow(d, r, d.rows[r].(proposal := Accepted)).(receipts := d.receipts[r := b])
  }

  /** A response: a proposal's identity is stored before anything else; errors leave it uncertain. */
  function Answered(d: Db, r: nat, k: Kind, success: bool, named: Option<BenchId>): Db {
    if r >= |d.rows| || !(d.rows[r].At(k).Uncertain? || d.rows[r].At(k).Accepted?) || !success then d
    else if !k.Proposal? then SetRow(d, r, d.rows[r].Put(k, Accepted))
    else if named.None? || Contradicts(d, r, named.value) then d
    else Received(d, r, named.value)
  }

  function Taken(d: Db): set<BenchId> {
    (set r | r in d.receipts :: d.receipts[r])
    + (set r | 0 <= r < |d.rows| && d.rows[r].benchmark.Some? :: d.rows[r].benchmark.value)
  }

  /** New since the preflight, unclaimed, and a match for the proposal. */
  predicate Qualifies(d: Db, r: nat, b: BenchId, record: Precommit)
    requires r < |d.rows|
  {
    b !in d.rows[r].seen && b !in Taken(d) && Matches(d.rows[r].payload, record)
  }

  /** The identities among the observed records that qualify. */
  function Candidates(d: Db, r: nat, records: seq<(BenchId, Precommit)>): set<BenchId>
    requires r < |d.rows|
  {
    set i | 0 <= i < |records| && Qualifies(d, r, records[i].0, records[i].1) :: records[i].0
  }

  function TheOne(s: set<nat>): (b: nat)
    requires |s| == 1
    ensures s == {b}
  {
    Singleton(s);
    var b :| b in s;
    b
  }

  lemma Singleton(s: set<nat>)
    requires |s| == 1
    ensures exists b :: s == {b}
  {
    var b :| b in s;
    assert |s - {b}| == 0;
    assert s == {b};
  }

  /** Exactly one candidate is recovered; none or several leave the intent unresolved. */
  function Recovered(d: Db, r: nat, records: seq<(BenchId, Precommit)>): Db {
    if r >= |d.rows| || d.rows[r].proposal != Uncertain || |Candidates(d, r, records)| != 1
       || Contradicts(d, r, TheOne(Candidates(d, r, records))) then d
    else Received(d, r, TheOne(Candidates(d, r, records)))
  }

  function Refused(d: Db, r: nat): Db {
    if r < |d.rows| && d.rows[r].proposal == Uncertain && r !in d.receipts then
      SetRow(d, r, d.rows[r].(proposal := Rejected, work := Released))
    else d
  }

  /** A confirmed record with the recorded identity becomes the assignment. */
  function Published(d: Db, r: nat, b: BenchId): Db {
    if r < |d.rows| && d.rows[r].work == Sent && r in d.receipts && d.receipts[r] == b then
      SetRow(d, r, d.rows[r].(work := Assigned, benchmark := Some(b)))
    else d
  }

  function HandedOver(d: Db, r: nat): Db {
    if r < |d.rows| && d.rows[r].work == Assigned then SetRow(d, r, d.rows[r].(handedOver := true)) else d
  }

  /** A definitive outcome ends the work. */
  function Concluded(d: Db, r: nat): Db {
    if r < |d.rows| && d.rows[r].work == Assigned then SetRow(d, r, d.rows[r].(work := Ended)) else d
  }

  /** A queued upload of ended work can never become a late first POST. */
  function Retired(d: Db, r: nat, k: Kind): Db {
    if r < |d.rows| && !k.Proposal? && d.rows[r].At(k) == Ready && d.rows[r].work == Ended then
      SetRow(d, r, d.rows[r].Put(k, Cancelled))
    else d
  }

  // ------------------------------------------------------------------ the world

  /** `tokens`: committed begins whose POST has not happened; `log`: the POSTs so far, in order;
      `feed`: every precommit of the pool's player at the protocol; `source[b]`: the reservation whose POST
      created b; `dropped`: reservations whose POST will never create anything. */
  datatype World = World(db: Db, tokens: set<(nat, Kind)>, log: seq<(nat, Kind)>, feed: map<BenchId, Precommit>,
                         source: map<BenchId, nat>, dropped: set<nat>)

  datatype Event =
    | DoPropose(p: Payload)
    | DoUpload(r: nat, k: Kind)
    | DoBegin(r: nat, k: Kind, permitted: bool, seen: set<BenchId>)
    | DoPost(r: nat, k: Kind)
    | Creates(r: nat, b: BenchId, record: Precommit)
    | Drops(r: nat)
    | OtherWriter(b: BenchId, record: Precommit)
    | DoCancel(r: nat)
    | DoAnswer(r: nat, k: Kind, success: bool, named: Option<BenchId>)
    | DoRecover(r: nat, records: seq<(BenchId, Precommit)>)
    | DoReject(r: nat)
    | DoPublish(r: nat, b: BenchId)
    | DoHandOver(r: nat)
    | DoConclude(r: nat)
    | DoRetire(r: nat, k: Kind)

  /** A reading of the feed: any of its records, in any order, with or without repeats. */
  ghost predicate FeedReading(w: World, records: seq<(BenchId, Precommit)>) {
    forall i :: 0 <= i < |records| ==> records[i].0 in w.feed && w.feed[records[i].0] == records[i].1
  }

  predicate Listed(records: seq<(BenchId, Precommit)>, b: BenchId) {
    exists i :: 0 <= i < |records| && records[i].0 == b
  }

  /** The assumptions about everything outside the pool: a preflight lists existing records, among them
      every one another writer made; others write only while no proposal is unresolved; a POST creates at
      most one record, built from its own payload; a response's identity is the one that POST created; a
      definitive rejection means the POST creates nothing. */
  ghost predicate Possible(w: World, e: Event) {
    match e
    case DoBegin(_, _, _, seen) => seen <= w.feed.Keys && forall b :: b in w.feed && b !in w.source ==> b in seen
    case DoPost(r, k) => (r, k) in w.tokens
    case Creates(r, b, record) =>
      && r < |w.db.rows| && (r, Proposal) in w.log && r !in w.dropped && b !in w.feed
      && (forall c :: c in w.source ==> w.source[c] != r) && Matches(w.db.rows[r].payload, record)
    case Drops(r) => forall c :: c in w.source ==> w.source[c] != r
    case OtherWriter(b, _) => b !in w.feed && forall r :: 0 <= r < |w.db.rows| ==> w.db.rows[r].proposal != Uncertain
    case DoAnswer(r, _, _, named) => named.Some? ==> named.value in w.source && w.source[named.value] == r
    case DoReject(r) => r in w.dropped
    case DoRecover(_, records) => FeedReading(w, records)
    case _ => true
  }

  /** An event that cannot happen changes nothing. */
  ghost function Step(w: World, e: Event): World {
    if !Possible(w, e) then w
    else match e
      case DoPropose(p) => w.(db := Proposed(w.db, p))
      case DoUpload(r, k) => w.(db := Uploaded(w.db, r, k))
      case DoBegin(r, k, permitted, seen) =>
        if MayBegin(w.db, r, k, permitted) then w.(db := Begun(w.db, r, k, seen), tokens := w.tokens + {(r, k)}) else w
      case DoPost(r, k) => w.(tokens := w.tokens - {(r, k)}, log := w.log + [(r, k)])
      case Creates(r, b, record) => w.(feed := w.feed[b := record], source := w.source[b := r])
      case Drops(r) => w.(dropped := w.dropped + {r})
      case OtherWriter(b, record) => w.(feed := w.feed[b := record])
      case DoCancel(r) => w.(db := Withdrawn(w.db, r))
      case DoAnswer(r, k, success, named) => w.(db := Answered(w.db, r, k, success, named))
      case DoRecover(r, records) => w.(db := Recovered(w.db, r, records))
      case DoReject(r) => w.(db := Refused(w.db, r))
      case DoPublish(r, b) => w.(db := Published(w.db, r, b))
      case DoHandOver(r) => w.(db := HandedOver(w.db, r))
      case DoConclude(r) => w.(db := Concluded(w.db, r))
      case DoRetire(r, k) => w.(db := Retired(w.db, r, k))
  }

  ghost function Run(w: World, es: seq<Event>): World
    decreases |es|
  {
    if es == [] then w else Step(Run(w, es[..|es| - 1]), es[|es| - 1])
  }

  const FRESH := World(Db([], map[]), {}, [], map[], map[], {})

  // ------------------------------------------------------------------ invariants

  /** Each intent is posted at most once, and only after its begin committed. */
  ghost predicate SentOnce(w: World) {
    && (forall i, j :: 0 <= i < j < |w.log| ==> w.log[i] != w.log[j])
    && (forall x :: x in w.log || x in w.tokens ==> x.0 < |w.db.rows| && !w.db.rows[x.0].At(x.1).Unsent())
    && (forall x :: x in w.tokens ==> x !in w.log)
  }

  /** The proposal of one reservation, and the receipt that accepting it leaves. */
  ghost predicate RowSound(w: World, r: nat, x: Row) {
    && x.payload.settings.track.None? && x.seen <= w.feed.Keys
    && (x.key.Some? ==> x.key.value == Key(x.payload))
    && (x.proposal == Uncertain ==> x.key.Some? && r !in w.db.receipts)
    && (x.proposal == Accepted ==> r in w.db.receipts)
    && (x.proposal == Rejected ==> r in w.dropped)
    && (x.benchmark.Some? ==> r in w.db.receipts && w.db.receipts[r] == x.benchmark.value)
  }

  ghost predicate Open(d: Db, r: int) {
    0 <= r < |d.rows| && d.rows[r].proposal == Uncertain
  }

  ghost predicate RowsSound(w: World) {
    && (forall r :: 0 <= r < |w.db.rows| ==> RowSound(w, r, w.db.rows[r]))
    && (forall r, s :: Open(w.db, r) && Open(w.db, s) && w.db.rows[r].key == w.db.rows[s].key ==> r == s)
  }

  /** A receipt names the record that this reservation's own POST created. */
  ghost predicate ReceiptsSound(w: World) {
    forall r :: r in w.db.receipts ==>
      r < |w.db.rows| && w.db.receipts[r] in w.source && w.source[w.db.receipts[r]] == r
  }

  ghost predicate MadeBy(w: World, b: BenchId, r: nat) {
    && r < |w.db.rows| && r !in w.dropped && (r, Proposal) in w.log && b in w.feed
    && b !in w.db.rows[r].seen && Matches(w.db.rows[r].payload, w.feed[b])
  }

  /** Each record comes from at most one POST, or was there at every preflight still open. */
  ghost predicate SourcesSound(w: World) {
    && (forall b :: b in w.source ==> MadeBy(w, b, w.source[b]))
    && (forall b, c :: b in w.source && c in w.source && w.source[b] == w.source[c] ==> b == c)
    && (forall b, r :: b in w.feed && b !in w.source && Open(w.db, r) ==> b in w.db.rows[r].seen)
  }

  ghost predicate Inv(w: World) {
    SentOnce(w) && RowsSound(w) && ReceiptsSound(w) && SourcesSound(w)
  }

  lemma ForeignCannotQualify(w: World, r: nat, b: BenchId)
    requires Inv(w) && r < |w.db.rows| && w.db.rows[r].proposal == Uncertain
    requires b in w.feed && Qualifies(w.db, r, b, w.feed[b])
    ensures b in w.source && w.source[b] == r
  {
    var s := w.source[b];
    assert MadeBy(w, b, s) && RowSound(w, s, w.db.rows[s]) && RowSound(w, r, w.db.rows[r]);
    MatchesFixesKey(w.db.rows[r].payload, w.db.rows[s].payload, w.feed[b]);
    assert !w.db.rows[s].At(Proposal).Unsent();
  }

  lemma OwnRecordQualifies(w: World, r: nat, b: BenchId)
    requires Inv(w) && r < |w.db.rows| && w.db.rows[r].proposal == Uncertain && b in w.source && w.source[b] == r
    ensures b in w.feed && Qualifies(w.db, r, b, w.feed[b])
  {
    assert MadeBy(w, b, r);
    assert b !in Taken(w.db) by {
      assert forall s :: 0 <= s < |w.db.rows| ==> RowSound(w, s, w.db.rows[s]);
    }
  }

  /** The heart of recovery: whatever part of the feed was read, the only candidate for an unresolved
      proposal is the record its own POST created, and when listed that one is always a candidate. */
  lemma OnlyOwnRecordQualifies(w: World, r: nat, records: seq<(BenchId, Precommit)>, b: BenchId)
    requires Inv(w) && r < |w.db.rows| && w.db.rows[r].proposal == Uncertain && FeedReading(w, records)
    ensures b in Candidates(w.db, r, records) <==> b in w.source && w.source[b] == r && Listed(records, b)
  {
    if b in Candidates(w.db, r, records) {
      ForeignCannotQualify(w, r, b);
    }
    if b in w.source && w.source[b] == r && Listed(records, b) {
      OwnRecordQualifies(w, r, b);
    }
  }

  // ------------------------------------------------------------------ every step keeps the invariant

  function Changed(w: World, r: nat, x: Row, b: Option<BenchId>): World
    requires r < |w.db.rows|
  {
    w.(db := Db(w.db.rows[r := x], if b.Some? then w.db.receipts[r := b.value] else w.db.receipts))
  }

  /** A row may move on in its life, and gain the receipt of its own record; its proposal stays as it is. */
  ghost predicate FairChange(w: World, r: nat, x: Row, b: Option<BenchId>)
    requires r < |w.db.rows|
  {
    && x.payload == w.db.rows[r].payload && x.seen == w.db.rows[r].seen && x.key == w.db.rows[r].key
    && (x.proposal == Uncertain ==> w.db.rows[r].proposal == Uncertain)
    && (forall k :: x.At(k).Unsent() ==> w.db.rows[r].At(k).Unsent())
    && (b.Some? ==> b.value in w.source && w.source[b.value] == r)
    && RowSound(Changed(w, r, x, b), r, x)
  }

  lemma ChangeKeepsSends(w: World, r: nat, x: Row, b: Option<BenchId>)
    requires r < |w.db.rows| && FairChange(w, r, x, b) && SentOnce(w)
    ensures SentOnce(Changed(w, r, x, b))
  {
  }

  lemma ChangeKeepsRows(w: World, r: nat, x: Row, b: Option<BenchId>)
    requires r < |w.db.rows| && FairChange(w, r, x, b) && RowsSound(w)
    ensures RowsSound(Changed(w, r, x, b))
  {
    var v := Changed(w, r, x, b);
    forall s | 0 <= s < |v.db.rows| ensures RowSound(v, s, v.db.rows[s]) {
      assert RowSound(w, s, w.db.rows[s]);
    }
    assert forall s :: Open(v.db, s) ==> Open(w.db, s) && v.db.rows[s].key == w.db.rows[s].key;
  }

  lemma ChangeKeepsSources(w: World, r: nat, x: Row, b: Option<BenchId>)
    requires r < |w.db.rows| && FairChange(w, r, x, b) && SourcesSound(w)
    ensures SourcesSound(Changed(w, r, x, b))
  {
    var v := Changed(w, r, x, b);
    forall c | c in v.source ensures MadeBy(v, c, v.source[c]) {
      assert MadeBy(w, c, w.source[c]);
    }
    assert forall s :: Open(v.db, s) ==> Open(w.db, s) && v.db.rows[s].seen == w.db.rows[s].seen;
  }

  lemma ChangeKeeps(w: World, r: nat, x: Row, b: Option<BenchId>)
    requires Inv(w) && r < |w.db.rows| && FairChange(w, r, x, b)
    ensures Inv(Changed(w, r, x, b))
  {
    ChangeKeepsSends(w, r, x, b);
    ChangeKeepsRows(w, r, x, b);
    ChangeKeepsSources(w, r, x, b);
  }

  /** The protocol or the log moves; the tables do not. */
  lemma OutsideKeepsRows(w: World, v: World)
    requires RowsSound(w) && v.db == w.db && w.feed.Keys <= v.feed.Keys && w.dropped <= v.dropped
    ensures RowsSound(v)
  {
    assert forall s :: 0 <= s < |w.db.rows| ==> RowSound(w, s, w.db.rows[s]);
  }

  lemma ProposedRows(w: World, p: Payload)
    requires RowsSound(w) && ReceiptsSound(w)
    ensures RowsSound(w.(db := Proposed(w.db, p)))
  {
    var v := w.(db := Proposed(w.db, p));
    forall s | 0 <= s < |v.db.rows| ensures RowSound(v, s, v.db.rows[s]) {
      if s < |w.db.rows| { assert RowSound(w, s, w.db.rows[s]); }
    }
    assert forall s :: Open(v.db, s) ==> Open(w.db, s) && v.db.rows[s] == w.db.rows[s];
  }

  lemma ProposedSources(w: World, p: Payload)
    requires SourcesSound(w)
    ensures SourcesSound(w.(db := Proposed(w.db, p)))
  {
    var v := w.(db := Proposed(w.db, p));
    forall b | b in w.source ensures MadeBy(v, b, w.source[b]) { assert MadeBy(w, b, w.source[b]); }
    assert forall s :: Open(v.db, s) ==> Open(w.db, s) && v.db.rows[s] == w.db.rows[s];
  }

  lemma ProposedSends(w: World, p: Payload)
    requires SentOnce(w)
    ensures SentOnce(w.(db := Proposed(w.db, p)))
  {
    var v := w.(db := Proposed(w.db, p));
    assert forall x :: x in w.log || x in w.tokens ==> v.db.rows[x.0] == w.db.rows[x.0];
  }

  lemma KeepsPropose(w: World, p: Payload)
    requires Inv(w)
    ensures Inv(w.(db := Proposed(w.db, p)))
  {
    ProposedRows(w, p);
    ProposedSources(w, p);
    ProposedSends(w, p);
  }

  lemma KeepsPost(w: World, r: nat, k: Kind)
    requires Inv(w) && Possible(w, DoPost(r, k))
    ensures Inv(Step(w, DoPost(r, k)))
  {
    var v := Step(w, DoPost(r, k));
    OutsideKeepsRows(w, v);
    assert forall b :: b in w.source ==> MadeBy(w, b, w.source[b]) && MadeBy(v, b, w.source[b]);
  }

  lemma CreatedSources(w: World, r: nat, b: BenchId, record: Precommit)
    requires SourcesSound(w) && Possible(w, Creates(r, b, record)) && w.db.rows[r].seen <= w.feed.Keys
    ensures SourcesSound(w.(feed := w.feed[b := record], source := w.source[b := r]))
  {
    var v := w.(feed := w.feed[b := record], source := w.source[b := r]);
    assert b !in w.source by { assert forall c :: c in w.source ==> MadeBy(w, c, w.source[c]); }
    forall c | c in v.source ensures MadeBy(v, c, v.source[c]) {
      if c != b { assert MadeBy(w, c, w.source[c]); }
    }
  }

  lemma KeepsCreates(w: World, r: nat, b: BenchId, record: Precommit)
    requires Inv(w) && Possible(w, Creates(r, b, record))
    ensures Inv(Step(w, Creates(r, b, record)))
  {
    var v := w.(feed := w.feed[b := record], source := w.source[b := r]);
    assert RowSound(w, r, w.db.rows[r]);
    assert b !in w.source by { assert forall c :: c in w.source ==> MadeBy(w, c, w.source[c]); }
    OutsideKeepsRows(w, v);
    CreatedSources(w, r, b, record);
  }

  lemma DropKeepsSources(w: World, r: nat)
    requires SourcesSound(w) && forall b :: b in w.source ==> w.source[b] != r
    ensures SourcesSound(w.(dropped := w.dropped + {r}))
  {
    forall b | b in w.source ensures MadeBy(w.(dropped := w.dropped + {r}), b, w.source[b]) { assert MadeBy(w, b, w.source[b]); }
  }

  lemma WriterKeepsSources(w: World, c: BenchId, record: Precommit)
    requires SourcesSound(w) && c !in w.feed && forall r :: !Open(w.db, r)
    ensures SourcesSound(w.(feed := w.feed[c := record]))
  {
    var v := w.(feed := w.feed[c := record]);
    forall b | b in w.source ensures MadeBy(v, b, w.source[b]) { assert MadeBy(w, b, w.source[b]); }
  }

  lemma KeepsOutside(w: World, e: Event)
    requires Inv(w) && Possible(w, e) && (e.Drops? || e.OtherWriter?)
    ensures Inv(Step(w, e))
  {
    var v := Step(w, e);
    OutsideKeepsRows(w, v);
    if e.Drops? {
      DropKeepsSources(w, e.r);
    } else {
      assert forall r :: !Open(w.db, r);
      WriterKeepsSources(w, e.b, e.record);
    }
  }

  lemma BeginProposalRows(w: World, r: nat, seen: set<BenchId>)
    requires Inv(w) && MayBegin(w.db, r, Proposal, true) && seen <= w.feed.Keys
    ensures RowsSound(w.(db := Begun(w.db, r, Proposal, seen)))
  {
    var v := w.(db := Begun(w.db, r, Proposal, seen));
    assert (r, Proposal) !in w.log;
    assert r !in w.db.receipts by {
      assert forall b :: b in w.source ==> MadeBy(w, b, w.source[b]);
    }
    forall s | 0 <= s < |v.db.rows| ensures RowSound(v, s, v.db.rows[s]) {
      assert RowSound(w, s, w.db.rows[s]);
    }
    forall s | Open(v.db, s) && s != r ensures v.db.rows[s].key != v.db.rows[r].key {
      assert w.db.rows[s].key == v.db.rows[s].key;
    }
    assert forall s :: Open(v.db, s) && s != r ==> Open(w.db, s) && v.db.rows[s].key == w.db.rows[s].key;
  }

  lemma BeginProposalSources(w: World, r: nat, seen: set<BenchId>)
    requires Inv(w) && MayBegin(w.db, r, Proposal, true) && Possible(w, DoBegin(r, Proposal, true, seen))
    ensures SourcesSound(w.(db := Begun(w.db, r, Proposal, seen)))
  {
    var v := w.(db := Begun(w.db, r, Proposal, seen));
    assert (r, Proposal) !in w.log;
    forall b | b in w.source ensures MadeBy(v, b, w.source[b]) {
      assert MadeBy(w, b, w.source[b]);
    }
  }

  /** What a begin leaves in the tables, whichever kind of intent it fences. */
  lemma BeginTables(w: World, r: nat, k: Kind, permitted: bool, seen: set<BenchId>)
    requires Inv(w) && Possible(w, DoBegin(r, k, permitted, seen)) && MayBegin(w.db, r, k, permitted)
    ensures RowsSound(w.(db := Begun(w.db, r, k, seen)))
    ensures SourcesSound(w.(db := Begun(w.db, r, k, seen)))
  {
    if k == Proposal {
      BeginProposalRows(w, r, seen);
      BeginProposalSources(w, r, seen);
    } else {
      var x := w.db.rows[r].Put(k, Uncertain);
      assert RowSound(w, r, w.db.rows[r]);
      ChangeKeepsRows(w, r, x, None);
      ChangeKeepsSources(w, r, x, None);
    }
  }

  lemma BeginSends(w: World, r: nat, k: Kind, seen: set<BenchId>)
    requires SentOnce(w) && r < |w.db.rows| && w.db.rows[r].At(k) == Ready
    ensures SentOnce(w.(db := Begun(w.db, r, k, seen), tokens := w.tokens + {(r, k)}))
  {
    assert (r, k) !in w.log && (r, k) !in w.tokens;
  }

  lemma TokensAside(w: World, tokens: set<(nat, Kind)>)
    requires RowsSound(w) && SourcesSound(w)
    ensures RowsSound(w.(tokens := tokens)) && SourcesSound(w.(tokens := tokens))
  {
    var v := w.(tokens := tokens);
    OutsideKeepsRows(w, v);
    forall b | b in v.source ensures MadeBy(v, b, v.source[b]) { assert MadeBy(w, b, w.source[b]); }
  }

  lemma KeepsBegin(w: World, r: nat, k: Kind, permitted: bool, seen: set<BenchId>)
    requires Inv(w) && Possible(w, DoBegin(r, k, permitted, seen)) && MayBegin(w.db, r, k, permitted)
    ensures Inv(w.(db := Begun(w.db, r, k, seen), tokens := w.tokens + {(r, k)}))
  {
    BeginTables(w, r, k, permitted, seen);
    BeginSends(w, r, k, seen);
    TokensAside(w.(db := Begun(w.db, r, k, seen)), w.tokens + {(r, k)});
  }

  lemma KeepsUpload(w: World, r: nat, k: Kind)
    requires Inv(w)
    ensures Inv(w.(db := Uploaded(w.db, r, k)))
  {
    if Uploaded(w.db, r, k) != w.db {
      assert RowSound(w, r, w.db.rows[r]);
      ChangeKeeps(w, r, w.db.rows[r].Put(k, Ready), None);
    }
  }

  lemma KeepsReceipt(w: World, r: nat, b: BenchId)
    requires Inv(w) && r < |w.db.rows| && b in w.source && w.source[b] == r && !Contradicts(w.db, r, b)
    requires w.db.rows[r].proposal == Uncertain || w.db.rows[r].proposal == Accepted
    ensures Inv(w.(db := Received(w.db, r, b)))
  {
    assert RowSound(w, r, w.db.rows[r]);
    ChangeKeeps(w, r, w.db.rows[r].(proposal := Accepted), Some(b));
  }

  lemma KeepsUploadAnswer(w: World, r: nat, k: Kind)
    requires Inv(w) && r < |w.db.rows| && k != Proposal
    requires w.db.rows[r].At(k) == Uncertain || w.db.rows[r].At(k) == Accepted
    ensures Inv(w.(db := SetRow(w.db, r, w.db.rows[r].Put(k, Accepted))))
  {
    assert RowSound(w, r, w.db.rows[r]);
    ChangeKeeps(w, r, w.db.rows[r].Put(k, Accepted), None);
  }

  lemma KeepsAnswer(w: World, r: nat, k: Kind, success: bool, named: Option<BenchId>)
    requires Inv(w) && Possible(w, DoAnswer(r, k, success, named))
    ensures Inv(w.(db := Answered(w.db, r, k, success, named)))
  {
    if Answered(w.db, r, k, success, named) != w.db {
      if k == Proposal { KeepsReceipt(w, r, named.value); } else { KeepsUploadAnswer(w, r, k); }
    }
  }

  lemma KeepsRecover(w: World, r: nat, records: seq<(BenchId, Precommit)>)
    requires Inv(w) && FeedReading(w, records)
    ensures Inv(w.(db := Recovered(w.db, r, records)))
  {
    if Recovered(w.db, r, records) != w.db {
      var b := TheOne(Candidates(w.db, r, records));
      OnlyOwnRecordQualifies(w, r, records, b);
      KeepsReceipt(w, r, b);
    }
  }

  lemma KeepsRelease(w: World, r: nat)
    requires Inv(w)
    ensures Inv(w.(db := Withdrawn(w.db, r)))
    ensures r in w.dropped ==> Inv(w.(db := Refused(w.db, r)))
  {
    if r < |w.db.rows| {
      var x := w.db.rows[r];
      assert RowSound(w, r, x);
      if x.proposal == Ready { ChangeKeeps(w, r, x.(proposal := Cancelled, work := Released), None); }
      if x.proposal == Uncertain && r in w.dropped { ChangeKeeps(w, r, x.(proposal := Rejected, work := Released), None); }
    }
  }

  lemma KeepsPublish(w: World, r: nat, b: BenchId)
    requires Inv(w)
    ensures Inv(w.(db := Published(w.db, r, b)))
  {
    if Published(w.db, r, b) != w.db {
      assert RowSound(w, r, w.db.rows[r]);
      ChangeKeeps(w, r, w.db.rows[r].(work := Assigned, benchmark := Some(b)), None);
    }
  }

  lemma KeepsProgress(w: World, r: nat)
    requires Inv(w)
    ensures Inv(w.(db := HandedOver(w.db, r)))
    ensures Inv(w.(db := Concluded(w.db, r)))
  {
    if r < |w.db.rows| && w.db.rows[r].work == Assigned {
      var x := w.db.rows[r];
      assert RowSound(w, r, x);
      ChangeKeeps(w, r, x.(handedOver := true), None);
      ChangeKeeps(w, r, x.(work := Ended), None);
    }
  }

  lemma KeepsRetire(w: World, r: nat, k: Kind)
    requires Inv(w)
    ensures Inv(w.(db := Retired(w.db, r, k)))
  {
    if Retired(w.db, r, k) != w.db {
      assert RowSound(w, r, w.db.rows[r]);
      ChangeKeeps(w, r, w.db.rows[r].Put(k, Cancelled), None);
    }
  }

  lemma StepKeeps(w: World, e: Event)
    requires Inv(w)
    ensures Inv(Step(w, e))
  {
    if Possible(w, e) {
      match e
      case DoPropose(p) => KeepsPropose(w, p);
      case DoUpload(r, k) => KeepsUpload(w, r, k);
      case DoBegin(r, k, permitted, seen) =>
        if MayBegin(w.db, r, k, permitted) { KeepsBegin(w, r, k, permitted, seen); }
      case DoPost(r, k) => KeepsPost(w, r, k);
      case Creates(r, b, record) => KeepsCreates(w, r, b, record);
      case Drops(_) => KeepsOutside(w, e);
      case OtherWriter(_, _) => KeepsOutside(w, e);
      case DoCancel(r) => KeepsRelease(w, r);
      case DoAnswer(r, k, success, named) => KeepsAnswer(w, r, k, success, named);
      case DoRecover(r, records) => KeepsRecover(w, r, records);
      case DoReject(r) => KeepsRelease(w, r);
      case DoPublish(r, b) => KeepsPublish(w, r, b);
      case DoHandOver(r) => KeepsProgress(w, r);
      case DoConclude(r) => KeepsProgress(w, r);
      case DoRetire(r, k) => KeepsRetire(w, r, k);
    }
  }

  lemma {:induction false} RunKeeps(es: seq<Event>)
    ensures Inv(Run(FRESH, es))
    decreases |es|
  {
    if es != [] {
      RunKeeps(es[..|es| - 1]);
      StepKeeps(Run(FRESH, es[..|es| - 1]), es[|es| - 1]);
    }
  }

  ghost predicate Attached(d: Db, r: int) {
    0 <= r < |d.rows| && d.rows[r].benchmark.Some?
  }

  /** In every run: each intent is posted at most once, a receipt names the record that reservation's own
      POST created, and no identity is ever attached to two reservations. */
  lemma FenceTheorem(es: seq<Event>)
    ensures var w := Run(FRESH, es);
      && (forall i, j :: 0 <= i < j < |w.log| ==> w.log[i] != w.log[j])
      && (forall r :: r in w.db.receipts ==> w.db.receipts[r] in w.source && w.source[w.db.receipts[r]] == r)
      && (forall r, s :: r in w.db.receipts && s in w.db.receipts && w.db.receipts[r] == w.db.receipts[s] ==> r == s)
      && (forall r, s :: Attached(w.db, r) && Attached(w.db, s) && w.db.rows[r].benchmark == w.db.rows[s].benchmark ==> r == s)
  {
    RunKeeps(es);
    var w := Run(FRESH, es);
    assert forall r :: 0 <= r < |w.db.rows| ==> RowSound(w, r, w.db.rows[r]);
  }

  /** In every run, reading the feed settles an unresolved proposal exactly when the reading lists the
      record its own POST created, and then with that identity. */
  lemma RecoveryTheorem(es: seq<Event>, r: nat, records: seq<(BenchId, Precommit)>)
    requires var w := Run(FRESH, es);
      r < |w.db.rows| && w.db.rows[r].proposal == Uncertain && FeedReading(w, records)
    ensures var w := Run(FRESH, es);
      && (forall b :: b in w.source && w.source[b] == r && Listed(records, b) ==>
            Recovered(w.db, r, records) == Received(w.db, r, b))
      && ((forall b :: b in w.source && w.source[b] == r ==> !Listed(records, b)) ==>
            Recovered(w.db, r, records) == w.db)
  {
    RunKeeps(es);
    var w := Run(FRESH, es);
    var own := Candidates(w.db, r, records);
    forall b ensures b in own <==> b in w.source && w.source[b] == r && Listed(records, b) {
      OnlyOwnRecordQualifies(w, r, records, b);
    }
    forall b | b in own ensures own == {b} && !Contradicts(w.db, r, b) {
      OwnRecordQualifies(w, r, b);
      assert RowSound(w, r, w.db.rows[r]);
    }
  }

  // ------------------------------------------------------------------ uploads

  /** A successful answer to this intent was recorded; a confirmed payload counts as one. */
  predicate AnsweredIn(es: seq<Event>, r: nat, k: Kind) {
    exists i :: 0 <= i < |es| && es[i].DoAnswer? && es[i].r == r && es[i].k == k && es[i].success
  }

  /** This intent's begin was asked for, and for a proposal permitted. */
  predicate BegunIn(es: seq<Event>, r: nat, k: Kind) {
    exists i :: 0 <= i < |es| && es[i].DoBegin? && es[i].r == r && es[i].k == k && (k.Proposal? ==> es[i].permitted)
  }

  /** Only a successful answer makes an upload accepted, and only while one is out. */
  lemma AcceptedByAnswer(w: World, e: Event, r: nat, k: Kind)
    requires r < |Step(w, e).db.rows| && !k.Proposal? && Step(w, e).db.rows[r].At(k) == Accepted
    ensures r < |w.db.rows|
    ensures w.db.rows[r].At(k) == Accepted
         || (w.db.rows[r].At(k) == Uncertain && e.DoAnswer? && e.r == r && e.k == k && e.success)
  {
  }

  /** Once accepted, an upload stays so. */
  lemma AcceptedStays(w: World, e: Event, r: nat, k: Kind)
    requires r < |w.db.rows| && !k.Proposal? && w.db.rows[r].At(k) == Accepted
    ensures r < |Step(w, e).db.rows| && Step(w, e).db.rows[r].At(k) == Accepted
  {
  }

  /** Proofs leave the pool's hands only by a begin, and a begin of proofs finds the results accepted. */
  lemma ProofsAfterResults(w: World, e: Event, r: nat)
    requires r < |Step(w, e).db.rows| && !Step(w, e).db.rows[r].proofs.Unsent()
    ensures r < |w.db.rows| && (!w.db.rows[r].proofs.Unsent() || w.db.rows[r].results == Accepted)
  {
  }

  lemma Permitted(w: World, e: Event, x: (nat, Kind))
    requires x in Step(w, e).log || x in Step(w, e).tokens
    ensures x in w.log || x in w.tokens || (e.DoBegin? && e.r == x.0 && e.k == x.1 && (e.k.Proposal? ==> e.permitted))
  {
  }

  /** In every run: an upload is accepted only after a successful answer to it, proofs are sent only after results were
      accepted, and nothing is posted but what a begin released, for a proposal a permitted one. */
  lemma {:induction false} UploadTheorem(es: seq<Event>, r: nat, k: Kind)
    ensures var w := Run(FRESH, es);
      && (r < |w.db.rows| && !k.Proposal? && w.db.rows[r].At(k) == Accepted ==> AnsweredIn(es, r, k))
      && (r < |w.db.rows| && !w.db.rows[r].proofs.Unsent() ==> w.db.rows[r].results == Accepted && AnsweredIn(es, r, Results))
      && ((r, k) in w.log || (r, k) in w.tokens ==> BegunIn(es, r, k))
    decreases |es|
  {
    if es != [] {
      var front, e := es[..|es| - 1], es[|es| - 1];
      var w, v := Run(FRESH, front), Run(FRESH, es);
      assert es == front + [e];
      UploadTheorem(front, r, k);
      UploadTheorem(front, r, Results);
      Earlier(front, e, r, k);
      Earlier(front, e, r, Results);
      if r < |v.db.rows| && !k.Proposal? && v.db.rows[r].At(k) == Accepted { AcceptedByAnswer(w, e, r, k); }
      if r < |v.db.rows| && !v.db.rows[r].proofs.Unsent() {
        ProofsAfterResults(w, e, r);
        AcceptedStays(w, e, r, Results);
      }
      if (r, k) in v.log || (r, k) in v.tokens { Permitted(w, e, (r, k)); }
    }
  }

  lemma Earlier(front: seq<Event>, e: Event, r: nat, k: Kind)
    ensures AnsweredIn(front, r, k) ==> AnsweredIn(front + [e], r, k)
    ensures BegunIn(front, r, k) ==> BegunIn(front + [e], r, k)
  {
    assert forall i :: 0 <= i < |front| ==> (front + [e])[i] == front[i];
  }

  // ------------------------------------------------------------------ the way of the work

  /** How one event may move a reservation's work: from reserved to sent, assigned and ended, or to released. */
  predicate Moves(x: Row, y: Row, e: Event, r: nat) {
    || y.work == x.work
    || (e == DoCancel(r) && x.proposal == Ready && y.work == Released)
    || (e.DoBegin? && e.r == r && e.k == Proposal && e.permitted && x.work == Reserved && y.work == Sent)
    || (e == DoReject(r) && x.proposal == Uncertain && y.work == Released)
    || (e.DoPublish? && e.r == r && x.work == Sent && y.work == Assigned && y.benchmark == Some(e.b))
    || (e == DoConclude(r) && x.work == Assigned && y.work == Ended)
  }

  lemma WorkMoves(w: World, e: Event, r: nat)
    requires r < |w.db.rows|
    ensures r < |Step(w, e).db.rows| && Moves(w.db.rows[r], Step(w, e).db.rows[r], e, r)
    ensures e == DoConclude(r) && w.db.rows[r].work == Assigned ==> Step(w, e).db.rows[r].work == Ended
  {
  }

  /** Assigned work has its benchmark, also when it ended. */
  ghost predicate Named(d: Db) {
    forall r :: 0 <= r < |d.rows| && d.rows[r].work in {Assigned, Ended} ==> d.rows[r].benchmark.Some?
  }

  lemma StepNamed(w: World, e: Event, r: nat)
    requires Named(w.db) && r < |Step(w, e).db.rows| && Step(w, e).db.rows[r].work in {Assigned, Ended}
    ensures Step(w, e).db.rows[r].benchmark.Some?
  {
  }

  lemma {:induction false} RunNamed(es: seq<Event>)
    ensures Named(Run(FRESH, es).db)
    decreases |es|
  {
    if es != [] {
      var w, e := Run(FRESH, es[..|es| - 1]), es[|es| - 1];
      var v := Step(w, e);
      RunNamed(es[..|es| - 1]);
      forall r | 0 <= r < |v.db.rows| && v.db.rows[r].work in {Assigned, Ended} ensures v.db.rows[r].benchmark.Some? { StepNamed(w, e, r); }
    }
  }

  /** Ended work has its receipt, so its proposal was sent and answered. */
  lemma EndedAnswered(w: World, r: nat)
    requires Inv(w) && Named(w.db) && r < |w.db.rows| && w.db.rows[r].work == Ended
    ensures w.db.rows[r].proposal !in {Ready, Uncertain}
  {
    assert RowSound(w, r, w.db.rows[r]);
    assert MadeBy(w, w.db.receipts[r], r);
    assert !w.db.rows[r].At(Proposal).Unsent();
  }

  lemma EndedStays(w: World, e: Event, r: nat)
    requires r < |w.db.rows| && w.db.rows[r].work == Ended && w.db.rows[r].proposal !in {Ready, Uncertain}
    ensures r < |Step(w, e).db.rows| && Step(w, e).db.rows[r].work == Ended
  {
    WorkMoves(w, e, r);
  }

  lemma EndedSilent(w: World, e: Event, r: nat, k: Kind)
    requires r < |w.db.rows| && w.db.rows[r].work == Ended && ((r, k) in Step(w, e).tokens || (r, k) in Step(w, e).log)
    ensures (r, k) in w.tokens || (r, k) in w.log
  {
  }

  /** Work that ended stays so, and nothing is posted for it but what was released before: a queued upload never becomes a
      late first POST. */
  lemma {:induction false} EndedForGood(es: seq<Event>, more: seq<Event>, r: nat)
    requires r < |Run(FRESH, es).db.rows| && Run(FRESH, es).db.rows[r].work == Ended
    ensures var w, v := Run(FRESH, es), Run(FRESH, es + more);
      && r < |v.db.rows| && v.db.rows[r].work == Ended
      && forall k :: (r, k) in v.tokens || (r, k) in v.log ==> (r, k) in w.tokens || (r, k) in w.log
    decreases |more|
  {
    if more == [] {
      assert es + more == es;
    } else {
      var front, e := more[..|more| - 1], more[|more| - 1];
      EndedForGood(es, front, r);
      assert (es + more)[..|es + more| - 1] == es + front && (es + more)[|es + more| - 1] == e;
      RunKeeps(es + front);
      RunNamed(es + front);
      var u := Run(FRESH, es + front);
      EndedAnswered(u, r);
      EndedStays(u, e, r);
      forall k | (r, k) in Step(u, e).tokens || (r, k) in Step(u, e).log ensures (r, k) in u.tokens || (r, k) in u.log { EndedSilent(u, e, r, k); }
    }
  }

  // ------------------------------------------------------------------ work that nothing disturbs

  ghost function After(w: World, es: seq<Event>): World
    decreases |es|
  {
    if es == [] then w else After(Step(w, es[0]), es[1..])
  }

  lemma {:induction false} RunAfter(es: seq<Event>, more: seq<Event>)
    ensures Run(FRESH, es + more) == After(Run(FRESH, es), more)
    decreases |more|
  {
    if more == [] {
      assert es + more == es;
    } else {
      assert es + more == (es + [more[0]]) + more[1..];
      assert (es + [more[0]])[..|es|] == es;
      RunAfter(es + [more[0]], more[1..]);
    }
  }

  lemma {:induction false} AfterBoth(w: World, es: seq<Event>, more: seq<Event>)
    ensures After(w, es + more) == After(After(w, es), more)
    decreases |es|
  {
    if es == [] {
      assert es + more == more;
    } else {
      assert (es + more)[0] == es[0] && (es + more)[1..] == es[1..] + more;
      AfterBoth(Step(w, es[0]), es[1..], more);
    }
  }

  lemma AfterOne(w: World, e: Event)
    ensures After(w, [e]) == Step(w, e)
  {
    assert [e][1..] == [] && After(Step(w, e), []) == Step(w, e);
  }

  lemma AfterThree(w: World, e: Event, f: Event, g: Event)
    ensures After(w, [e, f, g]) == Step(Step(Step(w, e), f), g)
  {
    assert [e, f, g][1..] == [f, g] && [f, g][1..] == [g];
    AfterOne(Step(Step(w, e), f), g);
  }

  /** A proposal's way to the protocol, back, and to its member. */
  function Proposing(r: nat, p: Payload, b: BenchId, record: Precommit, seen: set<BenchId>): seq<Event> {
    [DoPropose(p), DoBegin(r, Proposal, true, seen), DoPost(r, Proposal)]
    + [Creates(r, b, record), DoAnswer(r, Proposal, true, Some(b)), DoPublish(r, b)] + [DoHandOver(r)]
  }

  /** The way of one upload. */
  function Uploading(r: nat, k: Kind, seen: set<BenchId>): seq<Event> {
    [DoUpload(r, k), DoBegin(r, k, true, seen), DoPost(r, k)] + [DoAnswer(r, k, true, None)]
  }

  lemma UploadRuns(w: World, r: nat, k: Kind)
    requires r < |w.db.rows| && !k.Proposal? && Working(w.db.rows[r]) && w.db.rows[r].At(k) == Absent && (r, k) !in w.tokens
    requires k == Proofs ==> w.db.rows[r].results == Accepted
    ensures After(w, Uploading(r, k, w.feed.Keys)) ==
      w.(db := w.db.(rows := w.db.rows[r := w.db.rows[r].Put(k, Accepted)]), log := w.log + [(r, k)])
  {
    var seen := w.feed.Keys;
    AfterBoth(w, [DoUpload(r, k), DoBegin(r, k, true, seen), DoPost(r, k)], [DoAnswer(r, k, true, None)]);
    AfterThree(w, DoUpload(r, k), DoBegin(r, k, true, seen), DoPost(r, k));
    var v := Step(w, DoUpload(r, k));
    assert v == w.(db := SetRow(w.db, r, w.db.rows[r].Put(k, Ready)));
    var u := Step(v, DoBegin(r, k, true, seen));
    assert u == w.(db := SetRow(w.db, r, w.db.rows[r].Put(k, Uncertain)), tokens := w.tokens + {(r, k)});
    var t := Step(u, DoPost(r, k));
    assert t == w.(db := SetRow(w.db, r, w.db.rows[r].Put(k, Uncertain)), log := w.log + [(r, k)]);
    AfterOne(t, DoAnswer(r, k, true, None));
  }

  /** The new row while its proposal is out, and after it was accepted, published and handed over. */
  function OnItsWay(p: Payload, seen: set<BenchId>): Row {
    var q := p.(settings := p.settings.(track := None));
    Row(q, Some((q.settings, q.compute)), seen, Uncertain, Absent, Absent, Sent, false, None)
  }

  function Delivered(p: Payload, b: BenchId, seen: set<BenchId>): Row {
    OnItsWay(p, seen).(proposal := Accepted, work := Assigned, handedOver := true, benchmark := Some(b))
  }

  /** Nothing unresolved looks like this proposal. */
  ghost predicate Distinct(d: Db, p: Payload) {
    forall s :: 0 <= s < |d.rows| && d.rows[s].proposal == Uncertain ==> d.rows[s].key != Some((p.settings.(track := None), p.compute))
  }

  lemma SendsOut(w: World, p: Payload)
    requires Inv(w) && Distinct(w.db, p)
    ensures var r, seen := |w.db.rows|, w.feed.Keys;
      Step(Step(Step(w, DoPropose(p)), DoBegin(r, Proposal, true, seen)), DoPost(r, Proposal)) ==
        w.(db := w.db.(rows := w.db.rows + [OnItsWay(p, seen)]), log := w.log + [(r, Proposal)])
  {
    var r, seen := |w.db.rows|, w.feed.Keys;
    var v := Step(w, DoPropose(p));
    assert v.db.rows[..r] == w.db.rows;
    assert MayBegin(v.db, r, Proposal, true) by {
      forall s | 0 <= s < |v.db.rows| && v.db.rows[s].proposal == Uncertain ensures v.db.rows[s].key != Some(Key(v.db.rows[r].payload)) {
        assert v.db.rows[s] == w.db.rows[s];
      }
    }
    var u := Step(v, DoBegin(r, Proposal, true, seen));
    assert u.db.rows == w.db.rows + [OnItsWay(p, seen)];
    assert (r, Proposal) !in w.tokens;
    assert (w.tokens + {(r, Proposal)}) - {(r, Proposal)} == w.tokens;
  }

  lemma Answers(w: World, r: nat, b: BenchId, record: Precommit)
    requires r < |w.db.rows| && (r, Proposal) in w.log && r !in w.dropped && b !in w.feed && Matches(w.db.rows[r].payload, record)
    requires (forall c :: c in w.source ==> w.source[c] != r) && w.db.rows[r].proposal == Uncertain
    requires r !in w.db.receipts && forall s :: 0 <= s < |w.db.rows| ==> w.db.rows[s].benchmark != Some(b)
    ensures Step(Step(w, Creates(r, b, record)), DoAnswer(r, Proposal, true, Some(b))) ==
      w.(db := Db(w.db.rows[r := w.db.rows[r].(proposal := Accepted)], w.db.receipts[r := b]),
         feed := w.feed[b := record], source := w.source[b := r])
  {
    assert Step(w, Creates(r, b, record)) == w.(feed := w.feed[b := record], source := w.source[b := r]);
  }

  lemma Delivers(w: World, r: nat, b: BenchId)
    requires r < |w.db.rows| && r in w.db.receipts && w.db.receipts[r] == b && w.db.rows[r].work == Sent
    ensures Step(Step(w, DoPublish(r, b)), DoHandOver(r)) ==
      w.(db := w.db.(rows := w.db.rows[r := w.db.rows[r].(work := Assigned, benchmark := Some(b), handedOver := true)]))
  {
  }

  lemma NotTaken(w: World, b: BenchId)
    requires Inv(w) && b !in w.feed
    ensures |w.db.rows| !in w.db.receipts
    ensures forall c :: c in w.source ==> w.source[c] < |w.db.rows|
    ensures forall s :: 0 <= s < |w.db.rows| ==> w.db.rows[s].benchmark != Some(b)
  {
    assert forall c :: c in w.source ==> MadeBy(w, c, w.source[c]);
    assert forall s :: 0 <= s < |w.db.rows| ==> RowSound(w, s, w.db.rows[s]);
  }

  lemma ComesBack(w: World, p: Payload, b: BenchId, record: Precommit)
    requires Inv(w) && |w.db.rows| !in w.dropped && b !in w.feed && Matches(p, record)
    ensures var r, seen := |w.db.rows|, w.feed.Keys;
      var v := w.(db := w.db.(rows := w.db.rows + [OnItsWay(p, seen)]), log := w.log + [(r, Proposal)]);
      Step(Step(Step(Step(v, Creates(r, b, record)), DoAnswer(r, Proposal, true, Some(b))), DoPublish(r, b)), DoHandOver(r)) ==
        v.(db := Db(w.db.rows + [Delivered(p, b, seen)], w.db.receipts[r := b]), feed := w.feed[b := record], source := w.source[b := r])
  {
    var r, x := |w.db.rows|, OnItsWay(p, w.feed.Keys);
    var v := w.(db := w.db.(rows := w.db.rows + [x]), log := w.log + [(r, Proposal)]);
    NotTaken(w, b);
    assert v.log[|w.log|] == (r, Proposal) && v.db.rows[r] == x;
    Answers(v, r, b, record);
    var u := Step(Step(v, Creates(r, b, record)), DoAnswer(r, Proposal, true, Some(b)));
    assert u.db.rows == w.db.rows + [x.(proposal := Accepted)];
    Delivers(u, r, b);
    assert u.db.rows[r := Delivered(p, b, w.feed.Keys)] == w.db.rows + [Delivered(p, b, w.feed.Keys)];
  }

  lemma ProposalRuns(w: World, p: Payload, b: BenchId, record: Precommit)
    requires Inv(w) && |w.db.rows| !in w.dropped && b !in w.feed && Matches(p, record) && Distinct(w.db, p)
    ensures var r := |w.db.rows|;
      After(w, Proposing(r, p, b, record, w.feed.Keys)) ==
        w.(db := Db(w.db.rows + [Delivered(p, b, w.feed.Keys)], w.db.receipts[r := b]), log := w.log + [(r, Proposal)],
           feed := w.feed[b := record], source := w.source[b := r])
  {
    var r, seen := |w.db.rows|, w.feed.Keys;
    var out := [DoPropose(p), DoBegin(r, Proposal, true, seen), DoPost(r, Proposal)];
    var back := [Creates(r, b, record), DoAnswer(r, Proposal, true, Some(b)), DoPublish(r, b)];
    AfterBoth(w, out + back, [DoHandOver(r)]);
    AfterBoth(w, out, back);
    AfterThree(w, out[0], out[1], out[2]);
    AfterThree(After(w, out), back[0], back[1], back[2]);
    AfterOne(After(After(w, out), back), DoHandOver(r));
    SendsOut(w, p);
    ComesBack(w, p, b, record);
  }

  /** The whole way of one reservation. */
  function Undisturbed(r: nat, p: Payload, b: BenchId, record: Precommit, seen: set<BenchId>): seq<Event> {
    Proposing(r, p, b, record, seen) + (Uploading(r, Results, seen + {b}) + Uploading(r, Proofs, seen + {b}))
  }

  lemma UploadsRun(w: World, r: nat)
    requires r < |w.db.rows| && Working(w.db.rows[r]) && w.db.rows[r].results == w.db.rows[r].proofs == Absent
    requires (r, Results) !in w.tokens && (r, Proofs) !in w.tokens
    ensures After(w, Uploading(r, Results, w.feed.Keys) + Uploading(r, Proofs, w.feed.Keys)) ==
      w.(db := w.db.(rows := w.db.rows[r := w.db.rows[r].(results := Accepted, proofs := Accepted)]),
         log := w.log + [(r, Results), (r, Proofs)])
  {
    AfterBoth(w, Uploading(r, Results, w.feed.Keys), Uploading(r, Proofs, w.feed.Keys));
    UploadRuns(w, r, Results);
    var v := After(w, Uploading(r, Results, w.feed.Keys));
    UploadRuns(v, r, Proofs);
    assert w.log + [(r, Results)] + [(r, Proofs)] == w.log + [(r, Results), (r, Proofs)];
    assert v.db.rows[r := v.db.rows[r].Put(Proofs, Accepted)] == w.db.rows[r := w.db.rows[r].(results := Accepted, proofs := Accepted)];
  }

  /** What becomes of a world by it: one row that is done, one receipt, three posts and one record. */
  function Done(w: World, p: Payload, b: BenchId, record: Precommit): World {
    var r, x := |w.db.rows|, Delivered(p, b, w.feed.Keys).(results := Accepted, proofs := Accepted);
    w.(db := Db(w.db.rows + [x], w.db.receipts[r := b]), log := w.log + [(r, Proposal), (r, Results), (r, Proofs)],
       feed := w.feed[b := record], source := w.source[b := r])
  }

  lemma DoneAtLast(w: World, v: World, p: Payload, b: BenchId, record: Precommit)
    requires var r, x := |w.db.rows|, Delivered(p, b, w.feed.Keys);
      v == w.(db := Db(w.db.rows + [x], w.db.receipts[r := b]), log := w.log + [(r, Proposal)],
              feed := w.feed[b := record], source := w.source[b := r])
    ensures var r, x := |w.db.rows|, Delivered(p, b, w.feed.Keys);
      v.(db := v.db.(rows := v.db.rows[r := v.db.rows[r].(results := Accepted, proofs := Accepted)]),
         log := v.log + [(r, Results), (r, Proofs)]) == Done(w, p, b, record)
  {
    var r, x := |w.db.rows|, Delivered(p, b, w.feed.Keys);
    assert v.db.rows[r := x.(results := Accepted, proofs := Accepted)] == w.db.rows + [x.(results := Accepted, proofs := Accepted)];
    assert v.log + [(r, Results), (r, Proofs)] == w.log + [(r, Proposal), (r, Results), (r, Proofs)];
  }

  lemma WorkRuns(w: World, p: Payload, b: BenchId, record: Precommit)
    requires Inv(w) && |w.db.rows| !in w.dropped && b !in w.feed && Matches(p, record) && Distinct(w.db, p)
    ensures After(w, Undisturbed(|w.db.rows|, p, b, record, w.feed.Keys)) == Done(w, p, b, record)
  {
    var r, seen := |w.db.rows|, w.feed.Keys;
    var first, rest := Proposing(r, p, b, record, seen), Uploading(r, Results, seen + {b}) + Uploading(r, Proofs, seen + {b});
    AfterBoth(w, first, rest);
    ProposalRuns(w, p, b, record);
    var v := After(w, first);
    assert v.feed.Keys == seen + {b} && v.db.rows[r] == Delivered(p, b, seen);
    assert (r, Results) !in w.tokens && (r, Proofs) !in w.tokens;
    UploadsRun(v, r);
    DoneAtLast(w, v, p, b, record);
  }

  /** At any point of any run, a proposal that nothing unresolved resembles and that nobody disturbs goes through: it, its
      results and its proofs are each posted once, in this order, and accepted; its benchmark is received and published;
      and nothing else changes. */
  lemma UndisturbedWork(es: seq<Event>, p: Payload, b: BenchId, record: Precommit)
    requires var w := Run(FRESH, es);
      |w.db.rows| !in w.dropped && b !in w.feed && Matches(p, record) && Distinct(w.db, p)
    ensures var w := Run(FRESH, es);
      Run(FRESH, es + Undisturbed(|w.db.rows|, p, b, record, w.feed.Keys)) == Done(w, p, b, record)
  {
    var w := Run(FRESH, es);
    RunKeeps(es);
    RunAfter(es, Undisturbed(|w.db.rows|, p, b, record, w.feed.Keys));
    WorkRuns(w, p, b, record);
  }

  /** A match looks at every field the proposal fixed: it holds of exactly one record per offered track. */
  lemma MatchIsExact(p: Payload, r: Precommit)
    ensures Matches(p, r) <==>
      (exists t :: t in p.tracks && r == Precommit(p.settings.(track := Some(t)), p.compute, p.tracks[t]))
  {
    if Matches(p, r) {
      var t := r.settings.track.value;
      assert r == Precommit(p.settings.(track := Some(t)), p.compute, p.tracks[t]);
    }
  }

  // ------------------------------------------------------------------ the store

  /** The outbox and receipt tables.  A method that raises in the original returns false and changes
      nothing. */
  class SubmissionStore {
    var rows: seq<Row>
    var receipts: map<nat, BenchId>

    constructor ()
      ensures Contents() == FRESH.db
    {
      rows, receipts := [], map[];
    }

    function Contents(): Db
      reads this
    {
      Db(rows, receipts)
    }

    method Propose(p: Payload) returns (r: nat)
      modifies `rows
      ensures Contents() == Proposed(old(Contents()), p) && r == |old(rows)|
      ensures |rows| == r + 1 && rows[..r] == old(rows) && rows[r].proposal == Ready && rows[r].work == Reserved
      ensures rows[r].payload.tracks == p.tracks && rows[r].payload.compute == p.compute && rows[r].payload.settings.track.None?
      ensures rows[r].results == rows[r].proofs == Absent && rows[r].benchmark.None? && !rows[r].handedOver && rows[r].key.None?
    {
      r := |rows|;
      rows := rows + [Row(p.(settings := p.settings.(track := None)), None, {}, Ready, Absent, Absent,
                          Reserved, false, None)];
    }

    /** Is an indistinguishable proposal still unresolved? */
    method Fenced(key: MatchKey) returns (found: bool)
      ensures found == KeyUnresolved(Contents(), key)
      ensures found <==> exists s :: 0 <= s < |rows| && rows[s].key == Some(key) && rows[s].proposal == Uncertain
    {
      found := exists s :: 0 <= s < |rows| && rows[s].key == Some(key) && rows[s].proposal == Uncertain;
    }

    method Begin(r: nat, k: Kind, permitted: bool, seen: set<BenchId>) returns (ok: bool)
      modifies `rows
      ensures ok == MayBegin(old(Contents()), r, k, permitted)
      ensures Contents() == if ok then Begun(old(Contents()), r, k, seen) else old(Contents())
      ensures ok <==>
        && r < |old(rows)| && old(rows)[r].At(k) == Ready
        && (k == Proposal ==> permitted && old(rows)[r].work == Reserved)
        && (k == Proposal ==> forall s :: 0 <= s < |old(rows)| && old(rows)[s].proposal == Uncertain ==>
              old(rows)[s].key != Some((old(rows)[r].payload.settings, old(rows)[r].payload.compute)))
        && (k != Proposal ==> old(rows)[r].work == Assigned && old(rows)[r].handedOver)
        && (k == Proofs ==> old(rows)[r].results == Accepted)
      ensures ok ==> |rows| == |old(rows)| && rows[r].At(k) == Uncertain && forall s :: 0 <= s < |rows| && s != r ==> rows[s] == old(rows)[s]
      ensures ok && k == Proposal ==>
        rows[r].work == Sent && rows[r].seen == seen && rows[r].key == Some((rows[r].payload.settings, rows[r].payload.compute))
    {
      if r >= |rows| || rows[r].At(k) != Ready { return false; }
      var x := rows[r];
      if k == Proposal {
        var fenced := Fenced(Key(x.payload));
        if !permitted || fenced || x.work != Reserved { return false; }
        x := x.(key := Some(Key(x.payload)), seen := seen, work := Sent);
      } else {
        if x.work != Assigned || !x.handedOver { return false; }
        if k == Proofs && x.results != Accepted { return false; }
      }
      rows := rows[r := x.Put(k, Uncertain)];
      return true;
    }

    method CancelUnsent(r: nat)
      modifies `rows
      ensures Contents() == Withdrawn(old(Contents()), r)
      ensures rows == (if r < |old(rows)| && old(rows)[r].proposal == Ready
                       then old(rows)[r := old(rows)[r].(proposal := Cancelled, work := Released)] else old(rows))
    {
      if r < |rows| && rows[r].proposal == Ready {
        rows := rows[r := rows[r].(work := Released)];
        rows := rows[r := rows[r].(proposal := Cancelled)];
      }
    }

    /** Stores the identity, once and for all. */
    method SaveReceipt(r: nat, b: BenchId) returns (ok: bool)
      requires r < |rows|
      modifies `receipts
      ensures ok == !Contradicts(old(Contents()), r, b)
      ensures receipts == if ok then old(receipts)[r := b] else old(receipts)
      ensures ok <==> if r in old(receipts) then old(receipts)[r] == b
                      else forall s :: 0 <= s < |rows| && s != r ==> rows[s].benchmark != Some(b)
    {
      if r in receipts {
        assert receipts[r] == b ==> receipts == receipts[r := b];
        return receipts[r] == b;
      }
      if exists s :: 0 <= s < |rows| && s != r && rows[s].benchmark == Some(b) { return false; }
      receipts := receipts[r := b];
      return true;
    }

    method RecordResponse(r: nat, k: Kind, success: bool, named: Option<BenchId>)
      modifies this
      ensures Contents() == Answered(old(Contents()), r, k, success, named)
      ensures !success ==> Contents() == old(Contents())
      ensures k != Proposal ==>
        && receipts == old(receipts)
        && rows == if success && r < |old(rows)| && old(rows)[r].At(k) == Uncertain
                   then old(rows)[r := old(rows)[r].Put(k, Accepted)] else old(rows)
      ensures k == Proposal && Contents() != old(Contents()) ==>
        && r < |old(rows)| && old(rows)[r].proposal in {Uncertain, Accepted} && named.Some?
        && receipts == old(receipts)[r := named.value] && rows == old(rows)[r := old(rows)[r].(proposal := Accepted)]
      ensures k == Proposal && success && named.Some? && r < |old(rows)| && old(rows)[r].proposal == Uncertain
              && r !in old(receipts) && (forall s :: 0 <= s < |old(rows)| ==> old(rows)[s].benchmark != Some(named.value)) ==>
        rows[r].proposal == Accepted && r in receipts && receipts[r] == named.value
    {
      if r >= |rows| || !(rows[r].At(k).Uncertain? || rows[r].At(k).Accepted?) || !success { return; }
      if k == Proposal {
        if named.None? { return; }
        var ok := SaveReceipt(r, named.value);
        if !ok { return; }
      }
      if rows[r].At(k) == Uncertain {
        rows := rows[r := rows[r].Put(k, Accepted)];
      } else {
        assert rows == rows[r := rows[r].Put(k, Accepted)];
      }
    }

    method Recover(r: nat, records: seq<(BenchId, Precommit)>) returns (b: Option<BenchId>)
      modifies this
      ensures Contents() == Recovered(old(Contents()), r, records)
      ensures b.Some? ==> r in receipts && receipts[r] == b.value
      ensures b.None? ==> Contents() == old(Contents())
      ensures b.Some? ==>
        && r < |old(rows)| && old(rows)[r].proposal == Uncertain && b.value !in old(rows)[r].seen
        && rows == old(rows)[r := old(rows)[r].(proposal := Accepted)] && receipts == old(receipts)[r := b.value]
        && (forall s :: s in old(receipts) ==> old(receipts)[s] != b.value)
        && (forall s :: 0 <= s < |rows| ==> rows[s].benchmark != Some(b.value))
        && exists i :: 0 <= i < |records| && records[i].0 == b.value && Matches(old(rows)[r].payload, records[i].1)
    {
      if r >= |rows| || rows[r].proposal != Uncertain { return None; }
      var candidates: set<BenchId>, i := {}, 0;
      while i < |records|
        invariant 0 <= i <= |records|
        invariant Contents() == old(Contents())
        invariant candidates == Candidates(Contents(), r, records[..i])
      {
        if Qualifies(Contents(), r, records[i].0, records[i].1) {
          candidates := candidates + {records[i].0};
        }
        i := i + 1;
        assert forall j :: 0 <= j < i ==> records[..i][j] == records[j];
        assert forall j :: 0 <= j < i - 1 ==> records[..i - 1][j] == records[j];
        ExtendCandidates(Contents(), r, records, i - 1);
      }
      assert records[..i] == records;
      assert forall x :: x in candidates ==> exists j :: 0 <= j < |records| && records[j].0 == x && Matches(rows[r].payload, records[j].1);
      if |candidates| != 1 { return None; }
      var one := TheOne(candidates);
      var ok := SaveReceipt(r, one);
      if !ok { return None; }
      rows := rows[r := rows[r].(proposal := Accepted)];
      return Some(one);
    }

    method Reject(r: nat)
      modifies `rows
      ensures Contents() == Refused(old(Contents()), r)
      ensures rows == (if r < |old(rows)| && old(rows)[r].proposal == Uncertain && r !in receipts
                       then old(rows)[r := old(rows)[r].(proposal := Rejected, work := Released)] else old(rows))
    {
      if r >= |rows| || rows[r].proposal != Uncertain || r in receipts { return; }
      rows := rows[r := rows[r].(work := Released)];
      rows := rows[r := rows[r].(proposal := Rejected)];
    }

    method Publish(r: nat, b: BenchId)
      modifies `rows
      ensures Contents() == Published(old(Contents()), r, b)
      ensures rows == (if r < |old(rows)| && old(rows)[r].work == Sent && r in receipts && receipts[r] == b
                       then old(rows)[r := old(rows)[r].(work := Assigned, benchmark := Some(b))] else old(rows))
    {
      if r >= |rows| || rows[r].work != Sent || r !in receipts || receipts[r] != b { return; }
      rows := rows[r := rows[r].(work := Assigned, benchmark := Some(b))];
    }

    /** A confirmed owned payload resolves an uncertain upload, as a good response would. */
    method ConfirmPayload(r: nat, k: Kind)
      requires k != Proposal
      modifies `rows
      ensures Contents() == Answered(old(Contents()), r, k, true, None)
      ensures rows == (if r < |old(rows)| && old(rows)[r].At(k) == Uncertain
                       then old(rows)[r := old(rows)[r].Put(k, Accepted)] else old(rows))
    {
      if r < |rows| && rows[r].At(k) == Uncertain {
        rows := rows[r := rows[r].Put(k, Accepted)];
      } else if r < |rows| && rows[r].At(k) == Accepted {
        assert rows == rows[r := rows[r].Put(k, Accepted)];
      }
    }

    method RetireUnsent(r: nat, k: Kind) returns (ok: bool)
      modifies `rows
      ensures Contents() == Retired(old(Contents()), r, k)
      ensures ok <==> r < |old(rows)| && k != Proposal && old(rows)[r].At(k) == Ready && old(rows)[r].work == Ended
      ensures rows == if ok then old(rows)[r := old(rows)[r].Put(k, Cancelled)] else old(rows)
    {
      if r >= |rows| || k == Proposal || rows[r].At(k) != Ready || rows[r].work != Ended { return false; }
      rows := rows[r := rows[r].Put(k, Cancelled)];
      return true;
    }
  }

  lemma ExtendCandidates(d: Db, r: nat, records: seq<(BenchId, Precommit)>, i: nat)
    requires r < |d.rows| && i < |records|
    ensures Candidates(d, r, records[..i + 1]) == Candidates(d, r, records[..i])
      + if Qualifies(d, r, records[i].0, records[i].1) then {records[i].0} else {}
  {
    var all, before := records[..i + 1], records[..i];
    assert all == before + [records[i]];
    forall b | b in Candidates(d, r, before) ensures b in Candidates(d, r, all) {
      var j :| 0 <= j < |before| && Qualifies(d, r, before[j].0, before[j].1) && before[j].0 == b;
      assert all[j] == before[j];
    }
    assert all[i] == records[i];
  }
}
