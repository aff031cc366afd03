/** The durable block archive: captures, hash-linked blocks, conflicts, the contiguous cursor, and the
    incremental index of each chunk's last use that lets expired evidence be removed.

    Every operation is one transaction under the observation-stream lock. */
module BlockArchive {
  import opened Basics

  type Digest = nat
  type BlockId = nat

  /** The accounting digest of a block hashes its identity, its height and its content. */
  datatype Semantic = Semantic(id: BlockId, height: nat, body: nat)

  datatype Block = Block(id: BlockId, previous: BlockId, semantic: Semantic, attempt: nat)

  datatype Attempt = Attempt(height: Option<nat>, refs: set<Digest>, expired: bool)

  /** A conflicting-block alert: a second capture of the block, or a broken link to a neighbour. */
  datatype Alert = Alert(height: nat, id: BlockId, neighbour: bool, resolved: bool)

  /** A capture that passed validation; `refs` are the chunks its manifest needs. */
  datatype Capture = Capture(height: nat, id: BlockId, previous: BlockId, semantic: Semantic,
                             accepted: set<Semantic>, refs: set<Digest>)
  {
    ghost predicate Sound() {
      semantic in accepted && forall x :: x in accepted ==> x.id == id && x.height == height
    }
  }

  /** What one `BlockStore` object remembers of the newest block it recorded. */
  type Cache = Option<(BlockId, set<Digest>)>

  datatype Archive = Archive(launch: nat, contiguous: int, latestSeen: int, blocks: map<nat, Block>,
                             attempts: seq<Attempt>, alerts: seq<Alert>,
                             chunks: set<Digest>, lastRef: map<Digest, nat>)

  function Max(a: int, b: int): int { if a < b then b else a }

  // ------------------------------------------------------------------ reading the tables

  predicate Conflicted(alerts: seq<Alert>, h: int) {
    exists i :: 0 <= i < |alerts| && alerts[i].height == h && !alerts[i].resolved
  }

  /** What a stored block still depends on; an expired manifest depends on nothing. */
  function Refs(a: Archive, h: nat): set<Digest> {
    if h in a.blocks && a.blocks[h].attempt < |a.attempts| && !a.attempts[a.blocks[h].attempt].expired
    then a.attempts[a.blocks[h].attempt].refs else {}
  }

  /** The greatest stored height below h. */
  function Below(blocks: map<nat, Block>, h: nat): (r: Option<nat>)
    ensures r.Some? ==> r.value in blocks && r.value < h
    ensures forall k :: k in blocks && k < h ==> r.Some? && k <= r.value
  {
    if h == 0 then None else if h - 1 in blocks then Some(h - 1) else Below(blocks, h - 1)
  }

  predicate Newer(blocks: map<nat, Block>, h: nat) {
    exists k :: k in blocks && k > h
  }

  // ------------------------------------------------------------------ the cursor

  /** Pull the cursor below the lowest unresolved conflict at or after the launch height. */
  function Lowered(alerts: seq<Alert>, launch: nat, contiguous: int): int
    decreases |alerts|
  {
    if alerts == [] then contiguous
    else
      var rest := Lowered(alerts[..|alerts| - 1], launch, contiguous);
      var x := alerts[|alerts| - 1];
      if !x.resolved && launch <= x.height <= rest then x.height - 1 else rest
  }

  predicate Extends(a: Archive, c: int) {
    && c + 1 in a.blocks && !Conflicted(a.alerts, c + 1)
    && (c in a.blocks ==> a.blocks[c + 1].previous == a.blocks[c].id)
  }

  function Above(blocks: map<nat, Block>, c: int): set<nat> {
    set h | h in blocks && h > c
  }

  /** Walk upward from c over linked, conflict-free blocks. */
  function Advanced(a: Archive, c: int): int
    decreases |Above(a.blocks, c)|
  {
    if Extends(a, c) then
      assert Above(a.blocks, c + 1) < Above(a.blocks, c) by { assert c + 1 in Above(a.blocks, c); }
      SubsetSize(Above(a.blocks, c + 1), Above(a.blocks, c));
      Advanced(a, c + 1)
    else c
  }

  lemma SubsetSize<T>(x: set<T>, y: set<T>)
    requires x < y
    ensures |x| < |y|
  {
    assert |y - x| == |y| - |x|;
    var e :| e in y - x;
  }

  // ------------------------------------------------------------------ recording

  /** A stored row with this height or identity whose identity or accounting digest is not this one's. */
  predicate Clash(a: Archive, c: Capture) {
    exists h :: h in a.blocks && (h == c.height || a.blocks[h].id == c.id)
                && (a.blocks[h].id != c.id || a.blocks[h].semantic !in c.accepted)
  }

  predicate BreaksLower(a: Archive, c: Capture) {
    c.height - 1 in a.blocks && a.blocks[c.height - 1].id != c.previous
  }

  predicate BreaksUpper(a: Archive, c: Capture) {
    c.height + 1 in a.blocks && a.blocks[c.height + 1].previous != c.id
  }

  function Raised(a: Archive, c: Capture): seq<Alert> {
    (if Clash(a, c) then [Alert(c.height, c.id, false, false)] else [])
    + (if BreaksLower(a, c) then [Alert(c.height, c.id, true, false)] else [])
    + (if BreaksUpper(a, c) then [Alert(c.height, c.id, true, false)] else [])
  }

  /** The capture attempt is always kept, and a conflict pulls the cursor back. */
  function Filed(a: Archive, height: Option<nat>, refs: set<Digest>, alerts: seq<Alert>): Archive {
    a.(chunks := a.chunks + refs, attempts := a.attempts + [Attempt(height, refs, false)],
       latestSeen := if height.Some? then Max(a.latestSeen, height.value) else a.latestSeen,
       alerts := alerts, contiguous := Lowered(alerts, a.launch, a.contiguous))
  }

  function Stored(a: Archive, c: Capture, attempt: nat): map<nat, Block> {
    if c.height in a.blocks then a.blocks
    else a.blocks[c.height := Block(c.id, c.previous, c.semantic, attempt)]
  }

  /** Insert rows at h, keeping the greater height of an existing row. */
  function Raise(m: map<Digest, nat>, digests: set<Digest>, h: nat): map<Digest, nat> {
    map d | d in m.Keys + digests :: if d in m && (d !in digests || m[d] > h) then m[d] else h
  }

  /** Keep the last-use rows up to date for a block just recorded at h. */
  function Tracked(a: Archive, h: nat, refs: set<Digest>, cache: Cache): map<Digest, nat> {
    if Newer(a.blocks, h) then Raise(a.lastRef, refs * a.lastRef.Keys, h)
    else match Below(a.blocks, h)
      case None => a.lastRef
      case Some(p) =>
        var before := if cache.Some? && cache.value.0 == a.blocks[p].id then cache.value.1 else Refs(a, p);
        Raise(a.lastRef, before - refs, p) - refs
  }

  function Top(a: Archive): nat {
    match Below(a.blocks, Max(a.latestSeen + 1, 0))
    case Some(h) => h
    case None => 0
  }

  /** The block row goes in unless it is already there, and the cursor moves on. */
  function Moved(a: Archive, c: Capture): Archive {
    var filed := Filed(a, Some(c.height), c.refs, a.alerts + Raised(a, c));
    var stored := filed.(blocks := Stored(a, c, |a.attempts|));
    stored.(contiguous := Advanced(stored, stored.contiguous))
  }

  function Recorded(a: Archive, c: Capture, cache: Cache): Archive {
    var filed := Filed(a, Some(c.height), c.refs, a.alerts + Raised(a, c));
    if Raised(a, c) != [] then filed
    else
      var moved := Moved(a, c);
      var actual := Refs(moved, c.height);
      moved.(lastRef := Raise(Tracked(moved, c.height, actual, cache), c.refs - actual, Top(moved)))
  }

  /** A failed capture: its evidence is stored, nothing else changes. */
  function Failed(a: Archive, height: Option<nat>, refs: set<Digest>): Archive {
    Filed(a, height, refs, a.alerts)
  }

  /** Only a second capture of the stored block itself can be explained away. */
  predicate Resolvable(a: Archive, i: nat) {
    i < |a.alerts| && !a.alerts[i].resolved && !a.alerts[i].neighbour
    && a.alerts[i].height in a.blocks && a.blocks[a.alerts[i].height].id == a.alerts[i].id
  }

  function Resolved(a: Archive, i: nat): Archive {
    if !Resolvable(a, i) then a
    else
      var cleared := a.(alerts := a.alerts[i := a.alerts[i].(resolved := true)]);
      cleared.(contiguous := Advanced(cleared, cleared.contiguous))
  }

  // ------------------------------------------------------------------ retention

  function Blanked(attempts: seq<Attempt>, ids: set<nat>): seq<Attempt> {
    seq(|attempts|, i requires 0 <= i < |attempts| =>
      if i in ids then attempts[i].(expired := true) else attempts[i])
  }

  function Expired(a: Archive, ids: set<nat>): Archive {
    a.(attempts := Blanked(a.attempts, ids))
  }

  /** Chunks of unexpired attempts at or under the floor. */
  function Protected(a: Archive, floor: int): set<Digest> {
    set i, d | 0 <= i < |a.attempts| && !a.attempts[i].expired && a.attempts[i].height.Some?
               && a.attempts[i].height.value <= floor && d in a.attempts[i].refs :: d
  }

  function Removable(a: Archive, floor: int): set<Digest> {
    set d | d in a.lastRef && a.lastRef[d] <= floor && d !in Protected(a, floor)
  }

  /** One deletion batch takes any part of what may go. */
  function Swept(a: Archive, floor: int, batch: set<Digest>): Archive {
    var gone := batch * Removable(a, floor);
    a.(chunks := a.chunks - gone, lastRef := a.lastRef - gone)
  }

  /** One-time start of the index. */
  function Indexed(a: Archive): Archive {
    if a.blocks == map[] || a.lastRef != map[] then a
    else a.(lastRef := map d | d in a.chunks && d !in Refs(a, Top(a)) :: Top(a))
  }

  // ------------------------------------------------------------------ runs

  datatype Event =
    | Captured(c: Capture, cache: Cache)
    | FailedCapture(height: Option<nat>, refs: set<Digest>)
    | Resolve(alert: nat)
    | Expire(ids: set<nat>)
    | Sweep(floor: int, batch: set<Digest>)
    | Index

  function Step(a: Archive, e: Event): Archive {
    match e
    case Captured(c, cache) => Recorded(a, c, cache)
    case FailedCapture(h, refs) => Failed(a, h, refs)
    case Resolve(i) => Resolved(a, i)
    case Expire(ids) => Expired(a, ids)
    case Sweep(floor, batch) => Swept(a, floor, batch)
    case Index => Indexed(a)
  }

  function Run(a: Archive, es: seq<Event>): Archive
    decreases |es|
  {
    if es == [] then a else Step(Run(a, es[..|es| - 1]), es[|es| - 1])
  }

  ghost predicate SoundEvents(es: seq<Event>) {
    forall i :: 0 <= i < |es| && es[i].Captured? ==> es[i].c.Sound()
  }

  function Opened(launch: nat): Archive {
    Archive(launch, launch - 1, launch - 1, map[], [], [], {}, map[])
  }

  // ------------------------------------------------------------------ invariants

  ghost predicate Linked(blocks: map<nat, Block>) {
    && (forall h, k :: h in blocks && k in blocks && blocks[h].id == blocks[k].id ==> h == k)
    && (forall h, k :: h in blocks && k in blocks && k == h + 1 ==> blocks[k].previous == blocks[h].id)
  }

  ghost predicate Filing(a: Archive) {
    forall h :: h in a.blocks ==>
      && h <= a.latestSeen
      && a.blocks[h].semantic.height == h && a.blocks[h].semantic.id == a.blocks[h].id
      && a.blocks[h].attempt < |a.attempts| && a.attempts[a.blocks[h].attempt].height == Some(h)
  }

  /** Every height from launch to c is stored and free of unresolved conflicts. */
  ghost predicate Solid(a: Archive, c: int) {
    && a.launch - 1 <= c
    && forall h :: a.launch <= h <= c ==> h in a.blocks && !Conflicted(a.alerts, h)
  }

  ghost predicate CursorExact(a: Archive) {
    Solid(a, a.contiguous) && !(a.contiguous + 1 in a.blocks && !Conflicted(a.alerts, a.contiguous + 1))
  }

  /** A last-use row is never below a stored block that still needs the chunk. */
  ghost predicate UpperBound(a: Archive) {
    forall d, h :: d in a.lastRef && h in a.blocks && d in Refs(a, h) ==> h <= a.lastRef[d]
  }

  ghost predicate StartsEmpty(a: Archive) {
    a.blocks == map[] ==> a.lastRef == map[]
  }

  ghost predicate Kept(a: Archive) {
    forall h :: h in a.blocks ==> Refs(a, h) <= a.chunks
  }

  ghost predicate Inv(a: Archive) {
    Linked(a.blocks) && Filing(a) && CursorExact(a) && UpperBound(a) && StartsEmpty(a) && Kept(a)
  }

  // ------------------------------------------------------------------ cursor lemmas

  lemma {:induction false} LoweredMeaning(alerts: seq<Alert>, launch: nat, c: int)
    requires launch - 1 <= c
    ensures var r := Lowered(alerts, launch, c);
      && launch - 1 <= r <= c
      && (forall h :: launch <= h <= r ==> !Conflicted(alerts, h))
      && (r < c ==> Conflicted(alerts, r + 1))
    decreases |alerts|
  {
    if alerts != [] {
      var front := alerts[..|alerts| - 1];
      LoweredMeaning(front, launch, c);
      var rest, r := Lowered(front, launch, c), Lowered(alerts, launch, c);
      forall h | launch <= h <= r ensures !Conflicted(alerts, h) {
        if Conflicted(alerts, h) {
          var i :| 0 <= i < |alerts| && alerts[i].height == h && !alerts[i].resolved;
          if i < |front| { assert front[i] == alerts[i]; assert Conflicted(front, h); }
        }
      }
      if r < c {
        if r < rest { assert alerts[|alerts| - 1].height == r + 1; }
        else { var i :| 0 <= i < |front| && front[i].height == r + 1 && !front[i].resolved;
               assert alerts[i] == front[i]; }
      }
    }
  }

  lemma {:induction false} AdvancedMeaning(a: Archive, c: int)
    requires Linked(a.blocks) && Solid(a, c)
    ensures var r := Advanced(a, c); c <= r && CursorExact(a.(contiguous := r))
    decreases |Above(a.blocks, c)|
  {
    if Extends(a, c) {
      assert c + 1 in Above(a.blocks, c);
      SubsetSize(Above(a.blocks, c + 1), Above(a.blocks, c));
      AdvancedMeaning(a, c + 1);
    }
  }

  // ------------------------------------------------------------------ every operation keeps the invariant

  lemma ConflictsGrow(alerts: seq<Alert>, more: seq<Alert>, h: int)
    requires Conflicted(alerts, h)
    ensures Conflicted(alerts + more, h)
  {
    var i :| 0 <= i < |alerts| && alerts[i].height == h && !alerts[i].resolved;
    assert (alerts + more)[i] == alerts[i];
  }

  /** Filing an attempt leaves blocks and what they refer to as they were. */
  lemma FiledShape(a: Archive, height: Option<nat>, refs: set<Digest>, alerts: seq<Alert>)
    requires Inv(a)
    ensures var b := Filed(a, height, refs, alerts);
      Linked(b.blocks) && Filing(b) && UpperBound(b) && StartsEmpty(b) && Kept(b)
  {
    var b := Filed(a, height, refs, alerts);
    forall h | h in a.blocks ensures Refs(b, h) == Refs(a, h) {
    }
  }

  /** The cursor stays, or falls to just below a conflict. */
  lemma FiledCursor(a: Archive, height: Option<nat>, refs: set<Digest>, alerts: seq<Alert>)
    requires Solid(a, a.contiguous)
    ensures var b := Filed(a, height, refs, alerts);
      Solid(b, b.contiguous) && (b.contiguous == a.contiguous || Conflicted(alerts, b.contiguous + 1))
  {
    LoweredMeaning(alerts, a.launch, a.contiguous);
  }

  lemma MoreAlertsCursor(a: Archive, height: Option<nat>, refs: set<Digest>, more: seq<Alert>)
    requires CursorExact(a)
    ensures CursorExact(Filed(a, height, refs, a.alerts + more))
  {
    FiledCursor(a, height, refs, a.alerts + more);
    if Conflicted(a.alerts, a.contiguous + 1) { ConflictsGrow(a.alerts, more, a.contiguous + 1); }
  }

  lemma FailedKeeps(a: Archive, height: Option<nat>, refs: set<Digest>)
    requires Inv(a)
    ensures Inv(Failed(a, height, refs))
  {
    FiledShape(a, height, refs, a.alerts);
    FiledCursor(a, height, refs, a.alerts);
  }

  /** A conflicting capture keeps everything and leaves the cursor just below the first conflict. */
  lemma ClashKeeps(a: Archive, c: Capture)
    requires Inv(a) && Raised(a, c) != []
    ensures Inv(Filed(a, Some(c.height), c.refs, a.alerts + Raised(a, c)))
  {
    FiledShape(a, Some(c.height), c.refs, a.alerts + Raised(a, c));
    MoreAlertsCursor(a, Some(c.height), c.refs, Raised(a, c));
  }

  /** What it means that a capture raises nothing. */
  lemma QuietCapture(a: Archive, c: Capture)
    requires Filing(a) && c.Sound() && Raised(a, c) == []
    ensures !BreaksLower(a, c) && !BreaksUpper(a, c)
    ensures c.height in a.blocks ==> a.blocks[c.height].id == c.id
    ensures forall h :: h in a.blocks && a.blocks[h].id == c.id ==> h == c.height
  {
    assert !Clash(a, c);
    forall h | h in a.blocks && a.blocks[h].id == c.id ensures h == c.height {
      assert a.blocks[h].semantic in c.accepted;
    }
  }

  lemma NewLinks(blocks: map<nat, Block>, h: nat, x: Block)
    requires Linked(blocks) && h !in blocks && forall k :: k in blocks ==> blocks[k].id != x.id
    requires h - 1 in blocks ==> x.previous == blocks[h - 1].id
    requires h + 1 in blocks ==> blocks[h + 1].previous == x.id
    ensures Linked(blocks[h := x])
  {
  }

  lemma StoredLinks(a: Archive, c: Capture, n: nat)
    requires Inv(a) && c.Sound() && Raised(a, c) == []
    ensures var blocks := Stored(a, c, n);
      Linked(blocks) && c.height in blocks && blocks[c.height].id == c.id && a.blocks.Keys <= blocks.Keys
  {
    QuietCapture(a, c);
    if c.height !in a.blocks {
      NewLinks(a.blocks, c.height, Block(c.id, c.previous, c.semantic, n));
    }
  }

  /** The index rows written for a block recorded at h stay an upper bound, whatever the cache holds. */
  lemma TrackedBounds(a: Archive, h: nat, cache: Cache)
    requires forall d, k :: d in a.lastRef && k in a.blocks && k != h && d in Refs(a, k) ==> k <= a.lastRef[d]
    requires a.blocks.Keys == {h} ==> UpperBound(a)
    requires h in a.blocks
    ensures UpperBound(a.(lastRef := Tracked(a, h, Refs(a, h), cache)))
  {
    var refs := Refs(a, h);
    var b := a.(lastRef := Tracked(a, h, refs, cache));
    assert forall k :: Refs(b, k) == Refs(a, k);
    if !Newer(a.blocks, h) && Below(a.blocks, h).None? {
      forall k | k in a.blocks ensures k == h { if k < h { assert false; } }
      assert a.blocks.Keys == {h};
    }
  }

  lemma RaiseBounds(a: Archive, digests: set<Digest>, top: nat)
    requires UpperBound(a) && forall k :: k in a.blocks ==> k <= top
    ensures UpperBound(a.(lastRef := Raise(a.lastRef, digests, top)))
  {
    var b := a.(lastRef := Raise(a.lastRef, digests, top));
    assert forall k :: Refs(b, k) == Refs(a, k);
  }

  lemma MovedShape(a: Archive, c: Capture)
    requires Inv(a) && c.Sound() && Raised(a, c) == []
    ensures var m := Moved(a, c);
      && m.blocks == Stored(a, c, |a.attempts|) && m.attempts == a.attempts + [Attempt(Some(c.height), c.refs, false)]
      && m.chunks == a.chunks + c.refs && m.lastRef == a.lastRef && m.latestSeen == Max(a.latestSeen, c.height)
      && m.launch == a.launch && Linked(m.blocks) && CursorExact(m)
  {
    assert a.alerts + Raised(a, c) == a.alerts;
    var filed := Filed(a, Some(c.height), c.refs, a.alerts);
    LoweredMeaning(a.alerts, a.launch, a.contiguous);
    StoredLinks(a, c, |a.attempts|);
    var stored := filed.(blocks := Stored(a, c, |a.attempts|));
    assert Solid(stored, stored.contiguous);
    AdvancedMeaning(stored, stored.contiguous);
  }

  /** The new row: every other block's references are as they were. */
  lemma MovedFrame(a: Archive, c: Capture, m: Archive)
    requires Filing(a) && c.Sound()
    requires m.blocks == Stored(a, c, |a.attempts|)
    requires m.attempts == a.attempts + [Attempt(Some(c.height), c.refs, false)]
    requires m.latestSeen == Max(a.latestSeen, c.height)
    ensures Filing(m) && c.height in m.blocks
    ensures forall k :: k in a.blocks ==> Refs(m, k) == Refs(a, k)
    ensures c.height !in a.blocks ==> Refs(m, c.height) == c.refs
  {
  }

  lemma MovedRows(a: Archive, m: Archive, h: nat, refs: set<Digest>)
    requires UpperBound(a) && StartsEmpty(a) && Kept(a) && m.lastRef == a.lastRef && m.chunks == a.chunks + refs
    requires m.blocks.Keys == a.blocks.Keys + {h} && (forall k :: k in a.blocks ==> Refs(m, k) == Refs(a, k))
    requires h !in a.blocks ==> Refs(m, h) == refs
    ensures Kept(m)
    ensures forall d, k :: d in m.lastRef && k in m.blocks && k != h && d in Refs(m, k) ==> k <= m.lastRef[d]
    ensures m.blocks.Keys == {h} ==> UpperBound(m)
  {
    if m.blocks.Keys == {h} && h !in a.blocks { assert a.blocks == map[]; }
  }

  /** All of the invariant except the index row of the new block itself. */
  lemma MovedKeeps(a: Archive, c: Capture, m: Archive)
    requires Inv(a) && c.Sound() && Raised(a, c) == [] && m == Moved(a, c)
    ensures Linked(m.blocks) && Filing(m) && CursorExact(m) && Kept(m) && c.height in m.blocks
    ensures forall d, k :: d in m.lastRef && k in m.blocks && k != c.height && d in Refs(m, k) ==> k <= m.lastRef[d]
    ensures m.blocks.Keys == {c.height} ==> UpperBound(m)
  {
    MovedShape(a, c);
    MovedFrame(a, c, m);
    assert m.blocks.Keys == a.blocks.Keys + {c.height};
    MovedRows(a, m, c.height, c.refs);
  }

  lemma IndexingKeeps(m: Archive, h: nat, extra: set<Digest>, cache: Cache)
    requires Filing(m) && h in m.blocks && (forall k :: k in m.blocks ==> k <= Top(m))
    requires forall d, k :: d in m.lastRef && k in m.blocks && k != h && d in Refs(m, k) ==> k <= m.lastRef[d]
    requires m.blocks.Keys == {h} ==> UpperBound(m)
    ensures UpperBound(m.(lastRef := Raise(Tracked(m, h, Refs(m, h), cache), extra, Top(m))))
  {
    TrackedBounds(m, h, cache);
    RaiseBounds(m.(lastRef := Tracked(m, h, Refs(m, h), cache)), extra, Top(m));
  }

  lemma TopIsTop(m: Archive)
    requires Filing(m)
    ensures forall k :: k in m.blocks ==> k <= Top(m)
  {
  }

  lemma Reindexed(m: Archive, b: Archive)
    requires Linked(m.blocks) && Filing(m) && CursorExact(m) && Kept(m) && m.blocks != map[]
    requires b == m.(lastRef := b.lastRef) && UpperBound(b)
    ensures Inv(b)
  {
    assert forall k :: Refs(b, k) == Refs(m, k);
  }

  lemma RecordedKeeps(a: Archive, c: Capture, cache: Cache)
    requires Inv(a) && c.Sound()
    ensures Inv(Recorded(a, c, cache)) && Recorded(a, c, cache).launch == a.launch
  {
    if Raised(a, c) != [] {
      ClashKeeps(a, c);
    } else {
      var m := Moved(a, c);
      MovedKeeps(a, c, m);
      TopIsTop(m);
      IndexingKeeps(m, c.height, c.refs - Refs(m, c.height), cache);
      Reindexed(m, Recorded(a, c, cache));
    }
  }

  lemma ResolvedKeeps(a: Archive, i: nat)
    requires Inv(a)
    ensures Inv(Resolved(a, i))
  {
    if Resolvable(a, i) {
      var b := a.(alerts := a.alerts[i := a.alerts[i].(resolved := true)]);
      forall h | Conflicted(b.alerts, h) ensures Conflicted(a.alerts, h) {
        var j :| 0 <= j < |b.alerts| && b.alerts[j].height == h && !b.alerts[j].resolved;
        assert a.alerts[j].height == h && !a.alerts[j].resolved;
      }
      AdvancedMeaning(b, b.contiguous);
      assert forall k :: Refs(Resolved(a, i), k) == Refs(a, k);
    }
  }

  lemma ExpiredRefs(a: Archive, ids: set<nat>, h: nat)
    ensures Refs(Expired(a, ids), h) <= Refs(a, h)
  {
  }

  lemma ExpiredKeeps(a: Archive, ids: set<nat>)
    requires Inv(a)
    ensures Inv(Expired(a, ids))
  {
    var b := Expired(a, ids);
    forall h ensures Refs(b, h) <= Refs(a, h) {
      ExpiredRefs(a, ids, h);
    }
  }

  /** No sweep at any floor takes a chunk that an unexpired stored block still needs. */
  lemma SweepSparesLiveBlocks(a: Archive, floor: int, h: nat)
    requires Inv(a) && h in a.blocks
    ensures Refs(a, h) !! Removable(a, floor)
  {
    forall d | d in Refs(a, h) ensures d !in Removable(a, floor) {
      var i := a.blocks[h].attempt;
      if h <= floor {
        assert 0 <= i < |a.attempts| && d in a.attempts[i].refs;
        assert d in Protected(a, floor);
      }
    }
  }

  lemma SweptKeeps(a: Archive, floor: int, batch: set<Digest>)
    requires Inv(a)
    ensures Inv(Swept(a, floor, batch))
  {
    var b := Swept(a, floor, batch);
    assert forall k :: Refs(b, k) == Refs(a, k);
    forall h | h in a.blocks ensures Refs(b, h) <= b.chunks {
      SweepSparesLiveBlocks(a, floor, h);
    }
  }

  lemma IndexedKeeps(a: Archive)
    requires Inv(a)
    ensures Inv(Indexed(a))
  {
    assert forall k :: Refs(Indexed(a), k) == Refs(a, k);
  }

  lemma StepKeeps(a: Archive, e: Event)
    requires Inv(a) && (e.Captured? ==> e.c.Sound())
    ensures Inv(Step(a, e)) && Step(a, e).launch == a.launch
  {
    match e
    case Captured(c, cache) => RecordedKeeps(a, c, cache);
    case FailedCapture(h, refs) => FailedKeeps(a, h, refs);
    case Resolve(i) => ResolvedKeeps(a, i);
    case Expire(ids) => ExpiredKeeps(a, ids);
    case Sweep(floor, batch) => SweptKeeps(a, floor, batch);
    case Index => IndexedKeeps(a);
  }

  lemma {:induction false} RunKeeps(launch: nat, es: seq<Event>)
    requires SoundEvents(es)
    ensures Inv(Run(Opened(launch), es)) && Run(Opened(launch), es).launch == launch
    decreases |es|
  {
    if es != [] {
      RunKeeps(launch, es[..|es| - 1]);
      StepKeeps(Run(Opened(launch), es[..|es| - 1]), es[|es| - 1]);
    }
  }

  /** The cursor, height by height: up to it every block is stored and every alert resolved; the next block is missing or
      has an open alert. */
  lemma CursorMeaning(a: Archive)
    requires CursorExact(a)
    ensures a.launch - 1 <= a.contiguous
    ensures forall h :: a.launch <= h <= a.contiguous ==> h in a.blocks
    ensures forall i :: 0 <= i < |a.alerts| && a.launch <= a.alerts[i].height <= a.contiguous ==> a.alerts[i].resolved
    ensures a.contiguous + 1 in a.blocks ==>
      exists i :: 0 <= i < |a.alerts| && a.alerts[i].height == a.contiguous + 1 && !a.alerts[i].resolved
  {
    forall i | 0 <= i < |a.alerts| && a.launch <= a.alerts[i].height <= a.contiguous ensures a.alerts[i].resolved {
      assert !Conflicted(a.alerts, a.alerts[i].height);
    }
  }

  /** After any sequence of captures, conflicts, resolutions, expiries and sweeps in any order, with any
      cache contents: stored neighbours are hash-linked, and the cursor is exactly the greatest height
      up to which every block is stored and undisputed. */
  lemma CursorTheorem(launch: nat, es: seq<Event>)
    requires SoundEvents(es)
    ensures var a := Run(Opened(launch), es);
      && (forall h, k :: h in a.blocks && k in a.blocks && k == h + 1 ==> a.blocks[k].previous == a.blocks[h].id)
      && Solid(a, a.contiguous)
      && (forall c :: Solid(a, c) ==> c <= a.contiguous)
  {
    RunKeeps(launch, es);
    var a := Run(Opened(launch), es);
  }

  /** Over the same runs every last-use row bounds each live block that references the chunk, every chunk
      of an unexpired block is stored, and no sweep at any floor can take one. */
  lemma RetentionTheorem(launch: nat, es: seq<Event>, floor: int)
    requires SoundEvents(es)
    ensures var a := Run(Opened(launch), es);
      && (forall d, h :: d in a.lastRef && h in a.blocks && d in Refs(a, h) ==> h <= a.lastRef[d])
      && (forall h :: h in a.blocks ==> Refs(a, h) <= a.chunks && Refs(a, h) !! Removable(a, floor))
  {
    RunKeeps(launch, es);
    var a := Run(Opened(launch), es);
    forall h | h in a.blocks ensures Refs(a, h) !! Removable(a, floor) {
      SweepSparesLiveBlocks(a, floor, h);
    }
  }

  // ------------------------------------------------------------------ rows and the newest block

  lemma TopIsStored(a: Archive)
    requires Filing(a) && a.blocks != map[]
    ensures Top(a) in a.blocks && forall k :: k in a.blocks ==> k <= Top(a)
  {
    TopIsTop(a);
    var k :| k in a.blocks;
    assert k < Max(a.latestSeen + 1, 0);
  }

  /** No row names a chunk that the newest block refers to. */
  ghost predicate RowsApart(a: Archive) {
    a.lastRef.Keys !! Refs(a, Top(a))
  }

  lemma TopUnchanged(a: Archive, b: Archive)
    requires Filing(a) && Filing(b) && b.blocks == a.blocks && a.blocks != map[]
    ensures Top(b) == Top(a)
  {
    TopIsStored(a);
    TopIsStored(b);
  }

  /** The row of an older block, recovered or captured again, leaves the newest block where it is. */
  lemma OlderKeepsTop(a: Archive, m: Archive, h: nat)
    requires Filing(a) && Filing(m) && m.blocks.Keys == a.blocks.Keys + {h} && Newer(m.blocks, h)
    ensures a.blocks != map[] && Top(m) == Top(a) != h && Top(a) in a.blocks
  {
    var k :| k in m.blocks && k > h;
    TopIsStored(m);
    TopIsStored(a);
  }

  lemma NewestIsTop(m: Archive, h: nat)
    requires Filing(m) && h in m.blocks && !Newer(m.blocks, h)
    ensures Top(m) == h
  {
    TopIsStored(m);
  }

  lemma SameRefs(a: Archive, b: Archive)
    requires b.blocks == a.blocks && b.attempts == a.attempts
    ensures forall k :: Refs(b, k) == Refs(a, k)
  {
  }

  /** Tracking an older block adds no row; tracking the newest clears the rows of its chunks. */
  lemma TrackedKeys(m: Archive, h: nat, refs: set<Digest>, cache: Cache)
    ensures Newer(m.blocks, h) ==> Tracked(m, h, refs, cache).Keys == m.lastRef.Keys
    ensures !Newer(m.blocks, h) && Below(m.blocks, h).Some? ==> Tracked(m, h, refs, cache).Keys !! refs
    ensures !Newer(m.blocks, h) && Below(m.blocks, h).None? ==> Tracked(m, h, refs, cache) == m.lastRef
  {
  }

  /** Whether the recorded block is the newest decides what the newest block refers to. */
  lemma MovedNewest(a: Archive, c: Capture, m: Archive)
    requires Inv(a) && c.Sound() && Raised(a, c) == [] && m == Moved(a, c)
    ensures Filing(m) && m.lastRef == a.lastRef && m.blocks.Keys == a.blocks.Keys + {c.height}
    ensures Newer(m.blocks, c.height) ==> Refs(m, Top(m)) == Refs(a, Top(a))
    ensures !Newer(m.blocks, c.height) ==> Top(m) == c.height
    ensures c.height in a.blocks ==> Refs(m, c.height) == Refs(a, c.height)
  {
    MovedShape(a, c);
    MovedFrame(a, c, m);
    assert m.blocks.Keys == a.blocks.Keys + {c.height};
    if Newer(m.blocks, c.height) { OlderKeepsTop(a, m, c.height); } else { NewestIsTop(m, c.height); }
  }

  /** A block recorded with no other below it. */
  lemma FirstApart(a: Archive, c: Capture, m: Archive)
    requires Inv(a) && RowsApart(a) && Filing(m) && m.lastRef == a.lastRef && m.blocks.Keys == a.blocks.Keys + {c.height}
    requires !Newer(m.blocks, c.height) && Below(m.blocks, c.height).None? && Top(m) == c.height
    requires c.height in a.blocks ==> Refs(m, c.height) == Refs(a, c.height)
    ensures m.lastRef.Keys !! Refs(m, Top(m))
  {
    forall k | k in a.blocks ensures k == c.height {
      assert k in m.blocks;
      if k < c.height { assert false; }
    }
    if c.height in a.blocks { TopIsStored(a); } else { assert a.blocks == map[]; }
  }

  /** Tracking alone keeps rows and the newest block apart. */
  lemma TrackedApart(a: Archive, c: Capture, m: Archive, cache: Cache)
    requires Inv(a) && c.Sound() && Raised(a, c) == [] && m == Moved(a, c) && RowsApart(a)
    ensures Tracked(m, c.height, Refs(m, c.height), cache).Keys !! Refs(m, Top(m))
  {
    MovedNewest(a, c, m);
    TrackedKeys(m, c.height, Refs(m, c.height), cache);
    if !Newer(m.blocks, c.height) && Below(m.blocks, c.height).None? { FirstApart(a, c, m); }
  }

  /** Which recordings give the newest block's chunks a row: those whose capture needs chunks that the stored block does
      not have and the newest block does. */
  predicate Spills(a: Archive, c: Capture) {
    Raised(a, c) == [] && var m := Moved(a, c); !((c.refs - Refs(m, c.height)) !! Refs(m, Top(m)))
  }

  lemma RaiseKeys(t: map<Digest, nat>, extra: set<Digest>, h: nat, refs: set<Digest>)
    requires t.Keys !! refs
    ensures Raise(t, extra, h).Keys !! refs <==> extra !! refs
  {
    assert Raise(t, extra, h).Keys == t.Keys + extra;
  }

  lemma RecordedQuietly(a: Archive, c: Capture, cache: Cache)
    requires Inv(a) && c.Sound() && RowsApart(a) && Raised(a, c) == []
    ensures RowsApart(Recorded(a, c, cache)) <==> !Spills(a, c)
  {
    var m := Moved(a, c);
    var rows := Raise(Tracked(m, c.height, Refs(m, c.height), cache), c.refs - Refs(m, c.height), Top(m));
    MovedNewest(a, c, m);
    TrackedApart(a, c, m, cache);
    RaiseKeys(Tracked(m, c.height, Refs(m, c.height), cache), c.refs - Refs(m, c.height), Top(m), Refs(m, Top(m)));
    var b := m.(lastRef := rows);
    assert b == Recorded(a, c, cache);
    SameRefs(m, b);
    TopUnchanged(m, b);
  }

  /** Recording keeps rows and the newest block apart if and only if it does not spill. */
  lemma RecordedApart(a: Archive, c: Capture, cache: Cache)
    requires Inv(a) && c.Sound() && RowsApart(a)
    ensures RowsApart(Recorded(a, c, cache)) <==> !Spills(a, c)
  {
    if Raised(a, c) == [] {
      RecordedQuietly(a, c, cache);
    } else {
      FiledApart(a, Some(c.height), c.refs, a.alerts + Raised(a, c));
    }
  }

  lemma FiledApart(a: Archive, height: Option<nat>, refs: set<Digest>, alerts: seq<Alert>)
    requires Filing(a) && StartsEmpty(a) && RowsApart(a)
    ensures RowsApart(Filed(a, height, refs, alerts))
  {
    var b := Filed(a, height, refs, alerts);
    if a.blocks != map[] {
      TopUnchanged(a, b);
      TopIsStored(a);
      assert Refs(b, Top(a)) == Refs(a, Top(a));
    }
  }

  lemma ExpiredApart(a: Archive, ids: set<nat>)
    requires Inv(a) && RowsApart(a)
    ensures RowsApart(Expired(a, ids))
  {
    var b := Expired(a, ids);
    ExpiredKeeps(a, ids);
    if a.blocks != map[] {
      TopUnchanged(a, b);
      ExpiredRefs(a, ids, Top(a));
    }
  }

  /** The documented rule, that rows exist only for chunks the newest block no longer references, survives a step if and
      only if the step is not a recording that spills. */
  lemma StepApart(a: Archive, e: Event)
    requires Inv(a) && (e.Captured? ==> e.c.Sound()) && RowsApart(a)
    ensures RowsApart(Step(a, e)) <==> !(e.Captured? && Spills(a, e.c))
  {
    match e
    case Captured(c, cache) => RecordedApart(a, c, cache);
    case FailedCapture(h, refs) => FiledApart(a, h, refs, a.alerts);
    case Resolve(i) => SameRefs(a, Resolved(a, i));
    case Expire(ids) => ExpiredApart(a, ids);
    case Sweep(floor, batch) => SameRefs(a, Swept(a, floor, batch));
    case Index => SameRefs(a, Indexed(a));
  }

  function Sample(height: nat, refs: set<Digest>): (c: Capture)
    requires height > 0
    ensures c.Sound() && c.height == height && c.refs == refs
  {
    Capture(height, height, height - 1, Semantic(height, height, 0), {Semantic(height, height, 0)}, refs)
  }

  ghost predicate Sampled(a: Archive) {
    Inv(a) && SampleRows(a.blocks)
  }

  ghost predicate SampleRows(blocks: map<nat, Block>) {
    forall k :: k in blocks ==> k > 0 && blocks[k].id == k && blocks[k].previous == k - 1 && blocks[k].semantic == Semantic(k, k, 0)
  }

  lemma SampleRowAdded(a: Archive, h: nat, refs: set<Digest>)
    requires SampleRows(a.blocks) && h > 0
    ensures SampleRows(Stored(a, Sample(h, refs), |a.attempts|))
    ensures Stored(a, Sample(h, refs), |a.attempts|).Keys == a.blocks.Keys + {h}
  {
  }

  lemma SampleQuiet(a: Archive, h: nat, refs: set<Digest>)
    requires Sampled(a) && h > 0
    ensures Raised(a, Sample(h, refs)) == []
  {
    var c := Sample(h, refs);
    assert !Clash(a, c) && !BreaksLower(a, c) && !BreaksUpper(a, c);
  }

  /** What a recording that raises nothing leaves. */
  lemma RecordedShape(a: Archive, c: Capture, b: Archive)
    requires Inv(a) && c.Sound() && Raised(a, c) == [] && b == Recorded(a, c, None)
    ensures b.blocks == Stored(a, c, |a.attempts|)
    ensures forall k :: k in a.blocks ==> Refs(b, k) == Refs(a, k)
    ensures c.height !in a.blocks ==> Refs(b, c.height) == c.refs
    ensures c.refs - Refs(b, c.height) <= b.lastRef.Keys
  {
    MovedShape(a, c);
    MovedFrame(a, c, Moved(a, c));
    SameRefs(Moved(a, c), b);
  }

  lemma SampleStored(a: Archive, h: nat, refs: set<Digest>, b: Archive)
    requires Sampled(a) && h > 0 && b == Recorded(a, Sample(h, refs), None)
    ensures Sampled(b) && b.blocks.Keys == a.blocks.Keys + {h}
    ensures forall k :: k in a.blocks ==> Refs(b, k) == Refs(a, k)
    ensures h !in a.blocks ==> Refs(b, h) == refs
    ensures refs - Refs(b, h) <= b.lastRef.Keys
  {
    SampleQuiet(a, h, refs);
    SampleRowAdded(a, h, refs);
    RecordedKeeps(a, Sample(h, refs), None);
    RecordedShape(a, Sample(h, refs), b);
  }

  lemma RunMore(a: Archive, es: seq<Event>, e: Event)
    ensures Run(a, es + [e]) == Step(Run(a, es), e)
  {
    assert (es + [e])[..|es|] == es;
  }

  lemma SampleRun(h: nat, es: seq<Event>, k: nat, refs: set<Digest>)
    requires k > 0 && Sampled(Run(Opened(h), es))
    ensures var a, b := Run(Opened(h), es), Run(Opened(h), es + [Captured(Sample(k, refs), None)]);
      && Sampled(b) && b.blocks.Keys == a.blocks.Keys + {k} && (forall j :: j in a.blocks ==> Refs(b, j) == Refs(a, j))
      && (k !in a.blocks ==> Refs(b, k) == refs) && refs - Refs(b, k) <= b.lastRef.Keys
  {
    RunMore(Opened(h), es, Captured(Sample(k, refs), None));
    SampleStored(Run(Opened(h), es), k, refs, Run(Opened(h), es + [Captured(Sample(k, refs), None)]));
  }

  lemma TopOfTwo(a: Archive, h: nat)
    requires Filing(a) && a.blocks.Keys == {h, h + 1}
    ensures Top(a) == h + 1
  {
    TopIsStored(a);
  }

  lemma OneSample(h: nat, p: set<Digest>)
    requires h > 0
    ensures var a := Run(Opened(h), [] + [Captured(Sample(h, p), None)]);
      Sampled(a) && a.blocks.Keys == {h} && Refs(a, h) == p
  {
    RunKeeps(h, []);
    SampleRun(h, [], h, p);
  }

  lemma OneMore(a: Archive, b: Archive, h: nat, q: set<Digest>)
    requires a.blocks.Keys == {h} && b.blocks.Keys == a.blocks.Keys + {h + 1}
    requires (forall j :: j in a.blocks ==> Refs(b, j) == Refs(a, j)) && (h + 1 !in a.blocks ==> Refs(b, h + 1) == q)
    ensures b.blocks.Keys == {h, h + 1} && Refs(b, h) == Refs(a, h) && Refs(b, h + 1) == q
  {
    assert h in a.blocks && h + 1 !in a.blocks;
  }

  lemma NextSampled(h: nat, es: seq<Event>, p: set<Digest>, q: set<Digest>)
    requires h > 0 && Sampled(Run(Opened(h), es)) && Run(Opened(h), es).blocks.Keys == {h} && Refs(Run(Opened(h), es), h) == p
    ensures var a := Run(Opened(h), es + [Captured(Sample(h + 1, q), None)]);
      Sampled(a) && a.blocks.Keys == {h, h + 1} && Refs(a, h) == p && Refs(a, h + 1) == q
  {
    SampleRun(h, es, h + 1, q);
    OneMore(Run(Opened(h), es), Run(Opened(h), es + [Captured(Sample(h + 1, q), None)]), h, q);
  }

  lemma TwoSamples(h: nat, p: set<Digest>, q: set<Digest>)
    requires h > 0
    ensures var a := Run(Opened(h), [] + [Captured(Sample(h, p), None)] + [Captured(Sample(h + 1, q), None)]);
      Sampled(a) && a.blocks.Keys == {h, h + 1} && Refs(a, h) == p && Refs(a, h + 1) == q
  {
    OneSample(h, p);
    NextSampled(h, [] + [Captured(Sample(h, p), None)], p, q);
  }

  lemma AgainSampled(h: nat, es: seq<Event>, p: set<Digest>, d: Digest)
    requires h > 0 && d !in p && Sampled(Run(Opened(h), es)) && Run(Opened(h), es).blocks.Keys == {h, h + 1}
    requires Refs(Run(Opened(h), es), h) == p && d in Refs(Run(Opened(h), es), h + 1)
    ensures var a := Run(Opened(h), es + [Captured(Sample(h, p + {d}), None)]);
      Top(a) == h + 1 && d in a.lastRef && d in Refs(a, h + 1)
  {
    SampleRun(h, es, h, p + {d});
    TopOfTwo(Run(Opened(h), es + [Captured(Sample(h, p + {d}), None)]), h);
  }

  /** Such a recording: a block is captured again with a chunk that only the newest block after it has. */
  lemma DocumentedRowsFail(h: nat, p: set<Digest>, q: set<Digest>, d: Digest)
    requires h > 0 && d in q && d !in p
    ensures var es := [] + [Captured(Sample(h, p), None)] + [Captured(Sample(h + 1, q), None)];
      var a := Run(Opened(h), es + [Captured(Sample(h, p + {d}), None)]);
      Top(a) == h + 1 && d in a.lastRef && d in Refs(a, h + 1)
  {
    TwoSamples(h, p, q);
    AgainSampled(h, [] + [Captured(Sample(h, p), None)] + [Captured(Sample(h + 1, q), None)], p, d);
  }

  // ------------------------------------------------------------------ the store object

  const SWEEP_LIMIT := 5000

  /** Removing part of what may go leaves the rest of it to go, and nothing more. */
  lemma SweptRest(a: Archive, floor: int, batch: set<Digest>)
    ensures Removable(Swept(a, floor, batch), floor) == Removable(a, floor) - batch
  {
    assert Protected(Swept(a, floor, batch), floor) == Protected(a, floor);
  }

  /** What recording leaves in the block, attempt, alert and chunk tables. */
  lemma RecordedTables(a: Archive, c: Capture, cache: Cache)
    ensures var b := Recorded(a, c, cache);
      && b.chunks == a.chunks + c.refs && b.attempts == a.attempts + [Attempt(Some(c.height), c.refs, false)]
      && b.blocks == (if Raised(a, c) == [] && c.height !in a.blocks
                      then a.blocks[c.height := Block(c.id, c.previous, c.semantic, |a.attempts|)] else a.blocks)
      && b.alerts == a.alerts + Raised(a, c) && (Raised(a, c) != [] ==> b.lastRef == a.lastRef)
  {
  }

  class BlockStore {
    var launch: nat
    var contiguous: int
    var latestSeen: int
    var blocks: map<nat, Block>
    var attempts: seq<Attempt>
    var alerts: seq<Alert>
    var chunks: set<Digest>
    var lastRef: map<Digest, nat>
    var latest: Cache

    function Contents(): Archive
      reads this
    {
      Archive(launch, contiguous, latestSeen, blocks, attempts, alerts, chunks, lastRef)
    }

    constructor (start: nat)
      ensures Contents() == Opened(start) && latest == None
    {
      launch, contiguous, latestSeen := start, start - 1, start - 1;
      blocks, attempts, alerts, chunks, lastRef, latest := map[], [], [], {}, map[], None;
    }

    /** Compare the capture with the stored rows at its height, under its identity, and beside it. */
    method Inspect(c: Capture) returns (raised: seq<Alert>)
      ensures raised == Raised(Contents(), c)
      ensures raised == [] <==>
        && (forall h :: h in blocks && (h == c.height || blocks[h].id == c.id) ==>
              blocks[h].id == c.id && blocks[h].semantic in c.accepted)
        && (c.height - 1 in blocks ==> blocks[c.height - 1].id == c.previous)
        && (c.height + 1 in blocks ==> blocks[c.height + 1].previous == c.id)
    {
      raised := [];
      if Clash(Contents(), c) {
        raised := [Alert(c.height, c.id, false, false)];
      }
      if c.height - 1 in blocks && blocks[c.height - 1].id != c.previous {
        raised := raised + [Alert(c.height, c.id, true, false)];
      }
      if c.height + 1 in blocks && blocks[c.height + 1].previous != c.id {
        raised := raised + [Alert(c.height, c.id, true, false)];
      }
    }

    method FileAttempt(height: Option<nat>, refs: set<Digest>, raised: seq<Alert>)
      modifies this
      ensures Contents() == Filed(old(Contents()), height, refs, old(alerts) + raised) && latest == old(latest)
      ensures chunks == old(chunks) + refs && attempts == old(attempts) + [Attempt(height, refs, false)]
      ensures alerts == old(alerts) + raised && blocks == old(blocks) && lastRef == old(lastRef) && launch == old(launch)
      ensures latestSeen == if height.Some? && height.value > old(latestSeen) then height.value else old(latestSeen)
    {
      chunks := chunks + refs;
      attempts := attempts + [Attempt(height, refs, false)];
      alerts := alerts + raised;
      if height.Some? && height.value > latestSeen {
        latestSeen := height.value;
      }
      PullBack();
    }

    method Record(c: Capture) returns (complete: bool)
      modifies this
      ensures Contents() == Recorded(old(Contents()), c, old(latest))
      ensures complete <==> Raised(old(Contents()), c) == []
      ensures complete <==>
        && (forall h :: h in old(blocks) && (h == c.height || old(blocks)[h].id == c.id) ==>
              old(blocks)[h].id == c.id && old(blocks)[h].semantic in c.accepted)
        && (c.height - 1 in old(blocks) ==> old(blocks)[c.height - 1].id == c.previous)
        && (c.height + 1 in old(blocks) ==> old(blocks)[c.height + 1].previous == c.id)
      ensures chunks == old(chunks) + c.refs && attempts == old(attempts) + [Attempt(Some(c.height), c.refs, false)]
      ensures blocks == if complete && c.height !in old(blocks)
                        then old(blocks)[c.height := Block(c.id, c.previous, c.semantic, |old(attempts)|)] else old(blocks)
      ensures complete ==> alerts == old(alerts)
      ensures !complete ==> lastRef == old(lastRef) && |alerts| > |old(alerts)|
      ensures latest == if complete && !Newer(blocks, c.height)
                        then Some((c.id, Refs(Contents(), c.height))) else old(latest)
    {
      var raised := Inspect(c);
      complete := raised == [];
      FileAttempt(Some(c.height), c.refs, raised);
      RecordedTables(old(Contents()), c, old(latest));
      if complete {
        if c.height !in blocks {
          blocks := blocks[c.height := Block(c.id, c.previous, c.semantic, |attempts| - 1)];
        }
        Advance();
        ghost var moved := Contents();
        assert moved == Moved(old(Contents()), c);
        var actual := Refs(Contents(), c.height);
        Track(c.height, c.id, actual);
        assert Top(Contents()) == Top(moved);
        lastRef := Raise(lastRef, c.refs - actual, Top(Contents()));
      }
    }

    method RecordFailure(height: Option<nat>, refs: set<Digest>)
      modifies this
      ensures Contents() == Failed(old(Contents()), height, refs) && latest == old(latest)
      ensures chunks == old(chunks) + refs && attempts == old(attempts) + [Attempt(height, refs, false)]
      ensures blocks == old(blocks) && alerts == old(alerts) && lastRef == old(lastRef)
    {
      FileAttempt(height, refs, []);
      assert old(alerts) + [] == old(alerts);
    }

    /** Drop the cursor to just below the lowest unresolved conflict it has passed. */
    method PullBack()
      modifies this`contiguous
      ensures contiguous == Lowered(alerts, launch, old(contiguous))
    {
      var i := 0;
      while i < |alerts|
        invariant 0 <= i <= |alerts|
        invariant contiguous == Lowered(alerts[..i], launch, old(contiguous))
      {
        assert alerts[..i + 1][..i] == alerts[..i];
        if !alerts[i].resolved && launch <= alerts[i].height <= contiguous {
          contiguous := alerts[i].height - 1;
        }
        i := i + 1;
      }
      assert alerts[..i] == alerts;
    }

    method Advance()
      modifies this`contiguous
      ensures contiguous == Advanced(old(Contents()), old(contiguous))
    {
      var c := contiguous;
      while Extends(Contents(), c)
        invariant Contents() == old(Contents())
        invariant Advanced(Contents(), c) == Advanced(old(Contents()), old(contiguous))
        decreases |Above(blocks, c)|
      {
        assert c + 1 in Above(blocks, c);
        SubsetSize(Above(blocks, c + 1), Above(blocks, c));
        c := c + 1;
      }
      contiguous := c;
    }

    method Track(h: nat, id: BlockId, refs: set<Digest>)
      modifies this`lastRef, this`latest
      ensures lastRef == Tracked(old(Contents()), h, refs, old(latest))
      ensures latest == if Newer(blocks, h) then old(latest) else Some((id, refs))
    {
      if Newer(blocks, h) {
        lastRef := Raise(lastRef, refs * lastRef.Keys, h);
        return;
      }
      var previous := Below(blocks, h);
      if previous.Some? {
        var before := Refs(Contents(), previous.value);
        if latest.Some? && latest.value.0 == blocks[previous.value].id {
          before := latest.value.1;
        }
        lastRef := Raise(lastRef, before - refs, previous.value) - refs;
      }
      latest := Some((id, refs));
    }

    method ResolveConflict(i: nat)
      modifies this
      ensures Contents() == Resolved(old(Contents()), i) && latest == old(latest)
      ensures alerts == (
        if i < |old(alerts)| && !old(alerts)[i].neighbour && old(alerts)[i].height in old(blocks)
           && old(blocks)[old(alerts)[i].height].id == old(alerts)[i].id
        then old(alerts)[i := old(alerts)[i].(resolved := true)] else old(alerts))
      ensures blocks == old(blocks) && attempts == old(attempts) && lastRef == old(lastRef) && chunks == old(chunks)
    {
      if Resolvable(Contents(), i) {
        alerts := alerts[i := alerts[i].(resolved := true)];
        Advance();
      }
    }

    method TakeBatch(due: set<Digest>) returns (batch: set<Digest>)
      ensures batch <= due && (due != {} ==> batch != {})
    {
      batch := {};
      var rest := due;
      while rest != {} && |batch| < SWEEP_LIMIT
        invariant batch + rest == due && (batch == {} ==> rest == due)
        decreases rest
      {
        var d :| d in rest;
        batch, rest := batch + {d}, rest - {d};
      }
    }

    /** Repeat bounded deletion batches until nothing under the floor may go any more. */
    method RemoveChunks(floor: int) returns (removed: set<Digest>)
      modifies this`chunks, this`lastRef
      ensures removed == Removable(old(Contents()), floor)
      ensures forall d :: d in removed <==>
        && d in old(lastRef) && old(lastRef)[d] <= floor
        && forall i :: 0 <= i < |attempts| && d in attempts[i].refs && attempts[i].height.Some? && attempts[i].height.value <= floor
             ==> attempts[i].expired
      ensures chunks == old(chunks) - removed && lastRef == old(lastRef) - removed
    {
      ghost var target := Removable(Contents(), floor);
      removed := {};
      var due := Removable(Contents(), floor);
      while due != {}
        invariant removed <= target && due == target - removed
        invariant chunks == old(chunks) - removed && lastRef == old(lastRef) - removed
        invariant due == Removable(Contents(), floor)
        decreases due
      {
        var batch := TakeBatch(due);
        SweptRest(Contents(), floor, batch);
        assert batch * due == batch;
        ghost var after := Swept(Contents(), floor, batch);
        chunks, lastRef := chunks - batch, lastRef - batch;
        assert Contents() == after;
        removed, due := removed + batch, Removable(Contents(), floor);
      }
    }
  }
}
