/** Which chunks the archive's last-use index reaches: when a chunk gets its row, how long it keeps it, and that a chunk
    no block needs any more does go. */
module ArchiveIndex {
  import opened Basics
  import opened BlockArchive

  /** Block k needed the chunk when it was stored, whether its evidence has expired or not. */
  predicate Used(a: Archive, k: nat, d: Digest) {
    k in a.blocks && a.blocks[k].attempt < |a.attempts| && d in a.attempts[a.blocks[k].attempt].refs
  }

  /** What a store remembers of the newest block it recorded is no less than the block still refers to, and no more than
      it ever did. */
  ghost predicate Honest(a: Archive, cache: Cache) {
    cache.Some? ==> forall k :: k in a.blocks && a.blocks[k].id == cache.value.0 ==>
      Refs(a, k) <= cache.value.1 && forall d :: d in cache.value.1 ==> Used(a, k, d)
  }

  predicate Newest(a: Archive, p: nat) {
    p in a.blocks && forall k :: k in a.blocks ==> k <= p
  }

  // ------------------------------------------------------------------ the rows one recording writes

  lemma BelowNewest(blocks: map<nat, Block>, h: nat, p: nat)
    requires p in blocks && p < h && forall k :: k in blocks && k < h ==> k <= p
    ensures Below(blocks, h) == Some(p)
  {
  }

  function Before(a: Archive, cache: Cache, p: nat): set<Digest>
    requires p in a.blocks
  {
    if cache.Some? && cache.value.0 == a.blocks[p].id then cache.value.1 else Refs(a, p)
  }

  lemma HonestBefore(a: Archive, cache: Cache, p: nat)
    requires Honest(a, cache) && Filing(a) && p in a.blocks
    ensures Refs(a, p) <= Before(a, cache, p) && forall d :: d in Before(a, cache, p) ==> Used(a, p, d)
  {
  }

  /** The rows of a new newest block, spelled out. */
  lemma NewestRow(m: map<Digest, nat>, before: set<Digest>, refs: set<Digest>, p: nat, d: Digest)
    ensures var n := Raise(m, before - refs, p) - refs;
      && (d in n <==> d !in refs && (d in m || d in before))
      && (d in n ==> n[d] == if d in m && (d !in before || m[d] > p) then m[d] else p)
  {
  }

  lemma MovedAbove(a: Archive, c: Capture, m: Archive, p: nat)
    requires Inv(a) && c.Sound() && Raised(a, c) == [] && Newest(a, p) && p < c.height && m == Moved(a, c)
    ensures m.lastRef == a.lastRef && m.blocks.Keys == a.blocks.Keys + {c.height} && m.blocks[p] == a.blocks[p]
    ensures Refs(m, c.height) == c.refs && Refs(m, p) == Refs(a, p)
  {
    MovedShape(a, c);
    MovedFrame(a, c, m);
  }

  lemma TrackedAbove(m: Archive, h: nat, refs: set<Digest>, cache: Cache, p: nat)
    requires p in m.blocks && p < h && forall k :: k in m.blocks ==> k <= p || k == h
    ensures Tracked(m, h, refs, cache) == Raise(m.lastRef, Before(m, cache, p) - refs, p) - refs
  {
    BelowNewest(m.blocks, h, p);
    assert !Newer(m.blocks, h);
  }

  lemma RaiseNothing(t: map<Digest, nat>, h: nat)
    ensures Raise(t, {}, h) == t
  {
  }

  lemma NewestRecorded(a: Archive, c: Capture, cache: Cache, p: nat)
    requires Inv(a) && c.Sound() && Raised(a, c) == [] && Newest(a, p) && p < c.height
    ensures Recorded(a, c, cache).lastRef == Raise(a.lastRef, Before(a, cache, p) - c.refs, p) - c.refs
  {
    var m := Moved(a, c);
    MovedAbove(a, c, m, p);
    TrackedAbove(m, c.height, c.refs, cache, p);
    RaiseNothing(Tracked(m, c.height, c.refs, cache), Top(m));
    assert c.refs - Refs(m, c.height) == {};
  }

  /** A block that becomes the newest: chunks of the block that was newest and not of this one get a row at its height, or
      keep a higher one; chunks of this block have none; other rows stay, and no others are written. */
  lemma NewestRows(a: Archive, c: Capture, cache: Cache, p: nat, d: Digest)
    requires Inv(a) && c.Sound() && Raised(a, c) == [] && Newest(a, p) && p < c.height && Honest(a, cache)
    ensures var m, n := a.lastRef, Recorded(a, c, cache).lastRef;
      && (d in Refs(a, p) && d !in c.refs ==> d in n && n[d] == if d in m && m[d] > p then m[d] else p)
      && (d in c.refs ==> d !in n)
      && (d !in c.refs && d in m ==> d in n && m[d] <= n[d])
      && (d in n ==> (d in m && n[d] == m[d]) || (n[d] == p && Used(a, p, d)))
  {
    NewestRecorded(a, c, cache, p);
    HonestBefore(a, cache, p);
    NewestRow(a.lastRef, Before(a, cache, p), c.refs, p, d);
  }

  /** A new block below the newest: rows of its chunks rise to its height, and none are written or lost. */
  lemma OlderRows(a: Archive, c: Capture, cache: Cache, p: nat, d: Digest)
    requires Inv(a) && c.Sound() && Raised(a, c) == [] && c.height !in a.blocks && p in a.blocks && c.height < p
    ensures var m, n := a.lastRef, Recorded(a, c, cache).lastRef;
      && (d in n <==> d in m)
      && (d in m ==> n[d] == if d in c.refs && m[d] < c.height then c.height else m[d])
  {
    var m := Moved(a, c);
    MovedShape(a, c);
    MovedFrame(a, c, m);
    assert Newer(m.blocks, c.height);
  }

  /** A block captured again: chunks that its stored evidence lacks get a row at the newest height. */
  lemma AgainRows(a: Archive, c: Capture, cache: Cache, p: nat, d: Digest)
    requires Inv(a) && c.Sound() && Raised(a, c) == [] && c.height in a.blocks && Newest(a, p) && d in c.refs && d !in Refs(a, c.height)
    ensures d in Recorded(a, c, cache).lastRef && Recorded(a, c, cache).lastRef[d] >= p
  {
    var m := Moved(a, c);
    MovedShape(a, c);
    MovedFrame(a, c, m);
    TopIsStored(m);
  }

  // ------------------------------------------------------------------ which chunks have a row

  /** Every chunk of a stored, unexpired block that the newest block does not use has a row. */
  ghost predicate Tracks(a: Archive) {
    forall k, d :: k in a.blocks && d in Refs(a, k) && d !in Refs(a, Top(a)) ==> d in a.lastRef
  }

  /** A new block below the newest, with a chunk that neither has a row nor is used by the newest. */
  predicate Late(a: Archive, c: Capture) {
    && Raised(a, c) == [] && c.height !in a.blocks && Newer(a.blocks, c.height)
    && !(c.refs <= a.lastRef.Keys + Refs(a, Top(a)))
  }

  /** The evidence of the newest block expires while an older block still needs one of its chunks, which has no row. */
  ghost predicate Strands(a: Archive, ids: set<nat>) {
    && Top(a) in a.blocks && a.blocks[Top(a)].attempt in ids
    && exists k, d :: k in a.blocks && d in Refs(Expired(a, ids), k) && d in Refs(a, Top(a)) && d !in a.lastRef
  }

  /** b has the blocks of a, unchanged, and one at h; a new one refers to refs. */
  ghost predicate Adds(a: Archive, b: Archive, h: nat, refs: set<Digest>) {
    && Filing(b) && b.blocks.Keys == a.blocks.Keys + {h}
    && (forall k :: k in a.blocks ==> b.blocks[k] == a.blocks[k])
    && (forall k :: k in a.blocks ==> Refs(b, k) == Refs(a, k))
    && (h !in a.blocks ==> Refs(b, h) == refs)
  }

  lemma FrameAdds(a: Archive, c: Capture, m: Archive)
    requires Filing(a) && c.Sound() && m.blocks == Stored(a, c, |a.attempts|) && m.latestSeen == Max(a.latestSeen, c.height)
    requires m.attempts == a.attempts + [Attempt(Some(c.height), c.refs, false)]
    ensures Adds(a, m, c.height, c.refs)
  {
    MovedFrame(a, c, m);
  }

  lemma MovedAdds(a: Archive, c: Capture, m: Archive)
    requires Inv(a) && c.Sound() && Raised(a, c) == [] && m == Moved(a, c)
    ensures Adds(a, m, c.height, c.refs) && m.lastRef == a.lastRef
  {
    MovedShape(a, c);
    FrameAdds(a, c, m);
  }

  lemma SameAdds(a: Archive, m: Archive, b: Archive, h: nat, refs: set<Digest>)
    requires Adds(a, m, h, refs) && b == m.(lastRef := b.lastRef)
    ensures Adds(a, b, h, refs)
  {
    SameRefs(m, b);
  }

  lemma RecordedQuiet(a: Archive, c: Capture, cache: Cache, m: Archive)
    requires Raised(a, c) == [] && m == Moved(a, c)
    ensures Recorded(a, c, cache) == m.(lastRef := Raise(Tracked(m, c.height, Refs(m, c.height), cache), c.refs - Refs(m, c.height), Top(m)))
  {
  }

  lemma RecordedRefs(a: Archive, c: Capture, cache: Cache)
    requires Inv(a) && c.Sound() && Raised(a, c) == []
    ensures Adds(a, Recorded(a, c, cache), c.height, c.refs)
  {
    MovedAdds(a, c, Moved(a, c));
    SameAdds(a, Moved(a, c), Recorded(a, c, cache), c.height, c.refs);
  }

  /** Only the chunks of a newest block lose their rows when it is tracked. */
  lemma TrackedKeeps(m: Archive, h: nat, refs: set<Digest>, cache: Cache, d: Digest)
    requires d in m.lastRef && (d !in refs || Newer(m.blocks, h))
    ensures d in Tracked(m, h, refs, cache)
  {
  }

  lemma AgainKeeps(a: Archive, c: Capture, cache: Cache, d: Digest)
    requires Inv(a) && c.Sound() && Raised(a, c) == [] && c.height in a.blocks
    requires d in a.lastRef && d !in Refs(a, Top(a))
    ensures d in Recorded(a, c, cache).lastRef
  {
    var m := Moved(a, c);
    MovedShape(a, c);
    MovedFrame(a, c, m);
    TopIsStored(a);
    TrackedKeeps(m, c.height, Refs(m, c.height), cache, d);
  }

  lemma TracksAgain(a: Archive, c: Capture, cache: Cache)
    requires Inv(a) && c.Sound() && Raised(a, c) == [] && c.height in a.blocks && Tracks(a)
    ensures Tracks(Recorded(a, c, cache))
  {
    var b := Recorded(a, c, cache);
    RecordedRefs(a, c, cache);
    SameTop(a, b);
    forall k, d | k in b.blocks && d in Refs(b, k) && d !in Refs(b, Top(b)) ensures d in b.lastRef {
      AgainKeeps(a, c, cache, d);
    }
  }

  lemma SameTop(a: Archive, b: Archive)
    requires Filing(a) && Filing(b) && a.blocks != map[] && b.blocks.Keys == a.blocks.Keys
    ensures Top(b) == Top(a) && Top(a) in a.blocks
  {
    TopIsStored(a);
    TopIsStored(b);
  }

  lemma OlderTracks(a: Archive, b: Archive, h: nat, refs: set<Digest>)
    requires Filing(a) && Adds(a, b, h, refs) && h !in a.blocks && Newer(a.blocks, h) && Tracks(a)
    requires b.lastRef.Keys == a.lastRef.Keys
    ensures Tracks(b) <==> refs <= a.lastRef.Keys + Refs(a, Top(a))
  {
    assert Newer(b.blocks, h) by {
      var k :| k in a.blocks && k > h;
      assert k in b.blocks;
    }
    OlderKeepsTop(a, b, h);
    assert h in b.blocks && Refs(b, h) == refs;
  }

  lemma OlderKeys(a: Archive, c: Capture, cache: Cache)
    requires Inv(a) && c.Sound() && Raised(a, c) == [] && c.height !in a.blocks && Newer(a.blocks, c.height)
    ensures Recorded(a, c, cache).lastRef.Keys == a.lastRef.Keys
  {
    var k :| k in a.blocks && k > c.height;
    forall d ensures d in Recorded(a, c, cache).lastRef <==> d in a.lastRef { OlderRows(a, c, cache, k, d); }
  }

  lemma TracksOlder(a: Archive, c: Capture, cache: Cache)
    requires Inv(a) && c.Sound() && Raised(a, c) == [] && c.height !in a.blocks && Newer(a.blocks, c.height) && Tracks(a)
    ensures Tracks(Recorded(a, c, cache)) <==> !Late(a, c)
  {
    RecordedRefs(a, c, cache);
    OlderKeys(a, c, cache);
    OlderTracks(a, Recorded(a, c, cache), c.height, c.refs);
  }

  lemma NewestTracks(a: Archive, b: Archive, h: nat, refs: set<Digest>)
    requires Filing(a) && Adds(a, b, h, refs) && h !in a.blocks && !Newer(a.blocks, h) && Tracks(a)
    requires forall d :: d !in refs && (d in a.lastRef || (a.blocks != map[] && d in Refs(a, Top(a)))) ==> d in b.lastRef
    ensures Tracks(b)
  {
    TopIsStored(b);
    assert Top(b) == h;
    if a.blocks != map[] { TopIsStored(a); }
  }

  lemma TracksNewest(a: Archive, c: Capture, cache: Cache)
    requires Inv(a) && c.Sound() && Raised(a, c) == [] && c.height !in a.blocks && !Newer(a.blocks, c.height) && Tracks(a)
    requires Honest(a, cache)
    ensures Tracks(Recorded(a, c, cache))
  {
    var b := Recorded(a, c, cache);
    RecordedRefs(a, c, cache);
    if a.blocks != map[] {
      TopIsStored(a);
      forall d | d !in c.refs && (d in a.lastRef || d in Refs(a, Top(a))) ensures d in b.lastRef {
        NewestRows(a, c, cache, Top(a), d);
      }
    }
    NewestTracks(a, b, c.height, c.refs);
  }

  lemma TracksRecorded(a: Archive, c: Capture, cache: Cache)
    requires Inv(a) && c.Sound() && Honest(a, cache) && Tracks(a)
    ensures Tracks(Recorded(a, c, cache)) <==> !Late(a, c)
  {
    if Raised(a, c) != [] {
      TracksFiled(a, Some(c.height), c.refs, a.alerts + Raised(a, c));
    } else if c.height in a.blocks {
      TracksAgain(a, c, cache);
    } else if Newer(a.blocks, c.height) {
      TracksOlder(a, c, cache);
    } else {
      TracksNewest(a, c, cache);
    }
  }

  lemma TracksFiled(a: Archive, height: Option<nat>, refs: set<Digest>, alerts: seq<Alert>)
    requires Inv(a) && Tracks(a)
    ensures Tracks(Filed(a, height, refs, alerts))
  {
    var b := Filed(a, height, refs, alerts);
    FiledShape(a, height, refs, alerts);
    assert forall k :: k in a.blocks ==> Refs(b, k) == Refs(a, k);
    if a.blocks != map[] { SameTop(a, b); }
  }

  lemma TracksExpired(a: Archive, ids: set<nat>)
    requires Inv(a) && Tracks(a)
    ensures Tracks(Expired(a, ids)) <==> !Strands(a, ids)
  {
    var b := Expired(a, ids);
    ExpiredKeeps(a, ids);
    if a.blocks != map[] {
      SameTop(a, b);
      forall k ensures Refs(b, k) <= Refs(a, k) { ExpiredRefs(a, ids, k); }
      assert Refs(b, Top(a)) == if a.blocks[Top(a)].attempt in ids then {} else Refs(a, Top(a));
    }
  }

  lemma TracksSwept(a: Archive, floor: int, batch: set<Digest>)
    requires Inv(a) && Tracks(a)
    ensures Tracks(Swept(a, floor, batch))
  {
    var b := Swept(a, floor, batch);
    SameRefs(a, b);
    forall k | k in a.blocks ensures Refs(a, k) !! Removable(a, floor) { SweepSparesLiveBlocks(a, floor, k); }
  }

  lemma TracksIndexed(a: Archive)
    requires Inv(a) && Tracks(a)
    ensures Tracks(Indexed(a))
  {
    SameRefs(a, Indexed(a));
  }

  lemma TracksResolved(a: Archive, i: nat)
    requires Tracks(a)
    ensures Tracks(Resolved(a, i))
  {
    SameRefs(a, Resolved(a, i));
  }

  /** That every such chunk has a row survives a step if and only if the step is neither a late recording nor strands a
      chunk. */
  lemma StepTracks(a: Archive, e: Event)
    requires Inv(a) && (e.Captured? ==> e.c.Sound() && Honest(a, e.cache)) && Tracks(a)
    ensures Tracks(Step(a, e)) <==> !(e.Captured? && Late(a, e.c)) && !(e.Expire? && Strands(a, e.ids))
  {
    match e
    case Captured(c, cache) => TracksRecorded(a, c, cache);
    case FailedCapture(h, refs) => TracksFiled(a, h, refs, a.alerts);
    case Resolve(i) => TracksResolved(a, i);
    case Expire(ids) => TracksExpired(a, ids);
    case Sweep(floor, batch) => TracksSwept(a, floor, batch);
    case Index => TracksIndexed(a);
  }

  // ------------------------------------------------------------------ what the stores remember

  /** Blocks stay as they were stored; evidence is only added, or expires. */
  ghost predicate Onward(a: Archive, b: Archive) {
    && (forall k :: k in a.blocks ==> k in b.blocks && b.blocks[k] == a.blocks[k])
    && |a.attempts| <= |b.attempts|
    && (forall i :: 0 <= i < |a.attempts| ==>
          b.attempts[i].refs == a.attempts[i].refs && (a.attempts[i].expired ==> b.attempts[i].expired))
  }

  lemma OnwardChains(a: Archive, b: Archive, c: Archive)
    requires Onward(a, b) && Onward(b, c)
    ensures Onward(a, c)
  {
  }

  lemma RecordedOnward(a: Archive, c: Capture, cache: Cache)
    ensures Onward(a, Recorded(a, c, cache))
  {
  }

  lemma StepOnward(a: Archive, e: Event)
    ensures Onward(a, Step(a, e))
  {
    if e.Captured? { RecordedOnward(a, e.c, e.cache); }
  }

  lemma {:induction false} RunOnward(a: Archive, es: seq<Event>, i: nat)
    requires i <= |es|
    ensures Onward(Run(a, es[..i]), Run(a, es))
    decreases |es|
  {
    if i == |es| {
      assert es[..i] == es;
    } else {
      var front := es[..|es| - 1];
      RunOnward(a, front, i);
      assert front[..i] == es[..i];
      StepOnward(Run(a, front), es[|es| - 1]);
      OnwardChains(Run(a, es[..i]), Run(a, front), Run(a, es));
    }
  }

  /** Event j recorded a block and left v in the memory of the store that did. */
  ghost predicate LeftBy(launch: nat, es: seq<Event>, j: int, v: (BlockId, set<Digest>)) {
    && 0 <= j < |es| && es[j].Captured? && Raised(Run(Opened(launch), es[..j]), es[j].c) == []
    && v == (es[j].c.id, Refs(Run(Opened(launch), es[..j + 1]), es[j].c.height))
  }

  /** However many stores record: what one remembers, it remembers from a block it recorded. */
  ghost predicate Remembering(launch: nat, es: seq<Event>) {
    forall i :: 0 <= i < |es| && es[i].Captured? && es[i].cache.Some? ==>
      exists j :: j < i && LeftBy(launch, es, j, es[i].cache.value)
  }

  lemma StillHonest(a: Archive, b: Archive, h: nat, id: BlockId, cache: Cache)
    requires Onward(a, b) && Linked(b.blocks) && Filing(a) && h in a.blocks && a.blocks[h].id == id
    requires cache == Some((id, Refs(a, h)))
    ensures Honest(b, cache)
  {
    assert forall k :: k in b.blocks && b.blocks[k].id == id ==> k == h;
  }

  lemma RecordedThere(a: Archive, c: Capture, cache: Cache)
    requires Inv(a) && c.Sound() && Raised(a, c) == []
    ensures c.height in Recorded(a, c, cache).blocks && Recorded(a, c, cache).blocks[c.height].id == c.id
  {
    StoredLinks(a, c, |a.attempts|);
  }

  lemma RunNext(launch: nat, es: seq<Event>, j: nat)
    requires j < |es|
    ensures Run(Opened(launch), es[..j + 1]) == Step(Run(Opened(launch), es[..j]), es[j])
  {
    assert es[..j + 1][..j] == es[..j];
  }

  lemma LeftStored(launch: nat, es: seq<Event>, j: nat, v: (BlockId, set<Digest>))
    requires SoundEvents(es) && LeftBy(launch, es, j, v)
    ensures var a := Run(Opened(launch), es[..j + 1]); es[j].c.height in a.blocks && a.blocks[es[j].c.height].id == v.0
  {
    RunKeeps(launch, es[..j]);
    RunNext(launch, es, j);
    RecordedThere(Run(Opened(launch), es[..j]), es[j].c, es[j].cache);
  }

  lemma LeftHonest(launch: nat, es: seq<Event>, j: nat, i: nat, v: (BlockId, set<Digest>))
    requires SoundEvents(es) && LeftBy(launch, es, j, v) && j < i <= |es|
    ensures Honest(Run(Opened(launch), es[..i]), Some(v))
  {
    var a, b := Run(Opened(launch), es[..j + 1]), Run(Opened(launch), es[..i]);
    LeftStored(launch, es, j, v);
    RunKeeps(launch, es[..j + 1]);
    RunKeeps(launch, es[..i]);
    assert es[..i][..j + 1] == es[..j + 1];
    RunOnward(Opened(launch), es[..i], j + 1);
    StillHonest(a, b, es[j].c.height, v.0, Some(v));
  }

  lemma RememberedHonest(launch: nat, es: seq<Event>, i: nat)
    requires SoundEvents(es) && Remembering(launch, es) && i < |es| && es[i].Captured?
    ensures Honest(Run(Opened(launch), es[..i]), es[i].cache)
  {
    if es[i].cache.Some? {
      var j :| j < i && LeftBy(launch, es, j, es[i].cache.value);
      LeftHonest(launch, es, j, i, es[i].cache.value);
    }
  }

  /** No block arrives late with an untracked chunk, and none strands one. */
  ghost predicate Timely(launch: nat, es: seq<Event>) {
    forall i :: 0 <= i < |es| ==>
      var a := Run(Opened(launch), es[..i]);
      !(es[i].Captured? && Late(a, es[i].c)) && !(es[i].Expire? && Strands(a, es[i].ids))
  }

  /** In every such run, with any number of stores: every chunk of a stored, unexpired block that the newest block does not
      use has a row. */
  lemma {:induction false} RowsTheorem(launch: nat, es: seq<Event>)
    requires SoundEvents(es) && Remembering(launch, es) && Timely(launch, es)
    ensures Tracks(Run(Opened(launch), es))
    decreases |es|
  {
    if es != [] {
      var n := |es| - 1;
      var front := es[..n];
      assert forall i :: 0 <= i <= n ==> front[..i] == es[..i];
      FrontRemembers(launch, es);
      RowsTheorem(launch, front);
      RunKeeps(launch, front);
      if es[n].Captured? { RememberedHonest(launch, es, n); }
      StepTracks(Run(Opened(launch), front), es[n]);
    }
  }

  lemma FrontRemembers(launch: nat, es: seq<Event>)
    requires es != [] && Remembering(launch, es)
    ensures Remembering(launch, es[..|es| - 1])
  {
    var front := es[..|es| - 1];
    assert forall i :: 0 <= i <= |front| ==> front[..i] == es[..i];
    forall i | 0 <= i < |front| && front[i].Captured? && front[i].cache.Some?
      ensures exists j :: j < i && LeftBy(launch, front, j, front[i].cache.value)
    {
      var j :| j < i && LeftBy(launch, es, j, es[i].cache.value);
      assert LeftBy(launch, front, j, front[i].cache.value);
    }
  }

  // ------------------------------------------------------------------ a dropped chunk goes

  /** No row is above the newest block. */
  ghost predicate RowsUnder(a: Archive) {
    forall d :: d in a.lastRef ==> a.lastRef[d] <= Top(a)
  }

  lemma TrackedUnder(m: Archive, h: nat, refs: set<Digest>, cache: Cache, top: nat)
    requires h <= top && forall d :: d in m.lastRef ==> m.lastRef[d] <= top
    ensures forall d :: d in Tracked(m, h, refs, cache) ==> Tracked(m, h, refs, cache)[d] <= top
  {
  }

  /** The newest height does not sink when a block is added. */
  lemma TopRises(a: Archive, m: Archive, h: nat, refs: set<Digest>)
    requires Filing(a) && Adds(a, m, h, refs)
    ensures h <= Top(m) && (a.blocks != map[] ==> Top(a) <= Top(m))
  {
    TopIsStored(m);
    if a.blocks != map[] { TopIsStored(a); }
  }

  lemma MovedUnder(a: Archive, m: Archive, h: nat, refs: set<Digest>)
    requires Filing(a) && Adds(a, m, h, refs) && m.lastRef == a.lastRef && RowsUnder(a) && (a.blocks == map[] ==> a.lastRef == map[])
    ensures h <= Top(m) && forall d :: d in m.lastRef ==> m.lastRef[d] <= Top(m)
  {
    TopRises(a, m, h, refs);
  }

  lemma QuietUnder(a: Archive, m: Archive, b: Archive, h: nat, refs: set<Digest>, cache: Cache, extra: set<Digest>)
    requires Adds(a, m, h, refs) && h <= Top(m) && forall d :: d in m.lastRef ==> m.lastRef[d] <= Top(m)
    requires b == m.(lastRef := Raise(Tracked(m, h, Refs(m, h), cache), extra, Top(m)))
    ensures RowsUnder(b)
  {
    TrackedUnder(m, h, Refs(m, h), cache, Top(m));
    SameAdds(a, m, b, h, refs);
    SameTop(m, b);
  }

  lemma RecordedUnder(a: Archive, c: Capture, cache: Cache)
    requires Inv(a) && c.Sound() && RowsUnder(a)
    ensures RowsUnder(Recorded(a, c, cache))
  {
    if Raised(a, c) != [] {
      FiledUnder(a, Some(c.height), c.refs, a.alerts + Raised(a, c));
    } else {
      var m := Moved(a, c);
      MovedAdds(a, c, m);
      MovedUnder(a, m, c.height, c.refs);
      RecordedQuiet(a, c, cache, m);
      QuietUnder(a, m, Recorded(a, c, cache), c.height, c.refs, cache, c.refs - Refs(m, c.height));
    }
  }

  lemma FiledUnder(a: Archive, height: Option<nat>, refs: set<Digest>, alerts: seq<Alert>)
    requires Inv(a) && RowsUnder(a)
    ensures RowsUnder(Filed(a, height, refs, alerts))
  {
    FiledShape(a, height, refs, alerts);
    if a.blocks != map[] { SameTop(a, Filed(a, height, refs, alerts)); }
  }

  lemma SameUnder(a: Archive, b: Archive)
    requires RowsUnder(a) && b.blocks == a.blocks && b.latestSeen == a.latestSeen
    requires forall d :: d in b.lastRef ==> d in a.lastRef && b.lastRef[d] == a.lastRef[d]
    ensures RowsUnder(b)
  {
  }

  lemma StepUnder(a: Archive, e: Event)
    requires Inv(a) && (e.Captured? ==> e.c.Sound()) && RowsUnder(a)
    ensures RowsUnder(Step(a, e))
  {
    match e
    case Captured(c, cache) => RecordedUnder(a, c, cache);
    case FailedCapture(h, refs) => FiledUnder(a, h, refs, a.alerts);
    case Resolve(i) => SameUnder(a, Resolved(a, i));
    case Expire(ids) => SameUnder(a, Expired(a, ids));
    case Sweep(floor, batch) => SameUnder(a, Swept(a, floor, batch));
    case Index =>
  }

  lemma {:induction false} RunUnder(launch: nat, es: seq<Event>)
    requires SoundEvents(es)
    ensures RowsUnder(Run(Opened(launch), es))
    decreases |es|
  {
    if es != [] {
      var front := es[..|es| - 1];
      RunUnder(launch, front);
      RunKeeps(launch, front);
      StepUnder(Run(Opened(launch), front), es[|es| - 1]);
    }
  }

  /** The chunk has a row at p or below, no block above p ever needed it, and there is such a block. */
  ghost predicate Dropped(a: Archive, d: Digest, p: nat) {
    d in a.lastRef && a.lastRef[d] <= p && (exists k :: k in a.blocks && k > p) && forall k: nat :: Used(a, k, d) ==> k <= p
  }

  /** An event whose capture, if it is one, is honest and does not need the chunk. */
  ghost predicate Spares(a: Archive, e: Event, d: Digest) {
    e.Captured? ==> e.c.Sound() && Honest(a, e.cache) && d !in e.c.refs
  }

  predicate Sweeps(a: Archive, e: Event, d: Digest) {
    e.Sweep? && d in e.batch && d in Removable(a, e.floor)
  }

  /** Of blocks other than h the store remembers nothing they did not use. */
  ghost predicate HonestBut(m: Archive, cache: Cache, h: nat) {
    cache.Some? ==> forall k, d :: k in m.blocks && k != h && m.blocks[k].id == cache.value.0 && d in cache.value.1 ==> Used(m, k, d)
  }

  lemma TrackedDropped(m: Archive, h: nat, cache: Cache, d: Digest, p: nat)
    requires Dropped(m, d, p) && HonestBut(m, cache, h) && h in m.blocks
    ensures var n := Tracked(m, h, Refs(m, h), cache); d in n && n[d] <= p
  {
    assert forall k: nat :: d in Refs(m, k) ==> Used(m, k, d);
    if !Newer(m.blocks, h) {
      var k :| k in m.blocks && k > p;
      assert h > p;
    }
  }

  lemma UsedMoved(a: Archive, c: Capture, m: Archive, k: nat, d: Digest)
    requires Filing(a) && m.blocks == Stored(a, c, |a.attempts|)
    requires m.attempts == a.attempts + [Attempt(Some(c.height), c.refs, false)]
    ensures Used(m, k, d) <==> Used(a, k, d) || (k == c.height && c.height !in a.blocks && d in c.refs)
  {
  }

  lemma MovedDropped(a: Archive, c: Capture, m: Archive, cache: Cache, d: Digest, p: nat)
    requires Filing(a) && m.blocks == Stored(a, c, |a.attempts|) && m.lastRef == a.lastRef
    requires m.attempts == a.attempts + [Attempt(Some(c.height), c.refs, false)]
    requires Dropped(a, d, p) && d !in c.refs && Honest(a, cache)
    ensures Dropped(m, d, p) && HonestBut(m, cache, c.height)
  {
    var k :| k in a.blocks && k > p;
    assert k in m.blocks;
    forall j: nat | Used(m, j, d) ensures j <= p { UsedMoved(a, c, m, j, d); }
    if cache.Some? {
      forall j, x | j in m.blocks && j != c.height && m.blocks[j].id == cache.value.0 && x in cache.value.1 ensures Used(m, j, x) {
        UsedMoved(a, c, m, j, x);
      }
    }
  }

  lemma RaisedDropped(m: Archive, t: map<Digest, nat>, extra: set<Digest>, d: Digest, p: nat)
    requires Dropped(m, d, p) && d in t && t[d] <= p && d !in extra
    ensures Dropped(m.(lastRef := Raise(t, extra, Top(m))), d, p)
  {
    var b := m.(lastRef := Raise(t, extra, Top(m)));
    forall j: nat | Used(b, j, d) ensures j <= p { assert Used(m, j, d); }
  }

  lemma RecordedDropped(a: Archive, c: Capture, cache: Cache, d: Digest, p: nat)
    requires Inv(a) && c.Sound() && Honest(a, cache) && Dropped(a, d, p) && d !in c.refs
    ensures Dropped(Recorded(a, c, cache), d, p)
  {
    if Raised(a, c) != [] {
      SameDropped(a, Filed(a, Some(c.height), c.refs, a.alerts + Raised(a, c)), d, p);
    } else {
      var m := Moved(a, c);
      MovedShape(a, c);
      MovedDropped(a, c, m, cache, d, p);
      TrackedDropped(m, c.height, cache, d, p);
      RaisedDropped(m, Tracked(m, c.height, Refs(m, c.height), cache), c.refs - Refs(m, c.height), d, p);
    }
  }

  lemma SameDropped(a: Archive, b: Archive, d: Digest, p: nat)
    requires Filing(a) && Dropped(a, d, p) && b.blocks == a.blocks && d in b.lastRef && b.lastRef[d] == a.lastRef[d]
    requires |a.attempts| <= |b.attempts| && forall i :: 0 <= i < |a.attempts| ==> b.attempts[i].refs == a.attempts[i].refs
    ensures Dropped(b, d, p)
  {
    forall j: nat | Used(b, j, d) ensures j <= p { assert Used(a, j, d); }
  }

  /** Such a row stays until a sweep takes the chunk. */
  lemma StepDropped(a: Archive, e: Event, d: Digest, p: nat)
    requires Inv(a) && Spares(a, e, d) && Dropped(a, d, p)
    ensures Sweeps(a, e, d) || Dropped(Step(a, e), d, p)
  {
    if e.Captured? {
      RecordedDropped(a, e.c, e.cache, d, p);
    } else if !Sweeps(a, e, d) {
      SameDropped(a, Step(a, e), d, p);
    }
  }

  ghost predicate SweptIn(a: Archive, es: seq<Event>, d: Digest) {
    exists i :: 0 <= i < |es| && Sweeps(Run(a, es[..i]), es[i], d)
  }

  ghost predicate SparedIn(a: Archive, es: seq<Event>, d: Digest) {
    forall i :: 0 <= i < |es| ==> Spares(Run(a, es[..i]), es[i], d)
  }

  lemma FrontIn(a: Archive, es: seq<Event>, d: Digest)
    requires es != []
    ensures SparedIn(a, es, d) ==> SparedIn(a, es[..|es| - 1], d) && Spares(Run(a, es[..|es| - 1]), es[|es| - 1], d)
    ensures SweptIn(a, es[..|es| - 1], d) || Sweeps(Run(a, es[..|es| - 1]), es[|es| - 1], d) ==> SweptIn(a, es, d)
  {
    var front := es[..|es| - 1];
    assert forall i :: 0 <= i <= |front| ==> front[..i] == es[..i];
    if SweptIn(a, front, d) {
      var i :| 0 <= i < |front| && Sweeps(Run(a, front[..i]), front[i], d);
      assert Sweeps(Run(a, es[..i]), es[i], d);
    }
  }

  lemma {:induction false} RunDropped(a: Archive, es: seq<Event>, d: Digest, p: nat)
    requires Inv(a) && Dropped(a, d, p) && SparedIn(a, es, d)
    ensures Inv(Run(a, es)) && (Dropped(Run(a, es), d, p) || SweptIn(a, es, d))
    decreases |es|
  {
    if es != [] {
      var front, e := es[..|es| - 1], es[|es| - 1];
      var w := Run(a, front);
      FrontIn(a, es, d);
      RunDropped(a, front, d, p);
      StepKeeps(w, e);
      if Dropped(w, d, p) { StepDropped(w, e, d, p); }
    }
  }

  /** The moment a chunk is dropped. */
  lemma NewlyDropped(a: Archive, c: Capture, cache: Cache, p: nat, d: Digest)
    requires Inv(a) && RowsUnder(a) && c.Sound() && Raised(a, c) == [] && Newest(a, p) && p < c.height && Honest(a, cache)
    requires d in Refs(a, p) && d !in c.refs
    ensures Dropped(Recorded(a, c, cache), d, p) && Recorded(a, c, cache).lastRef[d] == p
  {
    var m, b := Moved(a, c), Recorded(a, c, cache);
    TopIsStored(a);
    NewestRows(a, c, cache, p, d);
    MovedShape(a, c);
    assert c.height in b.blocks;
    forall j: nat | Used(b, j, d) ensures j <= p {
      assert Used(m, j, d);
      UsedMoved(a, c, m, j, d);
    }
  }

  /** All evidence at or under the floor that needs the chunk has expired. */
  ghost predicate Unprotected(a: Archive, floor: int, d: Digest) {
    forall i :: 0 <= i < |a.attempts| && d in a.attempts[i].refs && a.attempts[i].height.Some? && a.attempts[i].height.value <= floor
      ==> a.attempts[i].expired
  }

  lemma SweepTakes(a: Archive, floor: int, d: Digest)
    requires d in a.lastRef && a.lastRef[d] <= floor && Unprotected(a, floor, d)
    ensures d !in Step(a, Sweep(floor, {d})).chunks && d !in Step(a, Sweep(floor, {d})).lastRef
  {
  }

  /** Once dropped it is in reach of a sweep for good. */
  lemma DroppedGoes(b: Archive, more: seq<Event>, d: Digest, p: nat, floor: int)
    requires Inv(b) && Dropped(b, d, p) && (forall i :: 0 <= i < |more| ==> Spares(Run(b, more[..i]), more[i], d))
    requires p <= floor && Unprotected(Run(b, more), floor, d)
    ensures (exists i :: 0 <= i < |more| && Sweeps(Run(b, more[..i]), more[i], d))
         || d !in Step(Run(b, more), Sweep(floor, {d})).chunks
  {
    RunDropped(b, more, d, p);
    if Dropped(Run(b, more), d, p) { SweepTakes(Run(b, more), floor, d); }
  }

  /** A chunk nobody needs any more does go.  In any run, when a recorded block becomes the newest and no longer needs a
      chunk of the one before it, at height p: whatever follows, as long as no later capture needs the chunk, once the floor
      has reached p and all evidence at or under the floor that needs it has expired, the sweep at the floor may take it,
      unless an earlier one did. */
  lemma DroppedChunkGoes(launch: nat, es: seq<Event>, c: Capture, cache: Cache, p: nat, more: seq<Event>, floor: int, d: Digest)
    requires SoundEvents(es) && c.Sound() && p <= floor
    requires var a := Run(Opened(launch), es);
      Raised(a, c) == [] && Newest(a, p) && p < c.height && Honest(a, cache) && d in Refs(a, p) && d !in c.refs
    requires var b := Recorded(Run(Opened(launch), es), c, cache);
      (forall i :: 0 <= i < |more| ==> Spares(Run(b, more[..i]), more[i], d)) && Unprotected(Run(b, more), floor, d)
    ensures var b := Recorded(Run(Opened(launch), es), c, cache);
      || (exists i :: 0 <= i < |more| && Sweeps(Run(b, more[..i]), more[i], d))
      || d !in Step(Run(b, more), Sweep(floor, {d})).chunks
  {
    var a := Run(Opened(launch), es);
    RunKeeps(launch, es);
    RunUnder(launch, es);
    NewlyDropped(a, c, cache, p, d);
    RecordedKeeps(a, c, cache);
    DroppedGoes(Recorded(a, c, cache), more, d, p, floor);
  }

  // ------------------------------------------------------------------ a chunk the index does not reach

  /** Without a row a chunk stays, whatever expires and is swept. */
  lemma {:induction false} UnreachedStays(a: Archive, es: seq<Event>, d: Digest)
    requires d in a.chunks && d !in a.lastRef && forall i :: 0 <= i < |es| ==> !es[i].Captured? && !es[i].Index?
    ensures d in Run(a, es).chunks && d !in Run(a, es).lastRef
    decreases |es|
  {
    if es != [] { UnreachedStays(a, es[..|es| - 1], d); }
  }

  /** Neither a row nor a stored block names the chunk. */
  ghost predicate Unknown(a: Archive, d: Digest) {
    d !in a.lastRef && forall k :: k in a.blocks ==> d !in Refs(a, k)
  }

  lemma AddsUnknown(a: Archive, m: Archive, h: nat, refs: set<Digest>, d: Digest)
    requires Adds(a, m, h, refs) && m.lastRef == a.lastRef && Unknown(a, d) && d !in refs
    ensures Unknown(m, d)
  {
  }

  lemma RowsUnknown(m: Archive, h: nat, refs: set<Digest>, d: Digest)
    requires Unknown(m, d) && h in m.blocks && d !in refs
    ensures Unknown(m.(lastRef := Raise(Tracked(m, h, Refs(m, h), None), refs - Refs(m, h), Top(m))), d)
  {
    SameRefs(m, m.(lastRef := Raise(Tracked(m, h, Refs(m, h), None), refs - Refs(m, h), Top(m))));
  }

  /** Recording with nothing remembered writes rows only for chunks of the capture or of a stored block. */
  lemma NewRows(a: Archive, c: Capture, d: Digest)
    requires Inv(a) && c.Sound() && Raised(a, c) == [] && Unknown(a, d) && d !in c.refs
    ensures Unknown(Recorded(a, c, None), d)
  {
    MovedAdds(a, c, Moved(a, c));
    AddsUnknown(a, Moved(a, c), c.height, c.refs, d);
    RowsUnknown(Moved(a, c), c.height, c.refs, d);
  }

  lemma SampleUnknown(a: Archive, h: nat, refs: set<Digest>, d: Digest)
    requires Sampled(a) && h > 0 && Unknown(a, d) && d !in refs
    ensures Sampled(Recorded(a, Sample(h, refs), None)) && Unknown(Recorded(a, Sample(h, refs), None), d)
    ensures Recorded(a, Sample(h, refs), None).blocks.Keys == a.blocks.Keys + {h}
  {
    SampleQuiet(a, h, refs);
    SampleStored(a, h, refs, Recorded(a, Sample(h, refs), None));
    NewRows(a, Sample(h, refs), d);
  }

  lemma LateSample(a: Archive, h: nat, k: nat, refs: set<Digest>, d: Digest)
    requires Sampled(a) && 0 < h < k && h !in a.blocks && k in a.blocks && Unknown(a, d) && d in refs
    ensures var b := Recorded(a, Sample(h, refs), None); d in b.chunks && d !in b.lastRef && d in Refs(b, h)
  {
    var c := Sample(h, refs);
    SampleQuiet(a, h, refs);
    RecordedRefs(a, c, None);
    OlderRows(a, c, None, k, d);
    MovedShape(a, c);
  }

  /** A block that arrives after its successor, with a chunk of its own: once its evidence has expired no sweep at any floor
      ever removes the chunk. */
  lemma LateBlockLeaks(h: nat, p: set<Digest>, q: set<Digest>, r: set<Digest>, d: Digest, more: seq<Event>)
    requires h > 0 && d !in p && d !in q && d in r
    requires forall i :: 0 <= i < |more| ==> !more[i].Captured? && !more[i].Index?
    ensures var es := [Captured(Sample(h, p), None), Captured(Sample(h + 2, q), None), Captured(Sample(h + 1, r), None)];
      d in Refs(Run(Opened(h), es), h + 1) && d in Run(Run(Opened(h), es), more).chunks
  {
    RunKeeps(h, []);
    var a := Opened(h);
    var b := Recorded(a, Sample(h, p), None);
    var c := Recorded(b, Sample(h + 2, q), None);
    SampleUnknown(a, h, p, d);
    SampleUnknown(b, h + 2, q, d);
    LateSample(c, h + 1, h + 2, r, d);
    ThreeRuns(h, p, q, r);
    UnreachedStays(Recorded(c, Sample(h + 1, r), None), more, d);
  }

  lemma ThreeRuns(h: nat, p: set<Digest>, q: set<Digest>, r: set<Digest>)
    requires h > 0
    ensures Run(Opened(h), [Captured(Sample(h, p), None), Captured(Sample(h + 2, q), None), Captured(Sample(h + 1, r), None)])
         == Recorded(Recorded(Recorded(Opened(h), Sample(h, p), None), Sample(h + 2, q), None), Sample(h + 1, r), None)
  {
    var x, y, z := Captured(Sample(h, p), None), Captured(Sample(h + 2, q), None), Captured(Sample(h + 1, r), None);
    RunMore(Opened(h), [], x);
    RunMore(Opened(h), [x], y);
    RunMore(Opened(h), [x, y], z);
    assert [] + [x] == [x] && [x] + [y] == [x, y] && [x, y] + [z] == [x, y, z];
  }
}
