/** The collector's evidence spool and its garbage collector.

    Savers pin the chunks they need, write them one at a time without a lock, publish a manifest
    and unpin.  The recorder renames published manifests.  One cleaner at a time scans the
    manifests without a lock and then deletes chunk files in locked batches.  Every constructor of
    `Event` is one atomic file-system action of one of these processes, so a sequence of events is
    an interleaving. */
module SpoolCollector {
  import opened Basics

  /** A chunk is named by the hash of its content. */
  type Digest = nat

  type Name = nat

  /** A published archive: every chunk it depends on, and the digest pages among them that a scan
      must open to find the rest.  `Packing` proves which digests these are. */
  datatype Manifest = Manifest(refs: set<Digest>, pages: set<Digest>, corrupt: bool)

  /** The directory: chunk files with their times, manifests, pins, marker and pin journal. */
  datatype Disk = Disk(chunks: map<Digest, int>, pending: map<Name, Manifest>, recorded: map<Name, Manifest>,
                       writing: map<Name, set<Digest>>, active: bool, journal: seq<set<Digest>>)

  function Pinned(journal: seq<set<Digest>>): set<Digest> {
    set i, d | 0 <= i < |journal| && d in journal[i] :: d
  }

  function PinFiles(writing: map<Name, set<Digest>>): set<Digest> {
    set n, d | n in writing && d in writing[n] :: d
  }

  // ------------------------------------------------------------------ one locked or atomic action

  function PinChunks(k: Disk, n: Name, digests: set<Digest>): Disk {
    k.(writing := k.writing[n := digests], journal := if k.active then k.journal + [digests] else k.journal)
  }

  /** An existing chunk is found and left alone; a missing one is written. */
  function PutChunk(k: Disk, d: Digest, now: int): Disk {
    if d in k.chunks then k else k.(chunks := k.chunks[d := now])
  }

  function MoveToRecorded(k: Disk, f: Name): Disk
    requires f in k.pending
  {
    k.(pending := k.pending - {f}, recorded := k.recorded[f := k.pending[f]])
  }

  /** A batch deletion first reads the journal lines added since `offset`. */
  function SurvivingChunks(chunks: map<Digest, int>, live: set<Digest>, batch: set<Digest>, covered: int)
    : map<Digest, int>
  {
    map d | d in chunks && (d !in batch || d in live || chunks[d] > covered) :: chunks[d]
  }

  /** Reading one listed name: a name moved meanwhile is found under recorded, a vanished one is skipped. */
  function Lookup(k: Disk, f: Name): set<Digest> {
    if f in k.pending then k.pending[f].refs else if f in k.recorded then k.recorded[f].refs else {}
  }

  /** The scan gives up when a page is corrupt or its chunk file is missing. */
  predicate Unreadable(k: Disk, f: Name) {
    var m := if f in k.pending then k.pending[f] else if f in k.recorded then k.recorded[f] else Manifest({}, {}, false);
    m.corrupt || !(m.pages <= k.chunks.Keys)
  }

  // ------------------------------------------------------------------ interleaved processes

  /** A save in flight: what it must store, the chunks it saw missing and is about to put in place, and those it has
      found or written so far. */
  datatype Save = Save(manifest: Manifest, begun: set<Digest>, done: set<Digest>, published: bool)

  /** The cleaner's program point.  A listing is not atomic: `must` holds the names that were present
      when it began and are still there, and only those are sure to be returned. */
  datatype Cleaner =
    | Idle
    | Started(live: set<Digest>)
    | ListingPending(live: set<Digest>, must: set<Name>)
    | ReadingPending(live: set<Digest>, todo: set<Name>)
    | ListingRecorded(live: set<Digest>, must: set<Name>)
    | ReadingRecorded(live: set<Digest>, todo: set<Name>)
    | Deleting(live: set<Digest>, offset: nat)

  datatype State = State(disk: Disk, saves: map<Name, Save>, cleaner: Cleaner)

  datatype Event =
    | Pin(n: Name, m: Manifest)
    | FindChunk(n: Name, d: Digest)
    | WriteChunk(n: Name, d: Digest, now: int)
    | Publish(n: Name, file: Name)
    | Unpin(n: Name)             // after publishing, or while an exception unwinds
    | SaverDies(n: Name)         // the pin file stays behind
    | Record(file: Name)
    | Expire(file: Name)         // needs the pruning lock, so never beside a cleaner
    | Advance(names: set<Name>)  // begin; open or finish a listing; turn to deleting
    | ReadOne(file: Name)
    | DeleteBatch(batch: set<Digest>, covered: int)
    | CollectEnd                 // normal end or any exception
    | CleanerDies                // marker and journal stay behind

  function Finished(s: State): State {
    State(s.disk.(active := false, journal := []), s.saves, Idle)
  }

  // An action that is not enabled changes nothing.

  function SaverPins(s: State, n: Name, m: Manifest): State {
    if n in s.disk.writing || n in s.saves then s
    else s.(disk := PinChunks(s.disk, n, m.refs), saves := s.saves[n := Save(m, {}, {}, false)])
  }

  /** A save looks whether a chunk file exists. */
  function SaverFinds(s: State, n: Name, d: Digest): State {
    if n in s.saves && !s.saves[n].published && d in s.saves[n].manifest.refs then
      if d in s.disk.chunks then s.(saves := s.saves[n := s.saves[n].(done := s.saves[n].done + {d})])
      else s.(saves := s.saves[n := s.saves[n].(begun := s.saves[n].begun + {d})])
    else s
  }

  /** The complete file of a chunk that was missing is moved into place, over one that another save put there meanwhile. */
  function SaverWrites(s: State, n: Name, d: Digest, now: int): State {
    if n in s.saves && !s.saves[n].published && d in s.saves[n].begun then
      s.(disk := s.disk.(chunks := s.disk.chunks[d := now]),
         saves := s.saves[n := s.saves[n].(begun := s.saves[n].begun - {d}, done := s.saves[n].done + {d})])
    else s
  }

  function SaverPublishes(s: State, n: Name, f: Name): State {
    if n in s.saves && !s.saves[n].published && s.saves[n].done == s.saves[n].manifest.refs
       && f !in s.disk.pending && f !in s.disk.recorded then
      s.(disk := s.disk.(pending := s.disk.pending[f := s.saves[n].manifest]),
         saves := s.saves[n := s.saves[n].(published := true)])
    else s
  }

  function SaverUnpins(s: State, n: Name): State {
    if n in s.saves then s.(disk := s.disk.(writing := s.disk.writing - {n}), saves := s.saves - {n}) else s
  }

  function RecorderRenames(s: State, f: Name): State {
    if f in s.disk.pending then
      s.(disk := MoveToRecorded(s.disk, f),
         cleaner := if s.cleaner.ListingPending? then ListingPending(s.cleaner.live, s.cleaner.must - {f})
                    else s.cleaner)
    else s
  }

  function ArchiveExpires(s: State, f: Name): State {
    if s.cleaner.Idle? then s.(disk := s.disk.(recorded := s.disk.recorded - {f})) else s
  }

  function CleanerReads(s: State, f: Name): State {
    var c := s.cleaner;
    if !(c.ReadingPending? || c.ReadingRecorded?) || f !in c.todo then s
    else if Unreadable(s.disk, f) then Finished(s)
    else if c.ReadingPending? then s.(cleaner := ReadingPending(c.live + Lookup(s.disk, f), c.todo - {f}))
    else s.(cleaner := ReadingRecorded(c.live + Lookup(s.disk, f), c.todo - {f}))
  }

  function CleanerAdvances(s: State, names: set<Name>): State {
    var k, c := s.disk, s.cleaner;
    match c
    case Idle => State(k.(active := true, journal := []), s.saves, Started(PinFiles(k.writing)))
    case Started(live) => s.(cleaner := ListingPending(live, k.pending.Keys))
    case ListingPending(live, must) => if must <= names then s.(cleaner := ReadingPending(live, names)) else s
    case ReadingPending(live, todo) => if todo == {} then s.(cleaner := ListingRecorded(live, k.recorded.Keys)) else s
    case ListingRecorded(live, must) => if must <= names then s.(cleaner := ReadingRecorded(live, names)) else s
    case ReadingRecorded(live, todo) => if todo == {} then s.(cleaner := Deleting(live, 0)) else s
    case Deleting(_, _) => s
  }

  function CleanerDeletes(s: State, batch: set<Digest>, covered: int): State {
    var k, c := s.disk, s.cleaner;
    if c.Deleting? && c.offset <= |k.journal| then
      var live := c.live + Pinned(k.journal[c.offset..]);
      State(k.(chunks := SurvivingChunks(k.chunks, live, batch, covered)), s.saves, Deleting(live, |k.journal|))
    else s
  }

  function Step(s: State, e: Event): State {
    match e
    case Pin(n, m) => SaverPins(s, n, m)
    case FindChunk(n, d) => SaverFinds(s, n, d)
    case WriteChunk(n, d, now) => SaverWrites(s, n, d, now)
    case Publish(n, f) => SaverPublishes(s, n, f)
    case Unpin(n) => SaverUnpins(s, n)
    case SaverDies(n) => s.(saves := s.saves - {n})
    case Record(f) => RecorderRenames(s, f)
    case Expire(f) => ArchiveExpires(s, f)
    case Advance(names) => CleanerAdvances(s, names)
    case ReadOne(f) => CleanerReads(s, f)
    case DeleteBatch(batch, covered) => CleanerDeletes(s, batch, covered)
    case CollectEnd => if s.cleaner.Idle? then s else Finished(s)
    case CleanerDies => s.(cleaner := Idle)
  }

  function Run(s: State, es: seq<Event>): State
    decreases |es|
  {
    if es == [] then s else Step(Run(s, es[..|es| - 1]), es[|es| - 1])
  }

  // ------------------------------------------------------------------ what every interleaving keeps

  /** Every manifest the recorder or a reader can see has all of its chunks. */
  ghost predicate PublishedComplete(k: Disk) {
    && (forall f :: f in k.pending ==> k.pending[f].refs <= k.chunks.Keys)
    && (forall f :: f in k.recorded ==> k.recorded[f].refs <= k.chunks.Keys)
  }

  /** No chunk a running save found or wrote has gone. */
  ghost predicate SavesIntact(s: State) {
    forall n :: n in s.saves ==> s.saves[n].done <= s.disk.chunks.Keys
  }

  ghost predicate SavePinned(k: Disk, n: Name, v: Save) {
    && n in k.writing && k.writing[n] == v.manifest.refs
    && v.begun <= v.manifest.refs && v.done <= v.manifest.refs
    && (v.published ==> v.done == v.manifest.refs)
  }

  ghost predicate SavesPinned(s: State) {
    forall n :: n in s.saves ==> SavePinned(s.disk, n, s.saves[n])
  }

  /** Digests the cleaner will not delete once it has read the journal so far. */
  ghost function Shielded(s: State): set<Digest>
    requires !s.cleaner.Idle?
  {
    s.cleaner.live + Pinned(s.disk.journal)
  }

  /** A published manifest is already accounted for, or the scan is still bound to meet it. */
  ghost predicate WillMeet(s: State, f: Name) {
    match s.cleaner
    case Idle => true
    case Started(_) => true
    case ListingPending(_, must) => f in must || f in s.disk.recorded
    case ReadingPending(_, todo) => f in todo || f in s.disk.recorded
    case ListingRecorded(_, must) => f in must
    case ReadingRecorded(_, todo) => f in todo
    case Deleting(_, _) => false
  }

  ghost predicate CleanerSound(s: State) {
    s.cleaner.Idle? || (
      && s.disk.active
      && (forall n :: n in s.saves ==> s.saves[n].manifest.refs <= Shielded(s))
      && (forall f :: f in s.disk.pending ==> WillMeet(s, f) || s.disk.pending[f].refs <= Shielded(s))
      && (forall f :: f in s.disk.recorded ==> WillMeet(s, f) || s.disk.recorded[f].refs <= Shielded(s))
      && (s.cleaner.Deleting? ==>
            s.cleaner.offset <= |s.disk.journal| && Pinned(s.disk.journal[..s.cleaner.offset]) <= s.cleaner.live))
  }

  ghost predicate Inv(s: State) {
    && s.disk.pending.Keys !! s.disk.recorded.Keys
    && PublishedComplete(s.disk)
    && SavesIntact(s)
    && SavesPinned(s)
    && CleanerSound(s)
  }

  lemma PinnedSplit(journal: seq<set<Digest>>, i: nat)
    requires i <= |journal|
    ensures Pinned(journal) == Pinned(journal[..i]) + Pinned(journal[i..])
  {
    forall d | d in Pinned(journal) ensures d in Pinned(journal[..i]) + Pinned(journal[i..]) {
      var j :| 0 <= j < |journal| && d in journal[j];
      if j < i { assert d in journal[..i][j]; } else { assert d in journal[i..][j - i]; }
    }
    forall d | d in Pinned(journal[i..]) ensures d in Pinned(journal) {
      var j :| 0 <= j < |journal[i..]| && d in journal[i..][j];
      assert d in journal[i + j];
    }
  }

  lemma PinnedAppend(journal: seq<set<Digest>>, x: set<Digest>)
    ensures Pinned(journal + [x]) == Pinned(journal) + x
  {
    PinnedSplit(journal + [x], |journal|);
    assert (journal + [x])[..|journal|] == journal && (journal + [x])[|journal|..] == [x];
    forall d | d in x ensures d in Pinned([x]) { assert d in [x][0]; }
  }

  lemma KeepsPin(s: State, n: Name, m: Manifest)
    requires Inv(s)
    ensures Inv(SaverPins(s, n, m))
  {
    var s' := SaverPins(s, n, m);
    if s' != s && !s.cleaner.Idle? {
      var j := s.disk.journal;
      assert Shielded(s') == Shielded(s) + m.refs by { PinnedAppend(j, m.refs); }
      if s.cleaner.Deleting? {
        assert (j + [m.refs])[..s.cleaner.offset] == j[..s.cleaner.offset];
      }
    }
  }

  lemma KeepsFind(s: State, n: Name, d: Digest)
    requires Inv(s)
    ensures Inv(SaverFinds(s, n, d))
  {
  }

  lemma KeepsWrite(s: State, n: Name, d: Digest, now: int)
    requires Inv(s)
    ensures Inv(SaverWrites(s, n, d, now))
  {
  }

  lemma KeepsPublish(s: State, n: Name, f: Name)
    requires Inv(s)
    ensures Inv(SaverPublishes(s, n, f))
  {
  }

  lemma KeepsUnpin(s: State, n: Name)
    requires Inv(s)
    ensures Inv(SaverUnpins(s, n)) && Inv(s.(saves := s.saves - {n}))
  {
  }

  lemma KeepsRename(s: State, f: Name)
    requires Inv(s)
    ensures Inv(RecorderRenames(s, f)) && Inv(ArchiveExpires(s, f))
  {
  }

  lemma KeepsAdvance(s: State, names: set<Name>)
    requires Inv(s)
    ensures Inv(CleanerAdvances(s, names))
  {
    if s.cleaner.Idle? {
      forall n, d | n in s.saves && d in s.saves[n].manifest.refs ensures d in PinFiles(s.disk.writing) {
        assert d in s.disk.writing[n];
      }
    }
    assert Pinned(s.disk.journal[..0]) == {};
  }

  lemma KeepsRead(s: State, f: Name)
    requires Inv(s)
    ensures Inv(CleanerReads(s, f))
  {
  }

  lemma KeepsDelete(s: State, batch: set<Digest>, covered: int)
    requires Inv(s)
    ensures Inv(CleanerDeletes(s, batch, covered))
  {
    var c, k := s.cleaner, s.disk;
    if c.Deleting? {
      PinnedSplit(k.journal, c.offset);
      assert Shielded(s) == c.live + Pinned(k.journal[c.offset..]);
      assert k.journal[..|k.journal|] == k.journal;
    }
  }

  lemma StepKeeps(s: State, e: Event)
    requires Inv(s)
    ensures Inv(Step(s, e))
  {
    match e
    case Pin(n, m) => KeepsPin(s, n, m);
    case FindChunk(n, d) => KeepsFind(s, n, d);
    case WriteChunk(n, d, now) => KeepsWrite(s, n, d, now);
    case Publish(n, f) => KeepsPublish(s, n, f);
    case Unpin(n) => KeepsUnpin(s, n);
    case SaverDies(n) => KeepsUnpin(s, n);
    case Record(f) => KeepsRename(s, f);
    case Expire(f) => KeepsRename(s, f);
    case Advance(names) => KeepsAdvance(s, names);
    case ReadOne(f) => KeepsRead(s, f);
    case DeleteBatch(batch, covered) => KeepsDelete(s, batch, covered);
    case CollectEnd =>
    case CleanerDies =>
  }

  lemma {:induction false} RunKeeps(s: State, es: seq<Event>)
    requires Inv(s)
    ensures Inv(Run(s, es))
    decreases |es|
  {
    if es != [] {
      RunKeeps(s, es[..|es| - 1]);
      StepKeeps(Run(s, es[..|es| - 1]), es[|es| - 1]);
    }
  }

  /** A directory found at start-up: complete manifests, and any pins, marker or journal a crash left. */
  ghost predicate Recovered(k: Disk) {
    k.pending.Keys !! k.recorded.Keys && PublishedComplete(k)
  }

  /** In every interleaving of any number of saves, renames, expiries and successive collections, with
      crashes anywhere, no published manifest and no save in flight ever loses a chunk. */
  lemma NoInterleavingLosesEvidence(k: Disk, es: seq<Event>)
    requires Recovered(k)
    ensures var s := Run(State(k, map[], Idle), es);
      && (forall f :: f in s.disk.pending ==> s.disk.pending[f].refs <= s.disk.chunks.Keys)
      && (forall f :: f in s.disk.recorded ==> s.disk.recorded[f].refs <= s.disk.chunks.Keys)
      && (forall n :: n in s.saves ==> s.saves[n].done <= s.disk.chunks.Keys)
  {
    RunKeeps(State(k, map[], Idle), es);
  }

  /** One action deletes a chunk only when nothing published or in flight needs it and it is old enough. */
  lemma DeletionIsJustified(s: State, e: Event, d: Digest)
    requires Inv(s) && d in s.disk.chunks && d !in Step(s, e).disk.chunks
    ensures e.DeleteBatch? && s.cleaner.Deleting? && d in e.batch && s.disk.chunks[d] <= e.covered
    ensures forall f :: f in s.disk.pending ==> d !in s.disk.pending[f].refs
    ensures forall f :: f in s.disk.recorded ==> d !in s.disk.recorded[f].refs
    ensures forall n :: n in s.saves ==> d !in s.saves[n].manifest.refs
  {
    PinnedSplit(s.disk.journal, s.cleaner.offset);
    assert d !in Shielded(s);
  }

  /** And both ways: a deletion batch removes exactly the chunks it was offered that are old enough, were not found in use
      by the scan, and were not pinned in the journal since; the times of the others stay. */
  lemma DeletionIsExact(s: State, batch: set<Digest>, covered: int, d: Digest)
    requires Inv(s) && s.cleaner.Deleting? && d in s.disk.chunks
    ensures var k := Step(s, DeleteBatch(batch, covered)).disk;
      && (d !in k.chunks <==>
            && d in batch && s.disk.chunks[d] <= covered && d !in s.cleaner.live
            && forall j :: s.cleaner.offset <= j < |s.disk.journal| ==> d !in s.disk.journal[j])
      && (d in k.chunks ==> k.chunks[d] == s.disk.chunks[d])
  {
    var later := s.disk.journal[s.cleaner.offset..];
    forall j | s.cleaner.offset <= j < |s.disk.journal| ensures s.disk.journal[j] == later[j - s.cleaner.offset] {}
  }

  /** Some pin file, pin line or published manifest names the chunk. */
  ghost predicate Wanted(k: Disk, d: Digest) {
    || (exists n :: n in k.writing && d in k.writing[n])
    || (exists j :: 0 <= j < |k.journal| && d in k.journal[j])
    || (exists f :: f in k.pending && d in k.pending[f].refs)
    || (exists f :: f in k.recorded && d in k.recorded[f].refs)
  }

  /** The cleaner takes a chunk for needed only because something names it at that moment. */
  lemma LearnsTheWanted(s: State, e: Event, d: Digest)
    requires !Step(s, e).cleaner.Idle? && d in Step(s, e).cleaner.live
    ensures (!s.cleaner.Idle? && d in s.cleaner.live) || Wanted(s.disk, d)
  {
  }

  lemma {:induction false} UnwantedUnlearned(s: State, es: seq<Event>, d: Digest)
    requires s.cleaner.Idle? && forall i :: 0 <= i <= |es| ==> !Wanted(Run(s, es[..i]).disk, d)
    ensures !Run(s, es).cleaner.Idle? ==> d !in Run(s, es).cleaner.live
    decreases |es|
  {
    if es != [] {
      var before := es[..|es| - 1];
      assert forall i :: 0 <= i <= |before| ==> before[..i] == es[..i];
      UnwantedUnlearned(s, before, d);
      assert !Wanted(Run(s, before).disk, d);
      if !Run(s, es).cleaner.Idle? && d in Run(s, es).cleaner.live {
        LearnsTheWanted(Run(s, before), es[|es| - 1], d);
      }
    }
  }

  /** Garbage does go: in every interleaving, a chunk that nothing named since before the collection began is removed by
      the first batch that offers it, if it is old enough. */
  lemma GarbageGoes(k: Disk, es: seq<Event>, batch: set<Digest>, covered: int, d: Digest)
    requires Recovered(k) && forall i :: 0 <= i <= |es| ==> !Wanted(Run(State(k, map[], Idle), es[..i]).disk, d)
    requires var s := Run(State(k, map[], Idle), es);
      s.cleaner.Deleting? && d in s.disk.chunks && d in batch && s.disk.chunks[d] <= covered
    ensures d !in Step(Run(State(k, map[], Idle), es), DeleteBatch(batch, covered)).disk.chunks
  {
    var s := Run(State(k, map[], Idle), es);
    RunKeeps(State(k, map[], Idle), es);
    UnwantedUnlearned(State(k, map[], Idle), es, d);
    assert es[..|es|] == es;
    DeletionIsExact(s, batch, covered, d);
  }

  /** A save stores its chunks one after another, looking first and writing what is missing. */
  function Storing(n: Name, ds: seq<Digest>, now: int): seq<Event> {
    if ds == [] then [] else Storing(n, ds[..|ds| - 1], now) + [FindChunk(n, ds[|ds| - 1]), WriteChunk(n, ds[|ds| - 1], now)]
  }

  lemma RunMore(s: State, es: seq<Event>, e: Event)
    ensures Run(s, es + [e]) == Step(Run(s, es), e)
  {
    assert (es + [e])[..|es|] == es;
  }

  function Digests(ds: seq<Digest>): set<Digest> {
    set d | d in ds
  }

  ghost predicate Stored(k: Disk, j: Disk, ds: seq<Digest>, now: int) {
    && j.chunks.Keys == k.chunks.Keys + Digests(ds) && j == k.(chunks := j.chunks)
    && (forall d :: d in j.chunks ==> j.chunks[d] == if d in k.chunks then k.chunks[d] else now)
  }

  /** From state r to state q, save n has stored the chunks ds and nothing else happened. */
  ghost predicate Advanced(r: State, q: State, n: Name, m: Manifest, ds: seq<Digest>, now: int) {
    Stored(r.disk, q.disk, ds, now) && q.cleaner == r.cleaner && q.saves == r.saves[n := Save(m, {}, Digests(ds), false)]
  }

  lemma NoneStored(r: State, n: Name, m: Manifest, now: int)
    requires n in r.saves && r.saves[n] == Save(m, {}, {}, false)
    ensures Advanced(r, r, n, m, [], now)
  {
    assert Digests([]) == {} && r.saves[n := r.saves[n]] == r.saves;
  }

  lemma OneStored(r: State, q: State, n: Name, m: Manifest, front: seq<Digest>, d: Digest, now: int)
    requires Advanced(r, q, n, m, front, now) && d in m.refs
    ensures Advanced(r, SaverWrites(SaverFinds(q, n, d), n, d, now), n, m, front + [d], now)
  {
    assert Digests(front + [d]) == Digests(front) + {d};
  }

  lemma StoringOne(s: State, es: seq<Event>, n: Name, d: Digest, now: int)
    ensures Run(s, es + [FindChunk(n, d)] + [WriteChunk(n, d, now)]) == SaverWrites(SaverFinds(Run(s, es), n, d), n, d, now)
  {
    RunMore(s, es, FindChunk(n, d));
    RunMore(s, es + [FindChunk(n, d)], WriteChunk(n, d, now));
  }

  lemma {:induction false} StoringRuns(s: State, es: seq<Event>, n: Name, m: Manifest, ds: seq<Digest>, now: int)
    requires n in Run(s, es).saves && Run(s, es).saves[n] == Save(m, {}, {}, false) && Digests(ds) <= m.refs
    ensures Advanced(Run(s, es), Run(s, es + Storing(n, ds, now)), n, m, ds, now)
    decreases |ds|
  {
    if ds == [] {
      NoneStored(Run(s, es), n, m, now);
      assert es + Storing(n, ds, now) == es;
    } else {
      var front, d := ds[..|ds| - 1], ds[|ds| - 1];
      assert Digests(front) <= Digests(ds) && d in Digests(ds) && front + [d] == ds;
      StoringRuns(s, es, n, m, front, now);
      StoringOne(s, es + Storing(n, front, now), n, d, now);
      assert es + Storing(n, ds, now) == es + Storing(n, front, now) + [FindChunk(n, d)] + [WriteChunk(n, d, now)];
      OneStored(Run(s, es), Run(s, es + Storing(n, front, now)), n, m, front, d, now);
    }
  }

  /** The end of a save that began in s, from the state q in which its chunks are stored. */
  lemma SaveCloses(s: State, q: State, n: Name, file: Name, m: Manifest, ds: seq<Digest>, now: int)
    requires n !in s.disk.writing && n !in s.saves && file !in s.disk.pending && file !in s.disk.recorded
    requires Advanced(SaverPins(s, n, m), q, n, m, ds, now) && Digests(ds) == m.refs
    ensures SavedFrom(s, SaverUnpins(SaverPublishes(q, n, file), n), file, m, now)
  {
    var t := SaverUnpins(SaverPublishes(q, n, file), n);
    assert t.disk.writing == s.disk.writing && t.saves == s.saves;
  }

  /** From state s to state t one save was made and nothing else happened. */
  ghost predicate SavedFrom(s: State, t: State, file: Name, m: Manifest, now: int) {
    && t.disk.chunks.Keys == s.disk.chunks.Keys + m.refs
    && (forall d :: d in t.disk.chunks ==> t.disk.chunks[d] == if d in s.disk.chunks then s.disk.chunks[d] else now)
    && t.disk.pending == s.disk.pending[file := m] && t.disk.recorded == s.disk.recorded
    && t.disk.writing == s.disk.writing && t.saves == s.saves && t.cleaner == s.cleaner && t.disk.active == s.disk.active
    && t.disk.journal == if s.disk.active then s.disk.journal + [m.refs] else s.disk.journal
  }

  /** Alone, a save event by event does what the undisturbed save does: at any point of any run, with a free pin and file
      name, its missing chunks are stored, its manifest is pending and its pin is gone. */
  lemma SaveRunCompletes(s: State, es: seq<Event>, n: Name, file: Name, m: Manifest, ds: seq<Digest>, now: int)
    requires var r := Run(s, es);
      n !in r.disk.writing && n !in r.saves && file !in r.disk.pending && file !in r.disk.recorded && Digests(ds) == m.refs
    ensures SavedFrom(Run(s, es), Run(s, es + [Pin(n, m)] + Storing(n, ds, now) + [Publish(n, file)] + [Unpin(n)]), file, m, now)
  {
    var pinned := es + [Pin(n, m)];
    RunMore(s, es, Pin(n, m));
    StoringRuns(s, pinned, n, m, ds, now);
    SaveCloses(Run(s, es), Run(s, pinned + Storing(n, ds, now)), n, file, m, ds, now);
    RunMore(s, pinned + Storing(n, ds, now), Publish(n, file));
    RunMore(s, pinned + Storing(n, ds, now) + [Publish(n, file)], Unpin(n));
  }

  /** A cleaner reads what it listed, one archive after another. */
  function Reading(fs: seq<Name>): seq<Event> {
    if fs == [] then [] else Reading(fs[..|fs| - 1]) + [ReadOne(fs[|fs| - 1])]
  }

  function Named(fs: seq<Name>): set<Name> {
    set f | f in fs
  }

  function Referred(k: Disk, fs: seq<Name>): set<Digest> {
    set i, d | 0 <= i < |fs| && d in Lookup(k, fs[i]) :: d
  }

  /** From state r to state q the archives fs were read and nothing else happened. */
  ghost predicate HasRead(r: State, q: State, fs: seq<Name>) {
    && q.disk == r.disk && q.saves == r.saves
    && (r.cleaner.ReadingPending? ==>
          q.cleaner == ReadingPending(r.cleaner.live + Referred(r.disk, fs), r.cleaner.todo - Named(fs)))
    && (r.cleaner.ReadingRecorded? ==>
          q.cleaner == ReadingRecorded(r.cleaner.live + Referred(r.disk, fs), r.cleaner.todo - Named(fs)))
  }

  lemma OneRead(r: State, q: State, front: seq<Name>, f: Name)
    requires (r.cleaner.ReadingPending? || r.cleaner.ReadingRecorded?) && HasRead(r, q, front)
    requires f in r.cleaner.todo && f !in front && !Unreadable(r.disk, f)
    ensures HasRead(r, CleanerReads(q, f), front + [f])
  {
    assert Named(front + [f]) == Named(front) + {f};
    assert Referred(r.disk, front + [f]) == Referred(r.disk, front) + Lookup(r.disk, f) by {
      assert forall i :: 0 <= i < |front| ==> (front + [f])[i] == front[i];
      assert (front + [f])[|front|] == f;
    }
  }

  predicate AllReadable(k: Disk, fs: seq<Name>) {
    forall i :: 0 <= i < |fs| ==> !Unreadable(k, fs[i])
  }

  predicate OnceEach(fs: seq<Name>) {
    forall i, j :: 0 <= i < j < |fs| ==> fs[i] != fs[j]
  }

  lemma FrontReadable(k: Disk, fs: seq<Name>)
    requires fs != [] && OnceEach(fs) && AllReadable(k, fs)
    ensures var front, f := fs[..|fs| - 1], fs[|fs| - 1];
      front + [f] == fs && OnceEach(front) && AllReadable(k, front) && Named(front) <= Named(fs) && f in Named(fs) && f !in front
      && !Unreadable(k, f)
  {
  }

  lemma {:induction false} ReadingRuns(r: State, fs: seq<Name>)
    requires (r.cleaner.ReadingPending? || r.cleaner.ReadingRecorded?) && Named(fs) <= r.cleaner.todo
    requires OnceEach(fs) && AllReadable(r.disk, fs)
    ensures HasRead(r, Run(r, Reading(fs)), fs)
    decreases |fs|
  {
    if fs == [] {
      assert Named(fs) == {} && Referred(r.disk, fs) == {};
    } else {
      var front, f := fs[..|fs| - 1], fs[|fs| - 1];
      FrontReadable(r.disk, fs);
      ReadingRuns(r, front);
      RunMore(r, Reading(front), ReadOne(f));
      OneRead(r, Run(r, Reading(front)), front, f);
    }
  }

  lemma {:induction false} RunsOn(s: State, es: seq<Event>, fs: seq<Event>)
    ensures Run(s, es + fs) == Run(Run(s, es), fs)
    decreases |fs|
  {
    if fs == [] {
      assert es + fs == es;
    } else {
      var front, f := fs[..|fs| - 1], fs[|fs| - 1];
      RunsOn(s, es, front);
      assert es + fs == es + front + [f];
      RunMore(s, es + front, f);
    }
  }

  lemma TwoRuns(s: State, a: Event, b: Event)
    ensures Run(s, [a, b]) == Step(Step(s, a), b)
  {
    RunMore(s, [], a);
    RunMore(s, [a], b);
    assert [] + [a] == [a] && [a] + [b] == [a, b];
  }

  lemma ThreeRuns(s: State, a: Event, b: Event, c: Event)
    ensures Run(s, [a, b, c]) == Step(Step(Step(s, a), b), c)
  {
    TwoRuns(s, a, b);
    RunMore(s, [a, b], c);
    assert [a, b] + [c] == [a, b, c];
  }

  // The steps of a collection before its first archive, between pending and recorded ones, and after the last.

  lemma BeginsListing(r: State)
    requires r.cleaner.Idle?
    ensures Run(r, [Advance({}), Advance({}), Advance(r.disk.pending.Keys)]) ==
      State(r.disk.(active := true, journal := []), r.saves, ReadingPending(PinFiles(r.disk.writing), r.disk.pending.Keys))
  {
    ThreeRuns(r, Advance({}), Advance({}), Advance(r.disk.pending.Keys));
    var one := CleanerAdvances(r, {});
    assert CleanerAdvances(one, {}).cleaner == ListingPending(PinFiles(r.disk.writing), r.disk.pending.Keys);
  }

  lemma TurnsToRecorded(r: State)
    requires r.cleaner.ReadingPending? && r.cleaner.todo == {}
    ensures Run(r, [Advance({}), Advance(r.disk.recorded.Keys)]) ==
      r.(cleaner := ReadingRecorded(r.cleaner.live, r.disk.recorded.Keys))
  {
    TwoRuns(r, Advance({}), Advance(r.disk.recorded.Keys));
    assert CleanerAdvances(r, {}) == r.(cleaner := ListingRecorded(r.cleaner.live, r.disk.recorded.Keys));
  }

  lemma BatchAtOnce(q: State, live: set<Digest>, batch: set<Digest>, covered: int)
    requires q.cleaner == Deleting(live, 0) && q.disk.journal == []
    ensures CleanerDeletes(q, batch, covered) == q.(disk := q.disk.(chunks := SurvivingChunks(q.disk.chunks, live, batch, covered)))
  {
    assert Pinned(q.disk.journal[0..]) == {};
    assert live + {} == live;
  }

  lemma Deletes(r: State, batch: set<Digest>, covered: int)
    requires r.cleaner.ReadingRecorded? && r.cleaner.todo == {} && r.disk.journal == []
    ensures Run(r, [Advance({}), DeleteBatch(batch, covered), CollectEnd]) ==
      State(r.disk.(active := false, chunks := SurvivingChunks(r.disk.chunks, r.cleaner.live, batch, covered)), r.saves, Idle)
  {
    ThreeRuns(r, Advance({}), DeleteBatch(batch, covered), CollectEnd);
    var q := r.(cleaner := Deleting(r.cleaner.live, 0));
    assert Step(r, Advance({})) == q;
    BatchAtOnce(q, r.cleaner.live, batch, covered);
  }

  /** The events of a collection that nobody disturbs; fs and gs list the archives it finds. */
  function Collection(k: Disk, fs: seq<Name>, gs: seq<Name>, batch: set<Digest>, covered: int): seq<Event> {
    [Advance({}), Advance({}), Advance(k.pending.Keys)] + Reading(fs)
    + [Advance({}), Advance(k.recorded.Keys)] + Reading(gs)
    + [Advance({}), DeleteBatch(batch, covered), CollectEnd]
  }

  /** fs names every manifest of the area once, and all can be read. */
  predicate Lists(k: Disk, fs: seq<Name>, area: map<Name, Manifest>) {
    Named(fs) == area.Keys && OnceEach(fs) && AllReadable(k, fs)
  }

  lemma CollectionRuns(r: State, fs: seq<Name>, gs: seq<Name>, batch: set<Digest>, covered: int)
    requires r.cleaner.Idle? && Lists(r.disk, fs, r.disk.pending) && Lists(r.disk, gs, r.disk.recorded)
    ensures var j := r.disk.(active := true, journal := []);
      Run(r, Collection(r.disk, fs, gs, batch, covered)) ==
        State(r.disk.(active := false, journal := [],
                      chunks := SurvivingChunks(r.disk.chunks, PinFiles(r.disk.writing) + Referred(j, fs) + Referred(j, gs), batch, covered)),
              r.saves, Idle)
  {
    var begin, turn, end := [Advance({}), Advance({}), Advance(r.disk.pending.Keys)], [Advance({}), Advance(r.disk.recorded.Keys)],
                            [Advance({}), DeleteBatch(batch, covered), CollectEnd];
    var a := Run(r, begin);
    BeginsListing(r);
    ReadingRuns(a, fs);
    RunsOn(r, begin, Reading(fs));
    var b := Run(a, Reading(fs));
    TurnsToRecorded(b);
    RunsOn(r, begin + Reading(fs), turn);
    var c := Run(b, turn);
    ReadingRuns(c, gs);
    RunsOn(r, begin + Reading(fs) + turn, Reading(gs));
    Deletes(Run(c, Reading(gs)), batch, covered);
    RunsOn(r, begin + Reading(fs) + turn + Reading(gs), end);
  }

  /** At any point of any run, with no other collection on: event by event an undisturbed collection does what the sequential
      one does.  It removes exactly the offered, old enough chunks that no pin file and no published manifest names. */
  lemma CollectionRunPrunes(s: State, es: seq<Event>, fs: seq<Name>, gs: seq<Name>, batch: set<Digest>, covered: int, d: Digest)
    requires var r := Run(s, es);
      && r.cleaner.Idle? && r.disk.pending.Keys !! r.disk.recorded.Keys && d in r.disk.chunks
      && Lists(r.disk, fs, r.disk.pending) && Lists(r.disk, gs, r.disk.recorded)
    ensures var r, q := Run(s, es), Run(s, es + Collection(Run(s, es).disk, fs, gs, batch, covered));
      && (d !in q.disk.chunks <==>
            && d in batch && r.disk.chunks[d] <= covered
            && (forall n :: n in r.disk.writing ==> d !in r.disk.writing[n])
            && (forall f :: f in r.disk.pending ==> d !in r.disk.pending[f].refs)
            && (forall f :: f in r.disk.recorded ==> d !in r.disk.recorded[f].refs))
      && q == r.(disk := r.disk.(active := false, journal := [], chunks := q.disk.chunks))
  {
    var r := Run(s, es);
    RunsOn(s, es, Collection(r.disk, fs, gs, batch, covered));
    CollectionRuns(r, fs, gs, batch, covered);
    LiveMeans(r.disk, r.disk.(active := true, journal := []), fs, gs, d);
  }

  lemma LiveMeans(k: Disk, j: Disk, fs: seq<Name>, gs: seq<Name>, d: Digest)
    requires k.pending.Keys !! k.recorded.Keys && Named(fs) == k.pending.Keys && Named(gs) == k.recorded.Keys
    requires j.pending == k.pending && j.recorded == k.recorded
    ensures d in PinFiles(k.writing) + Referred(j, fs) + Referred(j, gs) <==>
      || (exists n :: n in k.writing && d in k.writing[n])
      || (exists f :: f in k.pending && d in k.pending[f].refs)
      || (exists f :: f in k.recorded && d in k.recorded[f].refs)
  {
    forall f | f in k.pending && d in k.pending[f].refs ensures d in Referred(j, fs) {
      assert f in Named(fs);
      var i :| 0 <= i < |fs| && fs[i] == f;
      assert d in Lookup(j, fs[i]);
    }
    forall f | f in k.recorded && d in k.recorded[f].refs ensures d in Referred(j, gs) {
      assert f in Named(gs);
      var i :| 0 <= i < |gs| && gs[i] == f;
      assert d in Lookup(j, gs[i]);
    }
    if d in Referred(j, fs) {
      var i :| 0 <= i < |fs| && d in Lookup(j, fs[i]);
      assert fs[i] in Named(fs);
    }
    if d in Referred(j, gs) {
      var i :| 0 <= i < |gs| && d in Lookup(j, gs[i]);
      assert gs[i] in Named(gs);
    }
  }

  /** A manifest disappears only by expiring, and only while no cleaner runs. */
  lemma ManifestsOnlyExpire(s: State, e: Event, f: Name)
    requires Inv(s) && (f in s.disk.pending || f in s.disk.recorded)
    ensures var k' := Step(s, e).disk;
      || (f in k'.pending && f in s.disk.pending && k'.pending[f] == s.disk.pending[f])
      || (f in k'.recorded && Lookup(k', f) == Lookup(s.disk, f))
      || (e == Expire(f) && f in s.disk.recorded && s.cleaner.Idle?)
  {
  }

  /** A manifest appears only by the one publication of a save that has all its chunks in place, and is that save's. */
  lemma ManifestsAppear(s: State, e: Event, f: Name)
    requires f in Step(s, e).disk.pending && f !in s.disk.pending
    ensures e.Publish? && e.file == f && e.n in s.saves && !s.saves[e.n].published && s.saves[e.n].done == s.saves[e.n].manifest.refs
    ensures var t := Step(s, e);
      t.disk.pending[f] == s.saves[e.n].manifest && e.n in t.saves && t.saves[e.n].published
  {
  }

  predicate CleanerMove(e: Event) {
    e.Advance? || e.ReadOne? || e.DeleteBatch? || e.CollectEnd? || e.CleanerDies?
  }

  lemma StillListing(s: State, e: Event)
    requires s.cleaner.ListingPending? && s.cleaner.must <= s.disk.pending.Keys && !CleanerMove(e)
    ensures var t := Step(s, e);
      t.cleaner.ListingPending? && t.cleaner.live == s.cleaner.live && t.cleaner.must <= s.cleaner.must && t.cleaner.must <= t.disk.pending.Keys
  {
  }

  /** While the cleaner lists the pending area others may rename anything away: whatever listing holds the names that were
      there all the time is one the cleaner may get. */
  lemma {:induction false} AnyListing(s: State, es: seq<Event>, names: set<Name>)
    requires s.cleaner.ListingPending? && s.cleaner.must <= s.disk.pending.Keys
    requires forall i :: 0 <= i < |es| ==> !CleanerMove(es[i])
    ensures var t := Run(s, es);
      && t.cleaner.ListingPending? && t.cleaner.live == s.cleaner.live
      && t.cleaner.must <= s.cleaner.must && t.cleaner.must <= t.disk.pending.Keys
      && (s.cleaner.must * t.disk.pending.Keys <= names ==> Step(t, Advance(names)).cleaner == ReadingPending(s.cleaner.live, names))
    decreases |es|
  {
    if es != [] {
      AnyListing(s, es[..|es| - 1], names);
      StillListing(Run(s, es[..|es| - 1]), es[|es| - 1]);
    }
  }

  // ------------------------------------------------------------------ the directory and its operations

  /** What a collection that runs alone must keep. */
  function Needed(k: Disk): set<Digest> {
    PinFiles(k.writing)
    + (set f, d | f in k.pending && d in k.pending[f].refs :: d)
    + (set f, d | f in k.recorded && d in k.recorded[f].refs :: d)
  }

  const BATCH := 128

  class SpoolDirectory {
    var chunks: map<Digest, int>
    var pending: map<Name, Manifest>
    var recorded: map<Name, Manifest>
    var writing: map<Name, set<Digest>>
    var active: bool
    var journal: seq<set<Digest>>

    function Contents(): Disk
      reads this
    {
      Disk(chunks, pending, recorded, writing, active, journal)
    }

    constructor ()
      ensures Contents() == Disk(map[], map[], map[], map[], false, [])
    {
      chunks, pending, recorded, writing, active, journal := map[], map[], map[], map[], false, [];
    }

    /** One step under the spool lock. */
    method PinAll(n: Name, digests: set<Digest>)
      modifies this
      ensures Contents() == PinChunks(old(Contents()), n, digests)
      ensures writing == old(writing)[n := digests]
      ensures journal == if active then old(journal) + [digests] else old(journal)
    {
      writing := writing[n := digests];
      if active {
        journal := journal + [digests];
      }
    }

    method WriteOne(d: Digest, now: int)
      modifies this
      ensures Contents() == PutChunk(old(Contents()), d, now)
      ensures chunks == if d in old(chunks) then old(chunks) else old(chunks)[d := now]
    {
      if d in chunks {
        return;
      }
      chunks := chunks[d := now];
    }

    /** A whole save with nobody else running: every chunk stored, the manifest pending, the pin gone. */
    method SaveAlone(n: Name, file: Name, m: Manifest, now: int)
      requires n !in writing && file !in pending && file !in recorded
      modifies this
      ensures chunks.Keys == old(chunks).Keys + m.refs
      ensures forall d :: d in chunks ==> chunks[d] == if d in old(chunks) then old(chunks)[d] else now
      ensures pending == old(pending)[file := m] && recorded == old(recorded) && writing == old(writing)
      ensures active == old(active) && journal == if active then old(journal) + [m.refs] else old(journal)
    {
      PinAll(n, m.refs);
      var todo := m.refs;
      while todo != {}
        invariant todo <= m.refs
        invariant chunks.Keys == old(chunks).Keys + (m.refs - todo)
        invariant forall d :: d in chunks ==> chunks[d] == if d in old(chunks) then old(chunks)[d] else now
        invariant pending == old(pending) && recorded == old(recorded)
        invariant writing == old(writing)[n := m.refs]
        invariant active == old(active) && journal == if active then old(journal) + [m.refs] else old(journal)
        decreases todo
      {
        var d :| d in todo;
        WriteOne(d, now);
        todo := todo - {d};
      }
      pending := pending[file := m];
      writing := writing - {n};
    }

    method MarkRecorded(file: Name)
      requires file in pending
      modifies this
      ensures Contents() == MoveToRecorded(old(Contents()), file)
    {
      recorded := recorded[file := pending[file]];
      pending := pending - {file};
    }

    method StartCollection() returns (live: set<Digest>)
      modifies this
      ensures Contents() == old(Contents()).(active := true, journal := [])
      ensures live == PinFiles(writing)
    {
      journal, active := [], true;
      live := {};
      var todo := writing.Keys;
      while todo != {}
        invariant todo <= writing.Keys
        invariant live == set n, d | n in writing && n !in todo && d in writing[n] :: d
        decreases todo
      {
        var n :| n in todo;
        live, todo := live + writing[n], todo - {n};
      }
    }

    method ReadArchive(file: Name) returns (refs: Option<set<Digest>>)
      ensures refs == if Unreadable(Contents(), file) then None else Some(Lookup(Contents(), file))
    {
      if file !in pending && file !in recorded {
        return Some({});
      }
      var m := if file in pending then pending[file] else recorded[file];
      if m.corrupt || !(m.pages <= chunks.Keys) {
        return None;
      }
      return Some(m.refs);
    }

    /** Take over the journal lines added since `offset`. */
    method TakePins(live0: set<Digest>, offset0: nat) returns (live: set<Digest>, offset: nat)
      requires offset0 <= |journal|
      ensures live == live0 + Pinned(journal[offset0..]) && offset == |journal|
    {
      live, offset := live0, offset0;
      while offset < |journal|
        invariant offset0 <= offset <= |journal|
        invariant live == live0 + Pinned(journal[offset0..offset])
      {
        PinnedAppend(journal[offset0..offset], journal[offset]);
        assert journal[offset0..offset + 1] == journal[offset0..offset] + [journal[offset]];
        live := live + journal[offset];
        offset := offset + 1;
      }
      assert journal[..offset] == journal;
    }

    method UnlinkUnneeded(live: set<Digest>, batch: set<Digest>, covered: int) returns (removed: nat)
      requires batch <= chunks.Keys
      modifies this`chunks
      ensures chunks == SurvivingChunks(old(chunks), live, batch, covered)
      ensures chunks.Keys <= old(chunks).Keys && forall d :: d in chunks ==> chunks[d] == old(chunks)[d]
      ensures forall d :: d in old(chunks) ==> (d !in chunks <==> d in batch && d !in live && old(chunks)[d] <= covered)
      ensures removed == |old(chunks)| - |chunks|
    {
      removed := 0;
      var todo := batch;
      while todo != {}
        invariant todo <= batch && todo <= chunks.Keys
        invariant chunks.Keys <= old(chunks).Keys
        invariant forall d :: d in old(chunks) ==>
          (d in chunks <==> (d !in batch || d in todo || d in live || old(chunks)[d] > covered))
        invariant forall d :: d in chunks ==> chunks[d] == old(chunks)[d]
        invariant removed + |chunks| == |old(chunks)|
        decreases todo
      {
        var d :| d in todo;
        todo := todo - {d};
        if d !in live && chunks[d] <= covered {
          assert |chunks.Keys - {d}| == |chunks.Keys| - 1;
          assert (chunks - {d}).Keys == chunks.Keys - {d};
          chunks := chunks - {d};
          removed := removed + 1;
        }
      }
    }

    /** One locked batch: the latest pins first, then the deletions. */
    method RemoveBatch(live0: set<Digest>, offset0: nat, batch: set<Digest>, covered: int)
      returns (live: set<Digest>, offset: nat, removed: nat)
      requires offset0 <= |journal| && batch <= chunks.Keys
      modifies this`chunks
      ensures live == live0 + Pinned(journal[offset0..]) && offset == |journal|
      ensures chunks == SurvivingChunks(old(chunks), live, batch, covered)
      ensures chunks.Keys <= old(chunks).Keys && forall d :: d in chunks ==> chunks[d] == old(chunks)[d]
      ensures forall d :: d in old(chunks) ==> (d !in chunks <==> d in batch && old(chunks)[d] <= covered && d !in live)
      ensures removed == |old(chunks)| - |chunks|
    {
      live, offset := TakePins(live0, offset0);
      removed := UnlinkUnneeded(live, batch, covered);
    }

    method FinishCollection()
      modifies this
      ensures Contents() == old(Contents()).(active := false, journal := [])
    {
      active, journal := false, [];
    }

    /** Reads the listed archives; `None` when one of them is unreadable. */
    method ScanArchives(live0: set<Digest>, names: set<Name>) returns (live: Option<set<Digest>>)
      ensures live.None? <==> exists f :: f in names && Unreadable(Contents(), f)
      ensures live.Some? ==> live.value == live0 + set f, d | f in names && d in Lookup(Contents(), f) :: d
    {
      var found, todo := live0, names;
      while todo != {}
        invariant todo <= names
        invariant found == live0 + set f, d | f in names && f !in todo && d in Lookup(Contents(), f) :: d
        invariant forall f :: f in names && f !in todo ==> !Unreadable(Contents(), f)
        decreases todo
      {
        var f :| f in todo;
        var refs := ReadArchive(f);
        if refs.None? {
          return None;
        }
        found, todo := found + refs.value, todo - {f};
      }
      return Some(found);
    }

    /** All archives, pending first and recorded after them, on top of the pins. */
    method ScanAll(pins: set<Digest>) returns (live: Option<set<Digest>>)
      requires pending.Keys !! recorded.Keys && pins == PinFiles(writing)
      ensures live.None? <==> exists f :: f in pending.Keys + recorded.Keys && Unreadable(Contents(), f)
      ensures live.Some? ==> live.value == Needed(Contents())
    {
      live := ScanArchives(pins, pending.Keys);
      if live.Some? {
        live := ScanArchives(live.value, recorded.Keys);
      }
      assert forall f :: f in pending ==> Lookup(Contents(), f) == pending[f].refs;
      assert forall f :: f in recorded ==> Lookup(Contents(), f) == recorded[f].refs;
    }

    /** Offer every candidate once, in batches. */
    method DeleteUnneeded(live0: set<Digest>, offered: set<Digest>, covered: int) returns (count: nat)
      requires journal == []
      modifies this`chunks
      ensures chunks == SurvivingChunks(old(chunks), live0, offered, covered)
      ensures chunks.Keys <= old(chunks).Keys && forall d :: d in chunks ==> chunks[d] == old(chunks)[d]
      ensures forall d :: d in old(chunks) ==> (d !in chunks <==> d in offered && d !in live0 && old(chunks)[d] <= covered)
      ensures count == |old(chunks)| - |chunks|
    {
      var todo, batch, offset, live, removed := offered, {}, 0, live0, 0;
      count := 0;
      while todo != {}
        invariant todo <= offered && batch <= chunks.Keys && |batch| < BATCH
        invariant live == live0 && offset == 0 && count + |chunks| == |old(chunks)|
        invariant chunks.Keys <= old(chunks).Keys && forall d :: d in chunks ==> chunks[d] == old(chunks)[d]
        invariant forall d :: d in old(chunks) && d !in chunks ==> DueForDeletion(d, old(chunks)[d], live0, offered, covered)
        invariant forall d :: d in chunks && DueForDeletion(d, chunks[d], live0, offered, covered) ==> d in todo || d in batch
        invariant batch <= offered
        decreases todo
      {
        var d :| d in todo;
        todo := todo - {d};
        if d in chunks && d !in live {
          batch := batch + {d};
          if |batch| >= BATCH {
            live, offset, removed := RemoveBatch(live, offset, batch, covered);
            assert Pinned([]) == {};
            count, batch := count + removed, {};
          }
        }
      }
      if batch != {} {
        live, offset, removed := RemoveBatch(live, offset, batch, covered);
        assert Pinned([]) == {};
        count := count + removed;
      }
      WhatIsLeft(old(chunks), chunks, live0, offered, covered);
    }

    /** Exactly the chunks due are gone, so the others are those that survive. */
    static lemma WhatIsLeft(was: map<Digest, int>, now: map<Digest, int>, live: set<Digest>, offered: set<Digest>, covered: int)
      requires now.Keys <= was.Keys && forall d :: d in now ==> now[d] == was[d]
      requires forall d :: d in was && d !in now ==> DueForDeletion(d, was[d], live, offered, covered)
      requires forall d :: d in now ==> !DueForDeletion(d, now[d], live, offered, covered)
      ensures now == SurvivingChunks(was, live, offered, covered)
    {
    }

    static ghost predicate DueForDeletion(d: Digest, time: int, live: set<Digest>, offered: set<Digest>, covered: int) {
      d in offered && d !in live && time <= covered
    }

    /** What a collection that runs alone needs, named one by one. */
    lemma NeededMeaning(d: Digest)
      ensures d in Needed(Contents()) <==>
        || (exists n :: n in writing && d in writing[n])
        || (exists f :: f in pending && d in pending[f].refs)
        || (exists f :: f in recorded && d in recorded[f].refs)
    {
    }

    /** A collection that nothing interrupts keeps exactly what is needed, too young, or not offered. */
    method PruneFileChunks(covered: int, candidates: Option<set<Digest>>) returns (removed: Option<nat>)
      requires pending.Keys !! recorded.Keys
      modifies this
      ensures pending == old(pending) && recorded == old(recorded) && writing == old(writing)
      ensures !active && journal == []
      ensures removed.None? <==>
        || (exists f :: f in pending && (pending[f].corrupt || !(pending[f].pages <= old(chunks).Keys)))
        || (exists f :: f in recorded && (recorded[f].corrupt || !(recorded[f].pages <= old(chunks).Keys)))
      ensures removed.None? ==> chunks == old(chunks)
      ensures chunks.Keys <= old(chunks).Keys && forall d :: d in chunks ==> chunks[d] == old(chunks)[d]
      ensures removed.Some? ==> forall d :: d in old(chunks) ==>
        (d !in chunks <==>
          && (candidates.Some? ==> d in candidates.value) && old(chunks)[d] <= covered
          && (forall n :: n in writing ==> d !in writing[n])
          && (forall f :: f in pending ==> d !in pending[f].refs)
          && (forall f :: f in recorded ==> d !in recorded[f].refs))
      ensures removed.Some? ==>
        && removed.value == |old(chunks)| - |chunks|
        && chunks == SurvivingChunks(old(chunks), Needed(old(Contents())),
                       if candidates.Some? then candidates.value else old(chunks).Keys, covered)
    {
      var pins := StartCollection();
      assert forall f {:trigger Unreadable(Contents(), f)} {:trigger Unreadable(old(Contents()), f)} ::
          Unreadable(Contents(), f) == Unreadable(old(Contents()), f);
      var live := ScanAll(pins);
      assert forall f :: f in pending ==>
        (Unreadable(Contents(), f) <==> pending[f].corrupt || !(pending[f].pages <= chunks.Keys));
      assert forall f :: f in recorded ==>
        (Unreadable(Contents(), f) <==> recorded[f].corrupt || !(recorded[f].pages <= chunks.Keys));
      if live.Some? {
        forall d ensures d in live.value <==>
          || (exists n :: n in writing && d in writing[n])
          || (exists f :: f in pending && d in pending[f].refs)
          || (exists f :: f in recorded && d in recorded[f].refs)
        {
          NeededMeaning(d);
        }
        var count := DeleteUnneeded(live.value, if candidates.Some? then candidates.value else chunks.Keys, covered);
        removed := Some(count);
      } else {
        removed := None;
      }
      FinishCollection();
    }
  }
}
