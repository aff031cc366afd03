/** The compact projection: a validated whole-network snapshot is cut down to the pool's own accounting inputs
    and the best network reference per algorithm and track.  Nothing the pool computes from it changes. */
module CompactView {
  import opened Basics
  import opened Sorting
  import opened Sums
  import opened QualifierCredit

  datatype Header = Header(id: string, height: nat, round: nat, timestamp: nat)

  /** What selection reads of an algorithm; `active` is its activation round. */
  datatype Info = Info(challenge: string, adoption: nat, banned: bool, active: Option<nat>)

  /** `counts`: qualifiers by track and player. */
  datatype Algorithm = Algorithm(info: Info, counts: map<(string, string), nat>)

  /** What selection reads of a challenge; `tracks` gives each active track's minimum number of bundles. */
  datatype Config = Config(gpu: bool, active: nat, tracks: map<string, nat>, maxFuel: nat, baseFee: nat, bundleFee: nat)

  /** `totals`: qualifiers by track. */
  datatype Challenge = Challenge(config: Config, totals: map<string, nat>)

  /** Hyperparameters are opaque here; `None` asks for the algorithm's defaults. */
  type Parameters = Option<nat>

  type Pair = (string, string)

  datatype Reference = Reference(bundle: Bundle, parameters: Parameters)

  /** `opow`: qualifiers by player, challenge and track.  `references` is present in a compact snapshot only. */
  datatype Snapshot = Snapshot(header: Header, actives: seq<Active>, parameters: map<string, Parameters>,
                               algorithms: map<string, Algorithm>, challenges: map<string, Challenge>,
                               opow: map<(string, string, string), nat>, references: Option<map<Pair, Reference>>)

  function Bundles(s: Snapshot): seq<Bundle> {
    AllBundles(s.actives)
  }

  function CountKeys(algorithms: map<string, Algorithm>): set<Group> {
    set a, k | a in algorithms && k in algorithms[a].counts :: Group(k.1, algorithms[a].info.challenge, a, k.0)
  }

  /** The qualifier counts of all algorithms, by group. */
  function QuotasOf(algorithms: map<string, Algorithm>): Quotas {
    map g | g in CountKeys(algorithms) :: algorithms[g.algorithm].counts[(g.track, g.player)]
  }

  /** Which groups are counted together: one player's or everyone's on a track, or one player's in a challenge. */
  datatype Scope = PlayerTrack(p: string, c: string, t: string) | Track(c: string, t: string) | PlayerChallenge(p: string, c: string)
  {
    predicate Has(g: Group) {
      && g.challenge == c
      && (PlayerTrack? || PlayerChallenge? ==> g.player == p)
      && (PlayerTrack? || Track? ==> g.track == t)
    }
  }

  function Within(q: Quotas, scope: Scope): set<Group> {
    set g | g in q && scope.Has(g)
  }

  ghost function Qualifiers(q: Quotas, scope: Scope): nat {
    CountOver(Within(q, scope), q)
  }

  function Opow(s: Snapshot, player: string, challenge: string, track: string): nat {
    if (player, challenge, track) in s.opow then s.opow[(player, challenge, track)] else 0
  }

  function TrackTotal(s: Snapshot, challenge: string, track: string): nat {
    if challenge in s.challenges && track in s.challenges[challenge].totals then s.challenges[challenge].totals[track] else 0
  }

  // ------------------------------------------------------------------ validation

  ghost predicate ActivesFit(s: Snapshot) {
    && DistinctBenchmarks(s.actives)
    && forall i :: 0 <= i < |s.actives| ==>
      var a := s.actives[i];
      && a.benchmark in s.parameters && a.group.algorithm in s.algorithms && a.group.challenge in s.challenges
      && s.algorithms[a.group.algorithm].info.challenge == a.group.challenge
      && (a.live <==> a.group.track in s.challenges[a.group.challenge].config.tracks)
  }

  /** What validation of block tables and bundles demands: counts within the available bundles, and totals that
      reconcile by player and by challenge. */
  ghost predicate Valid(s: Snapshot) {
    && ActivesFit(s)
    && Fits(Bundles(s), QuotasOf(s.algorithms))
    && (forall p, c, t :: Qualifiers(QuotasOf(s.algorithms), PlayerTrack(p, c, t)) == Opow(s, p, c, t))
    && (forall c :: c in s.challenges ==> s.challenges[c].totals.Keys == s.challenges[c].config.tracks.Keys)
    && (forall c, t :: Qualifiers(QuotasOf(s.algorithms), Track(c, t)) == TrackTotal(s, c, t))
  }

  /** The extra demands on a compact snapshot: nobody else's qualifiers, and a usable reference for every pair that
      has an active bundle, none worse than a bundle at hand. */
  ghost predicate ValidCompact(s: Snapshot, player: string) {
    && Valid(s) && s.references.Some?
    && (forall g :: g in QuotasOf(s.algorithms) ==> g.player == player)
    && (forall pair :: pair in s.references.value ==>
          ReferenceFits(s, pair, s.references.value[pair]))
    && (forall b :: b in Bundles(s) ==>
          (b.group.algorithm, b.group.track) in s.references.value
          && SlotLe(s.references.value[(b.group.algorithm, b.group.track)].bundle.slot, b.slot))
  }

  ghost predicate ReferenceFits(s: Snapshot, pair: Pair, r: Reference) {
    var g := r.bundle.group;
    && pair == (g.algorithm, g.track) && g.algorithm in s.algorithms && g.challenge in s.challenges
    && s.algorithms[g.algorithm].info.challenge == g.challenge && g.track in s.challenges[g.challenge].config.tracks
    && (r.bundle.slot.benchmark in s.parameters ==> r.parameters == s.parameters[r.bundle.slot.benchmark])
  }

  // ------------------------------------------------------------------ best references

  function PairOf(b: Bundle): Pair {
    (b.group.algorithm, b.group.track)
  }

  function BestUpTo(bundles: seq<Bundle>, n: nat): map<Pair, Bundle>
    requires n <= |bundles|
  {
    if n == 0 then map[]
    else
      var best, b := BestUpTo(bundles, n - 1), bundles[n - 1];
      if PairOf(b) in best && SlotLe(best[PairOf(b)].slot, b.slot) then best else best[PairOf(b) := b]
  }

  function Best(bundles: seq<Bundle>): map<Pair, Bundle> {
    BestUpTo(bundles, |bundles|)
  }

  /** The best bundle of a pair belongs to it and comes first by quality, benchmark and position. */
  lemma {:induction false} BestIsFirst(bundles: seq<Bundle>, n: nat)
    requires n <= |bundles|
    ensures forall pair :: pair in BestUpTo(bundles, n) ==>
      BestUpTo(bundles, n)[pair] in bundles[..n] && PairOf(BestUpTo(bundles, n)[pair]) == pair
    ensures forall i :: 0 <= i < n ==>
      PairOf(bundles[i]) in BestUpTo(bundles, n) && SlotLe(BestUpTo(bundles, n)[PairOf(bundles[i])].slot, bundles[i].slot)
  {
    if n > 0 {
      BestIsFirst(bundles, n - 1);
      SlotOrder();
      assert bundles[..n] == bundles[..n - 1] + [bundles[n - 1]];
    }
  }

  method IndexReferences(bundles: seq<Bundle>) returns (best: map<Pair, Bundle>)
    ensures best == Best(bundles)
  {
    best := map[];
    var i := 0;
    while i < |bundles|
      invariant i <= |bundles| && best == BestUpTo(bundles, i)
    {
      var b := bundles[i];
      if PairOf(b) !in best || !SlotLe(best[PairOf(b)].slot, b.slot) {
        best := best[PairOf(b) := b];
      }
      i := i + 1;
    }
  }

  function ReferenceTo(s: Snapshot, b: Bundle): Reference {
    Reference(b, if b.slot.benchmark in s.parameters then s.parameters[b.slot.benchmark] else None)
  }

  /** The references selection uses, with the parameters to copy. */
  function References(s: Snapshot): map<Pair, Reference> {
    if s.references.Some? then s.references.value
    else map pair | pair in Best(Bundles(s)) :: ReferenceTo(s, Best(Bundles(s))[pair])
  }

  // ------------------------------------------------------------------ the projection

  function PoolActives(actives: seq<Active>, n: nat, player: string): seq<Active>
    requires n <= |actives|
  {
    if n == 0 then []
    else PoolActives(actives, n - 1, player) + if actives[n - 1].group.player == player then [actives[n - 1]] else []
  }

  function PoolCounts(counts: map<(string, string), nat>, player: string): map<(string, string), nat> {
    map k | k in counts && k.1 == player :: counts[k]
  }

  function PoolAlgorithms(algorithms: map<string, Algorithm>, player: string): map<string, Algorithm> {
    map a | a in algorithms :: Algorithm(algorithms[a].info, PoolCounts(algorithms[a].counts, player))
  }

  ghost function PoolChallenge(s: Snapshot, player: string, c: string): Challenge
    requires c in s.challenges
  {
    var config := s.challenges[c].config;
    Challenge(config, map t | t in config.tracks :: Qualifiers(QuotasOf(s.algorithms), PlayerTrack(player, c, t)))
  }

  function Benchmarks(actives: seq<Active>): set<string> {
    set i | 0 <= i < |actives| :: actives[i].benchmark
  }

  ghost function Compact(s: Snapshot, player: string): Snapshot {
    var actives := PoolActives(s.actives, |s.actives|, player);
    Snapshot(s.header, actives,
             map k | k in s.parameters && k in Benchmarks(actives) :: s.parameters[k],
             PoolAlgorithms(s.algorithms, player),
             map c | c in s.challenges :: PoolChallenge(s, player, c),
             map k | k in s.opow && k.0 == player :: s.opow[k],
             Some(References(s)))
  }

  lemma InQuotas(algorithms: map<string, Algorithm>, g: Group)
    ensures g in QuotasOf(algorithms) <==>
      g.algorithm in algorithms && algorithms[g.algorithm].info.challenge == g.challenge
      && (g.track, g.player) in algorithms[g.algorithm].counts
  {
    if g.algorithm in algorithms && algorithms[g.algorithm].info.challenge == g.challenge
       && (g.track, g.player) in algorithms[g.algorithm].counts {
      assert Group((g.track, g.player).1, algorithms[g.algorithm].info.challenge, g.algorithm, (g.track, g.player).0) == g;
    }
  }

  /** The pool's quotas survive, nobody else's do. */
  lemma PoolQuotas(algorithms: map<string, Algorithm>, player: string)
    ensures var q, pool := QuotasOf(algorithms), QuotasOf(PoolAlgorithms(algorithms, player));
      forall g :: (g in pool <==> g in q && g.player == player) && (g in pool ==> pool[g] == q[g])
  {
    forall g: Group
      ensures g in QuotasOf(PoolAlgorithms(algorithms, player)) <==> g in QuotasOf(algorithms) && g.player == player
    {
      InQuotas(algorithms, g);
      InQuotas(PoolAlgorithms(algorithms, player), g);
    }
  }

  /** Counting the pool's own qualifiers gives the same in both. */
  lemma PoolQualifiers(algorithms: map<string, Algorithm>, player: string, scope: Scope)
    requires !scope.Track?
    ensures Qualifiers(QuotasOf(PoolAlgorithms(algorithms, player)), scope)
         == if scope.p == player then Qualifiers(QuotasOf(algorithms), scope) else 0
  {
    var q, pool := QuotasOf(algorithms), QuotasOf(PoolAlgorithms(algorithms, player));
    PoolQuotas(algorithms, player);
    if scope.p == player {
      assert Within(pool, scope) == Within(q, scope);
      CountAgrees(Within(q, scope), q, pool);
    } else {
      assert Within(pool, scope) == {};
    }
  }

  lemma PoolTrack(algorithms: map<string, Algorithm>, player: string, c: string, t: string)
    ensures Qualifiers(QuotasOf(PoolAlgorithms(algorithms, player)), Track(c, t))
         == Qualifiers(QuotasOf(algorithms), PlayerTrack(player, c, t)) <= Qualifiers(QuotasOf(algorithms), Track(c, t))
  {
    var q, pool := QuotasOf(algorithms), QuotasOf(PoolAlgorithms(algorithms, player));
    PoolQuotas(algorithms, player);
    assert Within(pool, Track(c, t)) == Within(q, PlayerTrack(player, c, t));
    CountAgrees(Within(pool, Track(c, t)), q, pool);
    CountGrows(Within(q, PlayerTrack(player, c, t)), Within(q, Track(c, t)), q);
  }

  // ------------------------------------------------------------------ the pool's bundles

  lemma {:induction false} BundlesPrefix(xs: seq<Active>, ys: seq<Active>, n: nat)
    requires n <= |xs|
    ensures BundlesUpTo(xs + ys, n) == BundlesUpTo(xs, n)
  {
    if n > 0 { BundlesPrefix(xs, ys, n - 1); }
  }

  lemma AppendActive(xs: seq<Active>, a: Active)
    ensures AllBundles(xs + [a]) == AllBundles(xs) + BundlesOf(a)
  {
    BundlesPrefix(xs, [a], |xs|);
  }

  lemma {:induction false} PoolBundlesUpTo(actives: seq<Active>, n: nat, player: string, b: Bundle)
    requires n <= |actives|
    ensures b in AllBundles(PoolActives(actives, n, player)) <==> b in BundlesUpTo(actives, n) && b.group.player == player
  {
    if n > 0 {
      PoolBundlesUpTo(actives, n - 1, player, b);
      AppendActive(PoolActives(actives, n - 1, player), actives[n - 1]);
      var before := PoolActives(actives, n - 1, player);
      assert before + [] == before;
    }
  }

  lemma PoolBundles(s: Snapshot, player: string, b: Bundle)
    ensures b in Bundles(Compact(s, player)) <==> b in Bundles(s) && b.group.player == player
  {
    PoolBundlesUpTo(s.actives, |s.actives|, player, b);
  }

  lemma {:induction false} PoolActivesFrom(actives: seq<Active>, n: nat, player: string)
    requires n <= |actives| && DistinctBenchmarks(actives)
    ensures DistinctBenchmarks(PoolActives(actives, n, player))
    ensures forall a :: a in PoolActives(actives, n, player) <==> a in actives[..n] && a.group.player == player
  {
    if n > 0 {
      PoolActivesFrom(actives, n - 1, player);
      assert actives[..n] == actives[..n - 1] + [actives[n - 1]];
      var before := PoolActives(actives, n - 1, player);
      forall i | 0 <= i < |before| ensures before[i].benchmark != actives[n - 1].benchmark {
        assert before[i] in actives[..n - 1];
      }
    }
  }

  /** A pool group holds the same bundles in both; other groups are gone. */
  lemma PoolGroup(s: Snapshot, player: string, g: Group)
    ensures GroupSlots(Bundles(Compact(s, player)), g) == if g.player == player then GroupSlots(Bundles(s), g) else {}
  {
    forall x ensures x in GroupSlots(Bundles(Compact(s, player)), g) <==> x in GroupSlots(Bundles(s), g) && g.player == player {
      InGroup(Bundles(Compact(s, player)), g, x);
      InGroup(Bundles(s), g, x);
      PoolBundles(s, player, Bundle(g, x));
    }
  }

  lemma PoolQuota(algorithms: map<string, Algorithm>, player: string, g: Group)
    ensures Quota(QuotasOf(PoolAlgorithms(algorithms, player)), g) == if g.player == player then Quota(QuotasOf(algorithms), g) else 0
  {
    PoolQuotas(algorithms, player);
  }

  lemma SameWant(a: seq<Bundle>, p: Quotas, b: seq<Bundle>, q: Quotas, g: Group)
    requires GroupSlots(a, g) == GroupSlots(b, g) && Quota(p, g) == Quota(q, g)
    ensures Want(a, p, g) == Want(b, q, g)
  {
  }

  lemma NothingWanted(a: seq<Bundle>, p: Quotas, g: Group)
    requires GroupSlots(a, g) == {}
    ensures Want(a, p, g) == map[]
  {
  }

  lemma PoolWant(s: Snapshot, player: string, g: Group)
    ensures Want(Bundles(Compact(s, player)), QuotasOf(Compact(s, player).algorithms), g)
         == if g.player == player then Want(Bundles(s), QuotasOf(s.algorithms), g) else map[]
  {
    var c := Compact(s, player);
    var bundles, quotas := Bundles(c), QuotasOf(c.algorithms);
    PoolGroup(s, player, g);
    PoolQuota(s.algorithms, player, g);
    if g.player == player {
      SameWant(bundles, quotas, Bundles(s), QuotasOf(s.algorithms), g);
    } else {
      NothingWanted(bundles, quotas, g);
    }
  }

  // ------------------------------------------------------------------ theorems

  lemma InWant(bundles: seq<Bundle>, q: Quotas, b: Bundle)
    requires b in bundles
    ensures b.group in Groups(bundles) && b.slot in Want(bundles, q, b.group)
  {
    InGroup(bundles, b.group, b.slot);
  }

  lemma SettledGives(bundles: seq<Bundle>, q: Quotas, credits: map<Slot, real>, b: Bundle)
    requires Settled(bundles, q, Groups(bundles), credits) && b in bundles
    ensures b.slot in Want(bundles, q, b.group) && b.slot in credits && credits[b.slot] == Want(bundles, q, b.group)[b.slot]
  {
    InWant(bundles, q, b);
  }

  lemma CreditPreserved(s: Snapshot, player: string, all: map<Slot, real>, pool: map<Slot, real>, b: Bundle)
    requires Settled(Bundles(s), QuotasOf(s.algorithms), Groups(Bundles(s)), all)
    requires var c := Compact(s, player);
      Settled(Bundles(c), QuotasOf(c.algorithms), Groups(Bundles(c)), pool)
    requires b in Bundles(s) && b.group.player == player
    ensures b.slot in all && b.slot in pool && pool[b.slot] == all[b.slot]
  {
    var c := Compact(s, player);
    PoolBundles(s, player, b);
    PoolWant(s, player, b.group);
    SettledGives(Bundles(s), QuotasOf(s.algorithms), all, b);
    SettledGives(Bundles(c), QuotasOf(c.algorithms), pool, b);
  }

  /** The compact snapshot's credit map is the network's, restricted to the pool's bundles. */
  lemma CreditsPreserved(s: Snapshot, player: string, all: map<Slot, real>, pool: map<Slot, real>)
    requires Settled(Bundles(s), QuotasOf(s.algorithms), Groups(Bundles(s)), all)
    requires var c := Compact(s, player);
      Settled(Bundles(c), QuotasOf(c.algorithms), Groups(Bundles(c)), pool)
    ensures forall b :: b in Bundles(s) && b.group.player == player ==>
      b.slot in all && b.slot in pool && pool[b.slot] == all[b.slot]
    ensures forall x :: x in pool ==> exists g: Group :: g.player == player && Bundle(g, x) in Bundles(s)
  {
    var c := Compact(s, player);
    forall b | b in Bundles(s) && b.group.player == player
      ensures b.slot in all && b.slot in pool && pool[b.slot] == all[b.slot]
    {
      CreditPreserved(s, player, all, pool, b);
    }
    forall x | x in pool ensures exists g: Group :: g.player == player && Bundle(g, x) in Bundles(s) {
      var g :| g in Groups(Bundles(c)) && x in Want(Bundles(c), QuotasOf(c.algorithms), g);
      PoolWant(s, player, g);
      InGroup(Bundles(s), g, x);
    }
  }

  lemma CompactActivesFit(s: Snapshot, player: string)
    requires ActivesFit(s)
    ensures ActivesFit(Compact(s, player))
  {
    var c := Compact(s, player);
    PoolActivesFrom(s.actives, |s.actives|, player);
    assert s.actives[..|s.actives|] == s.actives;
    forall i | 0 <= i < |c.actives| ensures c.actives[i] in s.actives && c.actives[i].benchmark in c.parameters {
      assert c.actives[i] in c.actives;
      assert c.actives[i].benchmark in Benchmarks(c.actives);
      var k :| 0 <= k < |s.actives| && s.actives[k] == c.actives[i];
    }
  }

  lemma CompactFits(s: Snapshot, player: string)
    requires Valid(s)
    ensures Fits(Bundles(Compact(s, player)), QuotasOf(Compact(s, player).algorithms))
  {
    PoolQuotas(s.algorithms, player);
    forall g | g in QuotasOf(Compact(s, player).algorithms)
      ensures QuotasOf(Compact(s, player).algorithms)[g] <= |GroupSlots(Bundles(Compact(s, player)), g)|
    {
      PoolGroup(s, player, g);
    }
  }

  lemma CompactOpow(s: Snapshot, player: string, p: string, ch: string, t: string)
    requires Valid(s)
    ensures Qualifiers(QuotasOf(Compact(s, player).algorithms), PlayerTrack(p, ch, t)) == Opow(Compact(s, player), p, ch, t)
  {
    PoolQualifiers(s.algorithms, player, PlayerTrack(p, ch, t));
    assert Qualifiers(QuotasOf(s.algorithms), PlayerTrack(p, ch, t)) == Opow(s, p, ch, t);
  }

  lemma CompactTrack(s: Snapshot, player: string, ch: string, t: string)
    requires Valid(s)
    ensures Qualifiers(QuotasOf(Compact(s, player).algorithms), Track(ch, t)) == TrackTotal(Compact(s, player), ch, t)
  {
    PoolTrack(s.algorithms, player, ch, t);
    assert Qualifiers(QuotasOf(s.algorithms), Track(ch, t)) == TrackTotal(s, ch, t);
  }

  /** Cutting a valid snapshot down to the pool leaves all totals reconciled. */
  lemma CompactIsValid(s: Snapshot, player: string)
    requires Valid(s)
    ensures Valid(Compact(s, player))
  {
    var c := Compact(s, player);
    var q := QuotasOf(c.algorithms);
    CompactActivesFit(s, player);
    CompactFits(s, player);
    forall p, ch, t ensures Qualifiers(q, PlayerTrack(p, ch, t)) == Opow(c, p, ch, t) {
      CompactOpow(s, player, p, ch, t);
    }
    forall ch, t ensures Qualifiers(q, Track(ch, t)) == TrackTotal(c, ch, t) {
      CompactTrack(s, player, ch, t);
    }
    assert forall ch :: ch in c.challenges ==> c.challenges[ch].totals.Keys == c.challenges[ch].config.tracks.Keys;
  }

  /** The tables of totals, entry by entry: the compact snapshot keeps the pool's own reports, and its track totals are what
      the network reports for the pool there, while the network's are the qualifiers of everyone. */
  lemma CompactTotals(s: Snapshot, player: string, c: string, t: string)
    requires Valid(s)
    ensures var k := Compact(s, player);
      && (forall x :: x in k.opow <==> x in s.opow && x.0 == player) && (forall x :: x in k.opow ==> k.opow[x] == s.opow[x])
      && k.challenges.Keys == s.challenges.Keys
    ensures c in s.challenges && t in s.challenges[c].config.tracks ==>
      && t in s.challenges[c].totals && s.challenges[c].totals[t] == Qualifiers(QuotasOf(s.algorithms), Track(c, t))
      && t in Compact(s, player).challenges[c].totals
      && Compact(s, player).challenges[c].totals[t] == if (player, c, t) in s.opow then s.opow[(player, c, t)] else 0
  {
    assert Qualifiers(QuotasOf(s.algorithms), PlayerTrack(player, c, t)) == Opow(s, player, c, t);
    assert Qualifiers(QuotasOf(s.algorithms), Track(c, t)) == TrackTotal(s, c, t);
  }

  lemma BundleFits(s: Snapshot, b: Bundle)
    requires ActivesFit(s) && b in Bundles(s)
    ensures b.group.algorithm in s.algorithms && b.group.challenge in s.challenges && b.slot.benchmark in s.parameters
    ensures s.algorithms[b.group.algorithm].info.challenge == b.group.challenge
    ensures b.group.track in s.challenges[b.group.challenge].config.tracks
  {
    BundleOrigin(s.actives, |s.actives|, b);
  }

  lemma BestFits(s: Snapshot, player: string, pair: Pair)
    requires Valid(s) && s.references.None? && pair in References(s)
    ensures ReferenceFits(Compact(s, player), pair, References(s)[pair])
  {
    BestIsFirst(Bundles(s), |Bundles(s)|);
    BundleFits(s, Best(Bundles(s))[pair]);
  }

  lemma NoPoolBundleAhead(s: Snapshot, player: string, b: Bundle)
    requires s.references.None? && b in Bundles(Compact(s, player))
    ensures PairOf(b) in References(s) && SlotLe(References(s)[PairOf(b)].bundle.slot, b.slot)
  {
    PoolBundles(s, player, b);
    BestIsFirst(Bundles(s), |Bundles(s)|);
    var i :| 0 <= i < |Bundles(s)| && Bundles(s)[i] == b;
  }

  /** The compact form of a valid snapshot passes its own, stricter validation. */
  lemma CompactIsAccepted(s: Snapshot, player: string)
    requires Valid(s) && s.references.None?
    ensures ValidCompact(Compact(s, player), player)
  {
    var c := Compact(s, player);
    CompactIsValid(s, player);
    PoolQuotas(s.algorithms, player);
    forall pair | pair in References(s) ensures ReferenceFits(c, pair, References(s)[pair]) {
      BestFits(s, player, pair);
    }
    forall b | b in Bundles(c) ensures PairOf(b) in References(s) && SlotLe(References(s)[PairOf(b)].bundle.slot, b.slot) {
      NoPoolBundleAhead(s, player, b);
    }
  }

  /** The reference kept for a pair is the network's best bundle there, with its own parameters. */
  lemma ReferencesAreTheNetworksBest(s: Snapshot, player: string, pair: Pair)
    requires Valid(s) && s.references.None?
    ensures pair in References(Compact(s, player)) <==> exists b :: b in Bundles(s) && PairOf(b) == pair
    ensures pair in References(Compact(s, player)) ==>
      var r := References(Compact(s, player))[pair];
      && r.bundle in Bundles(s) && PairOf(r.bundle) == pair
      && r.bundle.slot.benchmark in s.parameters && r.parameters == s.parameters[r.bundle.slot.benchmark]
      && forall b :: b in Bundles(s) && PairOf(b) == pair ==> SlotLe(r.bundle.slot, b.slot)
  {
    BestIsFirst(Bundles(s), |Bundles(s)|);
    if pair in References(s) {
      BundleFits(s, References(s)[pair].bundle);
    }
  }

  // ------------------------------------------------------------------ selection

  datatype Binary = Binary(compiles: bool, confirmed: nat)

  datatype TrackOffer = TrackOffer(bundles: nat, fuel: nat, parameters: Parameters, reference: Option<Slot>)

  datatype Choice = DataError | NoWork | Work(round: nat, block: string, challenge: string, algorithm: string,
                                              tracks: map<string, TrackOffer>, base: nat, fee: nat)

  /** Everything selection reads: header, algorithm and challenge settings, the pool's qualifiers per challenge and
      the references. */
  datatype View = View(header: Header, infos: map<string, Info>, configs: map<string, Config>, counts: map<string, nat>,
                       references: map<Pair, Reference>)

  function Infos(s: Snapshot): map<string, Info> {
    map a | a in s.algorithms :: s.algorithms[a].info
  }

  function Configs(s: Snapshot): map<string, Config> {
    map c | c in s.challenges :: s.challenges[c].config
  }

  ghost function PoolQualifiersBy(algorithms: map<string, Algorithm>, challenges: set<string>, player: string): map<string, nat> {
    map c | c in challenges :: Qualifiers(QuotasOf(algorithms), PlayerChallenge(player, c))
  }

  ghost function ViewOf(s: Snapshot, player: string): View {
    View(s.header, Infos(s), Configs(s), PoolQualifiersBy(s.algorithms, s.challenges.Keys, player), References(s))
  }

  /** An offer, and the two random numbers drawn for it. */
  datatype Offer = Offer(gpu: bool, now: nat, maxAge: nat, fuel: Option<nat>, first: nat, second: nat)

  predicate Eligible(v: View, o: Offer, c: string) {
    c in v.configs && v.configs[c].gpu == o.gpu && v.configs[c].active <= v.header.round && v.configs[c].tracks != map[]
  }

  predicate Considered(v: View, a: string) {
    a in v.infos && !v.infos[a].banned && v.infos[a].active.Some? && v.infos[a].active.value <= v.header.round
  }

  function Usable(v: View, binaries: map<string, Binary>, c: string): set<string> {
    set a | a in v.infos && Considered(v, a) && v.infos[a].challenge == c && a in binaries && binaries[a].compiles
  }

  /** Binary metadata that is missing, or newer than the snapshot, stops the selection. */
  predicate Inconsistent(v: View, o: Offer, binaries: map<string, Binary>) {
    exists a :: a in v.infos && Considered(v, a) && Eligible(v, o, v.infos[a].challenge)
      && (a !in binaries || (binaries[a].compiles && binaries[a].confirmed > v.header.height))
  }

  function Candidates(v: View, o: Offer, binaries: map<string, Binary>): set<string> {
    set c | c in v.configs && Eligible(v, o, c) && Usable(v, binaries, c) != {}
  }

  /** Challenges in which the pool has fewest qualifiers. */
  function Fewest(v: View, among: set<string>): set<string> {
    set c | c in among && c in v.counts && forall d :: d in among && d in v.counts ==> v.counts[c] <= v.counts[d]
  }

  /** Algorithms with the highest overall adoption. */
  function Highest(v: View, among: set<string>): set<string> {
    set a | a in among && a in v.infos && forall b :: b in among && b in v.infos ==> v.infos[a].adoption >= v.infos[b].adoption
  }

  predicate First(s: set<string>, m: string) {
    m in s && forall x :: x in s ==> TextLe(m, x)
  }

  /** The earlier of a name and the first of the rest. */
  lemma EarlierIsFirst(s: set<string>, m: string, n: string)
    requires m in s && First(s - {m}, n)
    ensures First(s, if TextLe(n, m) then n else m)
  {
    TextLeLaws(m, n, n);
    forall x | x in s ensures TextLe(if TextLe(n, m) then n else m, x) {
      if x == m {
        TextLeLaws(m, m, m);
      } else {
        assert x in s - {m};
        TextLeLaws(m, n, x);
      }
    }
  }

  lemma {:induction false} FirstExists(s: set<string>)
    requires s != {}
    ensures exists m :: First(s, m)
    decreases s
  {
    var m :| m in s;
    if s == {m} {
      TextLeLaws(m, m, m);
      assert First(s, m);
    } else {
      FirstExists(s - {m});
      var n :| First(s - {m}, n);
      EarlierIsFirst(s, m, n);
    }
  }

  /** A set of names in alphabetical order. */
  ghost function Listing(s: set<string>): (l: seq<string>)
    ensures |l| == |s| && forall i :: 0 <= i < |l| ==> l[i] in s
    decreases s
  {
    if s == {} then []
    else
      FirstExists(s);
      var m :| First(s, m);
      [m] + Listing(s - {m})
  }

  /** The one at a random place in the list. */
  ghost function Pick(s: set<string>, r: nat): (x: string)
    requires s != {}
    ensures x in s
  {
    Listing(s)[r % |s|]
  }

  function OfferedTrack(v: View, algorithm: string, t: string, bundles: nat, fuel: nat): TrackOffer {
    if (algorithm, t) in v.references then
      var r := v.references[(algorithm, t)];
      TrackOffer(bundles, fuel, r.parameters, Some(r.bundle.slot))
    else TrackOffer(bundles, fuel, None, None)
  }

  const UNIT := 1_000_000_000_000_000_000

  ghost function Largest(tracks: map<string, nat>): nat
    decreases tracks.Keys
  {
    if tracks == map[] then 0
    else
      var t :| t in tracks;
      var rest := Largest(tracks - {t});
      if tracks[t] > rest then tracks[t] else rest
  }

  /** The terms for the chosen algorithm: every active track is offered, at the best reference's parameters. */
  ghost function Terms(v: View, o: Offer, challenge: string, algorithm: string): Choice
    requires challenge in v.configs
  {
    var config := v.configs[challenge];
    var fuel := if o.fuel.Some? then o.fuel.value else config.maxFuel;
    if fuel > config.maxFuel || (exists t :: t in config.tracks && config.tracks[t] == 0) then DataError
    else
      Work(v.header.round, v.header.id, challenge, algorithm,
           map t | t in config.tracks :: OfferedTrack(v, algorithm, t, config.tracks[t], fuel),
           10 * UNIT * Largest(config.tracks), config.baseFee + config.bundleFee * Largest(config.tracks))
  }

  /** Selection as a function of what it reads and of the two numbers drawn. */
  ghost function Choose(v: View, o: Offer, binaries: map<string, Binary>): Choice {
    if v.header.timestamp > o.now + 5 || v.header.timestamp + o.maxAge < o.now || Inconsistent(v, o, binaries) then DataError
    else
      var ties := Fewest(v, Candidates(v, o, binaries));
      if ties == {} then NoWork
      else
        var challenge := Pick(ties, o.first);
        var best := Highest(v, Usable(v, binaries, challenge));
        if best == {} then NoWork else Terms(v, o, challenge, Pick(best, o.second))
  }

  lemma {:induction false} FewestExists(v: View, among: set<string>)
    requires among != {} && among <= v.counts.Keys
    ensures Fewest(v, among) != {}
    decreases among
  {
    var c :| c in among;
    if among == {c} {
      assert c in Fewest(v, among);
    } else {
      FewestExists(v, among - {c});
      var d :| d in Fewest(v, among - {c});
      assert (if v.counts[d] <= v.counts[c] then d else c) in Fewest(v, among);
    }
  }

  lemma {:induction false} HighestExists(v: View, among: set<string>)
    requires among != {} && among <= v.infos.Keys
    ensures Highest(v, among) != {}
    decreases among
  {
    var a :| a in among;
    if among == {a} {
      assert a in Highest(v, among);
    } else {
      HighestExists(v, among - {a});
      var b :| b in Highest(v, among - {a});
      assert (if v.infos[b].adoption >= v.infos[a].adoption then b else a) in Highest(v, among);
    }
  }

  /** Work is refused for want of candidates only, and chosen work is on a candidate challenge where the pool has
      fewest qualifiers, with the most adopted of its usable algorithms. */
  lemma ChoiceIsFair(v: View, o: Offer, binaries: map<string, Binary>)
    requires v.counts.Keys == v.configs.Keys
    ensures Choose(v, o, binaries).NoWork? ==> Candidates(v, o, binaries) == {}
    ensures var w := Choose(v, o, binaries);
      w.Work? ==>
        && w.challenge in Candidates(v, o, binaries)
        && (forall d :: d in Candidates(v, o, binaries) ==> v.counts[w.challenge] <= v.counts[d])
        && w.algorithm in Usable(v, binaries, w.challenge)
        && (forall a :: a in Usable(v, binaries, w.challenge) ==> v.infos[w.algorithm].adoption >= v.infos[a].adoption)
  {
    if Candidates(v, o, binaries) != {} {
      FewestExists(v, Candidates(v, o, binaries));
      HighestExists(v, Usable(v, binaries, Pick(Fewest(v, Candidates(v, o, binaries)), o.first)));
    }
  }

  lemma QualifiersPreserved(algorithms: map<string, Algorithm>, challenges: set<string>, player: string)
    ensures PoolQualifiersBy(PoolAlgorithms(algorithms, player), challenges, player) == PoolQualifiersBy(algorithms, challenges, player)
  {
    forall c | c in challenges
      ensures PoolQualifiersBy(PoolAlgorithms(algorithms, player), challenges, player)[c] == PoolQualifiersBy(algorithms, challenges, player)[c]
    {
      PoolQualifiers(algorithms, player, PlayerChallenge(player, c));
    }
  }

  /** Everything selection reads is the same in both. */
  lemma ViewPreserved(s: Snapshot, player: string)
    requires s.references.None?
    ensures ViewOf(Compact(s, player), player) == ViewOf(s, player)
  {
    var c := Compact(s, player);
    QualifiersPreserved(s.algorithms, s.challenges.Keys, player);
    SettingsPreserved(s, player);
    var small, full := ViewOf(c, player), ViewOf(s, player);
    assert small.references == full.references && small.header == full.header;
    assert small.counts == full.counts;
  }

  lemma SettingsPreserved(s: Snapshot, player: string)
    ensures Compact(s, player).challenges.Keys == s.challenges.Keys
    ensures Infos(Compact(s, player)) == Infos(s) && Configs(Compact(s, player)) == Configs(s)
  {
  }

  /** Selection from the compact snapshot is selection from the network, for every offer and every draw. */
  lemma ChoicePreserved(s: Snapshot, player: string, o: Offer, binaries: map<string, Binary>)
    requires s.references.None?
    ensures Choose(ViewOf(Compact(s, player), player), o, binaries) == Choose(ViewOf(s, player), o, binaries)
  {
    ViewPreserved(s, player);
  }
}
