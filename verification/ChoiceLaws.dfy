/** What a selection promises about the work it names, field by field, when it names none, and that chance excludes nobody. */
module ChoiceLaws {
  import opened Basics
  import opened CompactView

  /** Algorithm a of challenge c is active and not banned, its binary compiled, and the challenge is active, of the offered
      kind and has tracks. */
  predicate Playable(v: View, o: Offer, binaries: map<string, Binary>, c: string, a: string) {
    && c in v.configs && v.configs[c].gpu == o.gpu && v.configs[c].active <= v.header.round && v.configs[c].tracks.Keys != {}
    && a in v.infos && v.infos[a].challenge == c && !v.infos[a].banned
    && v.infos[a].active.Some? && v.infos[a].active.value <= v.header.round
    && a in binaries && binaries[a].compiles
  }

  /** The snapshot is neither from the future nor too old. */
  predicate Timely(v: View, o: Offer) {
    o.now <= v.header.timestamp + o.maxAge && v.header.timestamp <= o.now + 5
  }

  /** Some algorithm that selection would look at has no binary metadata, or a compiled binary confirmed after the snapshot. */
  predicate Torn(v: View, o: Offer, binaries: map<string, Binary>) {
    exists a :: a in v.infos && v.infos[a].challenge in v.configs
      && v.configs[v.infos[a].challenge].gpu == o.gpu && v.configs[v.infos[a].challenge].active <= v.header.round
      && v.configs[v.infos[a].challenge].tracks.Keys != {}
      && !v.infos[a].banned && v.infos[a].active.Some? && v.infos[a].active.value <= v.header.round
      && (a !in binaries || (binaries[a].compiles && v.header.height < binaries[a].confirmed))
  }

  lemma PlayableMeans(v: View, o: Offer, binaries: map<string, Binary>, c: string, a: string)
    ensures Playable(v, o, binaries, c, a) <==> Eligible(v, o, c) && a in Usable(v, binaries, c)
  {
  }

  lemma CandidateMeans(v: View, o: Offer, binaries: map<string, Binary>, c: string)
    ensures c in Candidates(v, o, binaries) <==> exists a :: Playable(v, o, binaries, c, a)
  {
    if c in Candidates(v, o, binaries) {
      var a :| a in Usable(v, binaries, c);
      PlayableMeans(v, o, binaries, c, a);
    }
    if a :| Playable(v, o, binaries, c, a) { PlayableMeans(v, o, binaries, c, a); }
  }

  lemma TornMeans(v: View, o: Offer, binaries: map<string, Binary>)
    ensures Inconsistent(v, o, binaries) <==> Torn(v, o, binaries)
  {
    if Inconsistent(v, o, binaries) {
      var a :| a in v.infos && Considered(v, a) && Eligible(v, o, v.infos[a].challenge)
        && (a !in binaries || (binaries[a].compiles && binaries[a].confirmed > v.header.height));
    }
    if Torn(v, o, binaries) {
      var a :| a in v.infos && v.infos[a].challenge in v.configs
        && v.configs[v.infos[a].challenge].gpu == o.gpu && v.configs[v.infos[a].challenge].active <= v.header.round
        && v.configs[v.infos[a].challenge].tracks.Keys != {}
        && !v.infos[a].banned && v.infos[a].active.Some? && v.infos[a].active.value <= v.header.round
        && (a !in binaries || (binaries[a].compiles && v.header.height < binaries[a].confirmed));
      assert Considered(v, a) && Eligible(v, o, v.infos[a].challenge);
    }
  }

  /** No work exactly when the data is good and nothing is playable. */
  lemma NoWorkLaw(v: View, o: Offer, binaries: map<string, Binary>)
    requires v.counts.Keys == v.configs.Keys
    ensures Choose(v, o, binaries).NoWork? <==>
      Timely(v, o) && !Torn(v, o, binaries) && forall c, a :: !Playable(v, o, binaries, c, a)
  {
    TornMeans(v, o, binaries);
    var all := Candidates(v, o, binaries);
    if all != {} {
      FewestExists(v, all);
      var c := Pick(Fewest(v, all), o.first);
      HighestExists(v, Usable(v, binaries, c));
      var d :| d in all;
      CandidateMeans(v, o, binaries, d);
    } else {
      forall c, a ensures !Playable(v, o, binaries, c, a) { CandidateMeans(v, o, binaries, c); }
    }
  }

  // ------------------------------------------------------------------ the chosen work

  lemma {:induction false} LargestMeans(tracks: map<string, nat>)
    requires tracks != map[]
    ensures exists t :: t in tracks && tracks[t] == Largest(tracks)
    ensures forall t :: t in tracks ==> tracks[t] <= Largest(tracks)
    decreases tracks.Keys
  {
    var t :| t in tracks && Largest(tracks) == if tracks[t] > Largest(tracks - {t}) then tracks[t] else Largest(tracks - {t});
    var rest := tracks - {t};
    if rest == map[] {
      assert forall u :: u in tracks ==> u == t || u in rest;
      assert tracks[t] == Largest(tracks);
    } else {
      LargestMeans(rest);
      var u :| u in rest && rest[u] == Largest(rest);
      assert u in tracks && tracks[u] == rest[u];
      assert tracks[if tracks[t] > Largest(rest) then t else u] == Largest(tracks);
      forall k | k in tracks ensures tracks[k] <= Largest(tracks) {
        if k != t { assert k in rest; }
      }
    }
  }

  /** What a track is offered at: its minimum number of bundles, the offered fuel or else all that is allowed, and the
      parameters of the best bundle there is for the algorithm on it. */
  predicate Offered(v: View, o: Offer, c: string, a: string, t: string, x: TrackOffer)
    requires c in v.configs && t in v.configs[c].tracks
  {
    && x.bundles == v.configs[c].tracks[t] && x.bundles >= 1
    && x.fuel <= v.configs[c].maxFuel && (if o.fuel.Some? then x.fuel == o.fuel.value else x.fuel == v.configs[c].maxFuel)
    && ((a, t) in v.references ==>
          x.parameters == v.references[(a, t)].parameters && x.reference == Some(v.references[(a, t)].bundle.slot))
    && ((a, t) !in v.references ==> x.parameters.None? && x.reference.None?)
  }

  /** Ten tokens of collateral and the bundle fee for each bundle of the largest track, and the base fee. */
  predicate Priced(v: View, c: string, base: nat, fee: nat)
    requires c in v.configs
  {
    exists t :: t in v.configs[c].tracks
      && (forall u :: u in v.configs[c].tracks ==> v.configs[c].tracks[u] <= v.configs[c].tracks[t])
      && base == 10 * 1_000_000_000_000_000_000 * v.configs[c].tracks[t]
      && fee == v.configs[c].baseFee + v.configs[c].bundleFee * v.configs[c].tracks[t]
  }

  /** The fuel asked for is allowed, and every track of the challenge asks for bundles. */
  predicate WellSet(v: View, o: Offer, c: string)
    requires c in v.configs
  {
    && (o.fuel.Some? ==> o.fuel.value <= v.configs[c].maxFuel)
    && forall t :: t in v.configs[c].tracks ==> v.configs[c].tracks[t] >= 1
  }

  lemma TermsHappen(v: View, o: Offer, c: string, a: string)
    requires c in v.configs
    ensures var w := Terms(v, o, c, a);
      if WellSet(v, o, c) then w.Work? && w.challenge == c && w.algorithm == a else w.DataError?
  {
    assert (exists t :: t in v.configs[c].tracks && v.configs[c].tracks[t] == 0) <==>
      !(forall t :: t in v.configs[c].tracks ==> v.configs[c].tracks[t] >= 1);
  }

  lemma TermsMean(v: View, o: Offer, c: string, a: string)
    requires c in v.configs && v.configs[c].tracks != map[] && Terms(v, o, c, a).Work?
    ensures var w := Terms(v, o, c, a);
      && w.round == v.header.round && w.block == v.header.id && w.challenge == c && w.algorithm == a
      && w.tracks.Keys == v.configs[c].tracks.Keys
      && (forall t :: t in w.tracks ==> Offered(v, o, c, a, t, w.tracks[t]))
      && Priced(v, c, w.base, w.fee)
  {
    LargestMeans(v.configs[c].tracks);
  }

  /** The work a selection names: on a playable pair, where the pool has fewest qualifiers of all challenges with something
      playable and then the most adopted algorithm, offered and priced track by track. */
  lemma WorkLaw(v: View, o: Offer, binaries: map<string, Binary>)
    requires v.counts.Keys == v.configs.Keys && Choose(v, o, binaries).Work?
    ensures var w := Choose(v, o, binaries);
      && Timely(v, o) && !Torn(v, o, binaries) && Playable(v, o, binaries, w.challenge, w.algorithm)
      && binaries[w.algorithm].confirmed <= v.header.height
      && (forall c, a :: Playable(v, o, binaries, c, a) ==> v.counts[w.challenge] <= v.counts[c])
      && (forall a :: Playable(v, o, binaries, w.challenge, a) ==> v.infos[a].adoption <= v.infos[w.algorithm].adoption)
      && w.round == v.header.round && w.block == v.header.id && w.tracks.Keys == v.configs[w.challenge].tracks.Keys
      && (forall t :: t in w.tracks ==> Offered(v, o, w.challenge, w.algorithm, t, w.tracks[t]))
      && Priced(v, w.challenge, w.base, w.fee)
  {
    var w := Choose(v, o, binaries);
    TornMeans(v, o, binaries);
    ChoiceIsFair(v, o, binaries);
    PlayableMeans(v, o, binaries, w.challenge, w.algorithm);
    TermsMean(v, o, w.challenge, w.algorithm);
    forall c, a | Playable(v, o, binaries, c, a) ensures v.counts[w.challenge] <= v.counts[c] { CandidateMeans(v, o, binaries, c); }
    forall a | Playable(v, o, binaries, w.challenge, a) ensures v.infos[a].adoption <= v.infos[w.algorithm].adoption {
      PlayableMeans(v, o, binaries, w.challenge, a);
    }
  }

  /** Data is refused when it is out of time or torn, and otherwise only for a challenge that could be chosen and is badly set
      or offered too much fuel. */
  lemma ErrorLaw(v: View, o: Offer, binaries: map<string, Binary>)
    requires v.counts.Keys == v.configs.Keys
    ensures !Timely(v, o) || Torn(v, o, binaries) ==> Choose(v, o, binaries).DataError?
    ensures Choose(v, o, binaries).DataError? && Timely(v, o) && !Torn(v, o, binaries) ==>
      exists c, a :: Playable(v, o, binaries, c, a) && !WellSet(v, o, c) && forall d, b :: Playable(v, o, binaries, d, b) ==> v.counts[c] <= v.counts[d]
  {
    TornMeans(v, o, binaries);
    if Choose(v, o, binaries).DataError? && Timely(v, o) && !Torn(v, o, binaries) {
      var c := Pick(Fewest(v, Candidates(v, o, binaries)), o.first);
      var a := Pick(Highest(v, Usable(v, binaries, c)), o.second);
      CandidateMeans(v, o, binaries, c);
      PlayableMeans(v, o, binaries, c, a);
      TermsHappen(v, o, c, a);
      forall d, b | Playable(v, o, binaries, d, b) ensures v.counts[c] <= v.counts[d] { CandidateMeans(v, o, binaries, d); }
      assert Playable(v, o, binaries, c, a);
    }
  }

  // ------------------------------------------------------------------ chance

  lemma {:induction false} Listed(s: set<string>, x: string) returns (i: nat)
    requires x in s
    ensures i < |Listing(s)| && Listing(s)[i] == x
    decreases s
  {
    var m := Listing(s)[0];
    if x == m {
      i := 0;
    } else {
      assert Listing(s)[1..] == Listing(s - {m});
      i := Listed(s - {m}, x);
      i := i + 1;
    }
  }

  lemma SmallRest(r: nat, n: nat)
    requires r < n
    ensures r % n == r
  {
  }

  lemma PickReaches(s: set<string>, x: string) returns (r: nat)
    requires x in s
    ensures Pick(s, r) == x && r < |s|
  {
    r := Listed(s, x);
    SmallRest(r, |s|);
  }

  lemma TiedChallenge(v: View, o: Offer, binaries: map<string, Binary>, c: string, a: string)
    requires v.counts.Keys == v.configs.Keys && Playable(v, o, binaries, c, a)
    requires forall d, b :: Playable(v, o, binaries, d, b) ==> v.counts[c] <= v.counts[d]
    ensures c in Fewest(v, Candidates(v, o, binaries))
  {
    CandidateMeans(v, o, binaries, c);
    forall d | d in Candidates(v, o, binaries) ensures v.counts[c] <= v.counts[d] {
      CandidateMeans(v, o, binaries, d);
      var b :| Playable(v, o, binaries, d, b);
    }
  }

  lemma TiedAlgorithm(v: View, o: Offer, binaries: map<string, Binary>, c: string, a: string)
    requires Playable(v, o, binaries, c, a)
    requires forall b :: Playable(v, o, binaries, c, b) ==> v.infos[b].adoption <= v.infos[a].adoption
    ensures a in Highest(v, Usable(v, binaries, c))
  {
    PlayableMeans(v, o, binaries, c, a);
    forall b | b in Usable(v, binaries, c) ensures v.infos[b].adoption <= v.infos[a].adoption { PlayableMeans(v, o, binaries, c, b); }
  }

  lemma SameDraws(v: View, o: Offer, p: Offer, binaries: map<string, Binary>)
    requires p == o.(first := p.first, second := p.second)
    ensures Candidates(v, p, binaries) == Candidates(v, o, binaries) && Inconsistent(v, p, binaries) == Inconsistent(v, o, binaries)
    ensures forall c, a :: c in v.configs ==> Terms(v, p, c, a) == Terms(v, o, c, a)
  {
    assert forall c :: Eligible(v, p, c) == Eligible(v, o, c);
  }

  lemma Drawn(v: View, o: Offer, binaries: map<string, Binary>, c: string, a: string)
    requires Timely(v, o) && !Inconsistent(v, o, binaries) && c in v.configs
    requires c in Fewest(v, Candidates(v, o, binaries)) && Pick(Fewest(v, Candidates(v, o, binaries)), o.first) == c
    requires a in Highest(v, Usable(v, binaries, c)) && Pick(Highest(v, Usable(v, binaries, c)), o.second) == a
    ensures Choose(v, o, binaries) == Terms(v, o, c, a)
  {
  }

  /** Chance excludes nobody: every challenge tied for fewest qualifiers, with every algorithm tied for most adopted there, is
      chosen at some draw. */
  lemma EveryTieCanBeDrawn(v: View, o: Offer, binaries: map<string, Binary>, c: string, a: string) returns (first: nat, second: nat)
    requires v.counts.Keys == v.configs.Keys && Timely(v, o) && !Torn(v, o, binaries) && Playable(v, o, binaries, c, a)
    requires forall d, b :: Playable(v, o, binaries, d, b) ==> v.counts[c] <= v.counts[d]
    requires forall b :: Playable(v, o, binaries, c, b) ==> v.infos[b].adoption <= v.infos[a].adoption
    ensures var w := Choose(v, o.(first := first, second := second), binaries);
      if WellSet(v, o, c) then w.Work? && w.challenge == c && w.algorithm == a else w.DataError?
  {
    TermsHappen(v, o, c, a);
    TornMeans(v, o, binaries);
    TiedChallenge(v, o, binaries, c, a);
    TiedAlgorithm(v, o, binaries, c, a);
    first := PickReaches(Fewest(v, Candidates(v, o, binaries)), c);
    second := PickReaches(Highest(v, Usable(v, binaries, c)), a);
    var p := o.(first := first, second := second);
    SameDraws(v, o, p, binaries);
    Drawn(v, p, binaries, c, a);
  }
}
