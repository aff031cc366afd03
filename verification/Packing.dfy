/** Packing an observation into a manifest tree and content-addressed chunks, and replaying it. */
module Packing {
  import opened Basics
  import Paging
  import Sorting

  datatype Json = Null | Bool(b: bool) | Num(n: int) | Str(s: string) | Arr(items: seq<Json>) | Obj(fields: Fields)

  /** A dictionary as its key-sorted fields. */
  datatype Fields = End | Field(key: string, value: Json, rest: Fields)

  /** What a chunk file holds: the canonical text of a value or of a manifest tree, or digests back to back. */
  datatype Raw = Text(value: Json) | DigestPage(digests: seq<int>) | Tree(node: Node)

  datatype Node =
    | Dict(children: Children)
    | PageRefs(refs: seq<int>)
    | ItemRefs(refs: seq<int>)
    | Blob(ref: int)
    | Records(refs: seq<int>)
    | Value(value: Json)

  datatype Children = NoChild | Child(key: string, node: Node, rest: Children)

  /** The hash, the length of a canonical text, and the two boundary selectors. */
  datatype Codec = Codec(hash: Raw -> int, size: Json -> nat, recordCut: int -> bool, itemCut: string -> bool)
  {
    /** Distinct contents have distinct digests. */
    ghost predicate Injective() {
      forall a, b :: hash(a) == hash(b) ==> a == b
    }
  }

  const BLOB_THRESHOLD := 8192

  predicate IsRecordList(v: Json) {
    v.Arr? && forall i :: 0 <= i < |v.items| ==> v.items[i].Obj?
  }

  /** The block's active-id lists, the only string lists stored sorted. */
  predicate IsActiveIds(v: Json, path: seq<string>) {
    && v.Arr? && v.items != [] && (forall i :: 0 <= i < |v.items| ==> v.items[i].Str?)
    && |path| >= 3 && path[|path| - 3] == "data" && path[|path| - 2] == "active_ids"
  }

  // ------------------------------------------------------------------ encoding

  function Digests(c: Codec, items: seq<Json>): (r: seq<int>)
    ensures |r| == |items| && forall i :: 0 <= i < |r| ==> r[i] == c.hash(Text(items[i]))
  {
    seq(|items|, i requires 0 <= i < |items| => c.hash(Text(items[i])))
  }

  function ByDigest(c: Codec): (Json, Json) -> bool {
    (a, b) => c.hash(Text(a)) <= c.hash(Text(b))
  }

  function Ordered(c: Codec, items: seq<Json>): seq<Json> {
    Sorting.Sort(items, ByDigest(c))
  }

  function Strings(items: seq<Json>): (r: seq<string>)
    requires forall i :: 0 <= i < |items| ==> items[i].Str?
    ensures |r| == |items| && forall i :: 0 <= i < |r| ==> Str(r[i]) == items[i]
  {
    seq(|items|, i requires 0 <= i < |items| => items[i].s)
  }

  function Listing(strings: seq<string>): (r: Json)
    ensures r.Arr? && |r.items| == |strings| && forall i :: 0 <= i < |strings| ==> r.items[i] == Str(strings[i])
  {
    Arr(seq(|strings|, i requires 0 <= i < |strings| => Str(strings[i])))
  }

  function SortedStrings(items: seq<Json>): seq<string>
    requires forall i :: 0 <= i < |items| ==> items[i].Str?
  {
    Sorting.Sort(Strings(items), Sorting.TextLe)
  }

  function RecordPages(c: Codec, items: seq<Json>): seq<seq<int>> {
    Paging.Pages(Digests(c, Ordered(c, items)), c.recordCut, Paging.PAGE_MAXIMUM)
  }

  function ItemPages(c: Codec, items: seq<Json>): seq<seq<string>>
    requires forall i :: 0 <= i < |items| ==> items[i].Str?
  {
    Paging.Pages(SortedStrings(items), c.itemCut, Paging.PAGE_MAXIMUM)
  }

  function PageDigests(c: Codec, pages: seq<seq<int>>): (r: seq<int>)
    ensures |r| == |pages| && forall i :: 0 <= i < |r| ==> r[i] == c.hash(DigestPage(pages[i]))
  {
    seq(|pages|, i requires 0 <= i < |pages| => c.hash(DigestPage(pages[i])))
  }

  function ListingDigests(c: Codec, pages: seq<seq<string>>): (r: seq<int>)
    ensures |r| == |pages| && forall i :: 0 <= i < |r| ==> r[i] == c.hash(Text(Listing(pages[i])))
  {
    seq(|pages|, i requires 0 <= i < |pages| => c.hash(Text(Listing(pages[i]))))
  }

  function Encode(c: Codec, v: Json, path: seq<string>, paged: bool): Node
    decreases v
  {
    if v.Obj? then Dict(EncodeFields(c, v.fields, path, paged))
    else if IsRecordList(v) then
      if paged then PageRefs(PageDigests(c, RecordPages(c, v.items))) else Records(Digests(c, v.items))
    else if paged && IsActiveIds(v, path) then ItemRefs(ListingDigests(c, ItemPages(c, v.items)))
    else if paged && c.size(v) > BLOB_THRESHOLD then Blob(c.hash(Text(v)))
    else Value(v)
  }

  function EncodeFields(c: Codec, f: Fields, path: seq<string>, paged: bool): Children
    decreases f
  {
    match f
    case End => NoChild
    case Field(key, value, rest) =>
      Child(key, Encode(c, value, path + [key], paged), EncodeFields(c, rest, path, paged))
  }

  /** The contents of every chunk the encoding stores. */
  function Chunks(c: Codec, v: Json, path: seq<string>, paged: bool): set<Raw>
    decreases v
  {
    if v.Obj? then FieldChunks(c, v.fields, path, paged)
    else if IsRecordList(v) then
      (set i | 0 <= i < |v.items| :: Text(v.items[i]))
      + (if paged then set i | 0 <= i < |RecordPages(c, v.items)| :: DigestPage(RecordPages(c, v.items)[i]) else {})
    else if paged && IsActiveIds(v, path) then
      set i | 0 <= i < |ItemPages(c, v.items)| :: Text(Listing(ItemPages(c, v.items)[i]))
    else if paged && c.size(v) > BLOB_THRESHOLD then {Text(v)}
    else {}
  }

  function FieldChunks(c: Codec, f: Fields, path: seq<string>, paged: bool): set<Raw>
    decreases f
  {
    match f
    case End => {}
    case Field(key, value, rest) => Chunks(c, value, path + [key], paged) + FieldChunks(c, rest, path, paged)
  }

  /** The observation the manifest replays to. */
  function Canonical(c: Codec, v: Json, path: seq<string>, paged: bool): Json
    decreases v
  {
    if v.Obj? then Obj(CanonicalFields(c, v.fields, path, paged))
    else if IsRecordList(v) then if paged then Arr(Ordered(c, v.items)) else v
    else if paged && IsActiveIds(v, path) then Listing(SortedStrings(v.items))
    else v
  }

  function CanonicalFields(c: Codec, f: Fields, path: seq<string>, paged: bool): Fields
    decreases f
  {
    match f
    case End => End
    case Field(key, value, rest) =>
      Field(key, Canonical(c, value, path + [key], paged), CanonicalFields(c, rest, path, paged))
  }

  // ------------------------------------------------------------------ replaying

  type Store = map<int, Raw>

  ghost predicate Holds(c: Codec, store: Store, raws: set<Raw>) {
    forall r :: r in raws ==> c.hash(r) in store && store[c.hash(r)] == r
  }

  function FetchTexts(store: Store, digests: seq<int>): Option<seq<Json>> {
    if digests == [] then Some([])
    else if digests[0] !in store || !store[digests[0]].Text? then None
    else match FetchTexts(store, digests[1..])
      case None => None
      case Some(rest) => Some([store[digests[0]].value] + rest)
  }

  /** A page must be a nonempty digest list. */
  function FetchPages(store: Store, pages: seq<int>): Option<seq<int>> {
    if pages == [] then Some([])
    else if pages[0] !in store || !store[pages[0]].DigestPage? || store[pages[0]].digests == [] then None
    else match FetchPages(store, pages[1..])
      case None => None
      case Some(rest) => Some(store[pages[0]].digests + rest)
  }

  /** A listing page must be a list of strings. */
  function JoinListings(pages: seq<Json>): Option<seq<Json>> {
    if pages == [] then Some([])
    else if !pages[0].Arr? || (exists i :: 0 <= i < |pages[0].items| && !pages[0].items[i].Str?) then None
    else match JoinListings(pages[1..])
      case None => None
      case Some(rest) => Some(pages[0].items + rest)
  }

  function AsArr(items: Option<seq<Json>>): Option<Json> {
    if items.None? then None else Some(Arr(items.value))
  }

  function Decode(store: Store, node: Node): Option<Json>
    decreases node
  {
    match node
    case Dict(children) =>
      (match DecodeChildren(store, children) case None => None case Some(f) => Some(Obj(f)))
    case PageRefs(refs) =>
      (match FetchPages(store, refs) case None => None case Some(ds) => AsArr(FetchTexts(store, ds)))
    case ItemRefs(refs) =>
      (match FetchTexts(store, refs) case None => None case Some(pages) => AsArr(JoinListings(pages)))
    case Blob(ref) => if ref in store && store[ref].Text? then Some(store[ref].value) else None
    case Records(refs) => AsArr(FetchTexts(store, refs))
    case Value(v) => Some(v)
  }

  function DecodeChildren(store: Store, n: Children): Option<Fields>
    decreases n
  {
    match n
    case NoChild => Some(End)
    case Child(key, node, rest) =>
      match Decode(store, node)
      case None => None
      case Some(v) => match DecodeChildren(store, rest)
        case None => None
        case Some(f) => Some(Field(key, v, f))
  }

  /** Every digest a stored manifest depends on, opening the digest pages it names. */
  function References(store: Store, node: Node): set<int>
    decreases node
  {
    match node
    case Dict(children) => ChildReferences(store, children)
    case PageRefs(refs) =>
      (set d | d in refs) + set p, d | p in refs && p in store && store[p].DigestPage? && d in store[p].digests :: d
    case ItemRefs(refs) => set d | d in refs
    case Blob(ref) => {ref}
    case Records(refs) => set d | d in refs
    case Value(_) => {}
  }

  function ChildReferences(store: Store, n: Children): set<int>
    decreases n
  {
    match n
    case NoChild => {}
    case Child(_, node, rest) => References(store, node) + ChildReferences(store, rest)
  }

  // ------------------------------------------------------------------ round trip

  lemma DigestOrder(c: Codec)
    requires c.Injective()
    ensures Sorting.TotalOrder(ByDigest(c))
  {
    var le := ByDigest(c);
    forall a, b | le(a, b) && le(b, a) ensures a == b {
      assert c.hash(Text(a)) == c.hash(Text(b));
      assert Text(a) == Text(b);
    }
  }

  lemma {:induction false} FetchTextsFinds(c: Codec, store: Store, items: seq<Json>)
    requires forall i :: 0 <= i < |items| ==> c.hash(Text(items[i])) in store && store[c.hash(Text(items[i]))] == Text(items[i])
    ensures FetchTexts(store, Digests(c, items)) == Some(items)
  {
    if items != [] {
      FetchTextsFinds(c, store, items[1..]);
      assert Digests(c, items)[1..] == Digests(c, items[1..]);
      assert items == [items[0]] + items[1..];
    }
  }

  lemma {:induction false} FetchPagesFinds(c: Codec, store: Store, pages: seq<seq<int>>)
    requires forall i :: 0 <= i < |pages| ==> pages[i] != []
    requires forall i :: 0 <= i < |pages| ==> c.hash(DigestPage(pages[i])) in store
    requires forall i :: 0 <= i < |pages| ==> store[c.hash(DigestPage(pages[i]))] == DigestPage(pages[i])
    ensures FetchPages(store, PageDigests(c, pages)) == Some(Paging.Flatten(pages))
  {
    if pages != [] {
      FetchPagesFinds(c, store, pages[1..]);
      assert PageDigests(c, pages)[1..] == PageDigests(c, pages[1..]);
    }
  }

  function Listings(pages: seq<seq<string>>): seq<Json> {
    seq(|pages|, i requires 0 <= i < |pages| => Listing(pages[i]))
  }

  /** Listing pages join exactly when each is a list of strings, and then in their order. */
  lemma {:induction false} JoinMeaning(pages: seq<Json>)
    ensures JoinListings(pages).Some? <==>
      forall k :: 0 <= k < |pages| ==> pages[k].Arr? && forall i :: 0 <= i < |pages[k].items| ==> pages[k].items[i].Str?
    ensures JoinListings(pages).Some? && pages != [] ==> JoinListings(pages).value == pages[0].items + JoinListings(pages[1..]).value
  {
    if pages != [] {
      JoinMeaning(pages[1..]);
      assert forall k :: 1 <= k < |pages| ==> pages[k] == pages[1..][k - 1];
    }
  }

  lemma {:induction false} JoinListingsJoins(pages: seq<seq<string>>)
    ensures JoinListings(Listings(pages)) == Some(Listing(Paging.Flatten(pages)).items)
  {
    if pages != [] {
      JoinListingsJoins(pages[1..]);
      assert Listings(pages)[1..] == Listings(pages[1..]);
      assert Listing(Paging.Flatten(pages)).items == Listing(pages[0]).items + Listing(Paging.Flatten(pages[1..])).items;
    }
  }

  lemma OrderedSame(c: Codec, items: seq<Json>)
    requires c.Injective()
    ensures multiset(Ordered(c, items)) == multiset(items) && |Ordered(c, items)| == |items|
    ensures forall i :: 0 <= i < |items| ==> Ordered(c, items)[i] in items
  {
    DigestOrder(c);
    Sorting.SortSorts(items, ByDigest(c));
    var o := Ordered(c, items);
    assert |o| == |multiset(o)| == |items|;
    forall i | 0 <= i < |items| ensures o[i] in items { assert o[i] in multiset(o); }
  }

  lemma RecordPagesHeld(c: Codec, store: Store, v: Json, path: seq<string>)
    requires IsRecordList(v) && Holds(c, store, Chunks(c, v, path, true))
    ensures forall i :: 0 <= i < |RecordPages(c, v.items)| ==>
      && c.hash(DigestPage(RecordPages(c, v.items)[i])) in store
      && store[c.hash(DigestPage(RecordPages(c, v.items)[i]))] == DigestPage(RecordPages(c, v.items)[i])
  {
    forall i | 0 <= i < |RecordPages(c, v.items)|
      ensures c.hash(DigestPage(RecordPages(c, v.items)[i])) in store
        && store[c.hash(DigestPage(RecordPages(c, v.items)[i]))] == DigestPage(RecordPages(c, v.items)[i])
    {
      assert DigestPage(RecordPages(c, v.items)[i]) in Chunks(c, v, path, true);
    }
  }

  lemma RecordHeld(c: Codec, store: Store, v: Json, path: seq<string>, x: Json)
    requires IsRecordList(v) && Holds(c, store, Chunks(c, v, path, true)) && x in v.items
    ensures c.hash(Text(x)) in store && store[c.hash(Text(x))] == Text(x)
  {
    var j :| 0 <= j < |v.items| && v.items[j] == x;
    assert Text(x) in Chunks(c, v, path, true);
  }

  lemma PagedRecordsReplay(c: Codec, store: Store, v: Json, path: seq<string>)
    requires c.Injective() && IsRecordList(v) && Holds(c, store, Chunks(c, v, path, true))
    ensures Decode(store, Encode(c, v, path, true)) == Some(Canonical(c, v, path, true))
  {
    var o, pages := Ordered(c, v.items), RecordPages(c, v.items);
    OrderedSame(c, v.items);
    Paging.PagesArePaging(Digests(c, o), c.recordCut, Paging.PAGE_MAXIMUM);
    RecordPagesHeld(c, store, v, path);
    FetchPagesFinds(c, store, pages);
    forall i | 0 <= i < |o|
      ensures c.hash(Text(o[i])) in store && store[c.hash(Text(o[i]))] == Text(o[i])
    {
      RecordHeld(c, store, v, path, o[i]);
    }
    FetchTextsFinds(c, store, o);
  }

  lemma InlineRecordsReplay(c: Codec, store: Store, v: Json, path: seq<string>)
    requires IsRecordList(v) && Holds(c, store, Chunks(c, v, path, false))
    ensures Decode(store, Encode(c, v, path, false)) == Some(v)
  {
    forall i | 0 <= i < |v.items|
      ensures c.hash(Text(v.items[i])) in store && store[c.hash(Text(v.items[i]))] == Text(v.items[i])
    {
      assert Text(v.items[i]) in Chunks(c, v, path, false);
    }
    FetchTextsFinds(c, store, v.items);
  }

  lemma ActiveIdsReplay(c: Codec, store: Store, v: Json, path: seq<string>)
    requires IsActiveIds(v, path) && Holds(c, store, Chunks(c, v, path, true))
    ensures Decode(store, Encode(c, v, path, true)) == Some(Canonical(c, v, path, true))
  {
    assert !IsRecordList(v) by { assert v.items[0].Str?; }
    var pages := ItemPages(c, v.items);
    Paging.PagesArePaging(SortedStrings(v.items), c.itemCut, Paging.PAGE_MAXIMUM);
    var texts := Listings(pages);
    forall i | 0 <= i < |texts|
      ensures c.hash(Text(texts[i])) in store && store[c.hash(Text(texts[i]))] == Text(texts[i])
    {
      assert Text(Listing(pages[i])) in Chunks(c, v, path, true);
    }
    FetchTextsFinds(c, store, texts);
    assert Digests(c, texts) == ListingDigests(c, pages);
    JoinListingsJoins(pages);
  }

  /** Replaying a manifest over a store that holds its chunks gives the canonical observation. */
  lemma {:induction false} RoundTrip(c: Codec, store: Store, v: Json, path: seq<string>, paged: bool)
    requires c.Injective() && Holds(c, store, Chunks(c, v, path, paged))
    ensures Decode(store, Encode(c, v, path, paged)) == Some(Canonical(c, v, path, paged))
    decreases v
  {
    if v.Obj? {
      FieldsRoundTrip(c, store, v.fields, path, paged);
    } else if IsRecordList(v) {
      if paged { PagedRecordsReplay(c, store, v, path); } else { InlineRecordsReplay(c, store, v, path); }
    } else if paged && IsActiveIds(v, path) {
      ActiveIdsReplay(c, store, v, path);
    } else if paged && c.size(v) > BLOB_THRESHOLD {
      assert Text(v) in Chunks(c, v, path, paged);
    }
  }

  lemma {:induction false} FieldsRoundTrip(c: Codec, store: Store, f: Fields, path: seq<string>, paged: bool)
    requires c.Injective() && Holds(c, store, FieldChunks(c, f, path, paged))
    ensures DecodeChildren(store, EncodeFields(c, f, path, paged)) == Some(CanonicalFields(c, f, path, paged))
    decreases f
  {
    if f.Field? {
      RoundTrip(c, store, f.value, path + [f.key], paged);
      FieldsRoundTrip(c, store, f.rest, path, paged);
    }
  }

  /** Without paging (custody and report captures) the original order comes back. */
  lemma {:induction false} UnpagedKeepsOrder(c: Codec, v: Json, path: seq<string>)
    ensures Canonical(c, v, path, false) == v
    decreases v
  {
    if v.Obj? { UnpagedFieldsKeepOrder(c, v.fields, path); }
  }

  lemma {:induction false} UnpagedFieldsKeepOrder(c: Codec, f: Fields, path: seq<string>)
    ensures CanonicalFields(c, f, path, false) == f
    decreases f
  {
    if f.Field? {
      UnpagedKeepsOrder(c, f.value, path + [f.key]);
      UnpagedFieldsKeepOrder(c, f.rest, path);
    }
  }

  // ------------------------------------------------------------------ record order does not matter

  /** The same observation up to the order of record lists and active-id lists. */
  ghost predicate Reordered(v: Json, w: Json, path: seq<string>)
    decreases v
  {
    || v == w
    || (v.Obj? && w.Obj? && ReorderedFields(v.fields, w.fields, path))
    || (IsRecordList(v) && IsRecordList(w) && multiset(v.items) == multiset(w.items))
    || (IsActiveIds(v, path) && IsActiveIds(w, path) && multiset(v.items) == multiset(w.items))
  }

  ghost predicate ReorderedFields(f: Fields, g: Fields, path: seq<string>)
    decreases f
  {
    match f
    case End => g.End?
    case Field(key, value, rest) =>
      g.Field? && g.key == key && Reordered(value, g.value, path + [key]) && ReorderedFields(rest, g.rest, path)
  }

  lemma StringsForgetOrder(v: seq<Json>, w: seq<Json>)
    requires (forall i :: 0 <= i < |v| ==> v[i].Str?) && (forall i :: 0 <= i < |w| ==> w[i].Str?)
    requires multiset(v) == multiset(w)
    ensures SortedStrings(v) == SortedStrings(w)
  {
    var text := (j: Json) => if j.Str? then j.s else "";
    Sorting.MappedPermutes(v, w, text);
    assert Strings(v) == Sorting.Mapped(v, text) && Strings(w) == Sorting.Mapped(w, text);
    Sorting.TextOrder();
    Sorting.SortForgetsOrder(Strings(v), Strings(w), Sorting.TextLe);
  }

  lemma SameTexts(v: seq<Json>, w: seq<Json>)
    requires multiset(v) == multiset(w)
    ensures (set i | 0 <= i < |v| :: Text(v[i])) == (set i | 0 <= i < |w| :: Text(w[i]))
  {
    forall i | 0 <= i < |v| ensures v[i] in w { assert v[i] in multiset(w); }
    forall i | 0 <= i < |w| ensures w[i] in v { assert w[i] in multiset(v); }
  }

  lemma RecordOrderIsForgotten(c: Codec, v: Json, w: Json, path: seq<string>)
    requires c.Injective() && IsRecordList(v) && w.Arr? && multiset(v.items) == multiset(w.items)
    ensures Encode(c, v, path, true) == Encode(c, w, path, true)
    ensures Chunks(c, v, path, true) == Chunks(c, w, path, true)
    ensures Canonical(c, v, path, true) == Canonical(c, w, path, true)
  {
    forall i | 0 <= i < |w.items| ensures w.items[i].Obj? { assert w.items[i] in multiset(v.items); }
    DigestOrder(c);
    Sorting.SortForgetsOrder(v.items, w.items, ByDigest(c));
    assert Ordered(c, v.items) == Ordered(c, w.items) && RecordPages(c, v.items) == RecordPages(c, w.items);
    SameTexts(v.items, w.items);
  }

  /** Observations that differ only in such orders get the same manifest, chunks and canonical form. */
  lemma {:induction false} OrderIsForgotten(c: Codec, v: Json, w: Json, path: seq<string>)
    requires c.Injective() && Reordered(v, w, path)
    ensures Encode(c, v, path, true) == Encode(c, w, path, true)
    ensures Chunks(c, v, path, true) == Chunks(c, w, path, true)
    ensures Canonical(c, v, path, true) == Canonical(c, w, path, true)
    decreases v
  {
    if v == w {
    } else if v.Obj? {
      FieldOrderIsForgotten(c, v.fields, w.fields, path);
    } else if IsRecordList(v) {
      RecordOrderIsForgotten(c, v, w, path);
    } else {
      assert w.items[0].Str?;
      StringsForgetOrder(v.items, w.items);
    }
  }

  lemma {:induction false} FieldOrderIsForgotten(c: Codec, f: Fields, g: Fields, path: seq<string>)
    requires c.Injective() && ReorderedFields(f, g, path)
    ensures EncodeFields(c, f, path, true) == EncodeFields(c, g, path, true)
    ensures FieldChunks(c, f, path, true) == FieldChunks(c, g, path, true)
    ensures CanonicalFields(c, f, path, true) == CanonicalFields(c, g, path, true)
    decreases f
  {
    if f.Field? {
      OrderIsForgotten(c, f.value, g.value, path + [f.key]);
      FieldOrderIsForgotten(c, f.rest, g.rest, path);
    }
  }

  lemma {:induction false} CanonicalReorders(c: Codec, v: Json, path: seq<string>)
    requires c.Injective()
    ensures Reordered(v, Canonical(c, v, path, true), path)
    decreases v
  {
    if v.Obj? {
      CanonicalFieldsReorder(c, v.fields, path);
    } else if IsRecordList(v) {
      OrderedSame(c, v.items);
    } else if IsActiveIds(v, path) {
      var s := Strings(v.items);
      Sorting.TextOrder();
      Sorting.SortSorts(s, Sorting.TextLe);
      assert |SortedStrings(v.items)| == |multiset(s)| == |s|;
      ListingPermutes(s, SortedStrings(v.items));
      assert Listing(s).items == v.items;
    }
  }

  lemma ListingPermutes(s: seq<string>, t: seq<string>)
    requires multiset(s) == multiset(t)
    ensures multiset(Listing(s).items) == multiset(Listing(t).items)
  {
    var wrap := (x: string) => Str(x);
    Sorting.MappedPermutes(s, t, wrap);
    assert Listing(s).items == Sorting.Mapped(s, wrap) && Listing(t).items == Sorting.Mapped(t, wrap);
  }

  lemma {:induction false} CanonicalFieldsReorder(c: Codec, f: Fields, path: seq<string>)
    requires c.Injective()
    ensures ReorderedFields(f, CanonicalFields(c, f, path, true), path)
    decreases f
  {
    if f.Field? {
      CanonicalReorders(c, f.value, path + [f.key]);
      CanonicalFieldsReorder(c, f.rest, path);
    }
  }

  /** Canonicalising twice is canonicalising once, and a replayed observation packs to the same chunks. */
  lemma CanonicalIsStable(c: Codec, v: Json)
    requires c.Injective()
    ensures var w := Canonical(c, v, [], true);
      && Canonical(c, w, [], true) == w
      && Encode(c, w, [], true) == Encode(c, v, [], true)
      && Chunks(c, w, [], true) == Chunks(c, v, [], true)
  {
    CanonicalReorders(c, v, []);
    OrderIsForgotten(c, v, Canonical(c, v, [], true), []);
  }

  // ------------------------------------------------------------------ references are what replay fetches

  lemma {:induction false} FlattenMembers<T>(pages: seq<seq<T>>, x: T)
    ensures x in Paging.Flatten(pages) <==> exists i :: 0 <= i < |pages| && x in pages[i]
  {
    if pages != [] {
      FlattenMembers(pages[1..], x);
      if i :| 0 <= i < |pages| && x in pages[i] {
        if i > 0 { assert x in pages[1..][i - 1]; }
      }
      if j :| 0 <= j < |pages[1..]| && x in pages[1..][j] { assert x in pages[j + 1]; }
    }
  }

  function Names(c: Codec, raws: set<Raw>): set<int> {
    set r | r in raws :: c.hash(r)
  }

  lemma NamesUnion(c: Codec, x: set<Raw>, y: set<Raw>)
    ensures Names(c, x + y) == Names(c, x) + Names(c, y)
  {
  }

  lemma OrderedDigests(c: Codec, items: seq<Json>, d: int)
    requires c.Injective()
    ensures d in Digests(c, Ordered(c, items)) <==> exists j :: 0 <= j < |items| && c.hash(Text(items[j])) == d
  {
    var o := Ordered(c, items);
    OrderedSame(c, items);
    if d in Digests(c, o) {
      var k :| 0 <= k < |o| && Digests(c, o)[k] == d;
      assert o[k] in items;
    }
    if j :| 0 <= j < |items| && c.hash(Text(items[j])) == d {
      assert items[j] in multiset(o);
      var k :| 0 <= k < |o| && o[k] == items[j];
      assert Digests(c, o)[k] == d;
    }
  }

  /** A digest is listed on some page exactly when it names one of the records. */
  lemma PagesListRecords(c: Codec, v: Json, d: int)
    requires c.Injective() && IsRecordList(v)
    ensures (exists i :: 0 <= i < |RecordPages(c, v.items)| && d in RecordPages(c, v.items)[i])
       <==> (exists j :: 0 <= j < |v.items| && c.hash(Text(v.items[j])) == d)
  {
    OrderedDigests(c, v.items, d);
    Paging.PagesArePaging(Digests(c, Ordered(c, v.items)), c.recordCut, Paging.PAGE_MAXIMUM);
    FlattenMembers(RecordPages(c, v.items), d);
  }

  lemma PagedReferences(c: Codec, store: Store, v: Json, path: seq<string>)
    requires c.Injective() && IsRecordList(v) && Holds(c, store, Chunks(c, v, path, true))
    ensures References(store, Encode(c, v, path, true)) == Names(c, Chunks(c, v, path, true))
  {
    var pages, all := RecordPages(c, v.items), Chunks(c, v, path, true);
    var refs := PageDigests(c, pages);
    forall i | 0 <= i < |pages| ensures refs[i] in store && store[refs[i]] == DigestPage(pages[i]) {
      assert DigestPage(pages[i]) in all;
    }
    forall d ensures d in References(store, Encode(c, v, path, true)) <==> d in Names(c, all) {
      PagesListRecords(c, v, d);
      PageMembers(c, store, pages, d);
      RecordNames(c, v, path, d);
    }
  }

  lemma PageMembers(c: Codec, store: Store, pages: seq<seq<int>>, d: int)
    requires forall i :: 0 <= i < |pages| ==> PageDigests(c, pages)[i] in store
    requires forall i :: 0 <= i < |pages| ==> store[PageDigests(c, pages)[i]] == DigestPage(pages[i])
    ensures d in References(store, PageRefs(PageDigests(c, pages))) <==>
            d in PageDigests(c, pages) || exists i :: 0 <= i < |pages| && d in pages[i]
  {
    var refs := PageDigests(c, pages);
    if i :| 0 <= i < |pages| && d in pages[i] {
      assert refs[i] in refs && d in store[refs[i]].digests;
    }
    if p :| p in refs && p in store && store[p].DigestPage? && d in store[p].digests {
      var i :| 0 <= i < |refs| && refs[i] == p;
      assert d in pages[i];
    }
  }

  lemma RecordNames(c: Codec, v: Json, path: seq<string>, d: int)
    requires c.Injective() && IsRecordList(v)
    ensures d in Names(c, Chunks(c, v, path, true)) <==>
            d in PageDigests(c, RecordPages(c, v.items)) || exists j :: 0 <= j < |v.items| && c.hash(Text(v.items[j])) == d
  {
    var pages, all := RecordPages(c, v.items), Chunks(c, v, path, true);
    if d in PageDigests(c, pages) {
      var i :| 0 <= i < |pages| && PageDigests(c, pages)[i] == d;
      assert DigestPage(pages[i]) in all;
    }
    if j :| 0 <= j < |v.items| && c.hash(Text(v.items[j])) == d {
      assert Text(v.items[j]) in all;
    }
    if d in Names(c, all) {
      var r :| r in all && c.hash(r) == d;
      if r.DigestPage? {
        var i :| 0 <= i < |pages| && DigestPage(pages[i]) == r;
        assert PageDigests(c, pages)[i] == d;
      }
    }
  }

  /** The references of a stored manifest are exactly the chunks that packing produced. */
  lemma {:induction false} ReferencesAreChunks(c: Codec, store: Store, v: Json, path: seq<string>, paged: bool)
    requires c.Injective() && Holds(c, store, Chunks(c, v, path, paged))
    ensures References(store, Encode(c, v, path, paged)) == Names(c, Chunks(c, v, path, paged))
    decreases v
  {
    if v.Obj? {
      FieldReferencesAreChunks(c, store, v.fields, path, paged);
    } else if IsRecordList(v) {
      if paged {
        PagedReferences(c, store, v, path);
      } else {
        var refs := Digests(c, v.items);
        forall r | r in Chunks(c, v, path, paged) ensures c.hash(r) in refs {
          var j :| 0 <= j < |v.items| && Text(v.items[j]) == r;
          assert refs[j] == c.hash(r);
        }
        forall d | d in refs ensures d in Names(c, Chunks(c, v, path, paged)) {
          var j :| 0 <= j < |refs| && refs[j] == d;
          assert Text(v.items[j]) in Chunks(c, v, path, paged);
        }
      }
    } else if paged && IsActiveIds(v, path) {
      var pages := ItemPages(c, v.items);
      var refs := ListingDigests(c, pages);
      forall r | r in Chunks(c, v, path, paged) ensures c.hash(r) in refs {
        var j :| 0 <= j < |pages| && Text(Listing(pages[j])) == r;
        assert refs[j] == c.hash(r);
      }
      forall d | d in refs ensures d in Names(c, Chunks(c, v, path, paged)) {
        var j :| 0 <= j < |refs| && refs[j] == d;
        assert Text(Listing(pages[j])) in Chunks(c, v, path, paged);
      }
    }
  }

  lemma {:induction false} FieldReferencesAreChunks(c: Codec, store: Store, f: Fields, path: seq<string>, paged: bool)
    requires c.Injective() && Holds(c, store, FieldChunks(c, f, path, paged))
    ensures ChildReferences(store, EncodeFields(c, f, path, paged)) == Names(c, FieldChunks(c, f, path, paged))
    decreases f
  {
    if f.Field? {
      ReferencesAreChunks(c, store, f.value, path + [f.key], paged);
      FieldReferencesAreChunks(c, store, f.rest, path, paged);
      NamesUnion(c, Chunks(c, f.value, path + [f.key], paged), FieldChunks(c, f.rest, path, paged));
    }
  }

  ghost predicate SameAt(x: Store, y: Store, d: int) {
    (d in x <==> d in y) && (d in x ==> x[d] == y[d])
  }

  ghost predicate Agree(x: Store, y: Store, on: set<int>) {
    forall d :: d in on ==> SameAt(x, y, d)
  }

  lemma {:induction false} FetchTextsNeeds(x: Store, y: Store, digests: seq<int>)
    requires forall d :: d in digests ==> SameAt(x, y, d)
    ensures FetchTexts(x, digests) == FetchTexts(y, digests)
    ensures FetchTexts(x, digests).Some? ==> forall d :: d in digests ==> d in x
  {
    if digests != [] {
      var d := digests[0];
      assert d in digests && SameAt(x, y, d);
      assert forall e :: e in digests[1..] ==> e in digests;
      FetchTextsNeeds(x, y, digests[1..]);
      assert digests == [d] + digests[1..];
    }
  }

  lemma {:induction false} FetchPagesNeeds(x: Store, y: Store, pages: seq<int>)
    requires forall p :: p in pages ==> SameAt(x, y, p)
    ensures FetchPages(x, pages) == FetchPages(y, pages)
    ensures FetchPages(x, pages).Some? ==> forall p :: p in pages ==> p in x && x[p].DigestPage?
    ensures FetchPages(x, pages).Some? ==>
      forall d :: d in FetchPages(x, pages).value <==> exists p :: p in pages && d in x[p].digests
  {
    if pages != [] {
      var p := pages[0];
      assert p in pages && SameAt(x, y, p);
      assert forall e :: e in pages[1..] ==> e in pages;
      FetchPagesNeeds(x, y, pages[1..]);
      assert pages == [p] + pages[1..];
    }
  }

  /** Replay reads every reference (it fails if one is missing) and nothing else (any store that agrees on
      the references replays the same). */
  lemma {:induction false} ReplayReadsReferences(x: Store, y: Store, n: Node)
    requires Agree(x, y, References(x, n))
    ensures Decode(x, n) == Decode(y, n) && References(x, n) == References(y, n)
    ensures Decode(x, n).Some? ==> References(x, n) <= x.Keys
    decreases n
  {
    match n
    case Dict(children) => ChildReplayReadsReferences(x, y, children);
    case PageRefs(refs) =>
      FetchPagesNeeds(x, y, refs);
      var pages := FetchPages(x, refs);
      if pages.Some? {
        forall d | d in pages.value ensures d in References(x, n) { }
        FetchTextsNeeds(x, y, pages.value);
        if Decode(x, n).Some? {
          forall d | d in References(x, n) ensures d in x {
            if d !in refs { assert d in pages.value; }
          }
        }
      }
    case ItemRefs(refs) => FetchTextsNeeds(x, y, refs); ListedPresent(x, refs);
    case Blob(_) =>
    case Records(refs) => FetchTextsNeeds(x, y, refs); ListedPresent(x, refs);
    case Value(_) =>
  }

  lemma ListedPresent(x: Store, refs: seq<int>)
    requires FetchTexts(x, refs).Some? ==> forall d :: d in refs ==> d in x
    ensures FetchTexts(x, refs).Some? ==> References(x, ItemRefs(refs)) <= x.Keys && References(x, Records(refs)) <= x.Keys
  {
    if FetchTexts(x, refs).Some? {
      forall d | d in References(x, ItemRefs(refs)) ensures d in x.Keys {
        assert d in refs;
      }
      assert References(x, Records(refs)) == References(x, ItemRefs(refs));
    }
  }

  lemma {:induction false} ChildReplayReadsReferences(x: Store, y: Store, n: Children)
    requires Agree(x, y, ChildReferences(x, n))
    ensures DecodeChildren(x, n) == DecodeChildren(y, n) && ChildReferences(x, n) == ChildReferences(y, n)
    ensures DecodeChildren(x, n).Some? ==> ChildReferences(x, n) <= x.Keys
    decreases n
  {
    if n.Child? {
      ReplayReadsReferences(x, y, n.node);
      ChildReplayReadsReferences(x, y, n.rest);
    }
  }

  /** Losing any one chunk of a packed observation makes its replay fail. */
  lemma EveryChunkMatters(c: Codec, store: Store, v: Json, d: int)
    requires c.Injective() && Holds(c, store, Chunks(c, v, [], true)) && d in Names(c, Chunks(c, v, [], true))
    ensures Decode(store - {d}, Encode(c, v, [], true)).None?
  {
    ReferencesAreChunks(c, store, v, [], true);
    LostReference(store, Encode(c, v, [], true), d);
  }

  lemma {:induction false} LostReference(store: Store, n: Node, d: int)
    requires d in References(store, n)
    ensures Decode(store - {d}, n).None?
    decreases n
  {
    var less := store - {d};
    match n
    case Dict(children) => LostChildReference(store, children, d);
    case PageRefs(refs) =>
      FetchPagesNeeds(less, less, refs);
      if FetchPages(less, refs).Some? {
        var ds := FetchPages(less, refs).value;
        var p :| p in refs && p in store && store[p].DigestPage? && d in store[p].digests;
        assert d in ds;
        FetchTextsNeeds(less, less, ds);
      }
    case ItemRefs(refs) => FetchTextsNeeds(less, less, refs);
    case Blob(_) =>
    case Records(refs) => FetchTextsNeeds(less, less, refs);
    case Value(_) =>
  }

  lemma {:induction false} LostChildReference(store: Store, n: Children, d: int)
    requires d in ChildReferences(store, n)
    ensures DecodeChildren(store - {d}, n).None?
    decreases n
  {
    if d in References(store, n.node) {
      LostReference(store, n.node, d);
    } else {
      LostChildReference(store, n.rest, d);
    }
  }

  // ------------------------------------------------------------------ stored manifests

  /** What a capture row holds: a tree inline, a tree or a whole observation as one chunk, or the mark of expiry. */
  datatype Manifest = Inline(node: Node) | ManifestRef(ref: int) | CompactRef(ref: int) | Expired

  function Replay(store: Store, m: Manifest): Option<Json> {
    match m
    case Inline(node) => Decode(store, node)
    case ManifestRef(ref) => if ref in store && store[ref].Tree? then Decode(store, store[ref].node) else None
    case CompactRef(ref) => if ref in store && store[ref].Text? then Some(store[ref].value) else None
    case Expired => None
  }

  /** Every chunk a stored manifest depends on; none when it has expired, unknown when its tree is missing. */
  function StoredReferences(store: Store, m: Manifest): Option<set<int>> {
    match m
    case Inline(node) => Some(References(store, node))
    case ManifestRef(ref) => if ref in store && store[ref].Tree? then Some({ref} + References(store, store[ref].node)) else None
    case CompactRef(ref) => Some({ref})
    case Expired => Some({})
  }

  /** How a capture is filed: a compact observation as one chunk, any other packed, its tree a chunk as well. */
  function Filed(c: Codec, v: Json, compact: bool): Manifest {
    if compact then CompactRef(c.hash(Text(v))) else ManifestRef(c.hash(Tree(Encode(c, v, [], true))))
  }

  function FiledChunks(c: Codec, v: Json, compact: bool): set<Raw> {
    if compact then {Text(v)} else Chunks(c, v, [], true) + {Tree(Encode(c, v, [], true))}
  }

  /** A filed capture replays to its observation, and its references are exactly its chunks. */
  lemma FiledRoundTrip(c: Codec, store: Store, v: Json, compact: bool)
    requires c.Injective() && Holds(c, store, FiledChunks(c, v, compact))
    ensures Replay(store, Filed(c, v, compact)) == Some(if compact then v else Canonical(c, v, [], true))
    ensures StoredReferences(store, Filed(c, v, compact)) == Some(Names(c, FiledChunks(c, v, compact)))
  {
    if compact {
      assert Text(v) in FiledChunks(c, v, compact);
      assert Names(c, {Text(v)}) == {c.hash(Text(v))};
    } else {
      var tree := Tree(Encode(c, v, [], true));
      assert tree in FiledChunks(c, v, compact);
      RoundTrip(c, store, v, [], true);
      ReferencesAreChunks(c, store, v, [], true);
      NamesUnion(c, Chunks(c, v, [], true), {tree});
      assert Names(c, {tree}) == {c.hash(tree)};
      assert store[c.hash(tree)] == tree;
      assert {c.hash(tree)} + References(store, tree.node) == Names(c, FiledChunks(c, v, compact));
    }
  }

  /** Replaying a stored manifest reads its references and nothing else, and needs all of them. */
  lemma StoredReplayReadsReferences(x: Store, y: Store, m: Manifest)
    requires StoredReferences(x, m).Some? && Agree(x, y, StoredReferences(x, m).value)
    ensures Replay(x, m) == Replay(y, m) && StoredReferences(x, m) == StoredReferences(y, m)
    ensures Replay(x, m).Some? ==> StoredReferences(x, m).value <= x.Keys
  {
    match m
    case Inline(node) => ReplayReadsReferences(x, y, node);
    case ManifestRef(ref) =>
      assert SameAt(x, y, ref);
      ReplayReadsReferences(x, y, x[ref].node);
    case CompactRef(ref) => assert SameAt(x, y, ref);
    case Expired =>
  }

  /** Losing any one of a filed capture's chunks makes its replay fail. */
  lemma EveryFiledChunkMatters(c: Codec, store: Store, v: Json, compact: bool, d: int)
    requires c.Injective() && Holds(c, store, FiledChunks(c, v, compact)) && d in Names(c, FiledChunks(c, v, compact))
    ensures Replay(store - {d}, Filed(c, v, compact)).None?
  {
    FiledRoundTrip(c, store, v, compact);
    if !compact && d != c.hash(Tree(Encode(c, v, [], true))) {
      assert d in References(store, Encode(c, v, [], true));
      LostReference(store, Encode(c, v, [], true), d);
    }
  }
}
