/** The plan does not depend on the order in which cards, scopes or chunks are listed. */
module CoverOrder {
  import opened Wrappers
  import opened Texts
  import opened Orders
  import opened Scores
  import opened CoverModel

  // ------------------------------------------------------------ rearrangements

  /** A scope without the order of its chunks, a card without the order of its scopes. */
  datatype LooseScope = LooseScope(scopeId: Text, scopeVersion: Text, chunks: multiset<Chunk>)
  datatype LooseCard = LooseCard(candidate: Candidate, scopes: multiset<LooseScope>)

  ghost function Loosen(): Scope -> LooseScope {
    (s: Scope) => LooseScope(s.scopeId, s.scopeVersion, multiset(s.chunks))
  }

  ghost function LoosenCard(): Probed -> LooseCard {
    (c: Probed) => LooseCard(c.candidate, multiset(Map(Loosen(), c.scopes)))
  }

  /** The same cards up to the order of cards, of the scopes within a card and of
      the chunks within a scope. */
  ghost predicate Rearranged(cs: seq<Probed>, ds: seq<Probed>) {
    multiset(Map(LoosenCard(), cs)) == multiset(Map(LoosenCard(), ds))
  }

  function ReverseScope(): Scope -> Scope {
    (s: Scope) => s.(chunks := Reverse(s.chunks))
  }

  function ReverseCard(): Probed -> Probed {
    (c: Probed) => c.(scopes := Map(ReverseScope(), Reverse(c.scopes)))
  }

  lemma MapReverse<S(!new), T(!new)>(f: S -> T, xs: seq<S>)
    ensures Map(f, Reverse(xs)) == Reverse(Map(f, xs))
  {
  }

  lemma MapMap<S(!new)>(f: S -> S, xs: seq<S>, looseness: S -> LooseScope)
    requires forall s :: looseness(f(s)) == looseness(s)
    ensures Map(looseness, Map(f, xs)) == Map(looseness, xs)
  {
  }

  /** Reversing the cards, every card's scopes and every scope's chunks is one
      such rearrangement. */
  lemma ReversalRearranges(cards: seq<Probed>)
    ensures Rearranged(cards, Map(ReverseCard(), Reverse(cards)))
  {
    forall s: Scope ensures Loosen()(ReverseScope()(s)) == Loosen()(s) {
      ReverseCounts(s.chunks);
    }
    forall c: Probed ensures LoosenCard()(ReverseCard()(c)) == LoosenCard()(c) {
      MapMap(ReverseScope(), Reverse(c.scopes), Loosen());
      MapReverse(Loosen(), c.scopes);
      ReverseCounts(Map(Loosen(), c.scopes));
    }
    var there := Map(ReverseCard(), Reverse(cards));
    assert Map(LoosenCard(), there) == Map(LoosenCard(), Reverse(cards));
    MapReverse(LoosenCard(), cards);
    ReverseCounts(Map(LoosenCard(), cards));
  }

  // -------------------------------------------------------------------- chunks

  lemma {:induction false} ChunksOfMembers(scopes: seq<Scope>)
    ensures forall k :: k in ChunksOf(scopes) <==> exists s :: s in scopes && k in s.chunks
  {
    if scopes != [] {
      var n := |scopes| - 1;
      ChunksOfMembers(scopes[..n]);
      assert scopes == scopes[..n] + [scopes[n]];
    }
  }

  lemma {:induction false} AllChunksMembers(cards: seq<Probed>)
    ensures forall k :: k in AllChunks(cards) <==> exists c :: c in cards && k in ChunksOf(c.scopes)
  {
    if cards != [] {
      var n := |cards| - 1;
      AllChunksMembers(cards[..n]);
      assert cards == cards[..n] + [cards[n]];
    }
  }

  /** A rearranged card has the same chunks and as many scopes. */
  lemma LooseCardChunks(c: Probed, d: Probed)
    requires LoosenCard()(c) == LoosenCard()(d)
    ensures forall k :: k in ChunksOf(c.scopes) ==> k in ChunksOf(d.scopes)
    ensures |c.scopes| == |d.scopes| && c.candidate == d.candidate
    ensures forall s :: s in c.scopes ==> exists t :: t in d.scopes && Loosen()(s) == Loosen()(t)
  {
    SameMembers(Map(Loosen(), c.scopes), Map(Loosen(), d.scopes));
    ChunksOfMembers(c.scopes);
    ChunksOfMembers(d.scopes);
    forall s | s in c.scopes ensures exists t :: t in d.scopes && Loosen()(s) == Loosen()(t) {
      MappedMember(Loosen(), c.scopes, s);
      var t := Preimage(Loosen(), s, d.scopes);
      assert d.scopes[t] in d.scopes;
    }
    forall k | k in ChunksOf(c.scopes) ensures k in ChunksOf(d.scopes) {
      var s :| s in c.scopes && k in s.chunks;
      var t :| t in d.scopes && Loosen()(s) == Loosen()(t);
      assert k in multiset(s.chunks);
      assert k in multiset(t.chunks);
    }
  }

  lemma MappedMember<S(!new), T(!new)>(f: S -> T, xs: seq<S>, x: S)
    requires x in xs
    ensures f(x) in Map(f, xs)
  {
    var i :| 0 <= i < |xs| && xs[i] == x;
    assert Map(f, xs)[i] == f(x);
  }

  lemma CounterpartExists(cs: seq<Probed>, ds: seq<Probed>, c: Probed)
    requires Rearranged(cs, ds) && c in cs
    ensures exists d :: d in ds && LoosenCard()(d) == LoosenCard()(c)
  {
    SameMembers(Map(LoosenCard(), cs), Map(LoosenCard(), ds));
    MappedMember(LoosenCard(), cs, c);
    var k := Preimage(LoosenCard(), c, ds);
    assert ds[k] in ds;
  }

  lemma AllChunksRearranged(cs: seq<Probed>, ds: seq<Probed>)
    requires Rearranged(cs, ds)
    ensures forall k :: k in AllChunks(cs) ==> k in AllChunks(ds)
  {
    AllChunksMembers(cs);
    AllChunksMembers(ds);
    forall k | k in AllChunks(cs) ensures k in AllChunks(ds) {
      var c :| c in cs && k in ChunksOf(c.scopes);
      CounterpartExists(cs, ds, c);
      var d :| d in ds && LoosenCard()(d) == LoosenCard()(c);
      LooseCardChunks(c, d);
    }
  }

  /** With consistent observations a chunk revision has one text. */
  lemma {:induction false} TextsOfConsistent(chunks: seq<Chunk>)
    requires Consistent(chunks)
    ensures TextsOf(chunks).Keys == ChunkIds(chunks)
    ensures forall c :: c in chunks ==> TextsOf(chunks)[c.id] == c.text
  {
    if chunks != [] {
      var n := |chunks| - 1;
      assert chunks == chunks[..n] + [chunks[n]];
      assert forall c :: c in chunks[..n] ==> c in chunks;
      TextsOfConsistent(chunks[..n]);
      forall c | c in chunks ensures c.id in TextsOf(chunks) && TextsOf(chunks)[c.id] == c.text {
        assert chunks[n] in chunks;
        assert Agree(c, chunks[n]);
      }
      assert ChunkIds(chunks) == ChunkIds(chunks[..n]) + {chunks[n].id};
    }
  }

  lemma TextsRearranged(a: seq<Chunk>, b: seq<Chunk>)
    requires Consistent(a) && Consistent(b) && forall k :: k in a <==> k in b
    ensures TextsOf(a) == TextsOf(b)
  {
    TextsOfConsistent(a);
    TextsOfConsistent(b);
    assert ChunkIds(a) == ChunkIds(b);
    forall id | id in TextsOf(a) ensures TextsOf(a)[id] == TextsOf(b)[id] {
      var c :| c in a && c.id == id;
    }
  }

  // -------------------------------------------------------------------- bounds

  lemma ScopeKeysRearranged(cs: seq<Probed>, ds: seq<Probed>)
    requires Rearranged(cs, ds)
    ensures ScopeKeys(cs) <= ScopeKeys(ds)
  {
    forall key | key in ScopeKeys(cs) ensures key in ScopeKeys(ds) {
      var c, s :| c in cs && s in c.scopes && ScopeKey(s) == key;
      CounterpartExists(cs, ds, c);
      var d :| d in ds && LoosenCard()(d) == LoosenCard()(c);
      LooseCardChunks(c, d);
      var t :| t in d.scopes && Loosen()(s) == Loosen()(t);
      assert ScopeKey(t) == key;
    }
  }

  lemma BoundsRearranged(cs: seq<Probed>, ds: seq<Probed>)
    requires Rearranged(cs, ds) && Rearranged(ds, cs) && WithinBounds(ds)
    ensures WithinBounds(cs)
  {
    SameMembers(Map(LoosenCard(), cs), Map(LoosenCard(), ds));
    forall c, s | c in cs && s in c.scopes ensures |s.chunks| <= PROBE_CHUNKS_PER_SCOPE {
      CounterpartExists(cs, ds, c);
      var d :| d in ds && LoosenCard()(d) == LoosenCard()(c);
      LooseCardChunks(c, d);
      var t :| t in d.scopes && Loosen()(s) == Loosen()(t);
      assert |multiset(s.chunks)| == |multiset(t.chunks)|;
    }
    AllChunksRearranged(cs, ds);
    AllChunksRearranged(ds, cs);
    ScopeKeysRearranged(cs, ds);
    ScopeKeysRearranged(ds, cs);
    assert ScopeKeys(cs) == ScopeKeys(ds);
    assert ChunkIds(AllChunks(cs)) == ChunkIds(AllChunks(ds));
  }

  lemma DistinctCardsRearranged(cs: seq<Probed>, ds: seq<Probed>)
    requires Rearranged(cs, ds) && DistinctCards(cs)
    ensures DistinctCards(ds)
  {
    ImagesRearranged(LoosenCard(), CardVersion(), cs, ds);
    var a, b := Map(CardVersion(), cs), Map(CardVersion(), ds);
    assert DistinctBy(Itself(), a);
    DistinctRearranged(Itself(), a, b);
    assert forall i :: 0 <= i < |ds| ==> b[i] == CardVersion()(ds[i]);
  }

  // ------------------------------------------------------------------ evidence

  /** Rearranged cards give the same evidence. */
  lemma EvidenceRearranged(x: Lexicon, tokens: seq<Text>, texts: map<Text, Text>, c: Probed, d: Probed)
    requires LoosenCard()(c) == LoosenCard()(d)
    ensures EvidenceOf(x, tokens, texts, c) == EvidenceOf(x, tokens, texts, d)
  {
    LooseCardChunks(c, d);
    LooseCardChunks(d, c);
    var a, b := ChunksOf(c.scopes), ChunksOf(d.scopes);
    SupportsRearranged(x, tokens, texts, a, b);
    BestChunkRearranged(a, b);
    assert ChunkIds(a) == ChunkIds(b);
  }

  lemma SupportsRearranged(x: Lexicon, tokens: seq<Text>, texts: map<Text, Text>, a: seq<Chunk>, b: seq<Chunk>)
    requires forall k :: k in a <==> k in b
    ensures TokenSupports(x, tokens, texts, a) == TokenSupports(x, tokens, texts, b)
  {
    forall i | 0 <= i < |tokens|
      ensures MaxOf(a, ChunkSupport(x, tokens[i], texts)) == MaxOf(b, ChunkSupport(x, tokens[i], texts))
    {
      MaxOfMembers(a, b, ChunkSupport(x, tokens[i], texts));
      MaxOfMembers(b, a, ChunkSupport(x, tokens[i], texts));
    }
  }

  /** Chunks may repeat, so the best one is only determined up to its similarity
      and id; nothing else of it is used. */
  lemma BestChunkRearranged(a: seq<Chunk>, b: seq<Chunk>)
    requires forall k :: k in a <==> k in b
    ensures BestChunk(a).Some? <==> BestChunk(b).Some?
    ensures BestChunk(a).Some? ==>
              BestChunk(a).value.sentenceSimilarity == BestChunk(b).value.sentenceSimilarity
              && BestChunk(a).value.id == BestChunk(b).value.id
  {
    var before := ByScore(SentenceSimilarity(), ChunkId());
    ByScoresStrict(SentenceSimilarity(), Zero(), ChunkId());
    BestIsFirst(a, before);
    BestIsFirst(b, before);
    if a == [] {
      assert forall k :: k !in b;
      assert b == [];
    } else {
      assert a[0] in b;
      var p, q := BestChunk(a).value, BestChunk(b).value;
      assert !before(p, q) && !before(q, p);
      LessTotal(p.id, q.id);
    }
  }

  lemma EvidenceForRearranged(x: Lexicon, tokens: seq<Text>, cs: seq<Probed>, ds: seq<Probed>)
    requires Rearranged(cs, ds) && WithinBounds(cs) && WithinBounds(ds)
    ensures TextsOf(AllChunks(cs)) == TextsOf(AllChunks(ds))
    ensures multiset(EvidenceFor(x, tokens, cs)) == multiset(EvidenceFor(x, tokens, ds))
  {
    AllChunksRearranged(cs, ds);
    AllChunksRearranged(ds, cs);
    TextsRearranged(AllChunks(cs), AllChunks(ds));
    var texts := TextsOf(AllChunks(cs));
    forall c, d | LoosenCard()(c) == LoosenCard()(d)
      ensures EvidenceIn(x, tokens, texts)(c) == EvidenceIn(x, tokens, texts)(d)
    {
      EvidenceRearranged(x, tokens, texts, c, d);
    }
    ImagesRearranged(LoosenCard(), EvidenceIn(x, tokens, texts), cs, ds);
  }

  lemma EvidenceDistinct(x: Lexicon, tokens: seq<Text>, cards: seq<Probed>)
    requires DistinctCards(cards)
    ensures DistinctBy(Version(), EvidenceFor(x, tokens, cards))
  {
    var evidence := EvidenceFor(x, tokens, cards);
    forall i, j | 0 <= i < j < |evidence| ensures Version()(evidence[i]) != Version()(evidence[j])
    {
      assert Version()(evidence[i]) == CardVersion()(cards[i]);
      assert Version()(evidence[j]) == CardVersion()(cards[j]);
    }
  }

  // ------------------------------------------------------------------ decision

  lemma {:induction false} FilterAgrees<T(!new)>(xs: seq<T>, p: T -> bool, q: T -> bool)
    requires forall x :: p(x) == q(x)
    ensures Filter(xs, p) == Filter(xs, q)
  {
    if xs != [] {
      FilterAgrees(xs[1..], p, q);
    }
  }

  lemma SpecificRearranged(e: seq<Evidence>, f: seq<Evidence>)
    requires multiset(e) == multiset(f)
    ensures multiset(Routed(e)) == multiset(Routed(f))
    ensures multiset(Supplements(e)) == multiset(Supplements(f))
    ensures multiset(Specific(e)) == multiset(Specific(f))
  {
    FilterRearranged(e, f, AtLeast(MINIMUM_ROUTING_SUPPORT));
    FilterRearranged(Routed(e), Routed(f), AtLeast(MINIMUM_SUPPLEMENT_SUPPORT));
    var s, t := Supplements(e), Supplements(f);
    SameMembers(s, t);
    assert forall x :: Undominated(s)(x) == Undominated(t)(x);
    FilterAgrees(t, Undominated(s), Undominated(t));
    FilterRearranged(s, t, Undominated(s));
  }

  lemma SpecificDistinct(e: seq<Evidence>)
    requires DistinctBy(Version(), e)
    ensures DistinctBy(Version(), Routed(e)) && DistinctBy(Version(), Supplements(e)) && DistinctBy(Version(), Specific(e))
  {
    FilterDistinct(Version(), e, AtLeast(MINIMUM_ROUTING_SUPPORT));
    FilterDistinct(Version(), Routed(e), AtLeast(MINIMUM_SUPPLEMENT_SUPPORT));
    FilterDistinct(Version(), Supplements(e), Undominated(Supplements(e)));
  }

  lemma AggregateRearranged(e: seq<Evidence>, f: seq<Evidence>, width: nat)
    requires multiset(e) == multiset(f)
    ensures Aggregate(e, width) == Aggregate(f, width)
  {
    SameMembers(e, f);
    forall i | 0 <= i < width ensures MaxOf(e, At(i)) == MaxOf(f, At(i)) {
      MaxOfMembers(e, f, At(i));
      MaxOfMembers(f, e, At(i));
    }
  }

  /** The greedy loop makes the same choices in the same order. */
  lemma {:induction false} GrowRearranged(e: seq<Evidence>, f: seq<Evidence>, target: seq<real>, weights: seq<real>, a: Attempt)
    requires multiset(e) == multiset(f) && DistinctBy(Version(), e)
    ensures Grow(e, target, weights, a) == Grow(f, target, weights, a)
    decreases MAXIMUM_SELECTED_CARDS - |a.evidence|
  {
    if |a.evidence| < MAXIMUM_SELECTED_CARDS && !Preserves(a.coverage, target, weights) {
      var p := Worthwhile(a.evidence, a.coverage, weights);
      FilterRearranged(e, f, p);
      FilterDistinct(Version(), e, p);
      BestRearranged(Utility(a.coverage, weights), Support(), Version(), Filter(e, p), Filter(f, p));
      var chosen := NextChoice(e, a.evidence, a.coverage, weights);
      if chosen.Some? {
        GrowRearranged(e, f, target, weights,
                       Attempt(a.evidence + [chosen.value], Merge(a.coverage, chosen.value.tokenSupports)));
      }
    }
  }

  lemma AttemptedRearranged(e: seq<Evidence>, f: seq<Evidence>, width: nat, weights: seq<real>)
    requires multiset(e) == multiset(f) && DistinctBy(Version(), e)
    ensures Attempted(e, width, weights) == Attempted(f, width, weights)
  {
    SpecificRearranged(e, f);
    SpecificDistinct(e);
    var s, t := Specific(e), Specific(f);
    AggregateRearranged(s, t, width);
    FilterRearranged(s, t, AtLeast(MINIMUM_EXECUTION_SUPPORT));
    FilterDistinct(Version(), s, AtLeast(MINIMUM_EXECUTION_SUPPORT));
    BestRearranged(Support(), Zero(), Version(),
                   Filter(s, AtLeast(MINIMUM_EXECUTION_SUPPORT)), Filter(t, AtLeast(MINIMUM_EXECUTION_SUPPORT)));
    if Leader(e).Some? {
      var leader := Leader(e).value;
      GrowRearranged(s, t, Aggregate(s, width), weights, Attempt([leader], leader.tokenSupports));
    }
  }

  lemma SortedVersionsRearranged(e: seq<Evidence>, f: seq<Evidence>)
    requires multiset(e) == multiset(f) && DistinctBy(Version(), e)
    ensures SortedVersions(e) == SortedVersions(f)
  {
    var a, b := Map(Version(), e), Map(Version(), f);
    assert Map(Same(), e) == e && Map(Same(), f) == f;
    ImagesRearranged(Same(), Version(), e, f);
    assert DistinctBy(Itself(), a);
    RankingRearranged(Zero(), Zero(), Itself(), a, b);
  }

  function Same(): Evidence -> Evidence {
    (e: Evidence) => e
  }

  lemma DecideRearranged(tokens: seq<Text>, weights: seq<real>, e: seq<Evidence>, f: seq<Evidence>)
    requires multiset(e) == multiset(f) && DistinctBy(Version(), e)
    ensures Decide(tokens, weights, e) == Decide(tokens, weights, f)
  {
    AttemptedRearranged(e, f, |tokens|, weights);
    SpecificRearranged(e, f);
    SpecificDistinct(e);
    AggregateRearranged(Specific(e), Specific(f), |tokens|);
    BestRearranged(Routing(), Support(), Version(), Routed(e), Routed(f));
    SortedVersionsRearranged(e, f);
    RankingRearranged(Support(), Zero(), Version(), e, f);
  }

  /** Order independence: listing the cards, the scopes of a card or the chunks of
      a scope in another order changes nothing of the plan, and nothing of its
      audit, whether the plan is made or refused. */
  lemma OrderIndependence(x: Lexicon, query: Text, cs: seq<Probed>, ds: seq<Probed>)
    requires LexiconValid(x) && Rearranged(cs, ds)
    ensures PlanCover(x, query, cs) == PlanCover(x, query, ds)
  {
    var tokens := x.words(query);
    if tokens != [] {
      if WithinBounds(cs) { BoundsRearranged(ds, cs); }
      if WithinBounds(ds) { BoundsRearranged(cs, ds); }
      if DistinctCards(cs) { DistinctCardsRearranged(cs, ds); }
      if DistinctCards(ds) { DistinctCardsRearranged(ds, cs); }
      if WithinBounds(cs) && DistinctCards(cs) {
        hide WithinBounds, DistinctCards, Rearranged, Decide, TokenWeights, EvidenceFor;
        EvidenceForRearranged(x, tokens, cs, ds);
        EvidenceDistinct(x, tokens, cs);
        DecideRearranged(tokens, TokenWeights(x, tokens, TextsOf(AllChunks(cs))),
                         EvidenceFor(x, tokens, cs), EvidenceFor(x, tokens, ds));
      }
    }
  }
}
