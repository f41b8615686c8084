/** The loops of the cover policy, proved against its functions. */
module CoverLoops {
  import opened Wrappers
  import opened Texts
  import opened Orders
  import opened Scores
  import opened CoverModel

  // -------------------------------------------------------------- bounds check

  datatype BoundsError =
    | CardLimit
    | ScopeChunkLimit
    | InvalidObservation
    | InconsistentObservation
    | ProbeLimit

  /** The last observation of each chunk revision seen so far. */
  ghost predicate Observed(seen: seq<Chunk>, observations: map<Text, Chunk>) {
    && observations.Keys == ChunkIds(seen)
    && forall id :: id in observations ==> observations[id] in seen && observations[id].id == id
  }

  ghost predicate Ranked(chunks: seq<Chunk>) {
    forall k :: k in chunks ==> k.rank >= 1
  }

  lemma ConsistentMore(seen: seq<Chunk>, observations: map<Text, Chunk>, c: Chunk)
    requires Consistent(seen) && Observed(seen, observations)
    ensures Consistent(seen + [c]) <==> (c.id in observations ==> Agree(observations[c.id], c))
  {
    var more := seen + [c];
    if c.id in observations {
      var o := observations[c.id];
      assert o in more && c in more;
      if Agree(o, c) {
        forall a, b | a in more && b in more ensures Agree(a, b) {
          assert a in seen ==> Agree(a, o) && Agree(o, a);
          assert b in seen ==> Agree(b, o) && Agree(o, b);
        }
      }
    } else {
      forall a | a in seen ensures a.id != c.id {
        assert a.id in ChunkIds(seen);
      }
    }
  }

  lemma InconsistentStays(part: seq<Chunk>, whole: seq<Chunk>)
    requires Consistent(whole) && forall k :: k in part ==> k in whole
    ensures Consistent(part)
  {
  }

  method ObserveScope(scope: Scope, before: map<Text, Chunk>, ghost seen: seq<Chunk>)
    returns (observations: map<Text, Chunk>, error: Option<BoundsError>)
    requires Observed(seen, before) && Consistent(seen)
    ensures error.None? ==> |scope.chunks| <= PROBE_CHUNKS_PER_SCOPE && Ranked(scope.chunks)
    ensures error.None? ==> Consistent(seen + scope.chunks) && Observed(seen + scope.chunks, observations)
    ensures error.Some? ==>
              |scope.chunks| > PROBE_CHUNKS_PER_SCOPE || !Ranked(scope.chunks) || !Consistent(seen + scope.chunks)
  {
    observations := before;
    if |scope.chunks| > PROBE_CHUNKS_PER_SCOPE {
      return observations, Some(ScopeChunkLimit);
    }
    assert seen + scope.chunks[..0] == seen;
    for k := 0 to |scope.chunks|
      invariant Ranked(scope.chunks[..k])
      invariant Consistent(seen + scope.chunks[..k]) && Observed(seen + scope.chunks[..k], observations)
    {
      var chunk := scope.chunks[k];
      ghost var here := seen + scope.chunks[..k];
      assert seen + scope.chunks[..k + 1] == here + [chunk];
      assert chunk in scope.chunks;
      if chunk.rank < 1 {
        return observations, Some(InvalidObservation);
      }
      ConsistentMore(here, observations, chunk);
      if chunk.id in observations {
        var previous := observations[chunk.id];
        if previous.text != chunk.text || previous.similarity != chunk.similarity
           || previous.sentenceSimilarity != chunk.sentenceSimilarity {
          assert !Consistent(here + [chunk]);
          if Consistent(seen + scope.chunks) {
            InconsistentStays(here + [chunk], seen + scope.chunks);
            assert false;
          }
          return observations, Some(InconsistentObservation);
        }
      }
      observations := observations[chunk.id := chunk];
      assert ChunkIds(here + [chunk]) == ChunkIds(here) + {chunk.id};
    }
    assert scope.chunks[..|scope.chunks|] == scope.chunks;
    error := None;
  }

  ghost predicate SizesOk(scopes: seq<Scope>) {
    forall s :: s in scopes ==> |s.chunks| <= PROBE_CHUNKS_PER_SCOPE
  }

  function KeysOf(scopes: seq<Scope>): set<Text> {
    set s | s in scopes :: ScopeKey(s)
  }

  lemma {:induction false} ChunksOfMember(scopes: seq<Scope>, s: Scope)
    requires s in scopes
    ensures forall k :: k in s.chunks ==> k in ChunksOf(scopes)
  {
    var n := |scopes| - 1;
    if s in scopes[..n] {
      ChunksOfMember(scopes[..n], s);
    }
  }

  lemma {:induction false} ChunksOfPrefix(scopes: seq<Scope>, j: nat)
    requires j <= |scopes|
    ensures forall k :: k in ChunksOf(scopes[..j]) ==> k in ChunksOf(scopes)
  {
    if j < |scopes| {
      ChunksOfPrefix(scopes[..|scopes| - 1], j);
      assert scopes[..|scopes| - 1][..j] == scopes[..j];
    } else {
      assert scopes[..j] == scopes;
    }
  }

  method ObserveCard(card: Probed, before: map<Text, Chunk>, keysBefore: set<Text>, ghost seen: seq<Chunk>)
    returns (observations: map<Text, Chunk>, keys: set<Text>, error: Option<BoundsError>)
    requires Observed(seen, before) && Consistent(seen)
    ensures error.None? ==> SizesOk(card.scopes) && Ranked(ChunksOf(card.scopes)) && keys == keysBefore + KeysOf(card.scopes)
    ensures error.None? ==> Consistent(seen + ChunksOf(card.scopes)) && Observed(seen + ChunksOf(card.scopes), observations)
    ensures error.Some? ==>
              !SizesOk(card.scopes) || !Ranked(ChunksOf(card.scopes)) || !Consistent(seen + ChunksOf(card.scopes))
  {
    observations, keys := before, keysBefore;
    var scopes := card.scopes;
    assert seen + ChunksOf(scopes[..0]) == seen;
    for j := 0 to |scopes|
      invariant SizesOk(scopes[..j]) && Ranked(ChunksOf(scopes[..j])) && keys == keysBefore + KeysOf(scopes[..j])
      invariant Consistent(seen + ChunksOf(scopes[..j])) && Observed(seen + ChunksOf(scopes[..j]), observations)
    {
      var scope := scopes[j];
      keys := keys + {ScopeKey(scope)};
      assert scopes[..j + 1] == scopes[..j] + [scope];
      assert scopes[..j + 1][..j] == scopes[..j];
      assert seen + ChunksOf(scopes[..j + 1]) == seen + ChunksOf(scopes[..j]) + scope.chunks;
      observations, error := ObserveScope(scope, observations, seen + ChunksOf(scopes[..j]));
      if error.Some? {
        assert scope in scopes;
        ChunksOfMember(scopes, scope);
        ChunksOfPrefix(scopes, j + 1);
        if Consistent(seen + ChunksOf(scopes)) {
          InconsistentStays(seen + ChunksOf(scopes[..j + 1]), seen + ChunksOf(scopes));
        }
        return;
      }
      assert KeysOf(scopes[..j + 1]) == KeysOf(scopes[..j]) + {ScopeKey(scope)};
    }
    assert scopes[..|scopes|] == scopes;
    error := None;
  }

  lemma {:induction false} AllChunksMember(cards: seq<Probed>, c: Probed)
    requires c in cards
    ensures forall k :: k in ChunksOf(c.scopes) ==> k in AllChunks(cards)
  {
    var n := |cards| - 1;
    if c in cards[..n] {
      AllChunksMember(cards[..n], c);
    }
  }

  lemma {:induction false} AllChunksPrefix(cards: seq<Probed>, i: nat)
    requires i <= |cards|
    ensures forall k :: k in AllChunks(cards[..i]) ==> k in AllChunks(cards)
  {
    if i < |cards| {
      AllChunksPrefix(cards[..|cards| - 1], i);
      assert cards[..|cards| - 1][..i] == cards[..i];
    } else {
      assert cards[..i] == cards;
    }
  }

  /** The bounds check accepts exactly the cards within bounds, whatever the order
      in which it meets a violation. */
  method AssertBounds(cards: seq<Probed>) returns (error: Option<BoundsError>)
    ensures error.None? <==> WithinBounds(cards)
  {
    if |cards| > MAXIMUM_CANDIDATE_CARDS {
      return Some(CardLimit);
    }
    var observations: map<Text, Chunk>, keys: set<Text> := map[], {};
    for i := 0 to |cards|
      invariant forall c :: c in cards[..i] ==> SizesOk(c.scopes)
      invariant Ranked(AllChunks(cards[..i])) && keys == ScopeKeys(cards[..i])
      invariant Consistent(AllChunks(cards[..i])) && Observed(AllChunks(cards[..i]), observations)
    {
      var card := cards[i];
      assert cards[..i + 1] == cards[..i] + [card];
      assert cards[..i + 1][..i] == cards[..i];
      var scopesSeen := keys;
      observations, keys, error := ObserveCard(card, observations, keys, AllChunks(cards[..i]));
      if error.Some? {
        assert card in cards;
        AllChunksMember(cards, card);
        AllChunksPrefix(cards, i + 1);
        if Consistent(AllChunks(cards)) {
          InconsistentStays(AllChunks(cards[..i + 1]), AllChunks(cards));
        }
        return;
      }
      assert ScopeKeys(cards[..i + 1]) == ScopeKeys(cards[..i]) + KeysOf(card.scopes);
    }
    assert cards[..|cards|] == cards;
    if |keys| > MAXIMUM_CANDIDATE_SCOPES || |observations.Keys| > MAXIMUM_PROBE_CHUNKS {
      return Some(ProbeLimit);
    }
    error := None;
  }

  // ----------------------------------------------------------- distinct chunks

  function WordsOf(x: Lexicon, texts: map<Text, Text>): map<Text, seq<Text>> {
    map id | id in texts :: x.words(texts[id])
  }

  lemma TextsOfAppend(chunks: seq<Chunk>, c: Chunk)
    ensures TextsOf(chunks + [c]) == TextsOf(chunks)[c.id := c.text]
  {
    assert (chunks + [c])[..|chunks|] == chunks;
  }

  method AddChunks(x: Lexicon, before: map<Text, seq<Text>>, ghost seen: seq<Chunk>, chunks: seq<Chunk>)
    returns (words: map<Text, seq<Text>>)
    requires before == WordsOf(x, TextsOf(seen))
    ensures words == WordsOf(x, TextsOf(seen + chunks))
  {
    hide WordsOf, TextsOf;
    words := before;
    assert seen + chunks[..0] == seen;
    for k := 0 to |chunks|
      invariant words == WordsOf(x, TextsOf(seen + chunks[..k]))
    {
      TextsOfAppend(seen + chunks[..k], chunks[k]);
      WordsOfUpdate(x, TextsOf(seen + chunks[..k]), chunks[k]);
      assert seen + chunks[..k + 1] == seen + chunks[..k] + [chunks[k]];
      words := words[chunks[k].id := x.words(chunks[k].text)];
    }
    assert chunks[..|chunks|] == chunks;
  }

  /** One entry per chunk revision, with the words of its last observation. */
  method DistinctChunks(x: Lexicon, cards: seq<Probed>) returns (chunks: map<Text, seq<Text>>)
    ensures chunks == WordsOf(x, TextsOf(AllChunks(cards)))
  {
    hide WordsOf, TextsOf;
    chunks := map[];
    NoWordsYet(x);
    for i := 0 to |cards|
      invariant chunks == WordsOf(x, TextsOf(AllChunks(cards[..i])))
    {
      var scopes := cards[i].scopes;
      assert AllChunks(cards[..i]) + ChunksOf(scopes[..0]) == AllChunks(cards[..i]);
      for j := 0 to |scopes|
        invariant chunks == WordsOf(x, TextsOf(AllChunks(cards[..i]) + ChunksOf(scopes[..j])))
      {
        ghost var before := AllChunks(cards[..i]) + ChunksOf(scopes[..j]);
        chunks := AddChunks(x, chunks, before, scopes[j].chunks);
        assert scopes[..j + 1][..j] == scopes[..j];
        assert before + scopes[j].chunks == AllChunks(cards[..i]) + ChunksOf(scopes[..j + 1]);
      }
      assert scopes[..|scopes|] == scopes;
      assert cards[..i + 1][..i] == cards[..i];
    }
    assert cards[..|cards|] == cards;
  }

  lemma NoWordsYet(x: Lexicon)
    ensures WordsOf(x, TextsOf([])) == map[]
  {
  }

  lemma WordsOfUpdate(x: Lexicon, texts: map<Text, Text>, c: Chunk)
    ensures WordsOf(x, texts[c.id := c.text]) == WordsOf(x, texts)[c.id := x.words(c.text)]
  {
  }

  // ------------------------------------------------------------ the greedy loop

  /** Adds the most useful worthwhile card until the target is preserved, four
      cards are selected, or no choice is left. */
  method SelectMinimumSetLoop(evidence: seq<Evidence>, target: seq<real>, weights: seq<real>, leader: Evidence)
    returns (selection: Selection)
    ensures selection == SelectMinimumSet(evidence, target, weights, leader)
  {
    var selected, coverage := [leader], leader.tokenSupports;
    while |selected| < MAXIMUM_SELECTED_CARDS && !Preserves(coverage, target, weights)
      invariant |selected| <= MAXIMUM_SELECTED_CARDS
      invariant Grow(evidence, target, weights, Attempt(selected, coverage)) == Greedy(evidence, target, weights, leader)
      decreases MAXIMUM_SELECTED_CARDS - |selected|
    {
      var chosen := NextChoice(evidence, selected, coverage, weights);
      if chosen.None? {
        break;
      }
      selected := selected + [chosen.value];
      coverage := Merge(coverage, chosen.value.tokenSupports);
    }
    selection := Selection(SortBy(selected, ById(Version())), coverage, Preserves(coverage, target, weights));
  }
}
