/**
 * The in-memory retrieval store, `VectorStore`: two parallel arrays of
 * vectors and catalog items, filled by `addItem` and ranked by `search`.
 *
 * The embedding model is the function parameter `embed` (text to vector)
 * and the similarity of two vectors is the parameter `similarity`; scores
 * are therefore given reals, and only their order matters here.
 */
module Retrieval {
  import opened Wrappers
  import opened Text
  import opened Records
  import opened TradeTerms

  datatype StoreError =
    | ModelNotInitialized     // `addItem` before a model was loaded
    | ModelLoadFailed         // `use.load()` failed on every attempt
    | EmptyEmbeddingInput     // `generateEmbedding` of an empty string
    | EmbeddingFailed         // the model returned an empty vector
    | NotInitializedOrEmpty   // `search` before initialisation or with no vectors

  /** What the persistence adapter's `loadData` returns (it never returns a labour rate). */
  datatype StoredData = StoredData(vectors: seq<Vector>, items: seq<Item>, markup: seq<Tier>)

  /** A search result: the stored item (absent when `items` is shorter than `vectors`) and its score. */
  datatype Hit = Hit(item: Option<Item>, score: real)

  function Min(a: int, b: int): int {
    if a <= b then a else b
  }

  // ---------------------------------------------------------------------------
  // Model loading and embedding
  // ---------------------------------------------------------------------------

  const LoadAttempts: nat := 3
  const MaxEmbeddingInput: nat := 1000

  /** Some attempt of the three that `initialize` makes succeeds. */
  predicate ModelLoads(loadSucceeds: nat -> bool) {
    exists j :: 0 <= j < LoadAttempts && loadSucceeds(j)
  }

  /**
   * The retry loop around `use.load()`: `loadSucceeds(j)` says whether
   * attempt `j` succeeds. Loading stops at the first success and gives up
   * after three failures. The one-second pause between attempts is not
   * modelled.
   */
  method LoadModel(loadSucceeds: nat -> bool) returns (loaded: bool, attempts: nat)
    ensures 1 <= attempts <= LoadAttempts
    ensures loaded <==> ModelLoads(loadSucceeds)
    ensures loaded ==> loadSucceeds(attempts - 1)
    ensures forall j :: 0 <= j < attempts - 1 ==> !loadSucceeds(j)
    ensures !loaded ==> attempts == LoadAttempts
  {
    var retries := LoadAttempts;
    loaded, attempts := false, 0;
    while retries > 0
      invariant 0 <= retries <= LoadAttempts && attempts == LoadAttempts - retries
      invariant forall j :: 0 <= j < attempts ==> !loadSucceeds(j)
      decreases retries
    {
      attempts := attempts + 1;
      if loadSucceeds(attempts - 1) {
        loaded := true;
        break;
      }
      retries := retries - 1;
    }
  }

  /** The text the model is given: trimmed, then cut to its first 1000 characters. */
  function EmbeddingInput(text: string): (r: string)
    ensures |r| <= MaxEmbeddingInput
    ensures |r| == Min(|Trim(text)|, MaxEmbeddingInput) && r == Trim(text)[..|r|]
  {
    var t := Trim(text);
    if |t| <= MaxEmbeddingInput then t else t[..MaxEmbeddingInput]
  }

  /**
   * `generateEmbedding(text)` with a loaded model: an empty text is refused,
   * the model sees at most 1000 trimmed characters, and an empty vector from
   * the model is an error.
   */
  function GenerateEmbedding(embed: string -> Vector, text: string): (r: Result<Vector, StoreError>)
    ensures text == [] ==> r == Failure(EmptyEmbeddingInput)
    ensures r.Success? <==> text != [] && embed(EmbeddingInput(text)) != []
    ensures r.Success? ==> r.value == embed(EmbeddingInput(text)) && r.value != []
  {
    if text == [] then Failure(EmptyEmbeddingInput)
    else
      var v := embed(EmbeddingInput(text));
      if v == [] then Failure(EmbeddingFailed) else Success(v)
  }

  /** What `generateEmbedding(enhanceSearchText(text))` yields with dictionary `d`. */
  function EmbeddingOf(d: Dictionary, embed: string -> Vector, text: string): Result<Vector, StoreError> {
    GenerateEmbedding(embed, Enhanced(d, text))
  }

  /** The store's way of computing an embedding agrees with `EmbeddingOf` (a congruence step, kept out of the store's proofs). */
  lemma EmbeddingOfEnhanced(d: Dictionary, embed: string -> Vector, text: string, enhanced: string)
    requires enhanced == Enhanced(d, text)
    ensures EmbeddingOf(d, embed, text) == GenerateEmbedding(embed, enhanced)
  {
  }

  // ---------------------------------------------------------------------------
  // Ranking: a stable sort of the indices by descending score, then a cut
  // ---------------------------------------------------------------------------

  /**
   * Index `i` is ranked before index `j`: a higher score, or an equal score
   * and an earlier insertion. Sorting the indices `0..n-1` stably by descending
   * score puts them in exactly this order.
   */
  predicate RanksBefore(scores: seq<real>, i: nat, j: nat)
    requires i < |scores| && j < |scores|
  {
    scores[i] > scores[j] || (scores[i] == scores[j] && i < j)
  }

  /** Every element is an index of `scores`, listed in ranking order. */
  predicate Ranked(scores: seq<real>, s: seq<nat>) {
    (forall j :: 0 <= j < |s| ==> s[j] < |scores|)
    && (forall j, j' :: 0 <= j < j' < |s| ==> RanksBefore(scores, s[j], s[j']))
  }

  /**
   * `order` is what `indices.sort(...).slice(0, k)` yields: min(k, n) indices
   * in ranking order, and every index left out ranks after every index kept.
   */
  ghost predicate IsTopK(scores: seq<real>, k: nat, order: seq<nat>) {
    |order| == Min(k, |scores|)
    && Ranked(scores, order)
    && forall j, i :: 0 <= j < |order| && 0 <= i < |scores| && i !in order ==> RanksBefore(scores, order[j], i)
  }

  /** Places index `x` into a ranked sequence of indices. */
  function Insert(scores: seq<real>, s: seq<nat>, x: nat): (r: seq<nat>)
    requires Ranked(scores, s) && x < |scores| && x !in s
    ensures |r| == |s| + 1
    ensures forall y :: y in r <==> y == x || y in s
    ensures Ranked(scores, r)
  {
    if s == [] || RanksBefore(scores, x, s[0]) then [x] + s
    else
      var rest := Insert(scores, s[1..], x);
      var r := [s[0]] + rest;
      assert forall j' :: 1 <= j' < |r| ==> RanksBefore(scores, s[0], r[j']) by {
        assert RanksBefore(scores, s[0], x);
        forall j' | 1 <= j' < |r| ensures RanksBefore(scores, s[0], r[j']) {
          assert r[j'] == rest[j' - 1] && rest[j' - 1] in rest;
          if r[j'] != x {
            var m :| 0 <= m < |s[1..]| && s[1..][m] == r[j'];
            assert s[m + 1] == r[j'];
          }
        }
      }
      assert forall y :: y in s[1..] ==> y in s;
      r
  }

  /** The ranking of all indices: the stable sort by descending score. */
  method Rank(scores: seq<real>, k: nat) returns (order: seq<nat>)
    ensures IsTopK(scores, k, order)
  {
    var ranked: seq<nat> := [];
    for i := 0 to |scores|
      invariant |ranked| == i
      invariant forall x: nat :: x in ranked <==> x < i
      invariant Ranked(scores, ranked)
    {
      ranked := Insert(scores, ranked, i);
    }
    order := ranked[..Min(k, |scores|)];
    forall j, i | 0 <= j < |order| && 0 <= i < |scores| && i !in order
      ensures RanksBefore(scores, order[j], i)
    {
      assert i in ranked;
      var p :| 0 <= p < |ranked| && ranked[p] == i;
      assert p >= |order|;
    }
  }

  lemma {:induction false} TopKAgreeUpTo(scores: seq<real>, k: nat, o1: seq<nat>, o2: seq<nat>, p: nat)
    requires IsTopK(scores, k, o1) && IsTopK(scores, k, o2)
    requires p < |o1|
    ensures forall q :: 0 <= q <= p ==> o1[q] == o2[q]
  {
    if p > 0 {
      TopKAgreeUpTo(scores, k, o1, o2, p - 1);
    }
    var a, b := o1[p], o2[p];
    if a != b {
      if RanksBefore(scores, a, b) {
        if a in o2 {
          assert false;
        } else {
          assert false;
        }
      } else {
        if b in o1 {
          assert false;
        } else {
          assert false;
        }
      }
    }
  }

  /**
   * The top-k specification leaves no freedom: two rankings that meet it are
   * the same sequence, so it describes the stable sort's output exactly.
   */
  lemma TopKUnique(scores: seq<real>, k: nat, o1: seq<nat>, o2: seq<nat>)
    requires IsTopK(scores, k, o1) && IsTopK(scores, k, o2)
    ensures o1 == o2
  {
    if |o1| > 0 {
      TopKAgreeUpTo(scores, k, o1, o2, |o1| - 1);
    }
  }

  /** The score of every stored vector against the query vector. */
  function Scores(similarity: (Vector, Vector) -> real, query: Vector, vectors: seq<Vector>): (r: seq<real>)
    ensures |r| == |vectors|
    ensures forall i :: 0 <= i < |vectors| ==> r[i] == similarity(query, vectors[i])
  {
    seq(|vectors|, i requires 0 <= i < |vectors| => similarity(query, vectors[i]))
  }

  /** The hits for ranked indices: each index's item, when there is one, and its score. */
  function Hits(items: seq<Item>, scores: seq<real>, order: seq<nat>): (r: seq<Hit>)
    requires forall j :: 0 <= j < |order| ==> order[j] < |scores|
    ensures |r| == |order|
    ensures forall j :: 0 <= j < |order| ==>
              r[j] == Hit(if order[j] < |items| then Some(items[order[j]]) else None, scores[order[j]])
  {
    seq(|order|, j requires 0 <= j < |order| =>
      Hit(if order[j] < |items| then Some(items[order[j]]) else None, scores[order[j]]))
  }

  // ---------------------------------------------------------------------------
  // The store
  // ---------------------------------------------------------------------------

  class VectorStore {
    var vectors: seq<Vector>
    var items: seq<Item>
    var initialized: bool
    /** `this.model !== null`. */
    var modelLoaded: bool
    var tradeTerms: Dictionary

    constructor ()
      ensures vectors == [] && items == []
      ensures !initialized && !modelLoaded && tradeTerms == []
    {
      vectors, items := [], [];
      initialized, modelLoaded := false, false;
      tradeTerms := [];
    }

    /**
     * `hasData()`: initialised, and both arrays non-empty and of equal length;
     * a store with data never refuses a search, and every vector has its item.
     */
    predicate HasData()
      reads this
      ensures HasData() ==> initialized && |vectors| > 0
      ensures HasData() ==> |items| == |vectors|
      ensures !initialized || |vectors| == 0 || |items| == 0 || |vectors| != |items| ==> !HasData()
    {
      initialized && |vectors| > 0 && |items| > 0 && |vectors| == |items|
    }

    /** `initializeTradeTerms()`. */
    method InitializeTradeTerms()
      modifies this`tradeTerms
      ensures tradeTerms == TradeTermDictionary
    {
      tradeTerms := TradeTermDictionary;
    }

    /**
     * `initialize()`: installs the dictionary, loads the model (three
     * attempts), then takes over the stored arrays when both are non-empty.
     * The result is whether stored data was taken over.
     */
    method Initialize(loadSucceeds: nat -> bool, stored: StoredData) returns (r: Result<bool, StoreError>)
      modifies this
      ensures tradeTerms == TradeTermDictionary
      ensures r.Failure? <==> !ModelLoads(loadSucceeds)
      ensures r.Failure? ==>
                && r.error == ModelLoadFailed
                && vectors == old(vectors) && items == old(items)
                && initialized == old(initialized) && modelLoaded == old(modelLoaded)
      ensures r.Success? ==> initialized && modelLoaded
      ensures r == Success(true) <==> ModelLoads(loadSucceeds) && |stored.vectors| > 0 && |stored.items| > 0
      ensures r == Success(true) ==> vectors == stored.vectors && items == stored.items
      ensures r == Success(false) ==> vectors == old(vectors) && items == old(items)
    {
      InitializeTradeTerms();
      var loaded, _ := LoadModel(loadSucceeds);
      if !loaded {
        return Failure(ModelLoadFailed);
      }
      modelLoaded := true;
      if |stored.vectors| > 0 && |stored.items| > 0 {
        vectors, items := stored.vectors, stored.items;
        initialized := true;
        return Success(true);
      }
      initialized := true;
      return Success(false);
    }

    /** The enhanced text of `text` under the current dictionary, embedded. */
    method EmbedEnhanced(text: string, embed: string -> Vector) returns (r: Result<Vector, StoreError>)
      ensures r == EmbeddingOf(tradeTerms, embed, text)
    {
      var enhancedText := EnhanceSearchText(tradeTerms, text);
      r := GenerateEmbedding(embed, enhancedText);
      EmbeddingOfEnhanced(tradeTerms, embed, text, enhancedText);
    }

    /**
     * `addItem(text, metadata)`: refuses without a model, otherwise embeds the
     * enhanced text and appends the vector and the item together; on any
     * failure neither array changes.
     */
    method AddItem(text: string, metadata: Item, embed: string -> Vector) returns (r: Result<(), StoreError>)
      modifies this`vectors, this`items
      ensures !modelLoaded ==> r == Failure(ModelNotInitialized)
      ensures modelLoaded ==> (r.Success? <==> EmbeddingOf(tradeTerms, embed, text).Success?)
      ensures r.Failure? ==> vectors == old(vectors) && items == old(items)
      ensures r.Success? ==>
                && vectors == old(vectors) + [EmbeddingOf(tradeTerms, embed, text).value]
                && items == old(items) + [metadata]
    {
      if !modelLoaded {
        return Failure(ModelNotInitialized);
      }
      var embedding := EmbedEnhanced(text, embed);
      if embedding.Failure? {
        return Failure(embedding.error);
      }
      vectors := vectors + [embedding.value];
      items := items + [metadata];
      return Success(());
    }

    /**
     * `search(query, k)`: refuses when not initialised or empty; otherwise
     * scores every vector against the embedded enhanced query and returns the
     * top `k` items in ranking order with their scores. `order` holds the
     * ranked indices behind the hits.
     */
    method Search(query: string, k: nat, embed: string -> Vector, similarity: (Vector, Vector) -> real)
      returns (r: Result<seq<Hit>, StoreError>, order: seq<nat>)
      ensures !initialized || |vectors| == 0 ==> r == Failure(NotInitializedOrEmpty)
      ensures initialized && |vectors| > 0 ==> (r.Success? <==> EmbeddingOf(tradeTerms, embed, query).Success?)
      ensures r.Success? ==>
        var scores := Scores(similarity, EmbeddingOf(tradeTerms, embed, query).value, vectors);
        && IsTopK(scores, k, order)
        && |r.value| == |order| == Min(k, |vectors|)
        && forall j :: 0 <= j < |order| ==>
             r.value[j] == Hit(if order[j] < |items| then Some(items[order[j]]) else None, scores[order[j]])
      ensures HasData() && r.Success? ==> forall j :: 0 <= j < |r.value| ==> r.value[j].item.Some?
    {
      order := [];
      if !initialized || |vectors| == 0 {
        return Failure(NotInitializedOrEmpty), order;
      }
      var queryEmbedding := EmbedEnhanced(query, embed);
      if queryEmbedding.Failure? {
        return Failure(queryEmbedding.error), order;
      }
      var scores := Scores(similarity, queryEmbedding.value, vectors);
      order := Rank(scores, k);
      return Success(Hits(items, scores, order)), order;
    }

    /** `clearCache()`: both arrays emptied (the persistent stores are cleared too). */
    method ClearCache()
      modifies this`vectors, this`items
      ensures vectors == [] && items == []
      ensures !HasData()
      ensures initialized == old(initialized)
    {
      vectors, items := [], [];
    }
  }
}
