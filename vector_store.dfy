/** The in-memory vector store: two id-keyed dictionaries, one holding the
    embedding vectors and one their metadata, iterated in insertion order, with
    a filtered top-k similarity search. The similarity measure (cosine
    similarity over floats in the original) is a parameter of the search. */
module VectorStore {
  import opened Values
  import opened Text

  type Id = string
  type Vector = seq<real>

  /** One search result, the triple `(vector_id, similarity, metadata)`. */
  datatype Hit = Hit(id: Id, score: real, meta: Dict)

  predicate Distinct(s: seq<Id>)
  {
    forall i, j :: 0 <= i < j < |s| ==> s[i] != s[j]
  }

  // ---------------------------------------------------------------------
  // Dictionary updates

  /** The dictionary after `d[ids[j]] = vals[j]` for j = 0, 1, ... in turn. */
  function PutAll<V>(m: map<Id, V>, ids: seq<Id>, vals: seq<V>): map<Id, V>
    requires |ids| == |vals|
    decreases |ids|
  {
    if |ids| == 0 then m
    else
      var n := |ids| - 1;
      PutAll(m, ids[..n], vals[..n])[ids[n] := vals[n]]
  }

  /** Every listed key is present afterwards, and keys that are not listed
      keep their values. */
  lemma {:induction false} PutAllKeys<V>(m: map<Id, V>, ids: seq<Id>, vals: seq<V>)
    requires |ids| == |vals|
    ensures forall k :: k in PutAll(m, ids, vals) <==> k in m || k in ids
    ensures forall k :: k in m && k !in ids ==> PutAll(m, ids, vals)[k] == m[k]
    decreases |ids|
  {
    if |ids| > 0 {
      var n := |ids| - 1;
      assert ids == ids[..n] + [ids[n]];
      PutAllKeys(m, ids[..n], vals[..n]);
    }
  }

  /** Re-adding an id overwrites it: the last assignment to a key wins. */
  lemma {:induction false} PutAllLastWins<V>(m: map<Id, V>, ids: seq<Id>, vals: seq<V>, j: nat)
    requires |ids| == |vals| && j < |ids| && ids[j] !in ids[j + 1..]
    ensures ids[j] in PutAll(m, ids, vals) && PutAll(m, ids, vals)[ids[j]] == vals[j]
    decreases |ids|
  {
    var n := |ids| - 1;
    if j < n {
      assert ids[j + 1..] == ids[..n][j + 1..] + [ids[n]];
      PutAllLastWins(m, ids[..n], vals[..n], j);
    }
  }

  /** The key order of a dictionary after `d[id] = ...`: a new key goes last,
      an existing key keeps its place. */
  function Touch(order: seq<Id>, id: Id): (r: seq<Id>)
    ensures forall k :: k in r <==> k in order || k == id
    ensures order <= r
    ensures Distinct(order) ==> Distinct(r)
  {
    if id in order then order else order + [id]
  }

  /** The key order after assigning the listed keys in turn. */
  function TouchAll(order: seq<Id>, ids: seq<Id>): seq<Id>
    decreases |ids|
  {
    if |ids| == 0 then order
    else Touch(TouchAll(order, ids[..|ids| - 1]), ids[|ids| - 1])
  }

  /** Adding keys never reorders or repeats the keys already there, and new
      keys are appended. */
  lemma {:induction false} TouchAllKeys(order: seq<Id>, ids: seq<Id>)
    ensures forall k :: k in TouchAll(order, ids) <==> k in order || k in ids
    ensures order <= TouchAll(order, ids)
    ensures Distinct(order) ==> Distinct(TouchAll(order, ids))
    decreases |ids|
  {
    if |ids| > 0 {
      var n := |ids| - 1;
      assert ids == ids[..n] + [ids[n]];
      TouchAllKeys(order, ids[..n]);
    }
  }

  /** The key order after popping every key of `gone`: the others keep their
      relative order. */
  function Without(order: seq<Id>, gone: set<Id>): seq<Id>
    decreases |order|
  {
    if |order| == 0 then []
    else
      var n := |order| - 1;
      var rest := Without(order[..n], gone);
      if order[n] in gone then rest else rest + [order[n]]
  }

  /** Exactly the keys of `gone` disappear, and none is repeated. */
  lemma {:induction false} WithoutKeys(order: seq<Id>, gone: set<Id>)
    ensures forall k :: k in Without(order, gone) <==> k in order && k !in gone
    ensures Distinct(order) ==> Distinct(Without(order, gone))
    decreases |order|
  {
    if |order| > 0 {
      var n := |order| - 1;
      assert order == order[..n] + [order[n]];
      WithoutKeys(order[..n], gone);
    }
  }

  lemma {:induction false} WithoutNothing(order: seq<Id>)
    ensures Without(order, {}) == order
    decreases |order|
  {
    if |order| > 0 {
      var n := |order| - 1;
      WithoutNothing(order[..n]);
      assert order == order[..n] + [order[n]];
    }
  }

  lemma WithoutTwice(order: seq<Id>, gone: set<Id>, more: set<Id>)
    ensures Without(Without(order, gone), more) == Without(order, gone + more)
    decreases |order|
  {
    if |order| > 0 {
      var n := |order| - 1;
      WithoutTwice(order[..n], gone, more);
      var w := Without(order[..n], gone);
      if order[n] !in gone {
        assert (w + [order[n]])[..|w|] == w;
      }
    }
  }

  // ---------------------------------------------------------------------
  // Search

  /** `all(meta.get(k) == v for k, v in filter_dict.items())`: a missing key
      reads as None, and values compare with Python's `==`. */
  predicate Matches(meta: Dict, filter: Dict)
  {
    forall k :: k in filter ==> PyEq(Get(meta, k), filter[k])
  }

  /** The filter compares as Python does: a stored 1 passes a `True` filter and
      a stored 0 a `False` one, a string never equals a number, and a missing
      key passes only a `None` filter. */
  lemma FilterComparesLikePython(key: string, v: Value)
    ensures Matches(map[key := VInt(1)], map[key := VBool(true)])
    ensures Matches(map[key := VBool(false)], map[key := VInt(0)])
    ensures !Matches(map[key := VStr("1")], map[key := VInt(1)])
    ensures Matches(map[], map[key := v]) <==> v == VNone
  {
    assert Get(map[key := VStr("1")], key) == VStr("1");
    var empty: Dict := map[];
    assert key in map[key := v] && Get(empty, key) == VNone;
  }

  /** `self.metadata.get(vector_id, {})`. */
  function MetaOf(metadata: map<Id, Dict>, id: Id): Dict
  {
    if id in metadata then metadata[id] else map[]
  }

  /** Whether a record survives `if filter_dict: ... continue`. An absent and
      an empty filter both let every record through. */
  predicate Passes(metadata: map<Id, Dict>, id: Id, filter: Option<Dict>)
  {
    filter.None? || filter.value == map[] || Matches(MetaOf(metadata, id), filter.value)
  }

  /** The `similarities` list before sorting: one hit per stored record that
      passes the filter, in dictionary order. */
  function Candidates(order: seq<Id>, vectors: map<Id, Vector>, metadata: map<Id, Dict>,
                      query: Vector, filter: Option<Dict>, sim: (Vector, Vector) -> real): (r: seq<Hit>)
    requires forall id :: id in order ==> id in vectors
    ensures forall i :: 0 <= i < |r| ==>
              && r[i].id in order && Passes(metadata, r[i].id, filter)
              && r[i] == Hit(r[i].id, sim(query, vectors[r[i].id]), MetaOf(metadata, r[i].id))
    decreases |order|
  {
    if |order| == 0 then []
    else
      var n := |order| - 1;
      var id := order[n];
      assert forall k :: k in order[..n] ==> k in order;
      var rest := Candidates(order[..n], vectors, metadata, query, filter, sim);
      if Passes(metadata, id, filter) then
        var r := rest + [Hit(id, sim(query, vectors[id]), MetaOf(metadata, id))];
        assert forall i :: 0 <= i < |rest| ==> r[i] == rest[i];
        r
      else rest
  }

  /** Every stored record that passes the filter is scored. */
  lemma {:induction false} CandidatesComplete(order: seq<Id>, vectors: map<Id, Vector>, metadata: map<Id, Dict>,
                                              query: Vector, filter: Option<Dict>, sim: (Vector, Vector) -> real, j: nat)
    requires forall id :: id in order ==> id in vectors
    requires j < |order| && Passes(metadata, order[j], filter)
    ensures Hit(order[j], sim(query, vectors[order[j]]), MetaOf(metadata, order[j]))
            in Candidates(order, vectors, metadata, query, filter, sim)
    decreases |order|
  {
    var n := |order| - 1;
    assert forall k :: k in order[..n] ==> k in order;
    if j < n {
      CandidatesComplete(order[..n], vectors, metadata, query, filter, sim, j);
    }
  }

  /** One more record scored: the list grows by its hit exactly when it
      passes the filter. */
  lemma CandidatesSnoc(order: seq<Id>, vectors: map<Id, Vector>, metadata: map<Id, Dict>,
                       query: Vector, filter: Option<Dict>, sim: (Vector, Vector) -> real, i: nat)
    requires forall id :: id in order ==> id in vectors
    requires i < |order|
    ensures Candidates(order[..i + 1], vectors, metadata, query, filter, sim)
         == Candidates(order[..i], vectors, metadata, query, filter, sim)
            + if Passes(metadata, order[i], filter)
              then [Hit(order[i], sim(query, vectors[order[i]]), MetaOf(metadata, order[i]))] else []
  {
    assert order[..i + 1][..i] == order[..i];
    assert order[..i + 1][i] == order[i];
  }

  predicate SortedByScore(hs: seq<Hit>)
  {
    forall i, j :: 0 <= i < j < |hs| ==> hs[i].score >= hs[j].score
  }

  /** Inserts `h` into a list sorted by decreasing score, after every element
      whose score is at least `h.score`. */
  function InsertByScore(hs: seq<Hit>, h: Hit): (r: seq<Hit>)
    requires SortedByScore(hs)
    ensures SortedByScore(r)
    ensures multiset(r) == multiset(hs) + multiset{h}
    ensures r[0] == h || (|hs| > 0 && r[0] == hs[0])
    decreases |hs|
  {
    if |hs| == 0 then [h]
    else if h.score > hs[0].score then [h] + hs
    else
      var t := InsertByScore(hs[1..], h);
      assert hs == [hs[0]] + hs[1..];
      ConsSorted(hs[0], t);
      [hs[0]] + t
  }

  lemma ConsSorted(h: Hit, t: seq<Hit>)
    requires SortedByScore(t) && |t| > 0 && h.score >= t[0].score
    ensures SortedByScore([h] + t)
  {
    var r := [h] + t;
    forall i, j | 0 <= i < j < |r| ensures r[i].score >= r[j].score {
      if i == 0 {
        assert r[j] == t[j - 1];
      } else {
        assert r[i] == t[i - 1] && r[j] == t[j - 1];
      }
    }
  }

  /** `similarities.sort(key=lambda x: x[1], reverse=True)`: a stable sort by
      decreasing score, here as an insertion sort over the list in its
      original order. */
  function SortByScore(hs: seq<Hit>): (r: seq<Hit>)
    ensures SortedByScore(r)
    ensures multiset(r) == multiset(hs)
    decreases |hs|
  {
    if |hs| == 0 then []
    else
      var n := |hs| - 1;
      assert hs == hs[..n] + [hs[n]];
      InsertByScore(SortByScore(hs[..n]), hs[n])
  }

  /** The hits that have exactly score `x`, in list order. */
  function WithScore(hs: seq<Hit>, x: real): seq<Hit>
    decreases |hs|
  {
    if |hs| == 0 then []
    else (if hs[0].score == x then [hs[0]] else []) + WithScore(hs[1..], x)
  }

  lemma {:induction false} WithScoreAppend(a: seq<Hit>, b: seq<Hit>, x: real)
    ensures WithScore(a + b, x) == WithScore(a, x) + WithScore(b, x)
    decreases |a|
  {
    if |a| > 0 {
      assert (a + b)[0] == a[0];
      assert (a + b)[1..] == a[1..] + b;
      WithScoreAppend(a[1..], b, x);
    } else {
      assert a + b == b;
    }
  }

  lemma {:induction false} WithScoreBelow(hs: seq<Hit>, x: real)
    requires forall i :: 0 <= i < |hs| ==> hs[i].score < x
    ensures WithScore(hs, x) == []
    decreases |hs|
  {
    if |hs| > 0 {
      WithScoreBelow(hs[1..], x);
    }
  }

  /** Inserting ahead of a sorted list whose scores are all lower. */
  lemma WithScoreInsertFront(hs: seq<Hit>, h: Hit, x: real)
    requires SortedByScore(hs) && |hs| > 0 && h.score > hs[0].score
    ensures WithScore([h] + hs, x) == WithScore(hs, x) + WithScore([h], x)
  {
    WithScoreAppend([h], hs, x);
    if h.score == x {
      forall i | 0 <= i < |hs| ensures hs[i].score < x {
        assert hs[0].score >= hs[i].score;
      }
      WithScoreBelow(hs, x);
    } else {
      assert WithScore([h], x) == [];
    }
  }

  /** Inserting behind the head of a sorted list. */
  lemma WithScoreInsertLater(head: Hit, tail: seq<Hit>, t: seq<Hit>, h: Hit, x: real)
    requires WithScore(t, x) == WithScore(tail, x) + WithScore([h], x)
    ensures WithScore([head] + t, x) == WithScore([head] + tail, x) + WithScore([h], x)
  {
    WithScoreAppend([head], t, x);
    WithScoreAppend([head], tail, x);
  }

  lemma {:induction false} WithScoreInsert(hs: seq<Hit>, h: Hit, x: real)
    requires SortedByScore(hs)
    ensures WithScore(InsertByScore(hs, h), x) == WithScore(hs, x) + WithScore([h], x)
    decreases |hs|
  {
    if |hs| == 0 {
      assert InsertByScore(hs, h) == [h];
      assert WithScore(hs, x) == [];
    } else if h.score > hs[0].score {
      assert InsertByScore(hs, h) == [h] + hs;
      WithScoreInsertFront(hs, h, x);
    } else {
      var head, tail := hs[0], hs[1..];
      SplitFirst(hs);
      var t := InsertByScore(tail, h);
      assert InsertByScore(hs, h) == [head] + t;
      WithScoreInsert(tail, h, x);
      WithScoreInsertLater(head, tail, t, h, x);
    }
  }

  lemma StableStep(r: seq<Hit>, inserted: seq<Hit>, sorted: seq<Hit>, front: seq<Hit>, last: seq<Hit>,
                   hs: seq<Hit>, x: real)
    requires r == inserted && hs == front + last
    requires WithScore(inserted, x) == WithScore(sorted, x) + WithScore(last, x)
    requires WithScore(sorted, x) == WithScore(front, x)
    requires WithScore(front + last, x) == WithScore(front, x) + WithScore(last, x)
    ensures WithScore(r, x) == WithScore(hs, x)
  {
  }

  /** The sort is stable: among hits with equal scores the original order is
      kept. Together with `SortedByScore` this pins the sorted list down. */
  lemma {:induction false} SortByScoreStable(hs: seq<Hit>, x: real)
    ensures WithScore(SortByScore(hs), x) == WithScore(hs, x)
    decreases |hs|
  {
    if |hs| > 0 {
      var n := |hs| - 1;
      var front, h := hs[..n], hs[n];
      SplitLast(hs);
      var sorted := SortByScore(front);
      assert SortByScore(hs) == InsertByScore(sorted, h);
      SortByScoreStable(front, x);
      WithScoreInsert(sorted, h, x);
      WithScoreAppend(front, [h], x);
      StableStep(SortByScore(hs), InsertByScore(sorted, h), sorted, front, [h], hs, x);
    }
  }

  /** What `search` returns: nothing for an empty store, otherwise the first
      `top_k` (a Python slice bound) of the sorted candidates. */
  function SearchResult(order: seq<Id>, vectors: map<Id, Vector>, metadata: map<Id, Dict>,
                        query: Vector, topK: int, filter: Option<Dict>, sim: (Vector, Vector) -> real): seq<Hit>
    requires forall id :: id in order ==> id in vectors
  {
    if |vectors| == 0 then []
    else Take(SortByScore(Candidates(order, vectors, metadata, query, filter, sim)), topK)
  }

  /** What the search promises: at most `top_k` hits, highest score first,
      each a stored record that passes the filter together with its own
      similarity and metadata, and no candidate left out scores above a
      returned one. */
  lemma SearchResultProperties(order: seq<Id>, vectors: map<Id, Vector>, metadata: map<Id, Dict>,
                               query: Vector, topK: int, filter: Option<Dict>, sim: (Vector, Vector) -> real)
    requires forall id :: id in order ==> id in vectors
    ensures var r := SearchResult(order, vectors, metadata, query, topK, filter, sim);
      && (0 <= topK ==> |r| <= topK)
      && SortedByScore(r)
      && (forall i :: 0 <= i < |r| ==>
            && r[i].id in order && Passes(metadata, r[i].id, filter)
            && r[i] == Hit(r[i].id, sim(query, vectors[r[i].id]), MetaOf(metadata, r[i].id)))
  {
    var r := SearchResult(order, vectors, metadata, query, topK, filter, sim);
    if |vectors| != 0 {
      var c := Candidates(order, vectors, metadata, query, filter, sim);
      var s := SortByScore(c);
      forall i | 0 <= i < |r| ensures r[i] in multiset(c) {
        assert r[i] == s[i];
        assert s[i] in multiset(s);
      }
      forall i | 0 <= i < |r| ensures r[i].id in order && Passes(metadata, r[i].id, filter)
        && r[i] == Hit(r[i].id, sim(query, vectors[r[i].id]), MetaOf(metadata, r[i].id))
      {
        assert r[i] in multiset(c);
        var j :| 0 <= j < |c| && c[j] == r[i];
      }
    }
  }

  /** The returned hits are the best ones: every candidate that was cut off
      by `top_k` scores no higher than any hit that was returned. */
  lemma SearchResultIsTop(order: seq<Id>, vectors: map<Id, Vector>, metadata: map<Id, Dict>,
                          query: Vector, topK: int, filter: Option<Dict>, sim: (Vector, Vector) -> real)
    requires forall id :: id in order ==> id in vectors
    requires |vectors| != 0
    ensures var c := Candidates(order, vectors, metadata, query, filter, sim);
      var r := SearchResult(order, vectors, metadata, query, topK, filter, sim);
      && multiset(r) <= multiset(c)
      && forall h: Hit, i: int :: h in multiset(c) - multiset(r) && 0 <= i < |r| ==> h.score <= r[i].score
  {
    var c := Candidates(order, vectors, metadata, query, filter, sim);
    var s := SortByScore(c);
    var r := Take(s, topK);
    PrefixOfSortedIsTop(s, |r|);
  }

  /** A prefix of a list sorted by decreasing score holds its best elements. */
  lemma PrefixOfSortedIsTop(s: seq<Hit>, k: nat)
    requires SortedByScore(s) && k <= |s|
    ensures multiset(s[..k]) <= multiset(s)
    ensures forall h: Hit, i: int :: h in multiset(s) - multiset(s[..k]) && 0 <= i < k ==> h.score <= s[..k][i].score
  {
    assert s == s[..k] + s[k..];
    assert multiset(s) == multiset(s[..k]) + multiset(s[k..]);
    forall h: Hit, i: int | h in multiset(s) - multiset(s[..k]) && 0 <= i < k ensures h.score <= s[..k][i].score {
      assert h in multiset(s[k..]);
      var j :| 0 <= j < |s[k..]| && s[k..][j] == h;
      assert s[k + j] == h;
    }
  }

  /** Searching an empty store returns nothing, whatever the query. */
  lemma EmptyStoreSearch(query: Vector, topK: int, filter: Option<Dict>, sim: (Vector, Vector) -> real)
    ensures SearchResult([], map[], map[], query, topK, filter, sim) == []
  {
  }

  /** Once ids are deleted, no search returns them. */
  lemma DeletedNeverReturned(order: seq<Id>, vectors: map<Id, Vector>, metadata: map<Id, Dict>, gone: set<Id>,
                             query: Vector, topK: int, filter: Option<Dict>, sim: (Vector, Vector) -> real)
    requires forall id :: id in order ==> id in vectors
    ensures forall id :: id in Without(order, gone) ==> id in vectors - gone
    ensures var r := SearchResult(Without(order, gone), vectors - gone, metadata - gone, query, topK, filter, sim);
      forall i :: 0 <= i < |r| ==> r[i].id !in gone
  {
    WithoutKeys(order, gone);
    SearchResultProperties(Without(order, gone), vectors - gone, metadata - gone, query, topK, filter, sim);
  }

  // ---------------------------------------------------------------------
  // The store

  /** Both dictionaries hold the same keys, and `order` lists them once each. */
  ghost predicate Consistent(order: seq<Id>, vectors: map<Id, Vector>, metadata: map<Id, Dict>)
  {
    && Distinct(order)
    && (forall id :: id in vectors <==> id in order)
    && (forall id :: id in metadata <==> id in order)
  }

  lemma PutKeepsConsistent(order: seq<Id>, vectors: map<Id, Vector>, metadata: map<Id, Dict>,
                           id: Id, v: Vector, meta: Dict)
    requires Consistent(order, vectors, metadata)
    ensures Consistent(Touch(order, id), vectors[id := v], metadata[id := meta])
  {
  }

  lemma PopKeepsConsistent(order: seq<Id>, vectors: map<Id, Vector>, metadata: map<Id, Dict>, id: Id)
    requires Consistent(order, vectors, metadata)
    ensures Consistent(Without(order, {id}), vectors - {id}, metadata - {id})
  {
    WithoutKeys(order, {id});
  }

  lemma PutAllSnoc<V>(m: map<Id, V>, ids: seq<Id>, vals: seq<V>, i: nat)
    requires i < |ids| && i < |vals|
    ensures PutAll(m, ids[..i + 1], vals[..i + 1]) == PutAll(m, ids[..i], vals[..i])[ids[i] := vals[i]]
  {
    assert ids[..i + 1][..i] == ids[..i];
    assert vals[..i + 1][..i] == vals[..i];
  }

  lemma TouchAllSnoc(order: seq<Id>, ids: seq<Id>, i: nat)
    requires i < |ids|
    ensures TouchAll(order, ids[..i + 1]) == Touch(TouchAll(order, ids[..i]), ids[i])
  {
    assert ids[..i + 1][..i] == ids[..i];
  }

  lemma MinusTwice<V>(m: map<Id, V>, gone: set<Id>, more: set<Id>)
    ensures (m - gone) - more == m - (gone + more)
  {
  }

  lemma MinusNothing<V>(m: map<Id, V>)
    ensures m - {} == m
  {
  }

  /** The ids of a list, as a set, gathered front to back. */
  function ToSet(ids: seq<Id>): set<Id>
    decreases |ids|
  {
    if |ids| == 0 then {} else ToSet(ids[..|ids| - 1]) + {ids[|ids| - 1]}
  }

  lemma {:induction false} ToSetMembers(ids: seq<Id>)
    ensures ToSet(ids) == set k | k in ids
    decreases |ids|
  {
    if |ids| > 0 {
      var n := |ids| - 1;
      assert ids == ids[..n] + [ids[n]];
      ToSetMembers(ids[..n]);
    }
  }

  lemma ToSetSnoc(ids: seq<Id>, i: nat)
    requires i < |ids|
    ensures ToSet(ids[..i + 1]) == ToSet(ids[..i]) + {ids[i]}
  {
    assert ids[..i + 1][..i] == ids[..i];
  }

  function Min3(a: nat, b: nat, c: nat): (m: nat)
    ensures m <= a && m <= b && m <= c
    ensures m == a || m == b || m == c
  {
    if a <= b && a <= c then a else if b <= c then b else c
  }

  class InMemoryVectorStore {
    /** The keys of `self.vectors` in the order a Python dict iterates them. */
    var order: seq<Id>
    /** `self.vectors`. */
    var vectors: map<Id, Vector>
    /** `self.metadata`. */
    var metadata: map<Id, Dict>

    /** Both dictionaries always hold the same keys, and `order` lists them
        once each. */
    ghost predicate Valid()
      reads this
    {
      Consistent(order, vectors, metadata)
    }

    constructor ()
      ensures Valid()
      ensures order == [] && vectors == map[] && metadata == map[]
    {
      order, vectors, metadata := [], map[], map[];
    }

    /** `add_vectors`: stores the zipped (id, vector, metadata) triples, the
        shortest list deciding how many, and returns the ids it was given, or
        else the ones drawn for it (`generated`, one per vector, stands for
        the `uuid4` calls). */
    method AddVectors(vs: seq<Vector>, metas: seq<Dict>, ids: Option<seq<Id>>, generated: seq<Id>)
      returns (used: seq<Id>)
      requires Valid()
      requires ids.None? ==> |generated| == |vs|
      modifies this
      ensures Valid()
      ensures used == if ids.Some? then ids.value else generated
      ensures var n := Min3(|used|, |vs|, |metas|);
        && vectors == PutAll(old(vectors), used[..n], vs[..n])
        && metadata == PutAll(old(metadata), used[..n], metas[..n])
        && order == TouchAll(old(order), used[..n])
    {
      used := if ids.Some? then ids.value else generated;
      var n := Min3(|used|, |vs|, |metas|);
      ghost var vectors0, metadata0, order0 := vectors, metadata, order;
      assert used[..0] == [] && vs[..0] == [] && metas[..0] == [];
      var i := 0;
      while i < n
        invariant 0 <= i <= n
        invariant vectors == PutAll(vectors0, used[..i], vs[..i])
        invariant metadata == PutAll(metadata0, used[..i], metas[..i])
        invariant order == TouchAll(order0, used[..i])
        invariant Valid()
      {
        PutAllSnoc(vectors0, used, vs, i);
        PutAllSnoc(metadata0, used, metas, i);
        TouchAllSnoc(order0, used, i);
        Put(used[i], vs[i], metas[i]);
        i := i + 1;
      }
    }

    /** `self.vectors[id] = v` and `self.metadata[id] = meta`. */
    method Put(id: Id, v: Vector, meta: Dict)
      requires Valid()
      modifies this
      ensures Valid()
      ensures vectors == old(vectors)[id := v]
      ensures metadata == old(metadata)[id := meta]
      ensures order == Touch(old(order), id)
    {
      PutKeepsConsistent(order, vectors, metadata, id, v, meta);
      vectors := vectors[id := v];
      metadata := metadata[id := meta];
      order := Touch(order, id);
    }

    /** `self.vectors.pop(id, None)` and `self.metadata.pop(id, None)`. */
    method Pop(id: Id)
      requires Valid()
      modifies this
      ensures Valid()
      ensures vectors == old(vectors) - {id}
      ensures metadata == old(metadata) - {id}
      ensures order == Without(old(order), {id})
    {
      PopKeepsConsistent(order, vectors, metadata, id);
      vectors := vectors - {id};
      metadata := metadata - {id};
      order := Without(order, {id});
    }

    /** `search`: scores every stored record that passes the filter, sorts
        the scores highest first and keeps the first `top_k`. */
    method Search(query: Vector, topK: int, filter: Option<Dict>, sim: (Vector, Vector) -> real)
      returns (hits: seq<Hit>)
      requires Valid()
      ensures hits == SearchResult(order, vectors, metadata, query, topK, filter, sim)
    {
      if |vectors| == 0 {
        return [];
      }
      var similarities := [];
      var i := 0;
      while i < |order|
        invariant 0 <= i <= |order|
        invariant similarities == Candidates(order[..i], vectors, metadata, query, filter, sim)
      {
        var id := order[i];
        CandidatesSnoc(order, vectors, metadata, query, filter, sim, i);
        if filter.Some? && filter.value != map[] {
          var meta := MetaOf(metadata, id);
          if !Matches(meta, filter.value) {
            i := i + 1;
            continue;
          }
        }
        similarities := similarities + [Hit(id, sim(query, vectors[id]), MetaOf(metadata, id))];
        i := i + 1;
      }
      assert order[..i] == order;
      similarities := SortByScore(similarities);
      hits := Take(similarities, topK);
    }

    /** `delete_vectors`: pops every listed id from both dictionaries (an
        unknown id is ignored), leaves every other record as it was, and
        reports success. */
    method DeleteVectors(ids: seq<Id>) returns (ok: bool)
      requires Valid()
      modifies this
      ensures Valid()
      ensures ok
      ensures vectors == old(vectors) - ToSet(ids)
      ensures metadata == old(metadata) - ToSet(ids)
      ensures order == Without(old(order), ToSet(ids))
    {
      ghost var vectors0, metadata0, order0 := vectors, metadata, order;
      WithoutNothing(order);
      MinusNothing(vectors);
      MinusNothing(metadata);
      assert ids[..0] == [];
      var i := 0;
      while i < |ids|
        invariant 0 <= i <= |ids|
        invariant vectors == vectors0 - ToSet(ids[..i])
        invariant metadata == metadata0 - ToSet(ids[..i])
        invariant order == Without(order0, ToSet(ids[..i]))
        invariant Valid()
      {
        ToSetSnoc(ids, i);
        WithoutTwice(order0, ToSet(ids[..i]), {ids[i]});
        MinusTwice(vectors0, ToSet(ids[..i]), {ids[i]});
        MinusTwice(metadata0, ToSet(ids[..i]), {ids[i]});
        Pop(ids[i]);
        i := i + 1;
      }
      assert ids[..i] == ids;
      ok := true;
    }
  }
}
