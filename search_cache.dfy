/**
 * The search cache of script.js (`searchCache`, script.js:38): a
 * JavaScript Map from `${query}_${showSuggestions}` to the result list,
 * which the search keeps under 50 keys by deleting the first key in
 * insertion order after each insertion (script.js:194-201).
 */
module SearchCache {
  import opened Wrappers

  /** The most keys the cache holds after an insertion. */
  const Limit: nat := 50

  /**
   * The contents of a Map: its keys in insertion order and what each is
   * bound to.
   */
  datatype Cache<V> = Cache(order: seq<string>, entries: map<string, V>)

  /** A Map lists each of its keys once, and lists exactly the keys it binds. */
  ghost predicate Valid<V>(c: Cache<V>) {
    && (forall i, j :: 0 <= i < j < |c.order| ==> c.order[i] != c.order[j])
    && (forall k :: k in c.entries <==> k in c.order)
  }

  function Empty<V>(): (c: Cache<V>)
    ensures Valid(c) && |c.order| == 0
  {
    Cache([], map[])
  }

  /** The cache key of a query in a display mode: `${query}_${showSuggestions}`. */
  function Key(query: string, suggestions: bool): string {
    query + "_" + (if suggestions then "true" else "false")
  }

  /** Keys match exactly: two searches share a key only when both the query and the mode agree. */
  lemma KeyInjective(q1: string, s1: bool, q2: string, s2: bool)
    requires Key(q1, s1) == Key(q2, s2)
    ensures q1 == q2 && s1 == s2
  {
    var k1, k2 := Key(q1, s1), Key(q2, s2);
    if s1 == s2 {
      assert q1 == k1[..|q1|] && q2 == k2[..|q2|];
    } else {
      KeySuffix(q1, s1);
      KeySuffix(q2, s2);
      assert false;
    }
  }

  lemma KeySuffix(q: string, s: bool)
    ensures |Key(q, s)| >= 5 && Key(q, s)[|Key(q, s)| - 5..] == if s then "_true" else "false"
  {
  }

  /** Map.prototype.get. */
  function Get<V>(c: Cache<V>, k: string): Option<V> {
    if k in c.entries then Some(c.entries[k]) else None
  }

  /**
   * Map.prototype.set: a new key goes after every other; a key already
   * present keeps its place and takes the new value.
   */
  function Set<V>(c: Cache<V>, k: string, v: V): (r: Cache<V>)
    ensures Valid(c) ==> Valid(r)
    ensures r.entries == c.entries[k := v]
    ensures k in c.entries ==> r.order == c.order
    ensures k !in c.entries ==> r.order == c.order + [k]
  {
    Cache(if k in c.entries then c.order else c.order + [k], c.entries[k := v])
  }

  /** Map.prototype.delete of the first key in insertion order. */
  function DeleteOldest<V>(c: Cache<V>): (r: Cache<V>)
    requires |c.order| > 0
    ensures Valid(c) ==> Valid(r)
    ensures r.order == c.order[1..]
    ensures r.entries == c.entries - {c.order[0]}
  {
    Cache(c.order[1..], c.entries - {c.order[0]})
  }

  /** What the search does with a non-empty result list: set it, then trim the cache back to the limit. */
  function Remember<V>(c: Cache<V>, k: string, v: V): (r: Cache<V>)
    ensures Valid(c) ==> Valid(r)
  {
    var s := Set(c, k, v);
    if |s.order| > Limit then DeleteOldest(s) else s
  }

  /** After every insertion the cache holds at most 50 keys. */
  lemma RememberBounded<V>(c: Cache<V>, k: string, v: V)
    requires Valid(c) && |c.order| <= Limit
    ensures |Remember(c, k, v).order| <= Limit
  {
  }

  /** An insertion binds nothing new but the inserted key: every binding it keeps is one set before or by it. */
  lemma RememberEntries<V>(c: Cache<V>, k: string, v: V)
    ensures forall x :: x in Remember(c, k, v).entries ==>
      x in c.entries[k := v] && Remember(c, k, v).entries[x] == c.entries[k := v][x]
  {
  }

  /**
   * Where the keys stand after an insertion: an existing key keeps the
   * order unchanged; a new key goes last, and when the cache was full the
   * oldest-inserted key, and only it, is evicted.
   */
  lemma RememberOrder<V>(c: Cache<V>, k: string, v: V)
    requires Valid(c) && |c.order| <= Limit
    ensures k in c.entries ==> Remember(c, k, v).order == c.order
    ensures k !in c.entries && |c.order| < Limit ==> Remember(c, k, v).order == c.order + [k]
    ensures k !in c.entries && |c.order| == Limit ==> Remember(c, k, v).order == c.order[1..] + [k]
  {
    if k !in c.entries && |c.order| == Limit {
      assert (c.order + [k])[1..] == c.order[1..] + [k];
    }
  }

  /**
   * A get after an insertion returns what was inserted, and every other
   * key keeps its value unless it is the oldest key of a full cache.
   */
  lemma RememberGet<V>(c: Cache<V>, k: string, v: V)
    requires Valid(c) && |c.order| <= Limit
    ensures Get(Remember(c, k, v), k) == Some(v)
    ensures forall k' :: k' != k ==>
      Get(Remember(c, k, v), k') ==
        (if k !in c.entries && |c.order| == Limit && k' == c.order[0] then None else Get(c, k'))
  {
    var s := Set(c, k, v);
    if |s.order| > Limit {
      assert s.order[0] == c.order[0];
      assert s.order[0] != k by {
        assert s.order[|s.order| - 1] == k;
      }
    }
  }

  /** Inserting a list of results one after another, as successive searches do. */
  function RememberAll<V>(c: Cache<V>, ks: seq<string>, vs: seq<V>): (r: Cache<V>)
    requires |ks| == |vs|
    ensures Valid(c) ==> Valid(r)
    decreases |ks|
  {
    if ks == [] then c
    else Remember(RememberAll(c, ks[..|ks| - 1], vs[..|vs| - 1]), ks[|ks| - 1], vs[|vs| - 1])
  }

  predicate Distinct(ks: seq<string>) {
    forall i, j :: 0 <= i < j < |ks| ==> ks[i] != ks[j]
  }

  /** Up to the limit, distinct keys inserted one after another are all kept, in insertion order. */
  lemma {:induction false} FillInOrder<V>(c: Cache<V>, ks: seq<string>, vs: seq<V>)
    requires Valid(c) && |ks| == |vs| && Distinct(c.order + ks)
    requires |c.order| + |ks| <= Limit
    ensures RememberAll(c, ks, vs).order == c.order + ks
    decreases |ks|
  {
    if ks != [] {
      var n := |ks|;
      var ks', vs', k, v := ks[..n - 1], vs[..n - 1], ks[n - 1], vs[n - 1];
      assert c.order + ks' == (c.order + ks)[..|c.order| + n - 1];
      assert (c.order + ks') + [k] == c.order + ks;
      FillInOrder(c, ks', vs');
      var prev := RememberAll(c, ks', vs');
      assert k !in prev.entries by {
        forall i | 0 <= i < |prev.order| ensures prev.order[i] != k {
          assert prev.order[i] == (c.order + ks)[i];
          assert k == (c.order + ks)[|c.order| + n - 1];
        }
      }
      RememberOrder(prev, k, v);
    }
  }

  /** The bindings of `m` updated with `ks[i] := vs[i]`, in order. */
  function Extend<V>(m: map<string, V>, ks: seq<string>, vs: seq<V>): map<string, V>
    requires |ks| == |vs|
    decreases |ks|
  {
    if ks == [] then m else Extend(m, ks[..|ks| - 1], vs[..|vs| - 1])[ks[|ks| - 1] := vs[|vs| - 1]]
  }

  /** In an extension by distinct keys, each key is bound to its own value and other keys are untouched. */
  lemma {:induction false} ExtendLookup<V>(m: map<string, V>, ks: seq<string>, vs: seq<V>)
    requires |ks| == |vs| && Distinct(ks)
    ensures forall i :: 0 <= i < |ks| ==> ks[i] in Extend(m, ks, vs) && Extend(m, ks, vs)[ks[i]] == vs[i]
    ensures forall x :: x !in ks ==> (x in Extend(m, ks, vs) <==> x in m)
    ensures forall x :: x !in ks && x in m ==> Extend(m, ks, vs)[x] == m[x]
    decreases |ks|
  {
    if ks != [] {
      var n := |ks|;
      var ks', vs' := ks[..n - 1], vs[..n - 1];
      ExtendLookup(m, ks', vs');
      forall i | 0 <= i < n - 1 ensures ks[i] != ks[n - 1] && ks'[i] == ks[i] && vs'[i] == vs[i] { }
      forall x | x !in ks ensures x !in ks' { assert forall i :: 0 <= i < n - 1 ==> ks'[i] == ks[i]; }
    }
  }

  /** Up to the limit, inserting keys one after another evicts nothing: it only adds their bindings. */
  lemma {:induction false} FillKeepsValues<V>(c: Cache<V>, ks: seq<string>, vs: seq<V>)
    requires |ks| == |vs| && |c.order| + |ks| <= Limit
    ensures |RememberAll(c, ks, vs).order| <= |c.order| + |ks|
    ensures RememberAll(c, ks, vs).entries == Extend(c.entries, ks, vs)
    decreases |ks|
  {
    if ks != [] {
      var n := |ks|;
      var ks', vs', k, v := ks[..n - 1], vs[..n - 1], ks[n - 1], vs[n - 1];
      FillKeepsValues(c, ks', vs');
      var prev := RememberAll(c, ks', vs');
      assert Remember(prev, k, v) == Set(prev, k, v);
    }
  }

  /** From an empty cache, up to 50 distinct keys inserted one after another are all kept with their values. */
  lemma FillFromEmpty<V>(ks: seq<string>, vs: seq<V>)
    requires |ks| == |vs| <= Limit && Distinct(ks)
    ensures Valid(RememberAll(Empty<V>(), ks, vs))
    ensures RememberAll(Empty<V>(), ks, vs).order == ks
    ensures forall i :: 0 <= i < |ks| ==> Get(RememberAll(Empty<V>(), ks, vs), ks[i]) == Some(vs[i])
  {
    var e := Empty<V>();
    assert e.order + ks == ks;
    FillInOrder(e, ks, vs);
    FillKeepsValues(e, ks, vs);
    ExtendLookup(e.entries, ks, vs);
  }

  /**
   * One insertion of a new key into a full cache holding the first 50
   * of 51 keys: the oldest key goes, the others keep their values, and
   * the new key is bound last.
   */
  lemma EvictFromFull<V>(full: Cache<V>, ks: seq<string>, vs: seq<V>)
    requires |ks| == |vs| == Limit + 1
    requires Valid(full) && full.order == ks[..Limit] && ks[Limit] !in ks[..Limit]
    requires forall i :: 0 <= i < Limit ==> Get(full, ks[i]) == Some(vs[i])
    ensures Remember(full, ks[Limit], vs[Limit]).order == ks[1..]
    ensures Get(Remember(full, ks[Limit], vs[Limit]), ks[0]) == None
    ensures forall i :: 1 <= i < |ks| ==> Get(Remember(full, ks[Limit], vs[Limit]), ks[i]) == Some(vs[i])
  {
    var last, lv := ks[Limit], vs[Limit];
    var grown := Set(full, last, lv);
    assert last !in full.entries;
    assert grown.order == ks[..Limit] + [last] && grown.order[0] == ks[0];
    var r := Remember(full, last, lv);
    assert r == DeleteOldest(grown);
    assert r.entries == full.entries[last := lv] - {ks[0]};
    assert r.order == ks[1..] by {
      ShiftByOne(ks);
    }
    forall i | 0 <= i < |ks|
      ensures Get(r, ks[i]) == if i == 0 then None else Some(vs[i])
    {
      if 0 < i < Limit {
        assert ks[i] == full.order[i] && full.order[0] == ks[0];
        assert ks[i] != last && ks[i] != ks[0];
      }
    }
  }

  /** Dropping the first of all but the last, then appending the last, drops the first. */
  lemma ShiftByOne(ks: seq<string>)
    requires |ks| >= 2
    ensures ks[..|ks| - 1][1..] + [ks[|ks| - 1]] == ks[1..]
  {
  }

  /** The keys before the last of a distinct list are distinct, and the last is not among them. */
  lemma DistinctPrefix(ks: seq<string>)
    requires |ks| >= 1 && Distinct(ks)
    ensures Distinct(ks[..|ks| - 1]) && ks[|ks| - 1] !in ks[..|ks| - 1]
  {
    var front := ks[..|ks| - 1];
    forall i | 0 <= i < |front| ensures front[i] == ks[i] { }
  }

  /** The first 50 of 51 distinct keys, inserted into an empty cache, fill it with their values. */
  lemma FillPrefix<V>(ks: seq<string>, vs: seq<V>)
    requires |ks| == |vs| == Limit + 1 && Distinct(ks)
    ensures var full := RememberAll(Empty<V>(), ks[..Limit], vs[..Limit]);
      && Valid(full) && full.order == ks[..Limit] && ks[Limit] !in ks[..Limit]
      && forall i :: 0 <= i < Limit ==> Get(full, ks[i]) == Some(vs[i])
  {
    var front, fv := ks[..Limit], vs[..Limit];
    var full := RememberAll(Empty<V>(), front, fv);
    assert ks[Limit] !in front && Valid(full) && full.order == front
        && forall i :: 0 <= i < Limit ==> Get(full, front[i]) == Some(fv[i]) by {
      DistinctPrefix(ks);
      FillFromEmpty(front, fv);
    }
    forall i | 0 <= i < Limit
      ensures Get(full, ks[i]) == Some(vs[i])
    {
      assert front[i] == ks[i] && fv[i] == vs[i];
    }
  }

  /**
   * Inserting 51 distinct keys into an empty cache evicts exactly the
   * first-inserted key; the other 50 keep their values, in insertion order.
   */
  lemma FiftyFirstInsertionEvictsFirst<V>(ks: seq<string>, vs: seq<V>)
    requires |ks| == |vs| == Limit + 1 && Distinct(ks)
    ensures RememberAll(Empty<V>(), ks, vs).order == ks[1..]
    ensures Get(RememberAll(Empty<V>(), ks, vs), ks[0]) == None
    ensures forall i :: 1 <= i < |ks| ==> Get(RememberAll(Empty<V>(), ks, vs), ks[i]) == Some(vs[i])
  {
    FillPrefix(ks, vs);
    var full := RememberAll(Empty<V>(), ks[..Limit], vs[..Limit]);
    EvictFromFull(full, ks, vs);
  }
}
