/** The `graphs` record of the application state, as an insertion-ordered list
    of key/graph pairs: lookup is `graphs[k]`, Put is the spread
    `{...graphs, [k]: g}`, which overwrites an existing key in place and
    appends a new one at the end. */
module GraphTable {
  import opened MindTypes

  /** The keys in iteration order. */
  function Keys(t: seq<Entry>): (ks: seq<string>)
    ensures |ks| == |t|
    ensures forall i :: 0 <= i < |t| ==> ks[i] == t[i].key
  {
    if t == [] then [] else [t[0].key] + Keys(t[1..])
  }

  /** `graphs[k]`: the graph stored under `k`, if any. */
  function Find(t: seq<Entry>, k: string): (r: Option<Graph>)
    ensures r.Some? <==> k in Keys(t)
    ensures r.Some? ==> Entry(k, r.value) in t
    ensures UniqueKeys(t) ==> forall i :: 0 <= i < |t| && t[i].key == k ==> r == Some(t[i].graph)
  {
    if t == [] then None
    else if t[0].key == k then Some(t[0].graph)
    else Find(t[1..], k)
  }

  /** A key added at the end comes last in iteration order. */
  lemma KeysAppend(t: seq<Entry>, e: Entry)
    ensures Keys(t + [e]) == Keys(t) + [e.key]
  {
    var l, r := Keys(t + [e]), Keys(t) + [e.key];
    assert |l| == |r|;
    forall i | 0 <= i < |l| ensures l[i] == r[i] {
    }
  }

  /** A record never holds the same key twice. */
  predicate UniqueKeys(t: seq<Entry>)
  {
    forall i, j :: 0 <= i < j < |t| ==> t[i].key != t[j].key
  }

  /** `{...t, [k]: g}`. */
  function Put(t: seq<Entry>, k: string, g: Graph): (r: seq<Entry>)
    ensures k !in Keys(t) ==> r == t + [Entry(k, g)]
  {
    if t == [] then [Entry(k, g)]
    else if t[0].key == k then [Entry(k, g)] + t[1..]
    else [t[0]] + Put(t[1..], k, g)
  }

  /** After a Put, `k` holds `g` and every other key holds what it held. */
  lemma {:induction false} PutFind(t: seq<Entry>, k: string, g: Graph, k': string)
    ensures Find(Put(t, k, g), k') == if k' == k then Some(g) else Find(t, k')
  {
    if t != [] && t[0].key != k {
      PutFind(t[1..], k, g, k');
      assert Put(t, k, g)[1..] == Put(t[1..], k, g);
    }
  }

  /** Overwriting an existing key keeps the keys and their order; the stored
      entries are the old ones and the new pair. */
  lemma {:induction false} PutShape(t: seq<Entry>, k: string, g: Graph)
    ensures k in Keys(t) ==> Keys(Put(t, k, g)) == Keys(t)
    ensures forall e :: e in Put(t, k, g) ==> e in t || e == Entry(k, g)
  {
    if t != [] && t[0].key != k {
      PutShape(t[1..], k, g);
      assert Keys(t) == [t[0].key] + Keys(t[1..]);
    }
  }

  /** Put keeps the keys of a record distinct. */
  lemma {:induction false} PutUnique(t: seq<Entry>, k: string, g: Graph)
    requires UniqueKeys(t)
    ensures UniqueKeys(Put(t, k, g))
  {
    if t != [] && t[0].key != k {
      PutUnique(t[1..], k, g);
      PutShape(t[1..], k, g);
      var r := Put(t, k, g);
      forall j | 0 < j < |r|
        ensures r[0].key != r[j].key
      {
        assert r[j] in Put(t[1..], k, g);
        if r[j] != Entry(k, g) {
          var m :| 0 <= m < |t[1..]| && t[1..][m] == r[j];
          assert t[1 + m] == r[j];
        }
      }
    }
  }
}
