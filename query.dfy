/** The two query operations every list route performs on a collection:
    `find(filter)` keeps the documents a predicate selects, and
    `.sort(spec)` orders them by a sort key. MongoDB leaves the order of
    documents with equal keys unspecified; this model breaks such ties by
    identifier, which makes the result a function of the collection. */
module Query {
  import opened Common
  import opened Order

  /** A document together with its identifier, as a query returns it. */
  datatype Entry<R> = Entry(id: Id, doc: R)

  /** `find(filter)`: the documents of `m` that `p` selects. */
  function Where<R>(m: map<Id, R>, p: R -> bool): map<Id, R> {
    map k | k in m && p(m[k]) :: m[k]
  }

  /** The identifiers a query result holds. */
  ghost function Ids<R>(s: seq<Entry<R>>): set<Id> {
    set i | 0 <= i < |s| :: s[i].id
  }

  /** Document (key `a`, identifier `i`) comes no later than document
      (key `b`, identifier `j`): by key, then by identifier. */
  predicate Precedes(a: Key, i: Id, b: Key, j: Id) {
    KeyLe(a, b) && (KeyLe(b, a) ==> i <= j)
  }

  /** `k` is the document of `m` that a sort by `key` puts first. */
  predicate IsFirst<R>(m: map<Id, R>, key: R -> Key, k: Id) {
    k in m && forall j :: j in m ==> Precedes(key(m[k]), k, key(m[j]), j)
  }

  lemma {:induction false} FirstExists<R>(m: map<Id, R>, key: R -> Key)
    requires |m| > 0
    ensures exists k :: IsFirst(m, key, k)
    decreases |m|
  {
    var x :| x in m;
    var rest := m - {x};
    assert rest.Keys == m.Keys - {x};
    var kx := key(m[x]);
    KeyLeReflexive(kx);
    if |rest| == 0 {
      assert m.Keys == {x};
      assert IsFirst(m, key, x);
    } else {
      FirstExists(rest, key);
      var k :| IsFirst(rest, key, k);
      var kk := key(m[k]);
      if Precedes(kx, x, kk, k) {
        forall j | j in m ensures Precedes(kx, x, key(m[j]), j) {
          if j != x {
            assert j in rest;
            PrecedesTransitive(kx, x, kk, k, key(m[j]), j);
          }
        }
        assert IsFirst(m, key, x);
      } else {
        KeyLeTotal(kx, kk);
        assert Precedes(kk, k, kx, x);
        forall j | j in m ensures Precedes(kk, k, key(m[j]), j) {
          if j != x {
            assert j in rest;
          }
        }
        assert IsFirst(m, key, k);
      }
    }
  }

  lemma PrecedesTransitive(a: Key, i: Id, b: Key, j: Id, c: Key, l: Id)
    requires Precedes(a, i, b, j) && Precedes(b, j, c, l)
    ensures Precedes(a, i, c, l)
  {
    KeyLeTransitive(a, b, c);
    if KeyLe(c, a) {
      KeyLeTransitive(b, c, a);
      KeyLeTransitive(c, a, b);
    }
  }

  lemma FirstUnique<R>(m: map<Id, R>, key: R -> Key)
    ensures forall k, l :: IsFirst(m, key, k) && IsFirst(m, key, l) ==> k == l
  {
    forall k, l | IsFirst(m, key, k) && IsFirst(m, key, l) ensures k == l {
      assert Precedes(key(m[k]), k, key(m[l]), l);
      assert Precedes(key(m[l]), l, key(m[k]), k);
    }
  }

  /** `r` lists the documents of `m`: each exactly once, with its own
      identifier. */
  ghost predicate Lists<R>(m: map<Id, R>, r: seq<Entry<R>>) {
    && |r| == |m|
    && Ids(r) == m.Keys
    && (forall i :: 0 <= i < |r| ==> r[i].id in m && r[i].doc == m[r[i].id])
    && (forall i, j :: 0 <= i < j < |r| ==> r[i].id != r[j].id)
  }

  /** The keys of the documents of `r` never decrease. */
  ghost predicate SortedBy<R>(r: seq<Entry<R>>, key: R -> Key) {
    forall i, j :: 0 <= i < j < |r| ==> KeyLe(key(r[i].doc), key(r[j].doc))
  }

  lemma IdsCons<R>(e: Entry<R>, r: seq<Entry<R>>)
    ensures Ids([e] + r) == {e.id} + Ids(r)
  {
    var s := [e] + r;
    forall d | d in Ids(s) ensures d in {e.id} + Ids(r) {
      var i :| 0 <= i < |s| && s[i].id == d;
      if i > 0 { assert s[i] == r[i - 1]; }
    }
    forall d | d in Ids(r) ensures d in Ids(s) {
      var i :| 0 <= i < |r| && r[i].id == d;
      assert s[i + 1] == r[i];
    }
    assert s[0] == e;
  }

  lemma ConsLength<R>(m: map<Id, R>, k: Id, r: seq<Entry<R>>)
    requires k in m && |r| == |m - {k}|
    ensures |[Entry(k, m[k])] + r| == |m|
  {
    assert (m - {k}).Keys == m.Keys - {k};
  }

  lemma ConsIds<R>(m: map<Id, R>, k: Id, r: seq<Entry<R>>)
    requires k in m && Ids(r) == (m - {k}).Keys
    ensures Ids([Entry(k, m[k])] + r) == m.Keys
  {
    IdsCons(Entry(k, m[k]), r);
  }

  lemma ConsDocs<R>(m: map<Id, R>, k: Id, r: seq<Entry<R>>)
    requires k in m
    requires forall i :: 0 <= i < |r| ==> r[i].id in m - {k} && r[i].doc == (m - {k})[r[i].id]
    ensures forall i :: 0 <= i < |r| + 1 ==> ([Entry(k, m[k])] + r)[i].id in m && ([Entry(k, m[k])] + r)[i].doc == m[([Entry(k, m[k])] + r)[i].id]
  {
  }

  lemma ConsDistinct<R>(m: map<Id, R>, k: Id, r: seq<Entry<R>>)
    requires k in m
    requires forall i :: 0 <= i < |r| ==> r[i].id in m - {k}
    requires forall i, j :: 0 <= i < j < |r| ==> r[i].id != r[j].id
    ensures forall i, j :: 0 <= i < j < |r| + 1 ==> ([Entry(k, m[k])] + r)[i].id != ([Entry(k, m[k])] + r)[j].id
  {
  }

  lemma ConsSorted<R>(m: map<Id, R>, key: R -> Key, k: Id, r: seq<Entry<R>>)
    requires IsFirst(m, key, k)
    requires forall i :: 0 <= i < |r| ==> r[i].id in m && r[i].doc == m[r[i].id]
    requires SortedBy(r, key)
    ensures SortedBy([Entry(k, m[k])] + r, key)
  {
    var s := [Entry(k, m[k])] + r;
    forall i, j | 0 <= i < j < |s| ensures KeyLe(key(s[i].doc), key(s[j].doc)) {
      assert s[j] == r[j - 1];
      if i > 0 {
        assert s[i] == r[i - 1];
      } else {
        assert Precedes(key(m[k]), k, key(m[s[j].id]), s[j].id);
      }
    }
  }

  /** Putting the first document of `m` before a sorted listing of the
      others gives a sorted listing of `m`. */
  lemma ListsCons<R>(m: map<Id, R>, key: R -> Key, k: Id, r: seq<Entry<R>>)
    requires IsFirst(m, key, k)
    requires Lists(m - {k}, r) && SortedBy(r, key)
    ensures Lists(m, [Entry(k, m[k])] + r) && SortedBy([Entry(k, m[k])] + r, key)
  {
    ConsLength(m, k, r);
    ConsIds(m, k, r);
    ConsDocs(m, k, r);
    ConsDistinct(m, k, r);
    ConsSorted(m, key, k, r);
  }

  /** `.sort(spec)` on the documents of `m`: every document exactly once,
      each with its own identifier, in non-decreasing key order. */
  function SortByKey<R>(m: map<Id, R>, key: R -> Key): (r: seq<Entry<R>>)
    ensures Lists(m, r)
    ensures SortedBy(r, key)
    decreases |m|
  {
    if |m| == 0 then []
    else
      FirstExists(m, key);
      FirstUnique(m, key);
      var k :| IsFirst(m, key, k);
      var rest := m - {k};
      assert rest.Keys == m.Keys - {k};
      var r := SortByKey(rest, key);
      ListsCons(m, key, k, r);
      [Entry(k, m[k])] + r
  }

  /** Keeps the entries whose document `p` selects, in their order. */
  function Filter<R>(s: seq<Entry<R>>, p: R -> bool): (r: seq<Entry<R>>)
    ensures |r| <= |s|
    ensures forall i :: 0 <= i < |r| ==> r[i] in s && p(r[i].doc)
    ensures forall i :: 0 <= i < |s| && p(s[i].doc) ==> s[i] in r
  {
    if |s| == 0 then []
    else if p(s[0].doc) then [s[0]] + Filter(s[1..], p)
    else Filter(s[1..], p)
  }

  /** The sort puts the first document of `m` first, then the sorted rest. */
  lemma SortByKeyUnfold<R>(m: map<Id, R>, key: R -> Key, k: Id)
    requires IsFirst(m, key, k)
    ensures SortByKey(m, key) == [Entry(k, m[k])] + SortByKey(m - {k}, key)
  {
    FirstUnique(m, key);
  }

  /** Removing a document commutes with a filter. */
  lemma WhereRemove<R>(m: map<Id, R>, p: R -> bool, k: Id)
    ensures Where(m, p) - {k} == Where(m - {k}, p)
    ensures k in m && !p(m[k]) ==> Where(m, p) == Where(m - {k}, p)
  {
    var a, b := Where(m, p) - {k}, Where(m - {k}, p);
    assert a.Keys == b.Keys;
    if k in m && !p(m[k]) {
      var c := Where(m, p);
      assert c.Keys == b.Keys;
    }
  }

  /** Filtering a collection and then sorting it gives the sorted collection
      with the unselected documents removed: a narrower query returns a
      subsequence of the broader one, in the same order. */
  lemma {:induction false} SortWhere<R>(m: map<Id, R>, key: R -> Key, p: R -> bool)
    ensures SortByKey(Where(m, p), key) == Filter(SortByKey(m, key), p)
    decreases |m|
  {
    if |m| > 0 {
      FirstExists(m, key);
      var k :| IsFirst(m, key, k);
      var rest := m - {k};
      assert |rest| < |m| by { assert rest.Keys == m.Keys - {k}; }
      var s := SortByKey(m, key);
      SortByKeyUnfold(m, key, k);
      assert s[0] == Entry(k, m[k]) && s[1..] == SortByKey(rest, key);
      SortWhere(rest, key, p);
      var w := Where(m, p);
      WhereRemove(m, p, k);
      if p(m[k]) {
        assert IsFirst(w, key, k);
        SortByKeyUnfold(w, key, k);
      }
    }
  }
}
