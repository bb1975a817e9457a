/** Collections of documents keyed by an opaque `_id`, kept in order: a MongoDB
    collection as `find()` returns it, or an array a page holds in React state. */
module Docs {
  import opened Wrappers

  /** The `_id` of a document. Ids are opaque; the stores draw fresh ones from a counter. */
  type Id = nat

  datatype Doc<T> = Doc(id: Id, body: T)

  function IdOf<T>(d: Doc<T>): Id {
    d.id
  }

  /** No two entries share a key; a unique index on that key holds. */
  ghost predicate UniqueBy<T, K>(s: seq<T>, key: T -> K) {
    forall i, j :: 0 <= i < j < |s| ==> key(s[i]) != key(s[j])
  }

  ghost predicate DistinctIds<T>(s: seq<Doc<T>>) {
    UniqueBy(s, IdOf)
  }

  /** The position of the first entry whose key is `v` (`find`, `findOne`, `findById`). */
  function IndexWhere<T, K(==)>(s: seq<T>, key: T -> K, v: K): (r: Option<nat>)
    ensures r.Some? ==> r.value < |s| && key(s[r.value]) == v
    ensures r.Some? ==> forall j :: 0 <= j < r.value ==> key(s[j]) != v
    ensures r.None? <==> forall j :: 0 <= j < |s| ==> key(s[j]) != v
  {
    if |s| == 0 then None
    else if key(s[0]) == v then Some(0)
    else match IndexWhere(s[1..], key, v)
      case None => None
      case Some(k) => Some(k + 1)
  }

  /** The first entry whose key is `v`, if any. */
  function FindWhere<T, K(==)>(s: seq<T>, key: T -> K, v: K): (r: Option<T>)
    ensures r.Some? ==> r.value in s && key(r.value) == v
    ensures r.None? <==> forall j :: 0 <= j < |s| ==> key(s[j]) != v
  {
    match IndexWhere(s, key, v)
    case None => None
    case Some(k) => Some(s[k])
  }

  /** `s.filter(p)`: the entries satisfying `p`, in their original order. */
  function Keep<T>(s: seq<T>, p: T -> bool): (r: seq<T>)
    ensures |r| <= |s|
    ensures forall i :: 0 <= i < |r| ==> r[i] in s && p(r[i])
    ensures forall i :: 0 <= i < |s| && p(s[i]) ==> s[i] in r
  {
    if |s| == 0 then []
    else if p(s[0]) then [s[0]] + Keep(s[1..], p)
    else Keep(s[1..], p)
  }

  /** Filtering distributes over concatenation, so the kept entries stay in order. */
  lemma {:induction false} KeepAppend<T>(a: seq<T>, b: seq<T>, p: T -> bool)
    ensures Keep(a + b, p) == Keep(a, p) + Keep(b, p)
    decreases |a|
  {
    if |a| > 0 {
      assert (a + b)[1..] == a[1..] + b;
      KeepAppend(a[1..], b, p);
    } else {
      assert a + b == b;
    }
  }

  /** A filter every entry passes keeps the whole sequence. */
  lemma {:induction false} KeepAll<T>(s: seq<T>, p: T -> bool)
    requires forall i :: 0 <= i < |s| ==> p(s[i])
    ensures Keep(s, p) == s
    decreases |s|
  {
    if |s| > 0 {
      KeepAll(s[1..], p);
      assert [s[0]] + s[1..] == s;
    }
  }

  /** Filtering keeps a unique index unique. */
  lemma {:induction false} KeepUnique<T, K>(s: seq<T>, p: T -> bool, key: T -> K)
    requires UniqueBy(s, key)
    ensures UniqueBy(Keep(s, p), key)
    decreases |s|
  {
    if |s| > 0 {
      KeepUnique(s[1..], p, key);
      var rest := Keep(s[1..], p);
      forall y | y in rest ensures key(y) != key(s[0]) {
        var j :| 0 <= j < |s[1..]| && s[1..][j] == y;
        assert s[j + 1] == y;
      }
    }
  }

  /** `s.filter(d => d._id !== id)`. */
  function WithoutId<T>(s: seq<Doc<T>>, id: Id): (r: seq<Doc<T>>)
    ensures forall i :: 0 <= i < |r| ==> r[i] in s && r[i].id != id
    ensures forall i :: 0 <= i < |s| && s[i].id != id ==> s[i] in r
  {
    Keep(s, (d: Doc<T>) => d.id != id)
  }

  /** With distinct ids, filtering out the id at position `k` removes exactly that entry. */
  lemma WithoutIdRemovesOne<T>(s: seq<Doc<T>>, k: nat)
    requires DistinctIds(s) && k < |s|
    ensures WithoutId(s, s[k].id) == s[..k] + s[k + 1..]
  {
    var id := s[k].id;
    var p := (d: Doc<T>) => d.id != id;
    assert WithoutId(s, id) == Keep(s, p);
    var a, b := s[..k], s[k + 1..];
    assert s == a + ([s[k]] + b);
    forall i | 0 <= i < |a| ensures p(a[i]) {
      assert IdOf(s[i]) != IdOf(s[k]);
    }
    KeepAll(a, p);
    forall i | 0 <= i < |b| ensures p(b[i]) {
      assert IdOf(s[k]) != IdOf(s[k + 1 + i]);
    }
    KeepAll(b, p);
    assert Keep([s[k]], p) == [] by {
      assert [s[k]][1..] == [];
    }
    KeepAppend([s[k]], b, p);
    KeepAppend(a, [s[k]] + b, p);
  }

  /** Filtering out an id no entry has changes nothing. */
  lemma WithoutAbsentId<T>(s: seq<Doc<T>>, id: Id)
    requires forall i :: 0 <= i < |s| ==> s[i].id != id
    ensures WithoutId(s, id) == s
  {
    KeepAll(s, (d: Doc<T>) => d.id != id);
  }

  /** `s.map(d => d._id === id ? f(d) : d)`: rewrite the entries with that id. */
  function UpdateWhereId<T>(s: seq<Doc<T>>, id: Id, f: Doc<T> -> Doc<T>): (r: seq<Doc<T>>)
    ensures |r| == |s|
    ensures forall i :: 0 <= i < |s| && s[i].id != id ==> r[i] == s[i]
    ensures forall i :: 0 <= i < |s| && s[i].id == id ==> r[i] == f(s[i])
  {
    seq(|s|, i requires 0 <= i < |s| => if s[i].id == id then f(s[i]) else s[i])
  }

  /** With distinct ids, rewriting by id touches exactly the one entry with that id. */
  lemma UpdateWhereIdAt<T>(s: seq<Doc<T>>, k: nat, f: Doc<T> -> Doc<T>)
    requires DistinctIds(s) && k < |s|
    ensures UpdateWhereId(s, s[k].id, f) == s[k := f(s[k])]
  {
    assert forall i :: 0 <= i < |s| && i != k ==> IdOf(s[i]) != IdOf(s[k]);
  }

  /** Rewriting by an id no entry has changes nothing. */
  lemma UpdateWhereAbsentId<T>(s: seq<Doc<T>>, id: Id, f: Doc<T> -> Doc<T>)
    requires forall i :: 0 <= i < |s| ==> s[i].id != id
    ensures UpdateWhereId(s, id, f) == s
  {
  }

  /** Appending an entry whose key no entry has keeps the index unique. */
  lemma UniqueAppend<T, K>(s: seq<T>, x: T, key: T -> K)
    requires UniqueBy(s, key)
    requires forall i :: 0 <= i < |s| ==> key(s[i]) != key(x)
    ensures UniqueBy(s + [x], key)
  {
  }

  /** Replacing entry `k` by one whose key no other entry has keeps the index unique. */
  lemma UniqueUpdate<T, K>(s: seq<T>, k: nat, x: T, key: T -> K)
    requires UniqueBy(s, key) && k < |s|
    requires forall i :: 0 <= i < |s| && i != k ==> key(s[i]) != key(x)
    ensures UniqueBy(s[k := x], key)
  {
  }

  /** Removing entry `k` keeps the index unique. */
  lemma UniqueRemove<T, K>(s: seq<T>, k: nat, key: T -> K)
    requires UniqueBy(s, key) && k < |s|
    ensures UniqueBy(s[..k] + s[k + 1..], key)
  {
    var r := s[..k] + s[k + 1..];
    forall i, j | 0 <= i < j < |r| ensures key(r[i]) != key(r[j]) {
      var i' := if i < k then i else i + 1;
      var j' := if j < k then j else j + 1;
      assert r[i] == s[i'] && r[j] == s[j'];
    }
  }
}
