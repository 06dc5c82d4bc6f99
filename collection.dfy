/** The document store as this service sees it: a collection is a sequence of
    documents in insertion order (the store's native order), each document a
    store-assigned identifier paired with its record. This module holds the
    queries every handler performs on a collection: lookup by identifier,
    filtering, first match and the optional result-count limit. */
module Collection {
  import opened Wrappers

  /** A store-assigned document identifier, modelled as an already valid,
      opaque token. */
  type Id = nat

  datatype Doc<R> = Doc(id: Id, record: R)

  function Min(a: int, b: int): (r: int) { if a <= b then a else b }

  /** A limit the model gives a meaning to: absent, or a positive count. */
  predicate LimitOk(limit: Option<int>) { limit.None? || limit.value > 0 }

  /** The result of cursor.limit(n) when a limit is given, the cursor itself
      when it is not. */
  function Limited<T>(cursor: seq<T>, limit: Option<int>): (r: seq<T>)
    requires LimitOk(limit)
    ensures limit.None? ==> r == cursor
    ensures limit.Some? ==> |r| == Min(limit.value, |cursor|) && r == cursor[..|r|]
  {
    if limit.None? then cursor else cursor[..Min(limit.value, |cursor|)]
  }

  /** apply_limit: reassigns the cursor to its limited form when the
      request carries an integer limit. */
  method ApplyLimit<T>(cursor: seq<T>, limit: Option<int>) returns (result: seq<T>)
    requires LimitOk(limit)
    ensures result == Limited(cursor, limit)
  {
    result := cursor;
    if limit.Some? {
      result := result[..Min(limit.value, |result|)];
    }
  }

  /** s is obtained from t by dropping some elements, keeping the order of
      the rest. */
  ghost predicate IsSubsequence<T>(s: seq<T>, t: seq<T>)
    decreases |t|
  {
    if s == [] then true
    else if t == [] then false
    else (s[0] == t[0] && IsSubsequence(s[1..], t[1..])) || IsSubsequence(s, t[1..])
  }

  /** Every element of s satisfying p, in the order of s: what a query by
      filter returns. */
  function Where<T>(s: seq<T>, p: T -> bool): (r: seq<T>)
    ensures forall x :: x in r ==> x in s && p(x)
    ensures forall j :: 0 <= j < |s| && p(s[j]) ==> s[j] in r
    ensures IsSubsequence(r, s)
    ensures r == [] <==> forall j :: 0 <= j < |s| ==> !p(s[j])
    decreases |s|
  {
    if s == [] then []
    else
      var rest := Where(s[1..], p);
      assert forall j :: 1 <= j < |s| ==> s[j] == s[1..][j - 1];
      if p(s[0]) then [s[0]] + rest else rest
  }

  /** A filter keeps every matching element as often as it occurs and
      drops every other one. */
  lemma {:induction false} WhereCounts<T>(s: seq<T>, p: T -> bool, x: T)
    ensures multiset(Where(s, p))[x] == if p(x) then multiset(s)[x] else 0
    decreases |s|
  {
    if s != [] {
      WhereCounts(s[1..], p, x);
      assert s == [s[0]] + s[1..];
      assert multiset(s) == multiset([s[0]]) + multiset(s[1..]);
    }
  }

  /** The position of the first element of s satisfying p, if any: what
      .first() returns on a filtered query. */
  function FirstWhere<T>(s: seq<T>, p: T -> bool): (r: Option<nat>)
    ensures r.Some? ==> r.value < |s| && p(s[r.value])
    ensures r.Some? ==> forall j :: 0 <= j < r.value ==> !p(s[j])
    ensures r.None? <==> forall j :: 0 <= j < |s| ==> !p(s[j])
    decreases |s|
  {
    if s == [] then None
    else if p(s[0]) then Some(0)
    else
      match FirstWhere(s[1..], p)
      case None =>
        assert forall j :: 1 <= j < |s| ==> s[j] == s[1..][j - 1];
        None
      case Some(k) => Some(k + 1)
  }

  predicate HasId<R>(docs: seq<Doc<R>>, id: Id)
  {
    exists j :: 0 <= j < |docs| && docs[j].id == id
  }

  /** No two documents of the collection share an identifier. */
  ghost predicate UniqueIds<R>(docs: seq<Doc<R>>)
  {
    forall i, j :: 0 <= i < j < |docs| ==> docs[i].id != docs[j].id
  }

  /** Every identifier in the collection is below n: n is fresh for it. */
  ghost predicate IdsBelow<R>(docs: seq<Doc<R>>, n: Id)
  {
    forall i :: 0 <= i < |docs| ==> docs[i].id < n
  }

  /** The position of the document with identifier id. */
  function IndexOf<R>(docs: seq<Doc<R>>, id: Id): (r: Option<nat>)
    ensures r.Some? ==> r.value < |docs| && docs[r.value].id == id
    ensures r.None? <==> !HasId(docs, id)
  {
    FirstWhere(docs, (d: Doc<R>) => d.id == id)
  }

  /** objects(id=...).first(): the document with identifier id, or None. */
  function Lookup<R>(docs: seq<Doc<R>>, id: Id): (r: Option<Doc<R>>)
    ensures r.Some? ==> r.value in docs && r.value.id == id
    ensures r.None? <==> !HasId(docs, id)
  {
    match IndexOf(docs, id)
    case None => None
    case Some(i) => Some(docs[i])
  }

  /** With unique identifiers, a lookup finds exactly the document at the
      position holding that identifier. */
  lemma LookupAt<R>(docs: seq<Doc<R>>, i: nat)
    requires UniqueIds(docs) && i < |docs|
    ensures IndexOf(docs, docs[i].id) == Some(i)
    ensures Lookup(docs, docs[i].id) == Some(docs[i])
  {
  }

  /** Appending a document whose identifier is new leaves the collection's
      identifiers unique, makes the new document findable, and leaves every
      other lookup as it was. */
  lemma AppendFresh<R>(docs: seq<Doc<R>>, d: Doc<R>)
    requires UniqueIds(docs) && !HasId(docs, d.id)
    ensures UniqueIds(docs + [d])
    ensures Lookup(docs + [d], d.id) == Some(d)
    ensures forall other :: other != d.id ==> Lookup(docs + [d], other) == Lookup(docs, other)
  {
    var s := docs + [d];
    assert forall i :: 0 <= i < |docs| ==> s[i] == docs[i];
    assert UniqueIds(s) by {
      forall i, j | 0 <= i < j < |s| ensures s[i].id != s[j].id {
        if j == |docs| {
          assert s[i].id == docs[i].id;
        }
      }
    }
    LookupAt(s, |docs|);
    forall other | other != d.id ensures Lookup(s, other) == Lookup(docs, other) {
      if HasId(docs, other) {
        var k :| 0 <= k < |docs| && docs[k].id == other;
        LookupAt(docs, k);
        LookupAt(s, k);
      } else {
        assert !HasId(s, other);
      }
    }
  }

  /** Replacing the record at position i, under the same identifier, keeps
      identifiers unique, makes the lookup on that identifier return the new
      document, and leaves every other lookup as it was. */
  lemma ReplaceAt<R>(docs: seq<Doc<R>>, i: nat, rec: R)
    requires UniqueIds(docs) && i < |docs|
    ensures UniqueIds(docs[i := Doc(docs[i].id, rec)])
    ensures Lookup(docs[i := Doc(docs[i].id, rec)], docs[i].id) == Some(Doc(docs[i].id, rec))
    ensures forall other :: other != docs[i].id ==>
              Lookup(docs[i := Doc(docs[i].id, rec)], other) == Lookup(docs, other)
  {
    var s := docs[i := Doc(docs[i].id, rec)];
    assert forall k :: 0 <= k < |s| ==> s[k].id == docs[k].id;
    LookupAt(s, i);
    forall other | other != docs[i].id ensures Lookup(s, other) == Lookup(docs, other) {
      if HasId(docs, other) {
        var k :| 0 <= k < |docs| && docs[k].id == other;
        LookupAt(docs, k);
        LookupAt(s, k);
      } else {
        assert !HasId(s, other);
      }
    }
  }

  /** Removing the document at position i keeps identifiers unique, makes
      its identifier unfindable, and leaves every other lookup as it was. */
  lemma RemoveAt<R>(docs: seq<Doc<R>>, i: nat)
    requires UniqueIds(docs) && i < |docs|
    ensures UniqueIds(docs[..i] + docs[i + 1..])
    ensures !HasId(docs[..i] + docs[i + 1..], docs[i].id)
    ensures forall other :: other != docs[i].id ==>
              Lookup(docs[..i] + docs[i + 1..], other) == Lookup(docs, other)
  {
    var s := docs[..i] + docs[i + 1..];
    assert |s| == |docs| - 1;
    assert forall k :: 0 <= k < i ==> s[k] == docs[k];
    assert forall k :: i <= k < |s| ==> s[k] == docs[k + 1];
    assert UniqueIds(s) by {
      forall a, b | 0 <= a < b < |s| ensures s[a].id != s[b].id {
        var a' := if a < i then a else a + 1;
        var b' := if b < i then b else b + 1;
        assert s[a] == docs[a'] && s[b] == docs[b'];
      }
    }
    assert !HasId(s, docs[i].id) by {
      forall k | 0 <= k < |s| ensures s[k].id != docs[i].id {
        var k' := if k < i then k else k + 1;
        assert s[k] == docs[k'];
      }
    }
    forall other | other != docs[i].id ensures Lookup(s, other) == Lookup(docs, other) {
      if HasId(docs, other) {
        var k :| 0 <= k < |docs| && docs[k].id == other;
        var k' := if k < i then k else k - 1;
        assert s[k'] == docs[k];
        LookupAt(docs, k);
        LookupAt(s, k');
      } else {
        assert !HasId(s, other) by {
          forall m | 0 <= m < |s| ensures s[m].id != other {
            var m' := if m < i then m else m + 1;
            assert s[m] == docs[m'];
          }
        }
      }
    }
  }
}
