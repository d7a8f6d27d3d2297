/**
 * Lists whose items carry an id, and the maps they stand for: how `merge_ams` indexes its
 * unit and tray lists and writes them back with `sorted`.
 */
module Keyed {
  datatype Entry<+T> = Entry(id: nat, body: T)

  /** Ids are unique and increasing. */
  ghost predicate Sorted<T>(list: seq<Entry<T>>) { forall i, j :: 0 <= i < j < |list| ==> list[i].id < list[j].id }

  /** The map a list stands for; a later item with the same id wins. */
  function Index<T>(list: seq<Entry<T>>): map<nat, T> {
    if list == [] then map[]
    else Index(list[..|list| - 1])[list[|list| - 1].id := list[|list| - 1].body]
  }

  lemma IndexAppend<T>(list: seq<Entry<T>>, item: Entry<T>)
    ensures Index(list + [item]) == Index(list)[item.id := item.body]
  {
    assert (list + [item])[..|list|] == list;
  }

  lemma IndexPrefix<T>(list: seq<Entry<T>>, i: nat)
    requires i < |list|
    ensures Index(list[..i + 1]) == Index(list[..i])[list[i].id := list[i].body]
  {
    assert list[..i + 1] == list[..i] + [list[i]];
    IndexAppend(list[..i], list[i]);
  }

  lemma EmptyIndex<T>(list: seq<Entry<T>>)
    ensures Index(list) == map[] <==> list == []
  {
    if list != [] {
      assert list[|list| - 1].id in Index(list);
    }
  }

  lemma {:induction false} IndexBound<T>(list: seq<Entry<T>>, bound: nat)
    requires forall i :: 0 <= i < |list| ==> list[i].id < bound
    ensures forall k :: k in Index(list) ==> k < bound
  {
    if list != [] {
      IndexBound(list[..|list| - 1], bound);
    }
  }

  lemma DropLast<T>(list: seq<Entry<T>>, init: seq<Entry<T>>, last: Entry<T>)
    requires Sorted(list) && list == init + [last]
    ensures Sorted(init) && Index(list) == Index(init)[last.id := last.body]
    ensures forall k :: k in Index(init) ==> k < last.id
  {
    IndexAppend(init, last);
    forall i | 0 <= i < |init|
      ensures init[i].id < last.id
    {
      assert list[i] == init[i] && list[|init|] == last;
    }
    IndexBound(init, last.id);
    assert forall i :: 0 <= i < |init| ==> init[i] == list[i];
  }

  lemma SameTop<T>(a: map<nat, T>, x: Entry<T>, b: map<nat, T>, y: Entry<T>)
    requires a[x.id := x.body] == b[y.id := y.body]
    requires (forall k :: k in a ==> k < x.id) && (forall k :: k in b ==> k < y.id)
    ensures x == y && a == b
  {
    var whole := a[x.id := x.body];
    assert x.id in whole && y.id in whole;
    assert whole[x.id] == x.body && whole[y.id] == y.body;
    forall k
      ensures k in a <==> k in b
      ensures k in a ==> a[k] == b[k]
    {
      assert k in a <==> k in whole && k != x.id;
      assert k in a ==> whole[k] == a[k];
      assert k in b ==> whole[k] == b[k];
    }
  }

  /** A sorted list is the only one that stands for its map. */
  lemma {:induction false} SortedListUnique<T>(a: seq<Entry<T>>, b: seq<Entry<T>>)
    requires Sorted(a) && Sorted(b) && Index(a) == Index(b)
    ensures a == b
  {
    EmptyIndex(a);
    EmptyIndex(b);
    if a != [] {
      var a', x := a[..|a| - 1], a[|a| - 1];
      var b', y := b[..|b| - 1], b[|b| - 1];
      assert a == a' + [x] && b == b' + [y];
      DropLast(a, a', x);
      DropLast(b, b', y);
      SameTop(Index(a'), x, Index(b'), y);
      SortedListUnique(a', b');
    }
  }

  method IndexList<T>(list: seq<Entry<T>>) returns (byId: map<nat, T>)
    ensures byId == Index(list)
  {
    byId := map[];
    for i := 0 to |list|
      invariant byId == Index(list[..i])
    {
      IndexPrefix(list, i);
      byId := byId[list[i].id := list[i].body];
    }
    assert list[..|list|] == list;
  }

  lemma {:induction false} HasLeast(s: set<nat>) returns (least: nat)
    requires s != {}
    ensures least in s && forall y <- s :: least <= y
  {
    var x :| x in s;
    var rest := s - {x};
    assert forall y <- s :: y == x || y in rest;
    if rest == {} {
      return x;
    }
    var other := HasLeast(rest);
    return if x < other then x else other;
  }

  method Least(s: set<nat>) returns (x: nat)
    requires s != {}
    ensures x in s && forall y <- s :: x <= y
  {
    ghost var least := HasLeast(s);
    x :| x in s && forall y <- s :: x <= y;
  }

  /** `[by_id[k] for k in sorted(by_id)]` */
  method ListSorted<T>(byId: map<nat, T>) returns (list: seq<Entry<T>>)
    ensures Sorted(list) && Index(list) == byId
    ensures forall i :: 0 <= i < |list| ==> list[i].id in byId && byId[list[i].id] == list[i].body
  {
    list := [];
    var left := byId.Keys;
    while left != {}
      invariant left <= byId.Keys
      invariant Sorted(list)
      invariant forall i, k :: 0 <= i < |list| && k in left ==> list[i].id < k
      invariant forall i :: 0 <= i < |list| ==> list[i].id in byId && byId[list[i].id] == list[i].body
      invariant Index(list) == map k | k in byId && k !in left :: byId[k]
      decreases left
    {
      var k := Least(left);
      IndexAppend(list, Entry(k, byId[k]));
      list, left := list + [Entry(k, byId[k])], left - {k};
    }
  }
}
