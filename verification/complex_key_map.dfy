/**
 * lib/ComplexKeyMap.ts: a map whose keys of type K are stored under a
 * projected "real" key of type R (for example a coordinate under its text
 * form). Keys with the same projection share one entry; each entry keeps the
 * original key object of the last `set` together with its value. Iteration
 * follows the JavaScript Map rule: a projected key keeps the position of its
 * first insertion until it is deleted.
 */
module ComplexKeyMaps {
  import opened Outcomes

  /** The contents of the underlying JavaScript Map: entries and their iteration order. */
  datatype Store<K, V, R> = Store(entries: map<R, (K, V)>, order: seq<R>)

  predicate Distinct<R(==)>(s: seq<R>) {
    forall i, j :: 0 <= i < j < |s| ==> s[i] != s[j]
  }

  /** The consistency of a store: the order lists every entry once, and every entry sits under its key's projection. */
  ghost predicate ValidStore<K, V, R(!new)>(project: K -> R, s: Store<K, V, R>) {
    && Distinct(s.order)
    && (forall r :: r in s.entries <==> r in s.order)
    && (forall r :: r in s.entries ==> project(s.entries[r].0) == r)
  }

  /** The store after `set(k, v)`. */
  function Put<K, V, R(==,!new)>(project: K -> R, s: Store<K, V, R>, k: K, v: V): (t: Store<K, V, R>)
    ensures ValidStore(project, s) ==> ValidStore(project, t)
  {
    var r := project(k);
    Store(s.entries[r := (k, v)], if r in s.entries then s.order else s.order + [r])
  }

  /** The order with `r` taken out. */
  function RemoveKey<R(==,!new)>(order: seq<R>, r: R): (res: seq<R>)
    ensures forall x :: x in res <==> x in order && x != r
    ensures Distinct(order) ==> Distinct(res)
    ensures Distinct(order) && r in order ==> |res| == |order| - 1
    ensures r !in order ==> res == order
  {
    if order == [] then []
    else
      var tail := RemoveKey(order[1..], r);
      assert Distinct(order) ==> order[0] !in order[1..];
      if order[0] == r then tail else [order[0]] + tail
  }

  /** The store after `delete(k)`. */
  function Remove<K, V, R(==,!new)>(project: K -> R, s: Store<K, V, R>, k: K): (t: Store<K, V, R>)
    ensures ValidStore(project, s) ==> ValidStore(project, t)
  {
    var r := project(k);
    Store(s.entries - {r}, RemoveKey(s.order, r))
  }

  /** The store after setting every pair of `kvs` in order, starting from `s`. */
  function PutAll<K, V, R(==,!new)>(project: K -> R, s: Store<K, V, R>, kvs: seq<(K, V)>): (t: Store<K, V, R>)
    ensures ValidStore(project, s) ==> ValidStore(project, t)
  {
    if kvs == [] then s
    else
      var last := kvs[|kvs| - 1];
      Put(project, PutAll(project, s, kvs[..|kvs| - 1]), last.0, last.1)
  }

  /** `get(k)` on a store. */
  function Lookup<K, V, R(==)>(project: K -> R, s: Store<K, V, R>, k: K): Option<V> {
    var r := project(k);
    if r in s.entries then Some(s.entries[r].1) else None
  }

  lemma {:induction false} DistinctLength<R(!new)>(order: seq<R>, keys: set<R>)
    requires Distinct(order)
    requires forall r :: r in keys <==> r in order
    ensures |keys| == |order|
  {
    if order != [] {
      var tail := order[1..];
      assert order[0] !in tail;
      assert forall r :: r in keys - {order[0]} <==> r in tail;
      DistinctLength(tail, keys - {order[0]});
    }
  }

  /** `get` after `set` of a key with the same projection returns the new value. */
  lemma {:induction false} LookupAfterPut<K, V, R(!new)>(project: K -> R, s: Store<K, V, R>, k: K, v: V, k': K)
    requires project(k') == project(k)
    ensures Lookup(project, Put(project, s, k, v), k') == Some(v)
  {
  }

  /** `set` leaves the entry of every other projected key as it was. */
  lemma {:induction false} LookupUnaffectedByPut<K, V, R(!new)>(project: K -> R, s: Store<K, V, R>, k: K, v: V, k': K)
    requires project(k') != project(k)
    ensures Lookup(project, Put(project, s, k, v), k') == Lookup(project, s, k')
    ensures project(k') in Put(project, s, k, v).entries <==> project(k') in s.entries
  {
  }

  /**
   * Setting more pairs only appends to the iteration order: a projected key
   * keeps the position it was given.
   */
  lemma {:induction false} PutAllExtendsOrder<K, V, R(!new)>(project: K -> R, s: Store<K, V, R>, kvs: seq<(K, V)>, more: seq<(K, V)>)
    ensures PutAll(project, s, kvs).order <= PutAll(project, s, kvs + more).order
    decreases |more|
  {
    if more != [] {
      var all := kvs + more;
      var more' := more[..|more| - 1];
      assert all[..|all| - 1] == kvs + more';
      PutAllExtendsOrder(project, s, kvs, more');
    } else {
      assert kvs + more == kvs;
    }
  }

  /**
   * Building from a list of pairs keeps, for each projected key, the last
   * pair that projects to it: later duplicates win, while the key keeps the
   * place in the order it had once the pair was set.
   */
  lemma {:induction false} LaterDuplicatesWin<K, V, R(!new)>(project: K -> R, s: Store<K, V, R>, pre: seq<(K, V)>, k: K, v: V, post: seq<(K, V)>)
    requires forall i :: 0 <= i < |post| ==> project(post[i].0) != project(k)
    ensures var t := PutAll(project, s, pre + [(k, v)] + post);
      project(k) in t.entries && t.entries[project(k)] == (k, v)
    ensures var u := PutAll(project, s, pre + [(k, v)]);
      && u.order <= PutAll(project, s, pre + [(k, v)] + post).order
      && (ValidStore(project, s) ==> project(k) in u.order)
    decreases |post|
  {
    var all := pre + [(k, v)] + post;
    PutAllExtendsOrder(project, s, pre + [(k, v)], post);
    if post == [] {
      assert all[..|all| - 1] == pre;
    } else {
      var post' := post[..|post| - 1];
      assert all[..|all| - 1] == pre + [(k, v)] + post';
      LaterDuplicatesWin(project, s, pre, k, v, post');
    }
  }

  class ComplexKeyMap<K, V, R(==,!new)> {
    const project: K -> R
    var entries: map<R, (K, V)>
    var order: seq<R>

    function Contents(): Store<K, V, R>
      reads this
    {
      Store(entries, order)
    }

    ghost predicate Valid()
      reads this
    {
      ValidStore(project, Contents())
    }

    /** `new ComplexKeyMap(keyToRealKey, entries)`: the same as setting the pairs in order. */
    constructor (project: K -> R, init: seq<(K, V)>)
      ensures Valid() && this.project == project
      ensures Contents() == PutAll(project, Store(map[], []), init)
    {
      var s := Store(map[], []);
      for i := 0 to |init|
        invariant s == PutAll(project, Store(map[], []), init[..i])
      {
        assert init[..i + 1][..i] == init[..i];
        s := Put(project, s, init[i].0, init[i].1);
      }
      assert init[..|init|] == init;
      this.project := project;
      entries := s.entries;
      order := s.order;
    }

    /** `clear()`. */
    method Clear()
      requires Valid()
      modifies this
      ensures Valid() && Size() == 0
      ensures Contents() == Store(map[], [])
    {
      entries := map[];
      order := [];
    }

    /** `delete(k)`: reports whether an entry with k's projection existed, and removes only that entry. */
    method Delete(k: K) returns (existed: bool)
      requires Valid()
      modifies this
      ensures Valid() && !Has(k)
      ensures existed == old(Has(k))
      ensures Contents() == Remove(project, old(Contents()), k)
    {
      var r := project(k);
      existed := r in entries;
      entries := entries - {r};
      order := RemoveKey(order, r);
    }

    /** `get(k)`. */
    function Get(k: K): (r: Option<V>)
      reads this
      ensures r.Some? <==> Has(k)
      ensures r == Lookup(project, Contents(), k)
    {
      var key := project(k);
      if key in entries then Some(entries[key].1) else None
    }

    /** `has(k)`. */
    predicate Has(k: K)
      reads this
    {
      project(k) in entries
    }

    /** `set(k, v)`: overwrites the entry of k's projection or appends a new one. */
    method Set(k: K, v: V)
      requires Valid()
      modifies this
      ensures Valid() && Get(k) == Some(v)
      ensures Contents() == Put(project, old(Contents()), k, v)
    {
      var r := project(k);
      if r !in entries {
        order := order + [r];
      }
      entries := entries[r := (k, v)];
    }

    /** `size`: the number of distinct projected keys. */
    function Size(): (n: nat)
      reads this
      requires Valid()
      ensures n == |order|
    {
      DistinctLength(order, entries.Keys);
      |entries|
    }

    /** `entries()`: for each projected key in iteration order, the key of the last `set` and its value. */
    function Entries(): (es: seq<(K, V)>)
      reads this
      requires Valid()
      ensures |es| == Size()
      ensures forall i :: 0 <= i < |es| ==> es[i] == entries[order[i]]
    {
      var es, ord := entries, order;
      seq(|ord|, i requires 0 <= i < |ord| && ord[i] in es => es[ord[i]])
    }

    /** `keys()`: for each projected key in iteration order, the key of the last `set`. */
    function Keys(): (ks: seq<K>)
      reads this
      requires Valid()
      ensures |ks| == Size()
      ensures forall i :: 0 <= i < |ks| ==> ks[i] == entries[order[i]].0
      ensures forall i :: 0 <= i < |ks| ==> project(ks[i]) == order[i]
    {
      var es := Entries();
      seq(|es|, i requires 0 <= i < |es| => es[i].0)
    }

    /** `values()`. */
    function Values(): (vs: seq<V>)
      reads this
      requires Valid()
      ensures |vs| == Size()
      ensures forall i :: 0 <= i < |vs| ==> Some(vs[i]) == Get(entries[order[i]].0)
    {
      var es := Entries();
      seq(|es|, i requires 0 <= i < |es| => es[i].1)
    }
  }
}
