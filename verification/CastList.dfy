/** The cast list of a SWIG type: a doubly linked list in which every successful lookup moves
    the node that it finds to the front. */
module CastList {
  import opened Basics

  // ---------------------------------------------------------------- on sequences

  function ToFront<T>(s: seq<T>, k: nat): seq<T>
    requires k < |s|
  {
    [s[k]] + s[..k] + s[k + 1..]
  }

  /** The list after one lookup, and after a sequence of lookups. */
  function Looked<T, K(==)>(s: seq<T>, key: T -> K, k: K): seq<T> {
    var i := FirstWith(s, key, k);
    if i < |s| then ToFront(s, i) else s
  }

  function LookedAll<T, K(==)>(s: seq<T>, key: T -> K, ks: seq<K>): seq<T>
    decreases |ks|
  {
    if ks == [] then s else LookedAll(Looked(s, key, ks[0]), key, ks[1..])
  }

  /** The elements whose key is not among ks, in their order. */
  function Others<T, K(==)>(s: seq<T>, key: T -> K, ks: set<K>): seq<T> {
    if s == [] then []
    else if key(s[0]) in ks then Others(s[1..], key, ks)
    else [s[0]] + Others(s[1..], key, ks)
  }

  lemma {:induction false} OthersOfConcat<T, K>(a: seq<T>, b: seq<T>, key: T -> K, ks: set<K>)
    ensures Others(a + b, key, ks) == Others(a, key, ks) + Others(b, key, ks)
  {
    if a == [] {
      assert a + b == b;
    } else {
      hide Others;
      OthersOfConcat(a[1..], b, key, ks);
      TailOfConcat(a, b);
      OthersOfCons(a + b, key, ks);
      OthersOfCons(a, key, ks);
      Associates([a[0]], Others(a[1..], key, ks), Others(b, key, ks));
    }
  }

  lemma TailOfConcat<T>(a: seq<T>, b: seq<T>)
    requires a != []
    ensures (a + b)[0] == a[0] && (a + b)[1..] == a[1..] + b
  {
  }

  lemma Associates<T>(a: seq<T>, b: seq<T>, c: seq<T>)
    ensures a + (b + c) == (a + b) + c
  {
  }

  lemma OthersOfCons<T, K>(s: seq<T>, key: T -> K, ks: set<K>)
    requires s != []
    ensures Others(s, key, ks) == if key(s[0]) in ks then Others(s[1..], key, ks) else [s[0]] + Others(s[1..], key, ks)
  {
  }

  /** One lookup keeps all elements and the order of those with other keys. */
  lemma LookupKeepsOthers<T, K>(s: seq<T>, key: T -> K, k: K, ks: set<K>)
    requires k in ks
    ensures Others(Looked(s, key, k), key, ks) == Others(s, key, ks)
    ensures multiset(Looked(s, key, k)) == multiset(s)
  {
    hide FirstWith, Others, Looked;
    LookedParts(s, key, k);
    var i := FirstWith(s, key, k);
    if i < |s| {
      var a, x, b := s[..i], [s[i]], s[i + 1..];
      OthersOfConcat(a, x + b, key, ks);
      OthersOfConcat(x, b, key, ks);
      OthersOfConcat(x, a + b, key, ks);
      OthersOfConcat(a, b, key, ks);
      OthersOfOne(x, key, ks);
    }
  }

  lemma LookedParts<T, K>(s: seq<T>, key: T -> K, k: K)
    ensures multiset(Looked(s, key, k)) == multiset(s)
    ensures var i := FirstWith(s, key, k);
            if i < |s| then
              && s == s[..i] + ([s[i]] + s[i + 1..]) && Looked(s, key, k) == [s[i]] + (s[..i] + s[i + 1..]) && key(s[i]) == k
            else Looked(s, key, k) == s
  {
    hide FirstWith;
    var i := FirstWith(s, key, k);
    if i < |s| {
      Parts(s, i);
      FrontPermutes(s[..i], [s[i]], s[i + 1..]);
    }
  }

  lemma Parts<T>(s: seq<T>, i: nat)
    requires i < |s|
    ensures s == s[..i] + ([s[i]] + s[i + 1..]) && ToFront(s, i) == [s[i]] + (s[..i] + s[i + 1..])
  {
  }

  lemma FrontPermutes<T>(a: seq<T>, x: seq<T>, b: seq<T>)
    ensures multiset(x + (a + b)) == multiset(a + (x + b))
  {
  }

  lemma OthersOfOne<T, K>(x: seq<T>, key: T -> K, ks: set<K>)
    requires |x| == 1 && key(x[0]) in ks
    ensures Others(x, key, ks) == []
  {
    assert x[1..] == [];
  }

  /** Any sequence of lookups permutes the list and never reorders what was not looked up. */
  lemma {:induction false} LookupsKeepOthers<T, K>(s: seq<T>, key: T -> K, ks: seq<K>)
    ensures multiset(LookedAll(s, key, ks)) == multiset(s)
    ensures Others(LookedAll(s, key, ks), key, set k | k in ks) == Others(s, key, set k | k in ks)
  {
    LookupsKeepOthersOf(s, key, ks, set k | k in ks);
  }

  lemma {:induction false} LookupsKeepOthersOf<T, K>(s: seq<T>, key: T -> K, ks: seq<K>, among: set<K>)
    requires forall k | k in ks :: k in among
    ensures multiset(LookedAll(s, key, ks)) == multiset(s)
    ensures Others(LookedAll(s, key, ks), key, among) == Others(s, key, among)
    decreases |ks|
  {
    if ks != [] {
      LookupKeepsOthers(s, key, ks[0], among);
      LookupsKeepOthersOf(Looked(s, key, ks[0]), key, ks[1..], among);
    }
  }

  /** The key looked up last, if it is in the list, is at the front. */
  lemma LookedIsFirst<T, K>(s: seq<T>, key: T -> K, k: K)
    requires exists i :: 0 <= i < |s| && key(s[i]) == k
    ensures |Looked(s, key, k)| > 0 && key(Looked(s, key, k)[0]) == k
    ensures Looked(Looked(s, key, k), key, k) == Looked(s, key, k)
  {
    var t := Looked(s, key, k);
    assert FirstWith(t, key, k) == 0;
    assert ToFront(t, 0) == t;
  }

  // ---------------------------------------------------------------- on the heap

  class TypeInfo {
    const name: string
    var cast: CastInfo?
    /** The nodes of the cast list in order. */
    ghost var nodes: seq<CastInfo>

    constructor (name: string)
      ensures this.name == name && nodes == [] && cast == null
    {
      this.name := name;
      cast := null;
      nodes := [];
    }

    ghost predicate Linked()
      reads this, nodes
    {
      && (forall i, j | 0 <= i < j < |nodes| :: nodes[i] != nodes[j])
      && cast == (if nodes == [] then null else nodes[0])
      && (forall i | 0 <= i < |nodes| :: nodes[i].next == Succ(nodes, i))
      && (forall i | 0 <= i < |nodes| :: nodes[i].prev == if i == 0 then null else nodes[i - 1])
    }
  }

  class CastInfo {
    const ty: TypeInfo
    var next: CastInfo?
    var prev: CastInfo?

    constructor (ty: TypeInfo)
      ensures this.ty == ty && next == null && prev == null
    {
      this.ty := ty;
      next, prev := null, null;
    }
  }

  function NameOf(c: CastInfo): string { c.ty.name }
  function TypeOf(c: CastInfo): TypeInfo { c.ty }

  /** The pointers after node k, which is not the head, was spliced out and put before the head. */
  ghost predicate Spliced(ty: TypeInfo, s: seq<CastInfo>, k: nat)
    requires 0 < k < |s|
    reads ty, s
  {
    && ty.cast == s[k]
    && s[k].next == s[0] && s[k - 1].next == Succ(s, k)
    && (forall i: nat | i < |s| && i != k && i != k - 1 :: s[i].next == Succ(s, i))
    && s[k].prev == null && s[0].prev == s[k]
    && (k + 1 < |s| ==> s[k + 1].prev == s[k - 1])
    && (forall i: nat | 0 < i < |s| && i != k && i != k + 1 :: s[i].prev == s[i - 1])
  }

  method Splice(ty: TypeInfo, iter: CastInfo, ghost k: nat)
    requires ty.Linked() && 0 < k < |ty.nodes| && ty.nodes[k] == iter
    modifies ty`cast, ty.nodes
    ensures Spliced(ty, ty.nodes, k)
  {
    ghost var s := ty.nodes;
    assert iter.prev == s[k - 1] && iter.prev in s;
    assert iter.next == Succ(s, k);
    assert k + 1 < |s| ==> s[k + 1] in s;
    assert ty.cast == s[0] && ty.cast in s && iter in s;
    iter.prev.next := iter.next;
    if iter.next != null {
      iter.next.prev := iter.prev;
    }
    iter.next := ty.cast;
    iter.prev := null;
    if ty.cast != null {
      ty.cast.prev := iter;
    }
    ty.cast := iter;
  }

  /** Node iter, which is not the head, moves to the top of the list. */
  method MoveToTop(ty: TypeInfo, iter: CastInfo, ghost k: nat)
    requires ty.Linked() && 0 < k < |ty.nodes| && ty.nodes[k] == iter
    modifies ty, ty.nodes
    ensures ty.nodes == ToFront(old(ty.nodes), k) && ty.Linked() && ty.cast == iter
  {
    ghost var s := ty.nodes;
    Splice(ty, iter, k);
    ty.nodes := ToFront(s, k);
    SplicedIsLinked(ty, s, k);
  }

  lemma SplicedIsLinked(ty: TypeInfo, s: seq<CastInfo>, k: nat)
    requires 0 < k < |s| && Spliced(ty, s, k) && ty.nodes == ToFront(s, k)
    requires forall i, j | 0 <= i < j < |s| :: s[i] != s[j]
    ensures ty.Linked()
  {
    var t := ToFront(s, k);
    forall i: nat | i < |t| ensures t[i].next == Succ(t, i) && t[i].prev == if i == 0 then null else t[i - 1] {
      AtFront(s, k, i);
    }
    forall i, j | 0 <= i < j < |t| ensures t[i] != t[j] {
      AtFront(s, k, i);
      AtFront(s, k, j);
    }
  }

  ghost function Succ(s: seq<CastInfo>, i: nat): CastInfo?
    requires i < |s|
  {
    if i + 1 < |s| then s[i + 1] else null
  }

  /** Where the element at place i of the new list was, and its neighbours. */
  lemma AtFront(s: seq<CastInfo>, k: nat, i: nat)
    requires 0 < k < |s| && i < |s|
    ensures var t := ToFront(s, k);
            && |t| == |s|
            && t[i] == (if i == 0 then s[k] else if i <= k then s[i - 1] else s[i])
            && Succ(t, i) == (if i == 0 then s[0] else if i < k then s[i] else Succ(s, i))
            && (i > 0 ==> t[i - 1] == if i == 1 then s[k] else if i <= k + 1 then s[i - 2] else s[i - 1])
  {
  }

  /** SWIG_TypeCheck: the first node of the list whose type has the given name moves to the front. */
  method TypeCheck(c: string, ty: TypeInfo?) returns (r: CastInfo?)
    requires ty != null ==> ty.Linked()
    modifies ty, if ty != null then ty.nodes else []
    ensures ty == null ==> r == null
    ensures ty != null ==>
              && ty.Linked() && ty.nodes == Looked(old(ty.nodes), NameOf, c)
              && var k := FirstWith(old(ty.nodes), NameOf, c);
                 r == if k < |old(ty.nodes)| then old(ty.nodes)[k] else null
  {
    if ty != null {
      ghost var s, k := ty.nodes, 0;
      var iter := ty.cast;
      while iter != null
        invariant k <= |s| && iter == (if k < |s| then s[k] else null)
        invariant forall j | 0 <= j < k :: NameOf(s[j]) != c
        invariant ty.Linked() && ty.nodes == s
        decreases |s| - k
      {
        if iter.ty.name == c {
          FirstIs(s, NameOf, c, k);
          if iter == ty.cast {
            assert ToFront(s, 0) == s;
            return iter;
          }
          MoveToTop(ty, iter, k);
          return iter;
        }
        iter := iter.next;
        k := k + 1;
      }
      FirstIs(s, NameOf, c, k);
    }
    return null;
  }

  /** SWIG_TypeCheckStruct: the same, with types compared by identity. */
  method TypeCheckStruct(from: TypeInfo, ty: TypeInfo?) returns (r: CastInfo?)
    requires ty != null ==> ty.Linked()
    modifies ty, if ty != null then ty.nodes else []
    ensures ty == null ==> r == null
    ensures ty != null ==>
              && ty.Linked() && ty.nodes == Looked(old(ty.nodes), TypeOf, from)
              && var k := FirstWith(old(ty.nodes), TypeOf, from);
                 r == if k < |old(ty.nodes)| then old(ty.nodes)[k] else null
  {
    if ty != null {
      ghost var s, k := ty.nodes, 0;
      var iter := ty.cast;
      while iter != null
        invariant k <= |s| && iter == (if k < |s| then s[k] else null)
        invariant forall j | 0 <= j < k :: TypeOf(s[j]) != from
        invariant ty.Linked() && ty.nodes == s
        decreases |s| - k
      {
        if iter.ty == from {
          FirstIs(s, TypeOf, from, k);
          if iter == ty.cast {
            assert ToFront(s, 0) == s;
            return iter;
          }
          MoveToTop(ty, iter, k);
          return iter;
        }
        iter := iter.next;
        k := k + 1;
      }
      FirstIs(s, TypeOf, from, k);
    }
    return null;
  }

  lemma FirstIs<T, K>(s: seq<T>, key: T -> K, k: K, i: nat)
    requires i <= |s| && (i < |s| ==> key(s[i]) == k) && forall j | 0 <= j < i :: key(s[j]) != k
    ensures FirstWith(s, key, k) == i
  {
  }
}
