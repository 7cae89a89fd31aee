/** The SWIG modules of an interpreter form a ring; a type is looked up by binary search in
    the sorted table of one module after the other. */
module ModuleRing {
  import opened CastList

  // ---------------------------------------------------------------- strcmp

  predicate Less(a: string, b: string) {
    b != [] && (a == [] || a[0] < b[0] || (a[0] == b[0] && Less(a[1..], b[1..])))
  }

  function Strcmp(a: string, b: string): int {
    if a == b then 0 else if Less(a, b) then -1 else 1
  }

  lemma {:induction false} LessTransitive(a: string, b: string, c: string)
    requires Less(a, b) && Less(b, c)
    ensures Less(a, c)
  {
    if a != [] && a[0] == b[0] && b[0] == c[0] {
      LessTransitive(a[1..], b[1..], c[1..]);
    }
  }

  lemma {:induction false} LessIrreflexive(a: string)
    ensures !Less(a, a)
  {
    if a != [] {
      LessIrreflexive(a[1..]);
    }
  }

  lemma {:induction false} LessTotal(a: string, b: string)
    ensures a == b || Less(a, b) || Less(b, a)
  {
    if a != [] && b != [] && a[0] == b[0] {
      LessTotal(a[1..], b[1..]);
      assert a == [a[0]] + a[1..] && b == [b[0]] + b[1..];
    }
  }

  /** The strings agree up to position k, where the first one ends or has the smaller character. */
  ghost predicate FirstDiffer(a: string, b: string, k: nat) {
    k <= |a| && k < |b| && a[..k] == b[..k] && (k == |a| || a[k] < b[k])
  }

  /** The order of strcmp is decided by the first character in which the strings differ. */
  lemma {:induction false} LessByFirstDifference(a: string, b: string)
    ensures Less(a, b) <==> exists k: nat :: FirstDiffer(a, b, k)
  {
    forall k: nat | FirstDiffer(a, b, k) ensures k == 0 || a[0] == b[0] {
      if k > 0 {
        assert a[..k][0] == a[0] && b[..k][0] == b[0];
      }
    }
    if a != [] && b != [] && a[0] == b[0] {
      LessByFirstDifference(a[1..], b[1..]);
      if k: nat :| FirstDiffer(a[1..], b[1..], k) {
        assert a[..k + 1] == [a[0]] + a[1..][..k] && b[..k + 1] == [b[0]] + b[1..][..k];
        assert FirstDiffer(a, b, k + 1);
      }
      if k: nat :| FirstDiffer(a, b, k) {
        assert k > 0;
        assert a[1..][..k - 1] == a[..k][1..] && b[1..][..k - 1] == b[..k][1..];
        assert FirstDiffer(a[1..], b[1..], k - 1);
      }
    } else if b != [] && (a == [] || a[0] < b[0]) {
      assert FirstDiffer(a, b, 0);
    }
  }

  lemma StrcmpByFirstDifference(a: string, b: string)
    ensures Strcmp(a, b) == 0 <==> a == b
    ensures Strcmp(a, b) < 0 <==> exists k: nat :: FirstDiffer(a, b, k)
    ensures Strcmp(a, b) > 0 <==> exists k: nat :: FirstDiffer(b, a, k)
  {
    LessByFirstDifference(a, b);
    LessByFirstDifference(b, a);
    LessIrreflexive(a);
    LessTotal(a, b);
    if Less(a, b) && Less(b, a) {
      LessTransitive(a, b, a);
    }
  }

  ghost predicate Sorted(types: seq<TypeInfo>) {
    forall i, j | 0 <= i < j < |types| :: Less(types[i].name, types[j].name)
  }

  ghost predicate Has(types: seq<TypeInfo>, name: string) {
    exists i :: 0 <= i < |types| && types[i].name == name
  }

  /** The search in one table. */
  method Search(types: seq<TypeInfo>, name: string) returns (t: TypeInfo?)
    requires Sorted(types)
    ensures t == null <==> !Has(types, name)
    ensures t != null ==> t in types && t.name == name
  {
    t := null;
    if |types| == 0 {
      return;
    }
    var l, r := 0, |types| - 1;
    while true
      invariant 0 <= l <= r < |types|
      invariant forall j | 0 <= j < l :: types[j].name != name
      invariant forall j | r < j < |types| :: types[j].name != name
      decreases r - l
    {
      var i := (l + r) / 2;
      var compare := Strcmp(name, types[i].name);
      if compare == 0 {
        return types[i];
      } else if compare < 0 {
        AboveIsGreater(types, name, i);
        if i == 0 {
          return;
        }
        r := i - 1;
      } else {
        BelowIsLess(types, name, i);
        l := i + 1;
      }
      if l > r {
        return;
      }
    }
  }

  lemma AboveIsGreater(types: seq<TypeInfo>, name: string, i: nat)
    requires Sorted(types) && i < |types| && Less(name, types[i].name)
    ensures forall j | i <= j < |types| :: types[j].name != name
  {
    forall j | i <= j < |types| ensures types[j].name != name {
      if j > i {
        LessTransitive(name, types[i].name, types[j].name);
      }
      LessIrreflexive(name);
    }
  }

  lemma BelowIsLess(types: seq<TypeInfo>, name: string, i: nat)
    requires Sorted(types) && i < |types| && name != types[i].name && !Less(name, types[i].name)
    ensures forall j | 0 <= j <= i :: types[j].name != name
  {
    LessTotal(name, types[i].name);
    forall j | 0 <= j <= i ensures types[j].name != name {
      if j < i {
        LessTransitive(types[j].name, types[i].name, name);
      }
      LessIrreflexive(name);
    }
  }

  // ---------------------------------------------------------------- the ring

  class ModuleInfo {
    const typeInitial: seq<TypeInfo>
    var types: seq<TypeInfo>
    var next: ModuleInfo?

    constructor (typeInitial: seq<TypeInfo>)
      ensures this.typeInitial == typeInitial && types == [] && next == null
    {
      this.typeInitial := typeInitial;
      types := [];
      next := null;
    }
  }

  ghost predicate Ring(ms: seq<ModuleInfo>)
    reads ms
  {
    && |ms| > 0
    && (forall i, j | 0 <= i < j < |ms| :: ms[i] != ms[j])
    && (forall i | 0 <= i < |ms| :: ms[i].next == ms[if i + 1 < |ms| then i + 1 else 0])
  }

  /** The modules that a walk from start visits before it comes to end; if start is end the walk
      goes all the way around. */
  ghost predicate IsWalk(walk: seq<ModuleInfo>, start: ModuleInfo, end: ModuleInfo)
    reads walk
  {
    && |walk| > 0 && walk[0] == start
    && (forall i | 0 < i < |walk| :: walk[i - 1].next == walk[i] && walk[i] != end)
    && walk[|walk| - 1].next == end
  }

  function Segment(ms: seq<ModuleInfo>, a: nat, b: nat): seq<ModuleInfo>
    requires a < |ms| && b < |ms|
  {
    if a < b then ms[a..b] else ms[a..] + ms[..b]
  }

  lemma RingHasWalks(ms: seq<ModuleInfo>, a: nat, b: nat)
    requires Ring(ms) && a < |ms| && b < |ms|
    ensures IsWalk(Segment(ms, a, b), ms[a], ms[b])
  {
    var w := Segment(ms, a, b);
    assert forall i | 0 <= i < |w| :: w[i] == ms[if a + i < |ms| then a + i else a + i - |ms|];
  }

  /** A walk that starts in a ring ends in the ring. */
  lemma {:induction false} WalksStayInRing(ms: seq<ModuleInfo>, walk: seq<ModuleInfo>, start: ModuleInfo, end: ModuleInfo)
    requires Ring(ms) && start in ms && IsWalk(walk, start, end)
    ensures end in ms
    decreases |walk|
  {
    var i :| 0 <= i < |ms| && ms[i] == start;
    assert ms[i].next == ms[if i + 1 < |ms| then i + 1 else 0];
    assert ms[i].next in ms;
    if |walk| > 1 {
      assert walk[1..][0] == start.next;
      WalksStayInRing(ms, walk[1..], walk[1], end);
    }
  }

  /** Two rings that share a module have the same modules. */
  lemma RingsApart(a: seq<ModuleInfo>, b: seq<ModuleInfo>, x: ModuleInfo, y: ModuleInfo)
    requires Ring(a) && Ring(b) && x in a && x in b && y in b
    ensures y in a
  {
    var i :| 0 <= i < |b| && b[i] == x;
    var j :| 0 <= j < |b| && b[j] == y;
    RingHasWalks(b, i, j);
    WalksStayInRing(a, Segment(b, i, j), x, y);
  }

  /** The modules of an old ring whose first module has moved to the new ring: the others still lead
      to it, one after the other, but are not on the new ring. */
  ghost predicate CutOff(old': seq<ModuleInfo>, ring: seq<ModuleInfo>)
    reads old', ring
  {
    && |old'| > 0 && Ring(ring) && old'[0] in ring
    && (forall i, j | 0 <= i < j < |old'| :: old'[i] != old'[j])
    && (forall i | 0 < i < |old'| :: old'[i] !in ring)
    && (forall i | 0 < i < |old'| :: old'[i].next == old'[if i + 1 < |old'| then i + 1 else 0])
  }

  /** From such a module a walk comes only to later modules of the old ring and to the new ring. */
  lemma {:induction false} WalksMoveOn(old': seq<ModuleInfo>, ring: seq<ModuleInfo>, walk: seq<ModuleInfo>, j: nat, end: ModuleInfo)
    requires CutOff(old', ring) && 0 < j < |old'| && IsWalk(walk, old'[j], end)
    ensures end in ring || exists e :: j < e < |old'| && old'[e] == end
    decreases |walk|
  {
    if |walk| == 1 {
      assert end == old'[if j + 1 < |old'| then j + 1 else 0];
    } else {
      var rest := walk[1..];
      assert rest[0] == old'[if j + 1 < |old'| then j + 1 else 0];
      assert IsWalk(rest, walk[1], end);
      if j + 1 < |old'| {
        WalksMoveOn(old', ring, rest, j + 1, end);
      } else {
        WalksStayInRing(ring, rest, old'[0], end);
      }
    }
  }

  /** The modules that were left behind never come around again; the one that moved does. */
  lemma LeftBehindForever(old': seq<ModuleInfo>, ring: seq<ModuleInfo>, x: ModuleInfo)
    requires CutOff(old', ring) && x in old'
    ensures (exists w: seq<ModuleInfo> :: IsWalk(w, x, x)) <==> x == old'[0]
  {
    var j :| 0 <= j < |old'| && old'[j] == x;
    if j == 0 {
      ComesAround(ring, x);
    } else {
      forall w: seq<ModuleInfo> | IsWalk(w, x, x) ensures false {
        WalksMoveOn(old', ring, w, j, x);
      }
    }
  }

  /** Every module of a ring comes around again. */
  lemma ComesAround(ring: seq<ModuleInfo>, x: ModuleInfo)
    requires Ring(ring) && x in ring
    ensures exists w: seq<ModuleInfo> :: IsWalk(w, x, x)
  {
    var i :| 0 <= i < |ring| && ring[i] == x;
    RingHasWalks(ring, i, i);
  }

  /** SWIG_MangledTypeQueryModule: the entry of the first module on the walk that has the name. */
  method Query(start: ModuleInfo, end: ModuleInfo, name: string, ghost walk: seq<ModuleInfo>) returns (t: TypeInfo?)
    requires IsWalk(walk, start, end) && forall m | m in walk :: Sorted(m.types)
    ensures t == null <==> forall m | m in walk :: !Has(m.types, name)
    ensures t != null ==>
              && t.name == name
              && exists k :: 0 <= k < |walk| && t in walk[k].types && forall j | 0 <= j < k :: !Has(walk[j].types, name)
  {
    var iter := start;
    ghost var k := 0;
    while true
      invariant 0 <= k < |walk| && iter == walk[k]
      invariant forall j | 0 <= j < k :: !Has(walk[j].types, name)
      decreases |walk| - k
    {
      assert iter in walk;
      t := Search(iter.types, name);
      if t != null {
        return;
      }
      k := k + 1;
      assert k < |walk| ==> walk[k - 1].next == walk[k] && walk[k] != end;
      iter := iter.next;
      if iter == end {
        break;
      }
    }
    assert k == |walk|;
    t := null;
  }

  // ---------------------------------------------------------------- loading a module

  /** An interpreter knows its modules by one of them. */
  class Interpreter {
    var head: ModuleInfo?
    ghost var ring: seq<ModuleInfo>

    constructor ()
      ensures Valid() && ring == []
    {
      head := null;
      ring := [];
    }

    ghost predicate Valid()
      reads this, ring
    {
      && (head == null <==> ring == [])
      && (head != null ==> ring[0] == head && Ring(ring))
      && forall m | m in ring :: Sorted(m.types)
    }

    /** Is the module on the ring already? The walk of SWIG_InitializeModule. */
    method Contains(m: ModuleInfo) returns (found: bool)
      requires Valid() && head != null
      ensures found <==> m in ring
    {
      var iter := head;
      ghost var k := 0;
      while true
        invariant 0 <= k < |ring| && iter == ring[k]
        invariant forall j | 0 <= j < k :: ring[j] != m
        decreases |ring| - k
      {
        if iter == m {
          return true;
        }
        iter := iter.next;
        k := k + 1;
        assert k < |ring| ==> iter == ring[k] && ring[k] != ring[0];
        if iter == head {
          break;
        }
      }
      return false;
    }

    /** The ring part of SWIG_InitializeModule for a module that is not on the ring. */
    method LinkIn(m: ModuleInfo, ghost other: seq<ModuleInfo>)
      requires Valid() && m !in ring && ComesFrom(m, other)
      modifies this, m`next, (set x | x in ring)`next
      ensures ring == Loaded(old(ring), m, other) && (ring != [] ==> Ring(ring) && head == ring[0])
      ensures head == if old(ring) == [] then m else old(head)
    {
      if m.next == null {
        m.next := m;
      }
      if head == null {
        head := m;
        ring := other;
      } else {
        m.next := head.next;
        head.next := m;
        ring := [ring[0], m] + ring[1..];
        assert forall i | 2 <= i < |ring| :: ring[i] == old(ring)[i - 1];
      }
    }

    /** The table of a new module: a type that some loaded module has is taken from there. */
    method FillTypes(m: ModuleInfo, ghost walk: seq<ModuleInfo>)
      requires m.next != null && (if m.next == m then walk == [] else IsWalk(walk, m.next, m)) && m !in walk
      requires forall x | x in walk :: Sorted(x.types)
      requires Sorted(m.typeInitial)
      modifies m`types
      ensures Sorted(m.types) && Resolved(m.types, m.typeInitial, walk)
    {
      hide Less, Has;
      var types: seq<TypeInfo> := [];
      for i := 0 to |m.typeInitial|
        invariant Resolved(types, m.typeInitial[..i], walk)
      {
        assert m.typeInitial[..i + 1][..i] == m.typeInitial[..i];
        var t: TypeInfo? := null;
        if m.next != m {
          t := Query(m.next, m, m.typeInitial[i].name, walk);
        }
        var entry := if t != null then t else m.typeInitial[i];
        assert ResolvesTo(m.typeInitial[i], entry, walk);
        types := types + [entry];
      }
      assert m.typeInitial[..|m.typeInitial|] == m.typeInitial;
      ResolvedIsSorted(types, m.typeInitial, walk);
      m.types := types;
    }

    /** SWIG_InitializeModule, for any module. The modules of the interpreter are a ring afterwards unless
        it had none and the module, left behind by an earlier load, is on no ring; and the table of a
        new module has the names and the order of its initial table. The ring that a module
        comes from survives exactly if this interpreter had no modules or the module was alone
        on its ring; otherwise none of the modules left behind can be walked around any more. */
    method InitializeModule(m: ModuleInfo, ghost other: seq<ModuleInfo>)
      requires Valid() && Sorted(m.typeInitial)
      requires m !in ring ==> ComesFrom(m, other) && (other == [] ==> !exists w: seq<ModuleInfo> :: IsWalk(w, m, m))
      requires m !in ring && m.next != null ==> Sorted(m.types) && forall x | x in other :: Sorted(x.types)
      modifies this, m, (set x | x in ring)`next
      ensures ring == Loaded(old(ring), m, other)
      ensures Valid() <==> old(ring) != [] || other != []
      ensures head == if old(ring) == [] then m else old(head)
      ensures old(m.next) != null ==> m.types == old(m.types)
      ensures old(m.next) == null ==> Resolved(m.types, m.typeInitial, BehindHead(old(ring)))
      ensures m !in old(ring) && old(m.next) != null ==>
                forall x | x in other :: (exists w: seq<ModuleInfo> :: IsWalk(w, x, x)) <==> old(ring) == [] || x == m
      ensures m !in old(ring) && old(m.next) != null && other != [] ==>
                ((forall x | x in other :: exists w: seq<ModuleInfo> :: IsWalk(w, x, x)) <==> old(ring) == [] || other == [m])
    {
      var init := m.next == null;
      if m !in ring && m.next != null && other != [] {
        OtherRingApart(ring, other);
      }
      if head != null {
        var found := Contains(m);
        if found {
          MembersHaveNext(ring, m);
          return;
        }
      }
      LinkIn(m, other);
      if !init {
        if other != [] {
          OldRingFate(old(ring), ring, other, m);
        }
        return;
      }
      NewModuleWalk(old(ring), ring, m);
      FillTypes(m, BehindHead(old(ring)));
    }
  }

  /** Where a module comes from: it is new, or it is the first of the ring it is on, or it is linked but
      on no ring. */
  ghost predicate ComesFrom(m: ModuleInfo, other: seq<ModuleInfo>)
    reads m, other
  {
    if m.next == null then other == [m] else other == [] || (Ring(other) && other[0] == m)
  }

  /** The ring of a foreign module has nothing in common with the interpreter's. */
  lemma OtherRingApart(ring: seq<ModuleInfo>, other: seq<ModuleInfo>)
    requires Ring(other) && other[0] !in ring && (ring == [] || Ring(ring))
    ensures forall x | x in other :: x !in ring
  {
    forall x | x in other ensures x !in ring {
      if x in ring {
        RingsApart(ring, other, x, other[0]);
      }
    }
  }

  /** What has become of the ring of a foreign module m that now is on the interpreter's ring. */
  lemma OldRingFate(ring: seq<ModuleInfo>, ring': seq<ModuleInfo>, other: seq<ModuleInfo>, m: ModuleInfo)
    requires |other| > 0 && other[0] == m && m !in ring && ring' == Loaded(ring, m, other) && Ring(ring')
    requires forall x | x in other :: x !in ring
    requires forall i, j | 0 <= i < j < |other| :: other[i] != other[j]
    requires forall i | 0 < i < |other| :: other[i].next == other[if i + 1 < |other| then i + 1 else 0]
    ensures forall x | x in other :: (exists w: seq<ModuleInfo> :: IsWalk(w, x, x)) <==> ring == [] || x == m
    ensures (forall x | x in other :: exists w: seq<ModuleInfo> :: IsWalk(w, x, x)) <==> ring == [] || other == [m]
  {
    hide IsWalk;
    if ring == [] {
      forall x | x in other ensures exists w: seq<ModuleInfo> :: IsWalk(w, x, x) {
        ComesAround(ring', x);
      }
    } else {
      assert ring'[1] == m;
      assert forall i | 0 <= i < |ring'| :: ring'[i] == m || ring'[i] in ring;
      assert CutOff(other, ring');
      forall x | x in other ensures (exists w: seq<ModuleInfo> :: IsWalk(w, x, x)) <==> x == m {
        LeftBehindForever(other, ring', x);
      }
      assert |other| > 1 ==> other[1] in other && other[1] != m;
    }
  }

  lemma RotatedRing(ms: seq<ModuleInfo>, k: nat)
    requires Ring(ms) && k < |ms|
    ensures Ring(Segment(ms, k, k)) && Segment(ms, k, k)[0] == ms[k] && forall x :: x in Segment(ms, k, k) <==> x in ms
  {
    var w := Segment(ms, k, k);
    assert forall i | 0 <= i < |w| :: w[i] == ms[if k + i < |ms| then k + i else k + i - |ms|];
    assert forall i | 0 <= i < |ms| :: ms[i] == w[if i >= k then i - k else i + |ms| - k];
  }

  /** An interpreter with modules loads a module that another interpreter has, but not as its head: the
      head of the other never comes around again, so that walks from it do not end. */
  method LoadFromOther(a: Interpreter, b: Interpreter, m: ModuleInfo, ghost k: nat)
    requires a != b && a.Valid() && b.Valid() && a.ring != [] && 0 < k < |b.ring| && m == b.ring[k]
    requires m !in a.ring && Sorted(m.typeInitial)
    modifies a, m, (set x | x in a.ring)`next
    ensures a.Valid() && a.ring == Loaded(old(a.ring), m, [m]) && a.head == old(a.head)
    ensures b.head != null && !b.Valid() && !exists w: seq<ModuleInfo> :: IsWalk(w, b.head, b.head)
  {
    hide IsWalk, Less;
    ghost var other := Segment(b.ring, k, k);
    RotatedRing(b.ring, k);
    MembersHaveNext(b.ring, m);
    assert b.head in other && b.head != m;
    a.InitializeModule(m, other);
    if b.Valid() {
      ComesAround(b.ring, b.head);
    }
  }

  /** Two interpreters and three new modules for which that happens: x is loaded by a, then y and m by
      b, then m by a. */
  method LoadingBreaksOtherRing(a: Interpreter, b: Interpreter, x: ModuleInfo, y: ModuleInfo, m: ModuleInfo)
    requires a != b && a.Valid() && b.Valid() && a.ring == [] && b.ring == []
    requires x != y && x != m && y != m && x.next == null && y.next == null && m.next == null
    requires x.typeInitial == [] && y.typeInitial == [] && m.typeInitial == []
    modifies a, b, x, y, m
    ensures a.Valid() && a.ring == [x, m] && a.head == x && x.next == m && m.next == x
    ensures b.ring == [y, m] && b.head == y && y.next == m
    ensures !b.Valid() && !exists w: seq<ModuleInfo> :: IsWalk(w, b.head, b.head)
  {
    hide IsWalk, Less, Resolved;
    a.InitializeModule(x, [x]);
    b.InitializeModule(y, [y]);
    assert b.ring == [y];
    b.InitializeModule(m, [m]);
    assert b.ring == [y, m];
    LoadFromOther(a, b, m, 1);
    assert a.ring == [x, m];
    assert a.ring[0].next == a.ring[1] && a.ring[1].next == a.ring[0];
  }

  lemma MembersHaveNext(ring: seq<ModuleInfo>, m: ModuleInfo)
    requires Ring(ring) && m in ring
    ensures m.next != null
  {
    var i :| 0 <= i < |ring| && ring[i] == m;
    assert ring[i].next == ring[if i + 1 < |ring| then i + 1 else 0];
  }

  /** The modules of a ring in the order in which a module put behind the head sees them. */
  function BehindHead(ring: seq<ModuleInfo>): seq<ModuleInfo> {
    if ring == [] then [] else ring[1..] + ring[..1]
  }

  lemma NewModuleWalk(ring: seq<ModuleInfo>, ring': seq<ModuleInfo>, m: ModuleInfo)
    requires m !in ring && Ring(ring') && ring' == Loaded(ring, m, [m])
    ensures m.next != null && m !in BehindHead(ring)
    ensures if m.next == m then BehindHead(ring) == [] else IsWalk(BehindHead(ring), m.next, m)
  {
    MembersHaveNext(ring', m);
    if ring == [] {
      assert ring'[0].next == ring'[0];
    } else {
      var a := if |ring'| > 2 then 2 else 0;
      assert ring'[1].next == ring'[a];
      assert ring'[0] != ring'[1];
      RingHasWalks(ring', a, 1);
      assert Segment(ring', a, 1) == BehindHead(ring);
    }
  }

  /** The ring after loading m: unchanged, the ring that m brings, or with m right behind the head. */
  ghost function Loaded(ring: seq<ModuleInfo>, m: ModuleInfo, other: seq<ModuleInfo>): seq<ModuleInfo> {
    if m in ring then ring else if ring == [] then other else [ring[0], m] + ring[1..]
  }

  /** The types of a loaded table: same names in the same order, each the entry of the first
      loaded module that has it, and the module's own entry if none has it. */
  ghost predicate Resolved(types: seq<TypeInfo>, initial: seq<TypeInfo>, walk: seq<ModuleInfo>)
    reads walk
  {
    |types| == |initial| && forall i | 0 <= i < |types| :: ResolvesTo(initial[i], types[i], walk)
  }

  ghost predicate ResolvesTo(own: TypeInfo, t: TypeInfo, walk: seq<ModuleInfo>)
    reads walk
  {
    && t.name == own.name
    && if exists x | x in walk :: Has(x.types, own.name) then Offers(walk, t) else t == own
  }

  lemma ResolvedIsSorted(types: seq<TypeInfo>, initial: seq<TypeInfo>, walk: seq<ModuleInfo>)
    requires Resolved(types, initial, walk) && Sorted(initial)
    ensures Sorted(types)
  {
    hide Less, Offers;
    forall i, j | 0 <= i < j < |types| ensures Less(types[i].name, types[j].name) {
      assert ResolvesTo(initial[i], types[i], walk) && ResolvesTo(initial[j], types[j], walk);
    }
  }

  ghost predicate Offers(walk: seq<ModuleInfo>, t: TypeInfo)
    reads walk
  {
    exists k :: 0 <= k < |walk| && t in walk[k].types && forall j | 0 <= j < k :: !Has(walk[j].types, t.name)
  }
}
