/** The two list algorithms that the cluster scan repeats at every level: dropping
    repeated configured entries, and matching listed items against configured ones.
    Both are given as specification functions over prefixes, with the loops of the tool
    proved equal to them and their meaning proved as lemmas. */
module ListDiff {
  import opened Basics

  /** What an item is compared by: its name, followed by the names of some ancestors. */
  type Key = seq<string>

  /** An item as a List RPC reports it. */
  datatype Info = Info(id: nat, key: Key)

  function InfoKey(it: Info): Key {
    it.key
  }

  /** The outcome of matching listed items against configured entries. */
  datatype Diff<E> = Diff(kept: seq<Info>, dropped: seq<Info>, missing: seq<E>)

  ghost function KeysOf<E>(xs: seq<E>, key: E -> Key): set<Key> {
    set i | 0 <= i < |xs| :: key(xs[i])
  }

  ghost predicate Distinct<E>(xs: seq<E>, key: E -> Key) {
    forall i, j | 0 <= i < j < |xs| :: key(xs[i]) != key(xs[j])
  }

  /** Entry i is the first of the list with its key. */
  ghost predicate IsFirst<E>(xs: seq<E>, key: E -> Key, i: nat) {
    i < |xs| && forall j | 0 <= j < i :: key(xs[j]) != key(xs[i])
  }

  predicate NoDup(ids: seq<nat>) {
    forall i, j | 0 <= i < j < |ids| :: ids[i] != ids[j]
  }

  /** Neither list repeats an id and they share none. */
  ghost predicate Apart(a: seq<nat>, b: seq<nat>) {
    NoDup(a) && NoDup(b) && forall x | x in a :: x !in b
  }

  ghost function ToSet(ids: seq<nat>): set<nat> {
    set i | i in ids
  }

  function Ids(infos: seq<Info>): (ids: seq<nat>)
    ensures |ids| == |infos|
    ensures forall i | 0 <= i < |ids| :: ids[i] == infos[i].id
  {
    seq(|infos|, i requires 0 <= i < |infos| => infos[i].id)
  }

  // ---------------------------------------------------------------- removing repeats

  /** acc extended by the entries of xs whose key is not there yet. */
  ghost function Dedup<E>(acc: seq<E>, xs: seq<E>, key: E -> Key): seq<E> {
    if xs == [] then acc
    else
      var r := Dedup(acc, xs[..|xs| - 1], key);
      var e := xs[|xs| - 1];
      if key(e) in KeysOf(r, key) then r else r + [e]
  }

  /** The entries that come first with their key. */
  ghost function Firsts<E>(xs: seq<E>, key: E -> Key): set<E> {
    set i: nat | i < |xs| && IsFirst(xs, key, i) :: xs[i]
  }

  /** Every key survives once: the earlier contents stay, the rest comes first with its key. */
  lemma {:induction false} DedupSpec<E>(acc: seq<E>, xs: seq<E>, key: E -> Key)
    requires Distinct(acc, key)
    ensures Distinct(Dedup(acc, xs, key), key)
    ensures KeysOf(Dedup(acc, xs, key), key) == KeysOf(acc, key) + KeysOf(xs, key)
    ensures forall e | e in Dedup(acc, xs, key) :: e in acc || e in Firsts(xs, key)
    ensures forall e | e in acc :: e in Dedup(acc, xs, key)
  {
    if xs != [] {
      var n := |xs| - 1;
      var pre := xs[..n];
      DedupSpec(acc, pre, key);
      assert xs == pre + [xs[n]];
      KeysOfSnoc(pre, xs[n], key);
      KeysOfSnoc(Dedup(acc, pre, key), xs[n], key);
      FirstsOfSnoc(pre, xs[n], key);
    }
  }

  /** Without earlier contents, exactly the first entry of every key survives. */
  lemma DedupKeepsFirsts<E>(xs: seq<E>, key: E -> Key)
    ensures Distinct(Dedup([], xs, key), key)
    ensures KeysOf(Dedup([], xs, key), key) == KeysOf(xs, key)
    ensures (set e | e in Dedup([], xs, key)) == Firsts(xs, key)
  {
    hide Dedup;
    DedupSpec([], xs, key);
    var r := Dedup([], xs, key);
    forall e | e in Firsts(xs, key) ensures e in r {
      var i: nat :| i < |xs| && IsFirst(xs, key, i) && xs[i] == e;
      assert key(e) in KeysOf(xs, key);
      var j :| 0 <= j < |r| && key(r[j]) == key(e);
      assert r[j] in Firsts(xs, key);
      FirstsDiffer(xs, key, r[j], e);
    }
  }

  lemma FirstsDiffer<E>(xs: seq<E>, key: E -> Key, a: E, b: E)
    requires a in Firsts(xs, key) && b in Firsts(xs, key) && key(a) == key(b)
    ensures a == b
  {
    var i: nat :| i < |xs| && IsFirst(xs, key, i) && xs[i] == a;
    var j: nat :| j < |xs| && IsFirst(xs, key, j) && xs[j] == b;
    assert !(i < j) && !(j < i);
  }

  // ---------------------------------------------------------------- the same entries again

  /** Some of the entries of ys, no key twice. */
  ghost predicate PartOf<E>(xs: seq<E>, ys: seq<E>, key: E -> Key) {
    Distinct(xs, key) && forall e | e in xs :: e in ys
  }

  /** The entries of ys in another order. */
  ghost predicate Rearranges<E>(xs: seq<E>, ys: seq<E>, key: E -> Key) {
    Distinct(xs, key) && (forall e | e in xs :: e in ys) && (forall e | e in ys :: e in xs)
  }

  /** The list begins with ys and goes on with entries of ys. */
  ghost predicate StartsOver<E>(xs: seq<E>, ys: seq<E>) {
    ys <= xs && forall e | e in xs :: e in ys
  }

  /** Removing repeats from a list that was configured again, into what an earlier pass left,
      gives the same entries as the first time. */
  lemma DedupAgain<E>(acc: seq<E>, xs: seq<E>, ys: seq<E>, key: E -> Key)
    requires PartOf(acc, Dedup([], ys, key), key) && StartsOver(xs, ys)
    ensures Rearranges(Dedup(acc, xs, key), Dedup([], ys, key), key)
  {
    hide Dedup;
    DedupSpec(acc, xs, key);
    DedupKeepsFirsts(ys, key);
    var r, w := Dedup(acc, xs, key), Dedup([], ys, key);
    forall e | e in r ensures e in w {
      if e !in acc {
        var i: nat :| i < |xs| && IsFirst(xs, key, i) && xs[i] == e;
        FirstIsEarly(xs, ys, key, i);
        assert ys[i] in Firsts(ys, key);
      }
    }
    forall e | e in w ensures e in r {
      var n :| 0 <= n < |w| && w[n] == e;
      assert key(e) in KeysOf(w, key);
      StartsOverKeys(xs, ys, key);
      var j :| 0 <= j < |r| && key(r[j]) == key(e);
      assert r[j] in w;
      var o :| 0 <= o < |w| && w[o] == r[j];
      assert !(n < o) && !(o < n);
    }
  }

  lemma FirstIsEarly<E>(xs: seq<E>, ys: seq<E>, key: E -> Key, i: nat)
    requires StartsOver(xs, ys) && IsFirst(xs, key, i)
    ensures i < |ys| && ys[i] == xs[i] && IsFirst(ys, key, i)
  {
    assert xs[i] in ys;
    var j :| 0 <= j < |ys| && ys[j] == xs[i];
    assert xs[j] == ys[j];
    assert i <= j;
    assert forall l | 0 <= l <= i :: ys[l] == xs[l];
  }

  lemma StartsOverKeys<E>(xs: seq<E>, ys: seq<E>, key: E -> Key)
    requires StartsOver(xs, ys)
    ensures KeysOf(ys, key) <= KeysOf(xs, key)
  {
    forall q | q in KeysOf(ys, key) ensures q in KeysOf(xs, key) {
      var i :| 0 <= i < |ys| && key(ys[i]) == q;
      assert xs[i] == ys[i];
    }
  }

  /** Entries that one key tells apart are told apart by any key that tells apart the list
      they come from. */
  lemma PartTellsApart<E>(xs: seq<E>, ys: seq<E>, a: E -> Key, b: E -> Key)
    requires PartOf(xs, ys, a) && Distinct(ys, b)
    ensures PartOf(xs, ys, b)
  {
    forall i, j | 0 <= i < j < |xs| ensures b(xs[i]) != b(xs[j]) {
      assert xs[i] in ys && xs[j] in ys;
      var p :| 0 <= p < |ys| && ys[p] == xs[i];
      var q :| 0 <= q < |ys| && ys[q] == xs[j];
      assert a(xs[i]) != a(xs[j]);
      assert p < q || q < p;
    }
  }

  lemma RearrangedKeys<E>(xs: seq<E>, ys: seq<E>, a: E -> Key, b: E -> Key)
    requires Rearranges(xs, ys, a) && Distinct(ys, b)
    ensures Distinct(xs, b) && KeysOf(xs, b) == KeysOf(ys, b)
  {
    PartTellsApart(xs, ys, a, b);
    forall q | q in KeysOf(ys, b) ensures q in KeysOf(xs, b) {
      var i :| 0 <= i < |ys| && b(ys[i]) == q;
      assert ys[i] in xs;
    }
    forall q | q in KeysOf(xs, b) ensures q in KeysOf(ys, b) {
      var i :| 0 <= i < |xs| && b(xs[i]) == q;
      assert xs[i] in ys;
    }
  }

  lemma FirstsOfSnoc<E>(xs: seq<E>, e: E, key: E -> Key)
    ensures Firsts(xs + [e], key) == Firsts(xs, key) + if key(e) in KeysOf(xs, key) then {} else {e}
  {
    var ys := xs + [e];
    assert forall i: nat | i < |xs| :: ys[i] == xs[i];
    assert forall i: nat | i < |xs| :: IsFirst(ys, key, i) <==> IsFirst(xs, key, i);
    assert IsFirst(ys, key, |xs|) <==> key(e) !in KeysOf(xs, key);
    forall x | x in Firsts(xs, key) ensures x in Firsts(ys, key) {
      var i: nat :| i < |xs| && IsFirst(xs, key, i) && xs[i] == x;
      assert ys[i] == x && IsFirst(ys, key, i);
    }
    assert key(e) !in KeysOf(xs, key) ==> ys[|xs|] in Firsts(ys, key);
  }

  lemma KeysOfSnoc<E>(xs: seq<E>, e: E, key: E -> Key)
    ensures KeysOf(xs + [e], key) == KeysOf(xs, key) + {key(e)}
  {
    var ys := xs + [e];
    assert forall i | 0 <= i < |xs| :: ys[i] == xs[i];
    assert ys[|xs|] == e;
    forall k | k in KeysOf(xs, key) ensures k in KeysOf(ys, key) {
      var i :| 0 <= i < |xs| && key(xs[i]) == k;
      assert key(ys[i]) == k;
    }
  }

  method RemoveRepeats<E>(acc: seq<E>, xs: seq<E>, key: E -> Key) returns (r: seq<E>)
    ensures r == Dedup(acc, xs, key)
  {
    r := acc;
    for n := 0 to |xs|
      invariant r == Dedup(acc, xs[..n], key)
    {
      assert xs[..n + 1][..n] == xs[..n];
      var i := FirstWith(r, key, key(xs[n]));
      assert i < |r| <==> key(xs[n]) in KeysOf(r, key);
      if i == |r| {
        r := r + [xs[n]];
      }
    }
    assert xs[..|xs|] == xs;
  }

  // ---------------------------------------------------------------- matching

  function Without<E>(xs: seq<E>, i: nat): seq<E>
    requires i < |xs|
  {
    xs[..i] + xs[i + 1..]
  }

  function MatchStep<E>(d: Diff<E>, info: Info, key: E -> Key, pinned: Key -> bool): Diff<E> {
    var i := FirstWith(d.missing, key, info.key);
    if pinned(info.key) then d.(kept := d.kept + [info])
    else if i < |d.missing| then d.(kept := d.kept + [info], missing := Without(d.missing, i))
    else d.(dropped := d.dropped + [info])
  }

  /** Items in listing order: a pinned item is kept, an item that finds an unclaimed
      configured entry claims it and is kept, any other item is dropped. */
  ghost function Match<E>(infos: seq<Info>, want: seq<E>, key: E -> Key, pinned: Key -> bool): Diff<E> {
    if infos == [] then Diff([], [], want)
    else MatchStep(Match(infos[..|infos| - 1], want, key, pinned), infos[|infos| - 1], key, pinned)
  }

  method MatchListed<E>(infos: seq<Info>, want: seq<E>, key: E -> Key, pinned: Key -> bool)
    returns (d: Diff<E>)
    ensures d == Match(infos, want, key, pinned)
  {
    var kept, dropped, missing := [], [], want;
    for n := 0 to |infos|
      invariant Diff(kept, dropped, missing) == Match(infos[..n], want, key, pinned)
    {
      assert infos[..n + 1][..n] == infos[..n];
      var it := infos[n];
      if pinned(it.key) {
        kept := kept + [it];
      } else {
        var ix := FirstWith(missing, key, it.key);
        if ix < |missing| {
          missing := missing[..ix] + missing[ix + 1..];
          kept := kept + [it];
        } else {
          dropped := dropped + [it];
        }
      }
    }
    assert infos[..|infos|] == infos;
    d := Diff(kept, dropped, missing);
  }

  /** Keys claimed by kept items. */
  ghost function Claimed(kept: seq<Info>, pinned: Key -> bool): set<Key> {
    set i | 0 <= i < |kept| && !pinned(kept[i].key) :: kept[i].key
  }

  /** Item n is kept: it is pinned, or it is the first listed item with a wanted key. */
  ghost predicate Keeps<E>(infos: seq<Info>, want: seq<E>, key: E -> Key, pinned: Key -> bool, n: nat)
    requires n < |infos|
  {
    pinned(infos[n].key) ||
    (infos[n].key in KeysOf(want, key) && forall m | 0 <= m < n :: infos[m].key != infos[n].key)
  }

  /** Claimed are the wanted keys that are listed; missing is what was not claimed. */
  lemma {:induction false} MatchMissing<E>(infos: seq<Info>, want: seq<E>, key: E -> Key, pinned: Key -> bool)
    requires Distinct(want, key)
    ensures var d := Match(infos, want, key, pinned);
            && Distinct(d.missing, key)
            && KeysOf(d.missing, key) == KeysOf(want, key) - Claimed(d.kept, pinned)
            && (forall k :: k in Claimed(d.kept, pinned) <==>
                              k in KeysOf(want, key) && !pinned(k) && k in KeysOf(infos, InfoKey))
            && forall e :: e in d.missing ==> e in want
  {
    if infos != [] {
      var n := |infos| - 1;
      var pre := infos[..n];
      MatchMissing(pre, want, key, pinned);
      var d := Match(pre, want, key, pinned);
      var it := infos[n];
      var i := FirstWith(d.missing, key, it.key);
      assert i < |d.missing| <==> it.key in KeysOf(d.missing, key);
      ClaimedSnoc(d.kept, it, pinned);
      assert infos == pre + [it];
      KeysOfSnoc(pre, it, InfoKey);
      if !pinned(it.key) && i < |d.missing| {
        KeysOfWithout(d.missing, key, i);
      }
    }
  }

  lemma ClaimedSnoc(kept: seq<Info>, it: Info, pinned: Key -> bool)
    ensures Claimed(kept + [it], pinned) == Claimed(kept, pinned) + if pinned(it.key) then {} else {it.key}
  {
    var ks := kept + [it];
    assert forall i | 0 <= i < |kept| :: ks[i] == kept[i];
    assert ks[|kept|] == it;
    forall k | k in Claimed(kept, pinned) ensures k in Claimed(ks, pinned) {
      var i :| 0 <= i < |kept| && !pinned(kept[i].key) && kept[i].key == k;
      assert ks[i].key == k;
    }
  }

  lemma KeysOfWithout<E>(xs: seq<E>, key: E -> Key, i: nat)
    requires i < |xs| && Distinct(xs, key)
    ensures Distinct(Without(xs, i), key)
    ensures KeysOf(Without(xs, i), key) == KeysOf(xs, key) - {key(xs[i])}
  {
    var ys := Without(xs, i);
    assert forall j | 0 <= j < |ys| :: ys[j] == if j < i then xs[j] else xs[j + 1];
    forall k | k in KeysOf(xs, key) && k != key(xs[i]) ensures k in KeysOf(ys, key) {
      var j :| 0 <= j < |xs| && key(xs[j]) == k;
      assert j != i;
      assert key(ys[if j < i then j else j - 1]) == k;
    }
  }

  /** Every listed item is kept or dropped, exactly as Keeps says. */
  lemma {:induction false} MatchKeeps<E>(infos: seq<Info>, want: seq<E>, key: E -> Key, pinned: Key -> bool)
    requires Distinct(want, key)
    ensures var d := Match(infos, want, key, pinned);
            && multiset(d.kept) + multiset(d.dropped) == multiset(infos)
            && (forall n: nat | n < |infos| && Keeps(infos, want, key, pinned, n) :: infos[n] in d.kept)
            && (forall n: nat | n < |infos| && !Keeps(infos, want, key, pinned, n) :: infos[n] in d.dropped)
  {
    if infos != [] {
      var n := |infos| - 1;
      var pre, it := infos[..n], infos[n];
      MatchKeeps(pre, want, key, pinned);
      MatchMissing(pre, want, key, pinned);
      var d, d' := Match(pre, want, key, pinned), Match(infos, want, key, pinned);
      assert d' == MatchStep(d, it, key, pinned);
      assert infos == pre + [it];
      KeepsLast(infos, want, key, pinned);
      forall m: nat | m < n
        ensures Keeps(infos, want, key, pinned, m) ==> infos[m] in d'.kept
        ensures !Keeps(infos, want, key, pinned, m) ==> infos[m] in d'.dropped
      {
        KeepsPrefix(infos, want, key, pinned, m);
        assert pre[m] == infos[m];
      }
    }
  }

  /** The verdicts depend on the wanted keys, not on the order of the entries. */
  lemma {:induction false} MatchByKeys<E>(infos: seq<Info>, want: seq<E>, want': seq<E>, key: E -> Key, pinned: Key -> bool)
    requires Distinct(want, key) && Distinct(want', key) && KeysOf(want, key) == KeysOf(want', key)
    ensures Match(infos, want, key, pinned).kept == Match(infos, want', key, pinned).kept
    ensures Match(infos, want, key, pinned).dropped == Match(infos, want', key, pinned).dropped
  {
    if infos != [] {
      var n := |infos| - 1;
      var pre, k := infos[..n], infos[n].key;
      MatchByKeys(pre, want, want', key, pinned);
      MatchMissing(pre, want, key, pinned);
      MatchMissing(pre, want', key, pinned);
      var a, b := Match(pre, want, key, pinned).missing, Match(pre, want', key, pinned).missing;
      assert FirstWith(a, key, k) < |a| <==> k in KeysOf(a, key);
      assert FirstWith(b, key, k) < |b| <==> k in KeysOf(b, key);
    }
  }

  /** No listed item is lost and none is invented. */
  lemma {:induction false} MatchMembers<E>(infos: seq<Info>, want: seq<E>, key: E -> Key, pinned: Key -> bool)
    ensures var d := Match(infos, want, key, pinned);
            forall it :: it in infos <==> it in d.kept || it in d.dropped
  {
    if infos != [] {
      var n := |infos| - 1;
      MatchMembers(infos[..n], want, key, pinned);
      assert infos == infos[..n] + [infos[n]];
    }
  }

  /** No listed item is repeated or both kept and dropped. */
  lemma {:induction false} MatchApart<E>(infos: seq<Info>, want: seq<E>, key: E -> Key, pinned: Key -> bool)
    requires NoDup(Ids(infos))
    ensures var d := Match(infos, want, key, pinned);
            Apart(Ids(d.kept), Ids(d.dropped))
  {
    if infos != [] {
      var n := |infos| - 1;
      var pre, it := infos[..n], infos[n];
      assert Ids(pre) == Ids(infos)[..n];
      MatchApart(pre, want, key, pinned);
      MatchMembers(pre, want, key, pinned);
      var d, d' := Match(pre, want, key, pinned), Match(infos, want, key, pinned);
      FreshToLast(infos);
      IdsOfSubset(d.kept, pre);
      IdsOfSubset(d.dropped, pre);
      ApartSnoc(Ids(d.kept), Ids(d.dropped), it.id);
      assert Ids(d.kept + [it]) == Ids(d.kept) + [it.id];
      assert Ids(d.dropped + [it]) == Ids(d.dropped) + [it.id];
      assert d' == MatchStep(d, it, key, pinned);
    }
  }

  lemma FreshToLast(infos: seq<Info>)
    requires infos != [] && NoDup(Ids(infos))
    ensures infos[|infos| - 1].id !in Ids(infos[..|infos| - 1])
  {
    assert Ids(infos[..|infos| - 1]) == Ids(infos)[..|infos| - 1];
  }

  lemma IdsOfSubset(a: seq<Info>, b: seq<Info>)
    requires forall x | x in a :: x in b
    ensures forall i | i in Ids(a) :: i in Ids(b)
  {
    forall i | i in Ids(a) ensures i in Ids(b) {
      var n :| 0 <= n < |a| && a[n].id == i;
      assert a[n] in b;
      var m :| 0 <= m < |b| && b[m] == a[n];
      assert Ids(b)[m] == i;
    }
  }

  lemma NoDupConcat(a: seq<nat>, b: seq<nat>)
    requires Apart(a, b)
    ensures NoDup(a + b)
  {
    var ab := a + b;
    assert forall i | 0 <= i < |ab| :: ab[i] in if i < |a| then a else b;
  }

  lemma ApartSnoc(a: seq<nat>, b: seq<nat>, x: nat)
    requires Apart(a, b) && x !in a && x !in b
    ensures Apart(a + [x], b) && Apart(a, b + [x])
  {
  }

  /** A kept item is pinned or wanted and shares a wanted key with no other kept item; a
      dropped item is unwanted or a kept item carries its key. */
  lemma MatchVerdicts<E>(infos: seq<Info>, want: seq<E>, key: E -> Key, pinned: Key -> bool)
    requires Distinct(want, key) && NoDup(Ids(infos))
    ensures var d := Match(infos, want, key, pinned);
            && (forall a | a in d.kept :: pinned(a.key) || a.key in KeysOf(want, key))
            && (forall a, b | a in d.kept && b in d.kept && a.key == b.key :: a == b || pinned(a.key))
            && (forall a | a in d.dropped :: !pinned(a.key))
            && (forall a | a in d.dropped && a.key in KeysOf(want, key) :: exists b :: b in d.kept && b.key == a.key)
  {
    hide Match, NoDup;
    var d := Match(infos, want, key, pinned);
    MatchMissing(infos, want, key, pinned);
    MatchMembers(infos, want, key, pinned);
    forall n: nat | n < |infos|
      ensures infos[n] in d.kept ==> Keeps(infos, want, key, pinned, n)
      ensures infos[n] in d.dropped ==> !Keeps(infos, want, key, pinned, n)
    {
      KeptIffKeeps(infos, want, key, pinned, n);
    }
    forall a | a in d.dropped && a.key in KeysOf(want, key) ensures exists b :: b in d.kept && b.key == a.key {
      var n :| 0 <= n < |infos| && infos[n] == a;
      assert InfoKey(infos[n]) in KeysOf(infos, InfoKey);
      assert a.key in Claimed(d.kept, pinned);
      var i :| 0 <= i < |d.kept| && d.kept[i].key == a.key;
      assert d.kept[i] in d.kept;
    }
  }

  lemma KeptIffKeeps<E>(infos: seq<Info>, want: seq<E>, key: E -> Key, pinned: Key -> bool, n: nat)
    requires Distinct(want, key) && NoDup(Ids(infos)) && n < |infos|
    ensures var d := Match(infos, want, key, pinned);
            && (infos[n] in d.kept <==> Keeps(infos, want, key, pinned, n))
            && (infos[n] in d.dropped <==> !Keeps(infos, want, key, pinned, n))
  {
    hide Match, NoDup;
    var d := Match(infos, want, key, pinned);
    MatchApart(infos, want, key, pinned);
    MatchKeeps(infos, want, key, pinned);
    if infos[n] in d.kept && infos[n] in d.dropped {
      IdOfMember(d.kept, infos[n]);
      IdOfMember(d.dropped, infos[n]);
    }
  }

  lemma IdOfMember(infos: seq<Info>, it: Info)
    requires it in infos
    ensures it.id in Ids(infos)
  {
    var n :| 0 <= n < |infos| && infos[n] == it;
    assert Ids(infos)[n] == it.id;
  }

  lemma KeepsPrefix<E>(infos: seq<Info>, want: seq<E>, key: E -> Key, pinned: Key -> bool, m: nat)
    requires m < |infos| - 1
    ensures Keeps(infos, want, key, pinned, m) <==> Keeps(infos[..|infos| - 1], want, key, pinned, m)
  {
    var pre := infos[..|infos| - 1];
    assert forall l | 0 <= l <= m :: pre[l] == infos[l];
  }

  /** The last item is kept exactly when it is pinned or still finds its entry. */
  lemma KeepsLast<E>(infos: seq<Info>, want: seq<E>, key: E -> Key, pinned: Key -> bool)
    requires infos != [] && Distinct(want, key)
    ensures var n := |infos| - 1;
            var missing := Match(infos[..n], want, key, pinned).missing;
            Keeps(infos, want, key, pinned, n) <==>
            pinned(infos[n].key) || FirstWith(missing, key, infos[n].key) < |missing|
  {
    var n := |infos| - 1;
    var pre, k := infos[..n], infos[n].key;
    MatchMissing(pre, want, key, pinned);
    var missing := Match(pre, want, key, pinned).missing;
    assert FirstWith(missing, key, k) < |missing| <==> k in KeysOf(missing, key);
    assert forall m | 0 <= m < n :: infos[m] == pre[m];
    assert k in KeysOf(pre, InfoKey) <==> exists m :: 0 <= m < n && infos[m].key == k;
  }

  // ---------------------------------------------------------------- listing less

  /** The ids that are still there, in their order. */
  ghost function Still(ids: seq<nat>, there: set<nat>): seq<nat> {
    if ids == [] then []
    else
      var pre := Still(ids[..|ids| - 1], there);
      if ids[|ids| - 1] in there then pre + [ids[|ids| - 1]] else pre
  }

  lemma {:induction false} StillAll(ids: seq<nat>, there: set<nat>)
    requires forall x | x in ids :: x in there
    ensures Still(ids, there) == ids
  {
    if ids != [] {
      var n := |ids| - 1;
      assert ids == ids[..n] + [ids[n]];
      StillAll(ids[..n], there);
    }
  }

  lemma {:induction false} StillOfConcat(a: seq<nat>, b: seq<nat>, there: set<nat>)
    ensures Still(a + b, there) == Still(a, there) + Still(b, there)
  {
    if b == [] {
      assert a + b == a;
    } else {
      var n := |b| - 1;
      assert (a + b)[..|a + b| - 1] == a + b[..n];
      StillOfConcat(a, b[..n], there);
    }
  }

  /** The listed items that are still there. */
  ghost function ListedStill(infos: seq<Info>, there: set<nat>): seq<Info> {
    if infos == [] then []
    else
      var pre := ListedStill(infos[..|infos| - 1], there);
      if infos[|infos| - 1].id in there then pre + [infos[|infos| - 1]] else pre
  }

  lemma {:induction false} KeptEarly<E>(infos: seq<Info>, n: nat, want: seq<E>, key: E -> Key, pinned: Key -> bool)
    requires n <= |infos|
    ensures forall it | it in Match(infos[..n], want, key, pinned).kept :: it in Match(infos, want, key, pinned).kept
    decreases |infos|
  {
    if n == |infos| {
      assert infos[..n] == infos;
    } else {
      var pre := infos[..|infos| - 1];
      assert pre[..n] == infos[..n];
      KeptEarly(pre, n, want, key, pinned);
    }
  }

  /** When items that are not kept are listed no more, the same items are kept and the same entries
      are missing. */
  lemma {:induction false} MatchListedLess<E>(infos: seq<Info>, there: set<nat>, want: seq<E>, key: E -> Key, pinned: Key -> bool)
    requires forall it | it in Match(infos, want, key, pinned).kept :: it.id in there
    ensures Match(ListedStill(infos, there), want, key, pinned).kept == Match(infos, want, key, pinned).kept
    ensures Match(ListedStill(infos, there), want, key, pinned).missing == Match(infos, want, key, pinned).missing
  {
    if infos != [] {
      var n := |infos| - 1;
      var pre, it := infos[..n], infos[n];
      KeptEarly(infos, n, want, key, pinned);
      MatchListedLess(pre, there, want, key, pinned);
      var less := ListedStill(pre, there);
      if it.id in there {
        assert (less + [it])[..|less|] == less;
      } else {
        assert it !in Match(infos, want, key, pinned).kept;
      }
    }
  }
}
