/** The scan before logical pools are created: configured pools that the MDS already lists
    are erased. The inner loop of the scan moves on only when it finds a match. */
module LogicalPoolScan {
  import opened Basics

  datatype LogicalPoolData = LogicalPoolData(name: string, physicalPoolName: string)

  function Names(datas: seq<LogicalPoolData>): (r: seq<string>)
    ensures |r| == |datas| && forall i | 0 <= i < |r| :: r[i] == datas[i].name
  {
    seq(|datas|, i requires 0 <= i < |datas| => datas[i].name)
  }

  function NameOf(d: LogicalPoolData): string { d.name }

  /** The first configured pool with the name, or the end. */
  function Find(datas: seq<LogicalPoolData>, name: string): nat {
    FirstWith(datas, NameOf, name)
  }

  function Erase(datas: seq<LogicalPoolData>, i: nat): seq<LogicalPoolData>
    requires i < |datas|
  {
    datas[..i] + datas[i + 1..]
  }

  // ---------------------------------------------------------------- the loop, turn by turn

  /** The configured pools that are left and the listed names that the iterator has not passed. */
  datatype LoopState = LoopState(datas: seq<LogicalPoolData>, listed: seq<string>)

  /** One turn of the inner loop; without a match nothing changes, the iterator included. */
  function Turn(s: LoopState): LoopState {
    if s.listed == [] then s
    else
      var i := Find(s.datas, s.listed[0]);
      if i < |s.datas| then LoopState(Erase(s.datas, i), s.listed[1..]) else s
  }

  function Turns(s: LoopState, n: nat): LoopState
    decreases n
  {
    if n == 0 then s else Turns(Turn(s), n - 1)
  }

  ghost predicate Terminates(s: LoopState) {
    exists n: nat :: Turns(s, n).listed == []
  }

  /** Every listed name still finds a configured entry of its own. */
  ghost predicate Covered(s: LoopState) {
    multiset(s.listed) <= multiset(Names(s.datas))
  }

  lemma NamesOfErase(datas: seq<LogicalPoolData>, i: nat)
    requires i < |datas|
    ensures multiset(Names(Erase(datas, i))) == multiset(Names(datas)) - multiset{datas[i].name}
  {
    var a, b := Names(datas[..i]), Names(datas[i + 1..]);
    assert Names(Erase(datas, i)) == a + b;
    assert Names(datas) == a + [datas[i].name] + b;
  }

  lemma FoundIffNamed(datas: seq<LogicalPoolData>, name: string)
    ensures Find(datas, name) < |datas| <==> name in multiset(Names(datas))
  {
    var i := Find(datas, name);
    assert i < |datas| ==> Names(datas)[i] == name;
  }

  /** A turn that finds a match keeps coverage, in both directions, and takes one listed name. */
  lemma TurnKeepsCovered(s: LoopState)
    requires s.listed != [] && Find(s.datas, s.listed[0]) < |s.datas|
    ensures Covered(s) <==> Covered(Turn(s))
    ensures |Turn(s).listed| == |s.listed| - 1
  {
    var i := Find(s.datas, s.listed[0]);
    NamesOfErase(s.datas, i);
    FoundIffNamed(s.datas, s.listed[0]);
    assert s.listed == [s.listed[0]] + s.listed[1..];
    var l, m, x := multiset(s.listed[1..]), multiset(Names(s.datas)), multiset{s.listed[0]};
    assert multiset(s.listed) == x + l;
    assert x + l <= m <==> l <= m - x by {
      if x + l <= m {
        assert forall e :: l[e] <= (m - x)[e];
      }
      if l <= m - x {
        assert forall e :: (x + l)[e] <= m[e];
      }
    }
  }

  lemma {:induction false} StuckForever(s: LoopState, n: nat)
    requires Turn(s) == s
    ensures Turns(s, n) == s
  {
    if n > 0 {
      StuckForever(s, n - 1);
    }
  }

  /** The loop ends exactly when the listed names, with repetitions, are among the configured
      names; otherwise it turns forever. */
  lemma {:induction false} TerminatesIffCovered(s: LoopState)
    ensures Terminates(s) <==> Covered(s)
    decreases |s.listed|
  {
    if s.listed == [] {
      assert Turns(s, 0).listed == [];
    } else if Find(s.datas, s.listed[0]) < |s.datas| {
      var t := Turn(s);
      TurnKeepsCovered(s);
      TerminatesIffCovered(t);
      if Terminates(t) {
        var n: nat :| Turns(t, n).listed == [];
        assert Turns(s, n + 1).listed == [];
      }
      if Terminates(s) {
        var n: nat :| Turns(s, n).listed == [];
        assert n > 0;
        assert Turns(t, n - 1).listed == [];
      }
    } else {
      FoundIffNamed(s.datas, s.listed[0]);
      assert multiset(s.listed)[s.listed[0]] > 0;
      forall n: nat ensures Turns(s, n).listed != [] {
        StuckForever(s, n);
      }
    }
  }

  // ---------------------------------------------------------------- the scan

  /** The configured pools that remain when the listed names are covered. */
  ghost function Remaining(datas: seq<LogicalPoolData>, listed: seq<string>): seq<LogicalPoolData>
    decreases |listed|
  {
    if listed == [] then datas
    else
      var i := Find(datas, listed[0]);
      Remaining(if i < |datas| then Erase(datas, i) else datas, listed[1..])
  }

  /** The configured pools whose name is not listed, in their order. */
  ghost function Unlisted(datas: seq<LogicalPoolData>, listed: set<string>): seq<LogicalPoolData> {
    if datas == [] then []
    else (if datas[0].name in listed then [] else [datas[0]]) + Unlisted(datas[1..], listed)
  }

  ghost predicate DistinctNames(datas: seq<LogicalPoolData>) {
    forall i, j | 0 <= i < j < |datas| :: datas[i].name != datas[j].name
  }

  ghost function NameSet(listed: seq<string>): set<string> {
    set x | x in listed
  }

  lemma {:induction false} UnlistedAfterErase(datas: seq<LogicalPoolData>, i: nat, listed: set<string>)
    requires i < |datas| && DistinctNames(datas)
    ensures Unlisted(Erase(datas, i), listed) == Unlisted(datas, listed + {datas[i].name})
  {
    if i == 0 {
      assert Erase(datas, 0) == datas[1..];
      OtherNamesStay(datas[1..], listed, datas[0].name);
    } else {
      UnlistedAfterErase(datas[1..], i - 1, listed);
      assert Erase(datas, i) == [datas[0]] + Erase(datas[1..], i - 1);
    }
  }

  lemma {:induction false} OtherNamesStay(datas: seq<LogicalPoolData>, listed: set<string>, name: string)
    requires forall i | 0 <= i < |datas| :: datas[i].name != name
    ensures Unlisted(datas, listed) == Unlisted(datas, listed + {name})
  {
    if datas != [] {
      OtherNamesStay(datas[1..], listed, name);
    }
  }

  lemma {:induction false} NothingListed(datas: seq<LogicalPoolData>)
    ensures Unlisted(datas, {}) == datas
  {
    if datas != [] {
      NothingListed(datas[1..]);
    }
  }

  /** With distinct configured names the scan leaves exactly the pools that are not listed. */
  lemma {:induction false} RemainingAreUnlisted(datas: seq<LogicalPoolData>, listed: seq<string>)
    requires DistinctNames(datas)
    ensures Remaining(datas, listed) == Unlisted(datas, NameSet(listed))
    decreases |listed|
  {
    if listed == [] {
      NothingListed(datas);
      assert NameSet(listed) == {};
    } else {
      var i := Find(datas, listed[0]);
      var rest := NameSet(listed[1..]);
      assert listed == [listed[0]] + listed[1..];
      assert NameSet(listed) == rest + {listed[0]};
      if i < |datas| {
        RemainingAreUnlisted(Erase(datas, i), listed[1..]);
        UnlistedAfterErase(datas, i, rest);
      } else {
        RemainingAreUnlisted(datas, listed[1..]);
        OtherNamesStay(datas, rest, listed[0]);
      }
    }
  }

  lemma {:induction false} RemainingOfConcat(datas: seq<LogicalPoolData>, a: seq<string>, b: seq<string>)
    ensures Remaining(datas, a + b) == Remaining(Remaining(datas, a), b)
    decreases |a|
  {
    if a == [] {
      assert a + b == b;
    } else {
      var i := Find(datas, a[0]);
      assert (a + b)[1..] == a[1..] + b;
      RemainingOfConcat(if i < |datas| then Erase(datas, i) else datas, a[1..], b);
    }
  }

  /** What a ListLogicalPool RPC brings. */
  datatype Listing = Failed | Listed(names: seq<string>)

  /** All names listed before the first failed RPC. */
  ghost function NamesListed(listings: seq<Listing>): seq<string> {
    if listings == [] || listings[0].Failed? then [] else listings[0].names + NamesListed(listings[1..])
  }

  // ---------------------------------------------------------------- the whole scan, turn by turn

  /** The inner loop at work and the listings to come. */
  datatype ScanState = ScanState(loop: LoopState, todo: seq<Listing>)

  predicate ScanOver(s: ScanState) {
    s.loop.listed == [] && (s.todo == [] || s.todo[0].Failed?)
  }

  /** A turn of the inner loop, or the next listing. */
  function ScanTurn(s: ScanState): ScanState {
    if s.loop.listed != [] then s.(loop := Turn(s.loop))
    else if ScanOver(s) then s
    else ScanState(LoopState(s.loop.datas, s.todo[0].names), s.todo[1..])
  }

  function ScanTurns(s: ScanState, n: nat): ScanState
    decreases n
  {
    if n == 0 then s else ScanTurns(ScanTurn(s), n - 1)
  }

  ghost predicate ScanEnds(s: ScanState) {
    exists n: nat :: ScanOver(ScanTurns(s, n))
  }

  lemma EndsAfterTurn(s: ScanState)
    requires !ScanOver(s)
    ensures ScanEnds(s) <==> ScanEnds(ScanTurn(s))
  {
    if ScanEnds(ScanTurn(s)) {
      var n: nat :| ScanOver(ScanTurns(ScanTurn(s), n));
      assert ScanOver(ScanTurns(s, n + 1));
    }
    if ScanEnds(s) {
      var n: nat :| ScanOver(ScanTurns(s, n));
      assert n > 0;
      assert ScanOver(ScanTurns(ScanTurn(s), n - 1));
    }
  }

  lemma {:induction false} ScanStuckForever(s: ScanState, n: nat)
    requires ScanTurn(s) == s
    ensures ScanTurns(s, n) == s
  {
    if n > 0 {
      ScanStuckForever(s, n - 1);
    }
  }

  /** The names that the scan has yet to erase, all listings together. */
  ghost function Pending(s: ScanState): LoopState {
    LoopState(s.loop.datas, s.loop.listed + NamesListed(s.todo))
  }

  /** The scan over all listings ends exactly when the names listed before the first failure, with
      repetitions, are among the configured names. */
  lemma {:induction false} ScanEndsIffCovered(s: ScanState)
    ensures ScanEnds(s) <==> Covered(Pending(s))
    decreases |s.todo|, |s.loop.listed|
  {
    hide Covered, Find;
    if ScanOver(s) {
      assert ScanOver(ScanTurns(s, 0));
      assert Pending(s).listed == [];
      CoveredByNothing(Pending(s));
    } else if s.loop.listed == [] {
      EndsAfterTurn(s);
      ScanEndsIffCovered(ScanTurn(s));
      assert Pending(s) == Pending(ScanTurn(s));
    } else {
      var all := Pending(s);
      assert all.listed[0] == s.loop.listed[0] && all.listed[1..] == s.loop.listed[1..] + NamesListed(s.todo);
      if Find(s.loop.datas, s.loop.listed[0]) < |s.loop.datas| {
        TurnKeepsCovered(all);
        EndsAfterTurn(s);
        ScanEndsIffCovered(ScanTurn(s));
        assert Pending(ScanTurn(s)) == Turn(all);
      } else {
        if Covered(all) {
          CoveredIsFound(all);
        }
        forall n: nat ensures !ScanOver(ScanTurns(s, n)) {
          ScanStuckForever(s, n);
        }
      }
    }
  }

  lemma CoveredByNothing(s: LoopState)
    requires s.listed == []
    ensures Covered(s)
  {
  }

  class LogicalPoolTool {
    var lgPoolDatas: seq<LogicalPoolData>

    constructor (datas: seq<LogicalPoolData>)
      ensures lgPoolDatas == datas
    {
      lgPoolDatas := datas;
    }

    /** One physical pool: the loop that erases what is listed. */
    method EraseListed(listed: seq<string>, ghost more: seq<string>)
      requires Covered(LoopState(lgPoolDatas, listed + more))
      modifies this
      ensures lgPoolDatas == Remaining(old(lgPoolDatas), listed)
      ensures Covered(LoopState(lgPoolDatas, more))
    {
      hide Covered, Find, Remaining;
      var it := 0;
      assert listed[0..] == listed;
      while it < |listed|
        invariant it <= |listed|
        invariant Remaining(lgPoolDatas, listed[it..]) == Remaining(old(lgPoolDatas), listed)
        invariant Covered(LoopState(lgPoolDatas, listed[it..] + more))
      {
        var ix := Find(lgPoolDatas, listed[it]);
        OneErased(lgPoolDatas, listed, it, more);
        lgPoolDatas := Erase(lgPoolDatas, ix);
        it := it + 1;
      }
      NoneLeft(lgPoolDatas, listed, more);
    }

    /** The whole scan, one listing per physical pool. It needs the listed names to be covered:
        on anything else the loop above would not end. */
    method ScanLogicalPool(listings: seq<Listing>) returns (ret: int)
      requires Covered(LoopState(lgPoolDatas, NamesListed(listings)))
      modifies this
      ensures lgPoolDatas == Remaining(old(lgPoolDatas), NamesListed(listings))
      ensures DistinctNames(old(lgPoolDatas)) ==>
                lgPoolDatas == Unlisted(old(lgPoolDatas), NameSet(NamesListed(listings)))
      ensures ret == 0 <==> forall l | l in listings :: l.Listed?
    {
      hide Covered, Remaining, Unlisted, DistinctNames;
      ret := 0;
      var n := 0;
      assert listings[0..] == listings;
      if DistinctNames(lgPoolDatas) {
        RemainingAreUnlisted(lgPoolDatas, NamesListed(listings));
      }
      while n < |listings|
        invariant n <= |listings|
        invariant Covered(LoopState(lgPoolDatas, NamesListed(listings[n..])))
        invariant Remaining(lgPoolDatas, NamesListed(listings[n..])) == Remaining(old(lgPoolDatas), NamesListed(listings))
        invariant forall i | 0 <= i < n :: listings[i].Listed?
      {
        if listings[n].Failed? {
          assert listings[n..][0] == listings[n];
          assert listings[n] in listings;
          NothingToErase(lgPoolDatas);
          return -2;
        }
        ghost var rest := NamesListed(listings[n + 1..]);
        assert listings[n..][0] == listings[n] && listings[n..][1..] == listings[n + 1..];
        RemainingOfConcat(lgPoolDatas, listings[n].names, rest);
        EraseListed(listings[n].names, rest);
        n := n + 1;
      }
      assert listings[n..] == [];
      NothingToErase(lgPoolDatas);
    }
  }

  lemma NothingToErase(datas: seq<LogicalPoolData>)
    ensures Remaining(datas, []) == datas
  {
  }

  lemma OneErased(datas: seq<LogicalPoolData>, listed: seq<string>, it: nat, more: seq<string>)
    requires it < |listed| && Covered(LoopState(datas, listed[it..] + more))
    ensures Find(datas, listed[it]) < |datas|
    ensures Covered(LoopState(Erase(datas, Find(datas, listed[it])), listed[it + 1..] + more))
    ensures Remaining(datas, listed[it..]) == Remaining(Erase(datas, Find(datas, listed[it])), listed[it + 1..])
  {
    hide Covered, Find;
    var s := LoopState(datas, listed[it..] + more);
    assert s.listed[0] == listed[it] && s.listed[1..] == listed[it + 1..] + more;
    assert listed[it..][1..] == listed[it + 1..];
    CoveredIsFound(s);
    TurnKeepsCovered(s);
  }

  lemma NoneLeft(datas: seq<LogicalPoolData>, listed: seq<string>, more: seq<string>)
    ensures Remaining(datas, listed[|listed|..]) == datas
    ensures listed[|listed|..] + more == more
  {
  }

  lemma CoveredIsFound(s: LoopState)
    requires Covered(s) && s.listed != []
    ensures Find(s.datas, s.listed[0]) < |s.datas|
  {
    FoundIffNamed(s.datas, s.listed[0]);
    assert multiset(s.listed)[s.listed[0]] > 0;
  }

  /** A pool that the MDS lists and the configuration has dropped makes the scan turn forever. */
  lemma DroppedPoolNeverEnds(s: LoopState)
    requires s == LoopState([LogicalPoolData("pool1", "phy1")], ["pool1", "pool2"])
    ensures !Terminates(s)
  {
    TerminatesIffCovered(s);
    assert multiset(s.listed)["pool2"] == 1;
    assert Names(s.datas) == ["pool1"];
    assert multiset(Names(s.datas))["pool2"] == 0;
  }
}
