/** The closure that sends a scan map to the leader and retries when the RPC fails. It owns
    its request, response, controller and channel, and frees them together with itself. */
module ScanMapClosure {

  datatype Owned = Self | Request | Response | Controller | Channel

  class SendScanMapClosure {
    var retry: nat
    /** Sends so far, the first one included. */
    ghost var sends: nat
    /** How often each owned object was freed. */
    ghost var frees: map<Owned, nat>

    /** The closure and everything it owns can still be used. */
    ghost predicate Alive()
      reads this
    {
      forall o :: o in frees && frees[o] == 0
    }

    ghost predicate FreedOnce()
      reads this
    {
      forall o :: o in frees && frees[o] == 1
    }

    /** A closure that has just been sent for the first time. */
    constructor (retry: nat)
      ensures this.retry == retry && sends == 1 && Alive()
    {
      this.retry := retry;
      sends := 1;
      frees := map[Self := 0, Request := 0, Response := 0, Controller := 0, Channel := 0];
      new;
      forall o ensures o in frees && frees[o] == 0 {
        match o { case Self => case Request => case Response => case Controller => case Channel => }
      }
    }

    method Guard()
      requires Alive()
      modifies `frees
      ensures FreedOnce()
    {
      frees := map o | o in frees :: frees[o] + 1;
    }

    /** The RPC has ended; reports whether the closure was sent again. */
    method Run(failed: bool) returns (again: bool)
      requires Alive()
      modifies this
      ensures again == (failed && old(retry) > 0)
      ensures again ==> Alive() && retry == old(retry) - 1 && sends == old(sends) + 1
      ensures !again ==> FreedOnce() && sends == old(sends)
    {
      again := false;
      if failed {
        if retry > 0 {
          retry := retry - 1;
          sends := sends + 1;
          again := true;
        } else {
          Guard();
        }
      } else {
        Guard();
      }
    }
  }

  /** RPC number k is the last one: it succeeds, or it is the last that is allowed, and all before failed. */
  ghost predicate EndsAt(retry: nat, failed: seq<bool>, k: nat) {
    && k < |failed| && k <= retry
    && (k == retry || !failed[k])
    && forall j | 0 <= j < k :: failed[j]
  }

  /** The end comes after retry + 1 RPCs at the latest. */
  lemma {:induction false} EndComes(retry: nat, failed: seq<bool>)
    requires |failed| > retry
    ensures exists k: nat :: EndsAt(retry, failed, k)
    decreases retry
  {
    if retry == 0 || !failed[0] {
      assert EndsAt(retry, failed, 0);
    } else {
      EndComes(retry - 1, failed[1..]);
      var k: nat :| EndsAt(retry - 1, failed[1..], k);
      assert forall j | 0 < j <= k + 1 :: failed[j] == failed[1..][j - 1];
      assert EndsAt(retry, failed, k + 1);
    }
  }

  /** The whole life of a closure: brpc runs it once per send, as long as the closure sends again.
      It ends at the first success or at the last allowed failure, after as many sends as RPCs,
      at most retry + 1, and frees everything once; it is never run after that. */
  method Live(retry: nat, failed: seq<bool>) returns (c: SendScanMapClosure, used: nat)
    ensures fresh(c) && used <= |failed|
    ensures c.sends <= retry + 1
    ensures c.FreedOnce() <==> exists k: nat :: EndsAt(retry, failed, k)
    ensures c.FreedOnce() ==> used > 0 && EndsAt(retry, failed, used - 1) && c.sends == used
    ensures !c.FreedOnce() ==> c.Alive() && used == |failed| && c.sends == used + 1
  {
    c := new SendScanMapClosure(retry);
    used := 0;
    var flying := true;
    while flying && used < |failed|
      invariant used <= |failed|
      invariant flying ==> c.Alive() && c.sends == used + 1 && c.retry + used == retry && forall j | 0 <= j < used :: failed[j]
      invariant !flying ==> c.FreedOnce() && used > 0 && EndsAt(retry, failed, used - 1) && c.sends == used
    {
      flying := c.Run(failed[used]);
      used := used + 1;
    }
    if flying {
      assert c.frees[Self] == 0;
      forall k: nat ensures !EndsAt(retry, failed, k) {
      }
    }
  }
}
