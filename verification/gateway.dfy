/**
 * The gateway's backend picker (`get_alive_server` of backend/gateway_fixed.py):
 * a round robin over BACKEND_PORTS that probes each server's health at most
 * once per call and hands out the first one that answers. The health probe is
 * the oracle `healthy`: whether that port's `/health` answers 200 in time.
 */
module Gateway {

  import opened Wrappers

  const BackendPorts: seq<int> := [8001, 8002, 8003]

  /**
   * The position `j` steps after position `start` on a cycle of `n`
   * positions, for at most one full round: `(start + j) % n`.
   */
  function Cycle(start: int, j: int, n: int): (p: int)
    requires 0 <= start < n && 0 <= j <= n
    ensures 0 <= p < n
  {
    if start + j < n then start + j else start + j - n
  }

  /** `Cycle` is the remainder of `start + j` by `n`. */
  lemma CycleIsMod(start: int, j: int, n: int)
    requires 0 <= start < n && 0 <= j <= n
    ensures Cycle(start, j, n) == (start + j) % n
  {
    if start + j >= n {
      assert start + j == n * 1 + (start + j - n);
    }
  }

  /** The update `(rr_index + 1) % total` takes one step along the cycle. */
  lemma StepIsMod(start: int, j: int, n: int)
    requires 0 <= start < n && 0 <= j < n
    ensures (Cycle(start, j, n) + 1) % n == Cycle(start, j + 1, n)
  {
    var c := Cycle(start, j, n);
    if c + 1 == n {
      assert (c + 1) % n == 0;
    } else {
      assert (c + 1) % n == c + 1;
    }
  }

  /** How many steps from `start` reach position `i`: the inverse of `Cycle` within one round. */
  function Offset(start: int, i: int, n: int): (j: int)
    requires 0 <= start < n && 0 <= i < n
    ensures 0 <= j < n && Cycle(start, j, n) == i
  {
    if i >= start then i - start else i - start + n
  }

  /** Within one round `Cycle` is one-to-one, so `Offset` undoes it. */
  lemma OffsetOfCycle(start: int, j: int, n: int)
    requires 0 <= start < n && 0 <= j < n
    ensures Offset(start, Cycle(start, j, n), n) == j
  {
  }

  class RoundRobin {
    const ports: seq<int>
    var rrIndex: int

    /** `rr_index` always names a position of BACKEND_PORTS. */
    ghost predicate Valid()
      reads this
    {
      |ports| > 0 ==> 0 <= rrIndex < |ports|
    }

    /** The module state at start-up: BACKEND_PORTS with `rr_index = 0`. */
    constructor ()
      ensures Valid() && ports == BackendPorts && rrIndex == 0
    {
      ports := BackendPorts;
      rrIndex := 0;
    }

    /**
     * `get_alive_server`: probes from `rr_index` on, advancing it by one per
     * probe, and returns the first port that answers, or None after a full
     * round of failed probes. `probed` lists the ports probed, in order.
     */
    method GetAliveServer(healthy: int -> bool) returns (r: Option<int>, probed: seq<int>)
      requires Valid()
      modifies this
      ensures Valid()
      ensures |probed| <= |ports|
      ensures |ports| > 0 ==>
                (forall j :: 0 <= j < |probed| ==> probed[j] == ports[Cycle(old(rrIndex), j, |ports|)]) &&
                rrIndex == Cycle(old(rrIndex), |probed|, |ports|)
      ensures r.Some? ==> |probed| >= 1 && r.value == probed[|probed| - 1] && healthy(r.value) &&
                          forall j :: 0 <= j < |probed| - 1 ==> !healthy(probed[j])
      ensures r.None? ==> |probed| == |ports| && forall j :: 0 <= j < |probed| ==> !healthy(probed[j])
      ensures r.None? ==> rrIndex == old(rrIndex) && forall p :: p in ports ==> p in probed
    {
      var checked := 0;
      var total := |ports|;
      probed := [];
      while checked < total
        invariant 0 <= checked <= total && |probed| == checked
        invariant total == |ports| && Valid()
        invariant total > 0 ==> rrIndex == Cycle(old(rrIndex), checked, total)
        invariant total == 0 ==> rrIndex == old(rrIndex)
        invariant total > 0 ==> forall j :: 0 <= j < checked ==> probed[j] == ports[Cycle(old(rrIndex), j, total)]
        invariant forall j :: 0 <= j < checked ==> !healthy(probed[j])
      {
        var port := ports[rrIndex];
        StepIsMod(old(rrIndex), checked, total);
        rrIndex := (rrIndex + 1) % total;
        probed := probed + [port];
        if healthy(port) {
          return Some(port), probed;
        }
        checked := checked + 1;
      }
      if total > 0 {
        forall p | p in ports ensures p in probed {
          var i :| 0 <= i < total && ports[i] == p;
          assert probed[Offset(old(rrIndex), i, total)] == p;
        }
      }
      return None, probed;
    }
  }
}
