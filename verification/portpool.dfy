/** The port pool of linksocks/portpool.go. */
module PortPool {
  import opened Bytes

  /** The first of `left` positions from `at` on, around the end, whose port is
      not in use. */
  function Scan(ports: seq<int>, used: set<int>, at: nat, left: nat): Option<int>
    requires at < |ports|
    decreases left
  {
    if left == 0 then None
    else if ports[at] !in used then Some(ports[at])
    else Scan(ports, used, if at + 1 == |ports| then 0 else at + 1, left - 1)
  }

  /** The port handed out. `start` is the random position. */
  function Pick(ports: seq<int>, used: set<int>, requested: int, start: nat): Option<int>
    requires ports != [] ==> start < |ports|
  {
    if requested != 0 then if requested in used then None else Some(requested)
    else if ports == [] then None
    else Scan(ports, used, start, |ports|)
  }

  /** The positions from `at` on, `left` of them, around the end. */
  ghost predicate Covers(size: nat, at: nat, left: nat, i: nat) {
    at <= i < at + left || at <= i + size < at + left
  }

  lemma {:induction false} ScanFinds(ports: seq<int>, used: set<int>, at: nat, left: nat)
    requires at < |ports| && left <= |ports|
    ensures var p := Scan(ports, used, at, left);
            && (p.Some? ==> p.value in ports && p.value !in used)
            && (p.None? <==> forall i | 0 <= i < |ports| && Covers(|ports|, at, left, i) :: ports[i] in used)
    decreases left
  {
    if left > 0 {
      var on := if at + 1 == |ports| then 0 else at + 1;
      ScanFinds(ports, used, on, left - 1);
      assert Covers(|ports|, at, left, at);
      forall i | 0 <= i < |ports|
        ensures Covers(|ports|, at, left, i) <==> i == at || Covers(|ports|, on, left - 1, i)
      {
      }
    }
  }

  /** With no port requested there is none exactly when every pool port is in
      use, wherever the scan starts; a port handed out was free and in the pool. */
  lemma PickAny(ports: seq<int>, used: set<int>, start: nat)
    requires ports != [] ==> start < |ports|
    ensures Pick(ports, used, 0, start).None? <==> forall i | 0 <= i < |ports| :: ports[i] in used
    ensures Pick(ports, used, 0, start).Some? ==>
              Pick(ports, used, 0, start).value in ports && Pick(ports, used, 0, start).value !in used
  {
    if ports != [] {
      ScanFinds(ports, used, start, |ports|);
      assert forall i | 0 <= i < |ports| :: Covers(|ports|, start, |ports|, i);
    }
  }

  class Pool {
    const ports: seq<int>
    var used: set<int>

    constructor (ports: seq<int>)
      ensures this.ports == ports && used == {}
    {
      this.ports := ports;
      used := {};
    }

    /** Zero when there is no port to hand out. */
    method Get(requested: int, start: nat) returns (port: int)
      requires ports != [] ==> start < |ports|
      modifies this
      ensures var p := Pick(ports, old(used), requested, start);
              && port == (if p.Some? then p.value else 0)
              && used == (if p.Some? then old(used) + {port} else old(used))
    {
      if requested != 0 {
        if requested !in used {
          used := used + {requested};
          return requested;
        }
        return 0;
      }
      var size := |ports|;
      if size == 0 {
        return 0;
      }
      var i, at := 0, start;
      while i < size
        invariant 0 <= i <= size && 0 <= at < size && used == old(used)
        invariant Scan(ports, used, start, size) == Scan(ports, used, at, size - i)
      {
        if ports[at] !in used {
          port := ports[at];
          used := used + {port};
          return;
        }
        i, at := i + 1, if at + 1 == size then 0 else at + 1;
      }
      return 0;
    }

    method Put(port: int)
      modifies this
      ensures used == old(used) - {port}
    {
      used := used - {port};
    }
  }
}
