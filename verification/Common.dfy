/** Types shared by the monitoring service, the pathfinding service and the block synchronisation. */
module Common {

  datatype Option<+T> = None | Some(value: T)

  /** Canonical addresses are byte strings compared as big-endian numbers. */
  type Address = nat

  /** A channel is identified by its token network and its identifier inside that network. */
  datatype ChannelKey = ChannelKey(network: Address, id: nat)

  function Min(a: int, b: int): int { if a <= b then a else b }

  function Max(a: int, b: int): int { if a <= b then b else a }

  lemma DivisionIsUnique(v: nat, m: nat, q: nat, r: nat)
    requires m > 0 && v == m * q + r && r < m
    ensures v / m == q
  {
    var d := v / m;
    assert v == m * d + v % m;
    assert d < q ==> m * (d + 1) <= m * q;
    assert d > q ==> m * (q + 1) <= m * d;
  }
}
