/** Shared vocabulary: optional values, remote calls, and the 64-bit integers of the services. */
module Prelude {

  datatype Option<+T> = None | Some(value: T)

  /** A call to a store or another service: done, done but reported as an error, or not done. */
  datatype Fate = Ok | LostAck | NoEffect

  const TWO_63 := 0x8000_0000_0000_0000
  const TWO_64 := 0x1_0000_0000_0000_0000

  /** A signed 64-bit integer: Go's `int64`, Postgres' `BIGINT`. */
  type Int64 = x: int | -TWO_63 <= x < TWO_63

  /** What a 64-bit addition or subtraction leaves of an exact result. */
  function Wrap64(x: int): (r: Int64)
    ensures -TWO_63 <= x < TWO_63 ==> r == x
    ensures exists k :: r == x + k * TWO_64
  {
    var m := x % TWO_64;
    assert x == m + (x / TWO_64) * TWO_64;
    if m < TWO_63 then
      assert m == x + (-(x / TWO_64)) * TWO_64;
      m
    else
      assert m - TWO_64 == x + (-(x / TWO_64) - 1) * TWO_64;
      m - TWO_64
  }

  lemma LongestOf(used: set<string>) returns (n: nat)
    ensures forall u :: u in used ==> |u| <= n
  {
    n := 0;
    if used != {} {
      var u :| u in used;
      n := LongestOf(used - {u});
      if n < |u| { n := |u|; }
    }
  }

  lemma FreshString(used: set<string>) returns (id: string)
    ensures id !in used
  {
    var n := LongestOf(used);
    id := seq(n + 1, i => 'u');
    assert |id| == n + 1;
  }

  /** A UUID: a string that nothing has used before. */
  method NewUUID(used: set<string>) returns (id: string)
    ensures id !in used
  {
    ghost var other := FreshString(used);
    assert other !in used;
    id :| id !in used;
  }
}
