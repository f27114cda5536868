/** Notions every component shares: optional values, the operator's clock, Go's duration arithmetic. */
module Base {

  datatype Option<+T> = None | Some(value: T)

  type Int32 = x: int | -0x8000_0000 <= x < 0x8000_0000

  /** Whole seconds. `ZERO_TIME` is Go's zero time, the content of a timestamp never written. */
  type Time = int

  const ZERO_TIME: Time := 0

  /** The number of whole seconds a Go duration can hold; longer differences saturate. */
  const MAX_DURATION: int := 9_223_372_036

  function Sub(later: Time, earlier: Time): int
  {
    var d := later - earlier;
    if d > MAX_DURATION then MAX_DURATION else if d < -MAX_DURATION then -MAX_DURATION else d
  }

  function OrDefault(val: Int32, default: Int32): (r: Int32)
    ensures 0 <= default ==> 0 <= r
    ensures 0 < default ==> 0 < r
  {
    if val <= 0 then default else val
  }

  /** The last `n` elements of `s`, or all of them when there are fewer. */
  function LastN<T>(s: seq<T>, n: nat): (r: seq<T>)
    ensures |r| == if |s| <= n then |s| else n
  {
    if |s| <= n then s else s[|s| - n..]
  }

  /** Truncating before or after an append makes no difference to what is kept. */
  lemma {:induction false} LastNAppend<T>(s: seq<T>, n: nat, x: T)
    requires 0 < n
    ensures LastN(LastN(s, n) + [x], n) == LastN(s + [x], n)
  {
    if |s| > n {
      assert (s[|s| - n..] + [x])[1..] == (s + [x])[|s| - n + 1..];
    }
  }

  /** An enumeration of a key set: what ranging over a Go map yields, in some unspecified order. */
  ghost predicate Enumerates<K>(order: seq<K>, keys: set<K>)
  {
    && (forall i, j :: 0 <= i < j < |order| ==> order[i] != order[j])
    && (forall i :: 0 <= i < |order| ==> order[i] in keys)
    && (forall k :: k in keys ==> k in order)
  }
}
