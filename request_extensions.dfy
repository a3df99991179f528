/**
 * RequestExtensions.GetApproximateMessageSize: the sum of the lengths of every
 * parameter key and value of an SDK request, accumulated in a C# `int`.
 */
module RequestExtensions {
  import opened Wrappers

  /** A UTF-16 code unit, the element a .NET string is made of. */
  newtype CodeUnit = x: int | 0 <= x < 0x1_0000

  /** A .NET string: its Length is the number of UTF-16 code units, lone surrogates included. */
  type NetString = seq<CodeUnit>

  /** The part of an Amazon.Runtime.Internal.IRequest that the estimate reads: its parameter dictionary. */
  datatype Request = Request(parameters: map<NetString, NetString>)

  const Int32Min: int := -0x8000_0000
  const Int32Max: int := 0x7FFF_FFFF
  const Int32Modulus: int := 0x1_0000_0000

  /** The value C#'s unchecked `int` arithmetic keeps of the mathematical result `x`. */
  function Wrap32(x: int): (r: int)
    ensures Int32Min <= r <= Int32Max
    ensures Int32Min <= x <= Int32Max ==> r == x
    decreases if x < Int32Min then Int32Min - x else if Int32Max < x then x - Int32Max else 0
  {
    if x < Int32Min then Wrap32(x + Int32Modulus)
    else if Int32Max < x then Wrap32(x - Int32Modulus)
    else x
  }

  /** Wrapping is reduction modulo 2^32 into the signed range. */
  lemma {:induction false} Wrap32Mod(x: int)
    ensures Wrap32(x) == (x - Int32Min) % Int32Modulus + Int32Min
    decreases if x < Int32Min then Int32Min - x else if Int32Max < x then x - Int32Max else 0
  {
    if x < Int32Min {
      Wrap32Mod(x + Int32Modulus);
    } else if Int32Max < x {
      Wrap32Mod(x - Int32Modulus);
    }
  }

  /** What one dictionary entry adds to the estimate. */
  function EntrySize(key: NetString, value: NetString): nat
  {
    |key| + |value|
  }

  /** Some element of a non-empty set of keys. */
  ghost function Pick(keys: set<NetString>): (k: NetString)
    requires keys != {}
    ensures k in keys
  {
    var k :| k in keys; k
  }

  /** The exact (unbounded) sum of the entry sizes of the keys in `keys`. */
  ghost function SumOver(parameters: map<NetString, NetString>, keys: set<NetString>): nat
    requires keys <= parameters.Keys
    decreases keys
  {
    if keys == {} then 0
    else
      var k := Pick(keys);
      EntrySize(k, parameters[k]) + SumOver(parameters, keys - {k})
  }

  /** The exact (unbounded) sum of key and value lengths over a whole parameter dictionary. */
  ghost function Total(parameters: map<NetString, NetString>): nat
  {
    SumOver(parameters, parameters.Keys)
  }

  /** Taking out any one key, not just the one SumOver happens to pick, takes away exactly its entry size. */
  lemma {:induction false} SumOverRemove(parameters: map<NetString, NetString>, keys: set<NetString>, k: NetString)
    requires keys <= parameters.Keys && k in keys
    ensures SumOver(parameters, keys) == EntrySize(k, parameters[k]) + SumOver(parameters, keys - {k})
    decreases keys
  {
    var j := Pick(keys);
    if j != k {
      SumOverRemove(parameters, keys - {j}, k);
      SumOverRemove(parameters, keys - {k}, j);
      assert keys - {j} - {k} == keys - {k} - {j};
    }
  }

  /** The sum over a key set does not look at entries outside it. */
  lemma {:induction false} SumOverFrame(p: map<NetString, NetString>, q: map<NetString, NetString>, keys: set<NetString>)
    requires keys <= p.Keys && keys <= q.Keys
    requires forall k :: k in keys ==> p[k] == q[k]
    ensures SumOver(p, keys) == SumOver(q, keys)
    decreases keys
  {
    if keys != {} {
      SumOverFrame(p, q, keys - {Pick(keys)});
    }
  }

  /** Adding a parameter (k, v) with a new key raises the total by |k| + |v|, whatever the iteration order. */
  lemma TotalAdd(parameters: map<NetString, NetString>, k: NetString, v: NetString)
    requires k !in parameters
    ensures Total(parameters[k := v]) == Total(parameters) + |k| + |v|
  {
    var bigger := parameters[k := v];
    SumOverRemove(bigger, bigger.Keys, k);
    assert bigger.Keys - {k} == parameters.Keys;
    SumOverFrame(bigger, parameters, parameters.Keys);
  }

  /** Adding after wrapping gives what wrapping the exact sum gives. */
  lemma Wrap32Add(x: int, y: int)
    ensures Wrap32(Wrap32(x) + y) == Wrap32(x + y)
  {
    Wrap32Mod(x);
    Wrap32Mod(x + y);
    Wrap32Mod(Wrap32(x) + y);
    var a := x - Int32Min;
    var q := a / Int32Modulus;
    assert a == Int32Modulus * q + a % Int32Modulus;
    assert Wrap32(x) + y - Int32Min == (x + y - Int32Min) - Int32Modulus * q;
  }

  /**
   * GetApproximateMessageSize. The foreach loop visits every entry once in an
   * order the dictionary decides; the model lets the loop pick any remaining
   * key, so the postcondition holds for every iteration order.
   */
  method GetApproximateMessageSize(request: Option<Request>) returns (size: int)
    ensures request.None? ==> size == 0
    ensures request.Some? && request.value.parameters == map[] ==> size == 0
    ensures request.Some? ==> size == Wrap32(Total(request.value.parameters))
    ensures request.Some? && Total(request.value.parameters) <= Int32Max ==>
              size == Total(request.value.parameters)
    ensures Int32Min <= size <= Int32Max
  {
    if request.None? { return 0; }
    var parameters := request.value.parameters;
    size := 0;
    ghost var exact := 0;
    var remaining := parameters.Keys;
    while remaining != {}
      invariant remaining <= parameters.Keys
      invariant size == Wrap32(exact)
      invariant exact + SumOver(parameters, remaining) == Total(parameters)
      decreases remaining
    {
      var k :| k in remaining;
      SumOverRemove(parameters, remaining, k);
      Wrap32Add(exact, |k|);
      size := Wrap32(size + |k|);
      Wrap32Add(exact + |k|, |parameters[k]|);
      size := Wrap32(size + |parameters[k]|);
      exact := exact + |k| + |parameters[k]|;
      remaining := remaining - {k};
    }
  }
}
