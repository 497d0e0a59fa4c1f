/**
 * The runtime behaviour of the generated Rust array wrapper, as the array
 * template spells it out: the shape check, the foreign calls, what lands
 * in the caller's buffer, and the release of the foreign array.
 * Element values are modelled as integers.
 */
module ArrayTemplate {
  import opened Wrappers
  import opened Foreign
  import opened ContextTemplate

  const I64Modulus: int := 0x1_0000_0000_0000_0000
  const I64Half: int := 0x8000_0000_0000_0000

  /** `n` modulo 2^64 is `r` when `n` is `d` times 2^64 plus `r`. */
  lemma ModUnique(n: int, d: int, r: int)
    requires n == d * I64Modulus + r && 0 <= r < I64Modulus
    ensures n % I64Modulus == r
  {
  }

  /** Two's-complement wrap-around of an integer to 64 bits. */
  function WrapI64(x: int): (r: int)
    ensures -I64Half <= r < I64Half
    ensures -I64Half <= x < I64Half ==> r == x
  {
    (x + I64Half) % I64Modulus - I64Half
  }

  /** Integers that differ by a multiple of 2^64 wrap to the same i64. */
  lemma WrapCongruent(x: int, y: int, q: int)
    requires x == y + q * I64Modulus
    ensures WrapI64(x) == WrapI64(y)
  {
    var d, r := (y + I64Half) / I64Modulus, (y + I64Half) % I64Modulus;
    ModUnique(x + I64Half, d + q, r);
  }

  /** Wrapping a factor before multiplying changes nothing once the product is wrapped. */
  lemma WrapMul(a: int, b: int)
    ensures WrapI64(WrapI64(a) * b) == WrapI64(a * b)
  {
    var d := (a + I64Half) / I64Modulus;
    assert a == WrapI64(a) + d * I64Modulus;
    assert a * b == WrapI64(a) * b + (d * b) * I64Modulus by {
      assert a * b == (WrapI64(a) + d * I64Modulus) * b;
    }
    WrapCongruent(a * b, WrapI64(a) * b, d * b);
  }

  /** The exact product of the dimensions, folded from the left. */
  function Product(dims: seq<int>): int
  {
    if dims == [] then 1 else Product(dims[..|dims| - 1]) * dims[|dims| - 1]
  }

  /** The product as `dims.iter().product()` computes it on `i64` in a release build: every step wraps. */
  function ProductI64(dims: seq<int>): int
  {
    if dims == [] then 1 else WrapI64(ProductI64(dims[..|dims| - 1]) * dims[|dims| - 1])
  }

  /** The wrapping product is the exact product, wrapped once. */
  lemma {:induction false} ProductI64Wraps(dims: seq<int>)
    ensures ProductI64(dims) == WrapI64(Product(dims))
  {
    if dims != [] {
      var init, last := dims[..|dims| - 1], dims[|dims| - 1];
      ProductI64Wraps(init);
      WrapMul(Product(init), last);
    }
  }

  /** Dimensions none of which is negative have a product that is not negative. */
  lemma {:induction false} ProductNonNegative(dims: seq<int>)
    requires forall i :: 0 <= i < |dims| ==> dims[i] >= 0
    ensures Product(dims) >= 0
  {
    if dims != [] {
      ProductNonNegative(dims[..|dims| - 1]);
    }
  }

  /** The shape check of `new` and `values` as written: `len as i64 != size` on the wrapping product. */
  predicate ShapeMatchesAsWritten(dims: seq<int>, len: nat)
  {
    WrapI64(len) == ProductI64(dims)
  }

  /** The shape check as meant: the length is the number of elements the dimensions describe. */
  predicate ShapeMatches(dims: seq<int>, len: nat)
  {
    len == Product(dims)
  }

  /** Two dimensions of 2^32 multiply to 0 in i64, so an empty slice passes the written check. */
  lemma OverflowPassesShapeCheck()
    ensures ShapeMatchesAsWritten([0x1_0000_0000, 0x1_0000_0000], 0)
    ensures !ShapeMatches([0x1_0000_0000, 0x1_0000_0000], 0)
  {
    var dims := [0x1_0000_0000, 0x1_0000_0000];
    assert dims[..1] == [0x1_0000_0000];
    assert ProductI64(dims[..1]) == 0x1_0000_0000;
    assert Product(dims) == I64Modulus;
  }

  /** Without overflow the two checks agree. */
  lemma ShapeChecksAgree(dims: seq<int>, len: nat)
    requires len < I64Half && -I64Half <= Product(dims) < I64Half
    ensures ShapeMatchesAsWritten(dims, len) <==> ShapeMatches(dims, len)
  {
    ProductI64Wraps(dims);
  }

  /**
   * A foreign array made, used by calls that allocate and free nothing,
   * then freed, leaves the live objects as they were.
   */
  lemma NewThenFreeReleases(before: seq<Call>, c: Ptr, data: seq<int>, dims: seq<int>, p: Ptr, middle: seq<Call>)
    requires p != Null && p !in Unreleased(before) && Neutral(middle)
    ensures Unreleased(before + [ArrayNew(c, data, dims, p)] + middle + [ArrayFree(c, p)]) == Unreleased(before)
  {
    var made := before + [ArrayNew(c, data, dims, p)];
    UnreleasedSnoc(before, ArrayNew(c, data, dims, p));
    UnreleasedNeutral(made, middle);
    UnreleasedSnoc(made + middle, ArrayFree(c, p));
  }

  /** A generated array type: the foreign array, its dimensions and the context it lives in. */
  class ArrayWrapper {
    const ctx: Context
    const rank: nat
    const ptr: Ptr
    var shape: seq<int>
    ghost var dropped: bool

    /** The shape is a Rust array of `rank` entries. */
    ghost predicate Valid()
      reads this
    {
      |shape| == rank
    }

    constructor Make(ctx: Context, rank: nat, ptr: Ptr, shape: seq<int>)
      requires |shape| == rank
      ensures this.ctx == ctx && this.rank == rank && this.ptr == ptr && this.shape == shape
      ensures Valid() && !dropped
    {
      this.ctx := ctx;
      this.rank := rank;
      this.ptr := ptr;
      this.shape := shape;
      dropped := false;
    }

    /**
     * `new`: a wrong length fails before any foreign call; a null array
     * is `NullPtr`; otherwise the context auto-syncs and the wrapper keeps `dims`.
     */
    static method New(ctx: Context, rank: nat, dims: seq<int>, data: seq<int>) returns (r: Result<ArrayWrapper, Error>)
      requires |dims| == rank
      modifies ctx.lib
      ensures !ShapeMatches(dims, |data|) ==>
        r == Failure(InvalidShape) && ctx.lib.trace == old(ctx.lib.trace) && ctx.lib.arrays == old(ctx.lib.arrays)
      ensures ShapeMatches(dims, |data|) ==>
        var k := |old(ctx.lib.trace)|;
        var p := PtrAt(ctx.lib.oracle, k);
        ctx.lib.trace == old(ctx.lib.trace) + [ArrayNew(ctx.context, data, dims, p)]
                         + (if p == Null then [] else ctx.AutoSyncCalls(k + 1))
        && ctx.lib.arrays == (if p == Null then old(ctx.lib.arrays) else old(ctx.lib.arrays)[p := Stored(dims, data)])
        && (r.Failure? <==> p == Null) && (r.Failure? ==> r.error == NullPtr)
      ensures r.Success? ==>
        fresh(r.value) && r.value.ctx == ctx && r.value.rank == rank && r.value.Valid() && !r.value.dropped
        && r.value.ptr == PtrAt(ctx.lib.oracle, |old(ctx.lib.trace)|) && r.value.shape == dims
    {
      if |data| != Product(dims) {
        return Failure(InvalidShape);
      }
      var p := ctx.lib.CallArrayNew(ctx.context, data, dims);
      if p == Null {
        return Failure(NullPtr);
      }
      ctx.AutoSync();
      var w := new ArrayWrapper.Make(ctx, rank, p, dims);
      r := Success(w);
    }

    /** `shape`. */
    function Shape(): (s: seq<int>)
      requires Valid()
      reads this
      ensures |s| == rank && s == shape
    {
      shape
    }

    /**
     * `values`: a buffer of the wrong length fails and is left untouched;
     * a non-zero status becomes `Code`; on success the held elements are
     * in `buf` and the context auto-syncs.
     */
    method Values(buf: array<int>) returns (r: Result<(), Error>)
      modifies buf, ctx.lib
      ensures buf.Length != Product(shape) ==>
        r == Failure(InvalidShape) && buf[..] == old(buf[..])
        && ctx.lib.trace == old(ctx.lib.trace) && ctx.lib.arrays == old(ctx.lib.arrays)
      ensures buf.Length == Product(shape) ==>
        var k := |old(ctx.lib.trace)|;
        var rc := RcAt(ctx.lib.oracle, k);
        ctx.lib.trace == old(ctx.lib.trace) + [ArrayValues(ctx.context, ptr, rc)]
                         + (if rc == 0 then ctx.AutoSyncCalls(k + 1) else [])
        && ctx.lib.arrays == old(ctx.lib.arrays)
        && (r.Failure? <==> rc != 0) && (r.Failure? ==> r.error == Code(rc))
        && buf[..] == if rc == 0 && ptr in ctx.lib.arrays && |ctx.lib.arrays[ptr].data| == buf.Length
                      then ctx.lib.arrays[ptr].data else old(buf[..])
    {
      if buf.Length != Product(shape) {
        return Failure(InvalidShape);
      }
      var rc := ctx.lib.CallArrayValues(ctx.context, ptr, buf);
      if rc != 0 {
        return Failure(Code(rc));
      }
      ctx.AutoSync();
      r := Success(());
    }

    /**
     * `get`: a fresh vector of `Product(shape)` default elements filled by
     * `values`; the held elements when the library holds that many.
     */
    method Get() returns (r: Result<seq<int>, Error>)
      requires Product(shape) >= 0
      modifies ctx.lib
      ensures var k := |old(ctx.lib.trace)|;
        var rc := RcAt(ctx.lib.oracle, k);
        ctx.lib.trace == old(ctx.lib.trace) + [ArrayValues(ctx.context, ptr, rc)]
                         + (if rc == 0 then ctx.AutoSyncCalls(k + 1) else [])
        && ctx.lib.arrays == old(ctx.lib.arrays)
        && (r.Failure? <==> rc != 0) && (r.Failure? ==> r.error == Code(rc))
      ensures r.Success? ==>
        |r.value| == Product(shape)
        && r.value == if ptr in ctx.lib.arrays && |ctx.lib.arrays[ptr].data| == Product(shape)
                      then ctx.lib.arrays[ptr].data else seq(Product(shape), _ => 0)
    {
      var vec := new int[Product(shape)](_ => 0);
      assert vec[..] == seq(Product(shape), _ => 0);
      var v := Values(vec);
      if v.Failure? {
        return Failure(v.error);
      }
      r := Success(vec[..]);
    }

    /** `from_ptr`: the shape is read from the library, entry by entry, `rank` entries in index order. */
    static method FromPtr(ctx: Context, rank: nat, p: Ptr) returns (w: ArrayWrapper)
      requires p in ctx.lib.arrays && |ctx.lib.arrays[p].shape| >= rank
      modifies ctx.lib
      ensures fresh(w) && w.ctx == ctx && w.rank == rank && w.ptr == p && w.Valid() && !w.dropped
      ensures w.shape == old(ctx.lib.arrays[p].shape)[..rank]
      ensures ctx.lib.trace == old(ctx.lib.trace) + [ArrayShape(ctx.context, p)]
      ensures ctx.lib.arrays == old(ctx.lib.arrays)
    {
      var lens := ctx.lib.CallArrayShape(ctx.context, p);
      var shape := new int[rank];
      for i := 0 to rank
        modifies shape
        invariant shape[..i] == lens[..i]
      {
        shape[i] := lens[i];
      }
      assert shape[..] == lens[..rank];
      w := new ArrayWrapper.Make(ctx, rank, p, shape[..]);
    }

    /** `Drop`: the foreign array is freed, once, since Rust drops a value once. */
    method Drop()
      requires !dropped
      modifies this, ctx.lib
      ensures dropped && shape == old(shape)
      ensures ctx.lib.trace == old(ctx.lib.trace) + [ArrayFree(ctx.context, ptr)]
      ensures ctx.lib.arrays == old(ctx.lib.arrays) - {ptr}
    {
      ctx.lib.CallArrayFree(ctx.context, ptr);
      dropped := true;
    }
  }

  /**
   * `new` then `get`: when both succeed, `get` gives back exactly the
   * elements `new` was given.
   */
  method NewThenGet(ctx: Context, rank: nat, dims: seq<int>, data: seq<int>) returns (r: Result<seq<int>, Error>)
    requires |dims| == rank
    modifies ctx.lib
    ensures r.Success? ==> r.value == data
    ensures !ShapeMatches(dims, |data|) ==> r == Failure(InvalidShape)
    ensures ShapeMatches(dims, |data|) && PtrAt(ctx.lib.oracle, |old(ctx.lib.trace)|) == Null ==> r == Failure(NullPtr)
  {
    var made := ArrayWrapper.New(ctx, rank, dims, data);
    if made.Failure? {
      return Failure(made.error);
    }
    var w := made.value;
    r := w.Get();
  }
}
