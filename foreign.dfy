/**
 * The C library the generated Rust wrappers call, as an abstract store.
 * What each foreign function returns is decided by an `Oracle` indexed by
 * the call's position in the trace: whether a pointer-returning call gives
 * back null, which status code a call returns, whether a message pointer is
 * null. A non-null pointer is `Addr(k)` for the call number `k`, so every
 * allocation is distinct. Arrays made by `new` are kept with their shape
 * and data so that `values` and `shape` can read them back.
 */
module Foreign {
  import opened Wrappers

  /** A C pointer: null, or the address the `k`-th call handed out. */
  datatype Ptr = Null | Addr(n: nat)

  /** What the C side decides, per call number. */
  datatype Oracle = Oracle(nullAt: set<nat>, rcAt: map<nat, int>, textAt: map<nat, string>)

  /** An array the library holds: its dimensions and its elements in row-major order. */
  datatype Stored = Stored(shape: seq<int>, data: seq<int>)

  /** One foreign call, with its arguments and what it returned. */
  datatype Call =
    | ConfigNew(result: Ptr)
    | ConfigFree(config: Ptr)
    | SetDebugging(config: Ptr, flag: int)
    | SetProfiling(config: Ptr, flag: int)
    | SetLogging(config: Ptr, flag: int)
    | SetCacheFile(config: Ptr, file: string)
    | ContextNew(config: Ptr, result: Ptr)
    | ContextFree(context: Ptr)
    | ContextSync(context: Ptr, rc: int)
    | ClearCaches(context: Ptr, rc: int)
    | PauseProfiling(context: Ptr)
    | UnpauseProfiling(context: Ptr)
    | GetError(context: Ptr, result: Ptr)
    | Report(context: Ptr, result: Ptr)
    | FreeText(text: Ptr)
    | ArrayNew(context: Ptr, data: seq<int>, dims: seq<int>, result: Ptr)
    | ArrayValues(context: Ptr, arr: Ptr, rc: int)
    | ArrayShape(context: Ptr, arr: Ptr)
    | ArrayFree(context: Ptr, arr: Ptr)

  /** The pointer the `k`-th call returns. */
  function PtrAt(o: Oracle, k: nat): (p: Ptr)
    ensures p == Null <==> k in o.nullAt
    ensures p != Null ==> p == Addr(k)
  {
    if k in o.nullAt then Null else Addr(k)
  }

  /** The status code the `k`-th call returns: 0 unless the oracle says otherwise. */
  function RcAt(o: Oracle, k: nat): (rc: int)
    ensures k !in o.rcAt ==> rc == 0
    ensures k in o.rcAt ==> rc == o.rcAt[k]
  {
    if k in o.rcAt then o.rcAt[k] else 0
  }

  /** The message pointer of the `k`-th call: null exactly when the oracle has no text for it. */
  function TextPtrAt(o: Oracle, k: nat): (p: Ptr)
    ensures p == Null <==> k !in o.textAt
    ensures p != Null ==> p == Addr(k)
  {
    if k in o.textAt then Addr(k) else Null
  }

  /** Pointers handed out by different calls differ, so no two allocations alias. */
  lemma DistinctCalls(o: Oracle, j: nat, k: nat)
    requires j != k && PtrAt(o, j) != Null
    ensures PtrAt(o, j) != PtrAt(o, k)
  {
  }

  /** The library: its oracle, every call made so far, and the arrays it holds. */
  class CLib {
    const oracle: Oracle
    var trace: seq<Call>
    var arrays: map<Ptr, Stored>

    constructor(oracle: Oracle)
      ensures this.oracle == oracle && trace == [] && arrays == map[]
    {
      this.oracle := oracle;
      trace := [];
      arrays := map[];
    }

    /** `futhark_context_config_new`. */
    method CallConfigNew() returns (p: Ptr)
      modifies this
      ensures p == PtrAt(oracle, |old(trace)|)
      ensures trace == old(trace) + [ConfigNew(p)] && arrays == old(arrays)
    {
      p := PtrAt(oracle, |trace|);
      trace := trace + [ConfigNew(p)];
    }

    /** `futhark_context_config_free`. */
    method CallConfigFree(config: Ptr)
      modifies this
      ensures trace == old(trace) + [ConfigFree(config)] && arrays == old(arrays)
    {
      trace := trace + [ConfigFree(config)];
    }

    /** `futhark_context_config_set_debugging`, `_profiling` and `_logging`, or `_cache_file`: recorded, nothing returned. */
    method CallConfigure(c: Call)
      requires c.SetDebugging? || c.SetProfiling? || c.SetLogging? || c.SetCacheFile?
      modifies this
      ensures trace == old(trace) + [c] && arrays == old(arrays)
    {
      trace := trace + [c];
    }

    /** `futhark_context_new`. */
    method CallContextNew(config: Ptr) returns (p: Ptr)
      modifies this
      ensures p == PtrAt(oracle, |old(trace)|)
      ensures trace == old(trace) + [ContextNew(config, p)] && arrays == old(arrays)
    {
      p := PtrAt(oracle, |trace|);
      trace := trace + [ContextNew(config, p)];
    }

    /** `futhark_context_free`. */
    method CallContextFree(context: Ptr)
      modifies this
      ensures trace == old(trace) + [ContextFree(context)] && arrays == old(arrays)
    {
      trace := trace + [ContextFree(context)];
    }

    /** `futhark_context_sync`. */
    method CallSync(context: Ptr) returns (rc: int)
      modifies this
      ensures rc == RcAt(oracle, |old(trace)|)
      ensures trace == old(trace) + [ContextSync(context, rc)] && arrays == old(arrays)
    {
      rc := RcAt(oracle, |trace|);
      trace := trace + [ContextSync(context, rc)];
    }

    /** `futhark_context_clear_caches`. */
    method CallClearCaches(context: Ptr) returns (rc: int)
      modifies this
      ensures rc == RcAt(oracle, |old(trace)|)
      ensures trace == old(trace) + [ClearCaches(context, rc)] && arrays == old(arrays)
    {
      rc := RcAt(oracle, |trace|);
      trace := trace + [ClearCaches(context, rc)];
    }

    /** `futhark_context_pause_profiling` or `futhark_context_unpause_profiling`. */
    method CallProfiling(c: Call)
      requires c.PauseProfiling? || c.UnpauseProfiling?
      modifies this
      ensures trace == old(trace) + [c] && arrays == old(arrays)
    {
      trace := trace + [c];
    }

    /**
     * `futhark_context_get_error` (`report` false) or `futhark_context_report`:
     * a message pointer, and the message when it is not null.
     */
    method CallMessage(context: Ptr, report: bool) returns (p: Ptr, text: string)
      modifies this
      ensures p == TextPtrAt(oracle, |old(trace)|)
      ensures p != Null ==> text == oracle.textAt[|old(trace)|]
      ensures trace == old(trace) + [if report then Report(context, p) else GetError(context, p)]
      ensures arrays == old(arrays)
    {
      var k := |trace|;
      p := TextPtrAt(oracle, k);
      text := if k in oracle.textAt then oracle.textAt[k] else "";
      trace := trace + [if report then Report(context, p) else GetError(context, p)];
    }

    /** libc `free` on a message. */
    method CallFreeText(p: Ptr)
      modifies this
      ensures trace == old(trace) + [FreeText(p)] && arrays == old(arrays)
    {
      trace := trace + [FreeText(p)];
    }

    /** `futhark_new_{elem}_{rank}d`: a new array holding `data` with dimensions `dims`, or null. */
    method CallArrayNew(context: Ptr, data: seq<int>, dims: seq<int>) returns (p: Ptr)
      modifies this
      ensures p == PtrAt(oracle, |old(trace)|)
      ensures trace == old(trace) + [ArrayNew(context, data, dims, p)]
      ensures arrays == if p == Null then old(arrays) else old(arrays)[p := Stored(dims, data)]
    {
      p := PtrAt(oracle, |trace|);
      trace := trace + [ArrayNew(context, data, dims, p)];
      if p != Null {
        arrays := arrays[p := Stored(dims, data)];
      }
    }

    /**
     * `futhark_values_{elem}_{rank}d`: on status 0 the held elements are
     * copied into `buf`, one by one; otherwise `buf` is left as it was.
     */
    method CallArrayValues(context: Ptr, arr: Ptr, buf: array<int>) returns (rc: int)
      modifies this, buf
      ensures rc == RcAt(oracle, |old(trace)|)
      ensures trace == old(trace) + [ArrayValues(context, arr, rc)] && arrays == old(arrays)
      ensures buf[..] == if rc == 0 && arr in arrays && |arrays[arr].data| == buf.Length
                         then arrays[arr].data else old(buf[..])
    {
      rc := RcAt(oracle, |trace|);
      trace := trace + [ArrayValues(context, arr, rc)];
      if rc == 0 && arr in arrays && |arrays[arr].data| == buf.Length {
        var data := arrays[arr].data;
        for i := 0 to buf.Length
          modifies buf
          invariant buf[..i] == data[..i]
        {
          buf[i] := data[i];
        }
        assert buf[..] == buf[..buf.Length];
      }
    }

    /** `futhark_shape_{elem}_{rank}d`: the held array's dimensions. */
    method CallArrayShape(context: Ptr, arr: Ptr) returns (dims: seq<int>)
      requires arr in arrays
      modifies this
      ensures arr in arrays && dims == arrays[arr].shape
      ensures trace == old(trace) + [ArrayShape(context, arr)] && arrays == old(arrays)
    {
      dims := arrays[arr].shape;
      trace := trace + [ArrayShape(context, arr)];
    }

    /** `futhark_free_{elem}_{rank}d`: the array is released. */
    method CallArrayFree(context: Ptr, arr: Ptr)
      modifies this
      ensures trace == old(trace) + [ArrayFree(context, arr)]
      ensures arrays == old(arrays) - {arr}
    {
      trace := trace + [ArrayFree(context, arr)];
      arrays := arrays - {arr};
    }
  }
}
