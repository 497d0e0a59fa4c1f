/**
 * What the older generator in `src/generate.rs` puts into its scope: its own
 * `ExternFn::gen` (one raw `unsafe extern "C" fn` item), `Array_{elem}_{rank}d`
 * wrappers holding the bare pointer, and a one-level `typemap`. The C names
 * (`futhark_{elem}_{rank}d`, its `*mut` pointer type, `futhark_new_...`) are
 * spelled exactly as in `src/generate/rust.rs` and taken from `RustText`.
 */
module LegacyText {
  import opened Strings
  import opened Registry
  import opened Scope
  import M = Manifest
  import RT = RustText

  /** The string literals of the older generator, held in one value. */
  datatype LegacyFixed = LegacyFixed(
    ctxPtr: string,
    cInt: string,
    mutU8: string,
    configStruct: Item,
    configNew: ExternFn,
    configFree: ExternFn,
    contextStruct: Item,
    contextNew: ExternFn,
    contextFree: ExternFn,
    contextSync: ExternFn,
    errorEnum: Item,
    contextType: Item,
    contextImpl: Item,
    ctxRef: string,
    resultSelf: string,
    letPtr: string,
    close: string,
    nullCheck: string,
    okInner: string)

  const ConfigPtr: string := "*mut futhark_context_config"
  const ContextPtr: string := "*mut futhark_context"
  const CInt: string := "std::os::raw::c_int"

  const Fixed: LegacyFixed := LegacyFixed(
    ContextPtr,
    CInt,
    "*mut u8",
    Struct("futhark_context_config", []),
    Ret(NewExtern("futhark_context_config_new"), ConfigPtr),
    Arg(NewExtern("futhark_context_config_free"), "_", ConfigPtr),
    Struct("futhark_context", []),
    Ret(Arg(NewExtern("futhark_context_new"), "config", ConfigPtr), ContextPtr),
    Arg(NewExtern("futhark_context_free"), "_", ContextPtr),
    Ret(Arg(NewExtern("futhark_context_sync"), "_", ContextPtr), CInt),
    Enum("Error", ["Code(" + CInt + ")", "NullPtr"]),
    Struct("Context", [Param("inner", ContextPtr)]),
    Impl("Context", "", []),
    "&Context",
    "Result<Self, Error>",
    "let ptr = unsafe {",
    "};",
    "if ptr.is_null() { return Err(Error::NullPtr); }",
    "Ok(Self { inner: ptr })")

  // ---------------------------------------------------------------- extern text

  /** This `gen`'s text: `unsafe extern "C" fn NAME(n1: t1, ...)-> RET;` and a line break. */
  function LegacyDecl(f: ExternFn): string {
    "unsafe extern \"C\" fn " + f.name + "(" + ParamList(f.args) + ")" + RT.RetText(f.ret) + ";\n"
  }

  /** This `gen` pushes a single raw item. */
  function GenItems(f: ExternFn): seq<Item> {
    [Raw(LegacyDecl(f))]
  }

  /**
   * The declaration opens with `unsafe extern "C" fn`, the name and the
   * parameter list, ends with `;\n`, and carries `-> RET` exactly when the
   * return type is non-empty.
   */
  lemma LegacyDeclShape(f: ExternFn)
    ensures StartsWith(LegacyDecl(f), "unsafe extern \"C\" fn " + f.name + "(" + ParamList(f.args) + ")")
    ensures EndsWith(LegacyDecl(f), ";\n")
    ensures |GenItems(f)| == 1
    ensures LegacyDecl(f) == "unsafe extern \"C\" fn " + f.name + "(" + ParamList(f.args) + ")" + RT.RetText(f.ret) + ";\n"
    ensures RT.RetText(f.ret) == "" <==> f.ret == ""
  {
    var head := "unsafe extern \"C\" fn " + f.name + "(" + ParamList(f.args) + ")";
    var tail := ";\n";
    var d := LegacyDecl(f);
    assert d == head + (RT.RetText(f.ret) + tail);
    assert d[..|head|] == head;
    assert d == (head + RT.RetText(f.ret)) + tail;
    assert d[|d| - |tail|..] == tail;
    if f.ret != "" {
      assert |RT.RetText(f.ret)| > 0;
    }
  }

  // ---------------------------------------------------------------- array types

  /** `Array_{elemtype}_{rank}d`. */
  function LegacyName(a: M.ArrayType): string {
    "Array_" + M.Suffix(a)
  }

  /** The `ArrayInfo` this `generate_array_type` returns. */
  function Info(a: M.ArrayType): RT.ArrayInfo {
    RT.ArrayInfo(RT.OriginalName(a), RT.PtrType(a), LegacyName(a), M.ToStr(a.elemtype), RT.ElemPtr(a))
  }

  /** `dim0`, ..., `dim{n-1}`. */
  function DimNames(n: nat): (r: seq<string>)
    ensures |r| == n
  {
    seq(n, i requires 0 <= i < n => "dim" + NatToString(i))
  }

  /** The wrapper's `new`: the context, then one `i64` per dimension, passed on in order. */
  function NewMethod(t: LegacyFixed, a: M.ArrayType): Fn {
    var n := M.RankCount(a.rank);
    Fn("new", NoSelf, [Param("ctx", t.ctxRef)] + seq(n, i requires 0 <= i < n => Param(DimNames(n)[i], "i64")),
       t.resultSelf,
       [t.letPtr, RT.NewFnName(a) + "(ctx.inner, std::ptr::null(), " + Join(DimNames(n), ", ") + ")",
        t.close, t.nullCheck, t.okInner])
  }

  /** `new` takes `ctx` and then exactly `rank` parameters `dim0`..`dim{rank-1}`, in order. */
  lemma NewMethodParams(t: LegacyFixed, a: M.ArrayType)
    ensures |NewMethod(t, a).args| == 1 + M.RankCount(a.rank)
    ensures NewMethod(t, a).args[0] == Param("ctx", t.ctxRef)
    ensures forall i :: 0 <= i < M.RankCount(a.rank) ==> NewMethod(t, a).args[1 + i] == Param("dim" + NatToString(i), "i64")
  {
  }

  /** The `new` extern: context, `*mut` element pointer, then the dimensions. */
  function NewExternFn(t: LegacyFixed, a: M.ArrayType): ExternFn {
    Ret(RT.WithDims(Arg(Arg(NewExtern(RT.NewFnName(a)), "_", t.ctxPtr), "_", RT.ElemPtr(a)), M.RankCount(a.rank)), RT.PtrType(a))
  }

  /** The `new_raw` extern: context, `*mut u8`, offset, then the dimensions. */
  function NewRawExternFn(t: LegacyFixed, a: M.ArrayType): ExternFn {
    var start := Arg(Arg(Arg(NewExtern("futhark_new_raw_" + M.Suffix(a)), "_", t.ctxPtr), "_", t.mutU8), "offset", "i64");
    Ret(RT.WithDims(start, M.RankCount(a.rank)), RT.PtrType(a))
  }

  function FreeExternFn(t: LegacyFixed, a: M.ArrayType): ExternFn {
    Ret(Arg(Arg(NewExtern("futhark_free_" + M.Suffix(a)), "_", t.ctxPtr), "_", RT.PtrType(a)), t.cInt)
  }

  function ValuesExternFn(t: LegacyFixed, a: M.ArrayType): ExternFn {
    Ret(Arg(Arg(Arg(NewExtern("futhark_values_" + M.Suffix(a)), "_", t.ctxPtr), "_", RT.PtrType(a)), "_", RT.ElemPtr(a)), t.cInt)
  }

  function ValuesRawExternFn(t: LegacyFixed, a: M.ArrayType): ExternFn {
    Ret(Arg(Arg(NewExtern("futhark_values_raw_" + M.Suffix(a)), "_", t.ctxPtr), "_", RT.PtrType(a)), t.mutU8)
  }

  /** `new` and `new_raw` take 2 + rank and 3 + rank parameters; unlike the newer generator, the element pointer stays `*mut`. */
  lemma NewExternArities(t: LegacyFixed, a: M.ArrayType)
    ensures |NewExternFn(t, a).args| == 2 + M.RankCount(a.rank)
    ensures |NewRawExternFn(t, a).args| == 3 + M.RankCount(a.rank)
    ensures NewExternFn(t, a).args[1] == Param("_", "*mut " + M.ToStr(a.elemtype))
    ensures forall i :: 0 <= i < M.RankCount(a.rank) ==> NewExternFn(t, a).args[2 + i] == Param("dim" + NatToString(i), "i64")
  {
    var n := M.RankCount(a.rank);
    var s1 := Arg(Arg(NewExtern(RT.NewFnName(a)), "_", t.ctxPtr), "_", RT.ElemPtr(a));
    var s2 := Arg(Arg(Arg(NewExtern("futhark_new_raw_" + M.Suffix(a)), "_", t.ctxPtr), "_", t.mutU8), "offset", "i64");
    RT.WithDimsContents(s1, n);
    RT.WithDimsContents(s2, n);
  }

  /** The two structs and the `impl` with `new`. */
  function ArrayDecls(t: LegacyFixed, a: M.ArrayType): seq<Item> {
    [Struct(RT.OriginalName(a), []),
     Struct(LegacyName(a), [Param("inner", RT.PtrType(a))]),
     Impl(LegacyName(a), "", [NewMethod(t, a)])]
  }

  /** The five externs, one raw item each. */
  function ArrayExterns(t: LegacyFixed, a: M.ArrayType): seq<Item> {
    GenItems(NewExternFn(t, a)) + GenItems(NewRawExternFn(t, a)) + GenItems(FreeExternFn(t, a)) +
    GenItems(ValuesExternFn(t, a)) + GenItems(ValuesRawExternFn(t, a))
  }

  /** Everything this `generate_array_type` pushes, in order. */
  function ArrayItems(t: LegacyFixed, a: M.ArrayType): seq<Item> {
    ArrayDecls(t, a) + ArrayExterns(t, a)
  }

  /** Three declarations, then one raw item per extern. */
  lemma ArrayItemsCount(t: LegacyFixed, a: M.ArrayType)
    ensures |ArrayItems(t, a)| == 8
    ensures ArrayItems(t, a)[1] == Struct(LegacyName(a), [Param("inner", RT.PtrType(a))])
    ensures ArrayItems(t, a)[3] == Raw(LegacyDecl(NewExternFn(t, a)))
  {
  }

  // ---------------------------------------------------------------- the typemap

  /** One registration: an array type's name maps to its pointer type; there is no second level. */
  function Register(m: TypeMap, k: string, ty: M.Type): TypeMap {
    if ty.Array? then m[k := RT.PtrType(ty.arrayType)] else m
  }

  /** The `typemap` after the type loop has visited `ks`. */
  function Registered(tm: TypeMap, types: map<string, M.Type>, ks: seq<string>): TypeMap
    requires forall i :: 0 <= i < |ks| ==> ks[i] in types
  {
    if |ks| == 0 then tm
    else Register(Registered(tm, types, ks[..|ks| - 1]), ks[|ks| - 1], types[ks[|ks| - 1]])
  }

  /**
   * Only names are registered: a key is in the final typemap exactly when
   * it was there before or is the name of an array type in `ks`.
   */
  lemma {:induction false} RegisteredKeys(tm: TypeMap, types: map<string, M.Type>, ks: seq<string>, x: string)
    requires forall i :: 0 <= i < |ks| ==> ks[i] in types
    ensures x in Registered(tm, types, ks) <==> x in tm || (x in ks && x in types && types[x].Array?)
    decreases |ks|
  {
    if |ks| > 0 {
      var n := |ks| - 1;
      var before := Registered(tm, types, ks[..n]);
      RegisteredKeys(tm, types, ks[..n], x);
      RegisterKeys(before, ks[n], types[ks[n]], x);
      assert ks == ks[..n] + [ks[n]];
    }
  }

  /** One registration adds the name of an array type and no other key. */
  lemma RegisterKeys(m: TypeMap, k: string, ty: M.Type, x: string)
    ensures x in Register(m, k, ty) <==> x in m || (x == k && ty.Array?)
  {
  }

  /** After the loop, an array type's name resolves to its pointer type, whatever came later. */
  lemma {:induction false} RegisteredName(tm: TypeMap, types: map<string, M.Type>, ks: seq<string>, j: nat)
    requires forall i :: 0 <= i < |ks| ==> ks[i] in types
    requires forall i, i2 :: 0 <= i < i2 < |ks| ==> ks[i] != ks[i2]
    requires j < |ks| && types[ks[j]].Array?
    ensures Resolve(Registered(tm, types, ks), ks[j]) == RT.PtrType(types[ks[j]].arrayType)
    decreases |ks|
  {
    var n := |ks| - 1;
    var before := Registered(tm, types, ks[..n]);
    assert Registered(tm, types, ks) == Register(before, ks[n], types[ks[n]]);
    RegisterResolve(before, ks[n], types[ks[n]], ks[j]);
    if j < n {
      assert ks[..n][j] == ks[j] && ks[j] != ks[n];
      RegisteredName(tm, types, ks[..n], j);
    }
  }

  /** One registration changes the resolution of its own key only. */
  lemma RegisterResolve(m: TypeMap, k: string, ty: M.Type, x: string)
    ensures Resolve(Register(m, k, ty), x) == if x == k && ty.Array? then RT.PtrType(ty.arrayType) else Resolve(m, x)
  {
  }

  /**
   * With no manifest name spelling a pointer type and none in the starting
   * map, a pointer type resolves to itself: the wrapper is never looked up.
   */
  lemma PointerUnregistered(tm: TypeMap, types: map<string, M.Type>, ks: seq<string>, a: M.ArrayType)
    requires forall i :: 0 <= i < |ks| ==> ks[i] in types
    requires RT.NoPointerNames(types) && RT.PtrType(a) !in tm
    ensures Resolve(Registered(tm, types, ks), RT.PtrType(a)) == RT.PtrType(a)
  {
    forall i | 0 <= i < |ks|
      ensures ks[i] != RT.PtrType(a)
    {
      RT.PtrTypeNotName(types, a, ks[i]);
    }
    assert RT.PtrType(a) !in ks;
    RegisteredKeys(tm, types, ks, RT.PtrType(a));
  }

  // ---------------------------------------------------------------- entry points

  /** The entry's extern: the context, `out{i}` per output, `input{j}` per input (`*const`), returning a status code. */
  function EntryExtern(t: LegacyFixed, tm: TypeMap, e: M.Entry): ExternFn {
    ExternFn(e.cfun, [Param("_", t.ctxPtr)] + RT.OutputParams(tm, e.outputs, |e.outputs|) + RT.InputParams(tm, e.inputs, |e.inputs|), t.cInt)
  }

  /** The argument order of the extern, and its status-code return. */
  lemma EntryExternOrder(t: LegacyFixed, tm: TypeMap, e: M.Entry)
    ensures var x := EntryExtern(t, tm, e);
      |x.args| == 1 + |e.outputs| + |e.inputs| && x.args[0] == Param("_", t.ctxPtr) && x.ret == t.cInt &&
      (forall i :: 0 <= i < |e.outputs| ==> x.args[1 + i] == Param(RT.OutName(i), Resolve(tm, e.outputs[i].typ))) &&
      (forall j :: 0 <= j < |e.inputs| ==>
        x.args[1 + |e.outputs| + j] == Param(RT.InName(j), ReplaceAll(Resolve(tm, e.inputs[j].typ), "*mut", "*const")))
  {
    var x := EntryExtern(t, tm, e);
    assert x.args == [Param("_", t.ctxPtr)] + RT.OutputParams(tm, e.outputs, |e.outputs|) + RT.InputParams(tm, e.inputs, |e.inputs|);
  }

  // ---------------------------------------------------------------- whole runs

  /** The config struct and its two externs. */
  function ConfigItems(t: LegacyFixed): seq<Item> {
    [t.configStruct] + GenItems(t.configNew) + GenItems(t.configFree)
  }

  /** The context struct, its three externs, `Error`, `Context` and its (empty) `impl`. */
  function ContextItems(t: LegacyFixed): seq<Item> {
    [t.contextStruct] + GenItems(t.contextNew) + GenItems(t.contextFree) + GenItems(t.contextSync) +
    [t.errorEnum, t.contextType, t.contextImpl]
  }

  /** The items pushed before the manifest is walked. */
  function Preamble(t: LegacyFixed): seq<Item> {
    ConfigItems(t) + ContextItems(t)
  }

  /** The items one type contributes: an array type's, or nothing for an opaque type. */
  function TypeItems(t: LegacyFixed, ty: M.Type): seq<Item> {
    if ty.Array? then ArrayItems(t, ty.arrayType) else []
  }

  function ArrayItemsAll(t: LegacyFixed, types: map<string, M.Type>, ks: seq<string>): seq<Item>
    requires forall i :: 0 <= i < |ks| ==> ks[i] in types
  {
    if |ks| == 0 then [] else ArrayItemsAll(t, types, ks[..|ks| - 1]) + TypeItems(t, types[ks[|ks| - 1]])
  }

  function EntryItemsAll(t: LegacyFixed, tm: TypeMap, eps: map<string, M.Entry>, es: seq<string>): seq<Item>
    requires forall i :: 0 <= i < |es| ==> es[i] in eps
  {
    if |es| == 0 then [] else EntryItemsAll(t, tm, eps, es[..|es| - 1]) + GenItems(EntryExtern(t, tm, eps[es[|es| - 1]]))
  }

  /** Each entry point contributes exactly one item, its extern. */
  lemma {:induction false} EntryItemsCount(t: LegacyFixed, tm: TypeMap, eps: map<string, M.Entry>, es: seq<string>)
    requires forall i :: 0 <= i < |es| ==> es[i] in eps
    ensures |EntryItemsAll(t, tm, eps, es)| == |es|
    ensures forall i :: 0 <= i < |es| ==> EntryItemsAll(t, tm, eps, es)[i] == Raw(LegacyDecl(EntryExtern(t, tm, eps[es[i]])))
    decreases |es|
  {
    if |es| > 0 {
      var n := |es| - 1;
      EntryItemsCount(t, tm, eps, es[..n]);
      var r := EntryItemsAll(t, tm, eps, es);
      assert r == EntryItemsAll(t, tm, eps, es[..n]) + GenItems(EntryExtern(t, tm, eps[es[n]]));
      forall i | 0 <= i < n
        ensures r[i] == Raw(LegacyDecl(EntryExtern(t, tm, eps[es[i]])))
      {
        assert es[..n][i] == es[i];
      }
    }
  }

  lemma TypeItemsStep(t: LegacyFixed, types: map<string, M.Type>, ks: seq<string>, i: nat)
    requires i < |ks| && forall j :: 0 <= j < |ks| ==> ks[j] in types
    ensures ArrayItemsAll(t, types, ks[..i + 1]) == ArrayItemsAll(t, types, ks[..i]) + TypeItems(t, types[ks[i]])
  {
    assert ks[..i + 1][..i] == ks[..i];
  }

  lemma RegisteredStep(tm: TypeMap, types: map<string, M.Type>, ks: seq<string>, i: nat)
    requires i < |ks| && forall j :: 0 <= j < |ks| ==> ks[j] in types
    ensures Registered(tm, types, ks[..i + 1]) == Register(Registered(tm, types, ks[..i]), ks[i], types[ks[i]])
  {
    assert ks[..i + 1][..i] == ks[..i];
  }

  lemma EntryStep(t: LegacyFixed, tm: TypeMap, eps: map<string, M.Entry>, es: seq<string>, i: nat)
    requires i < |es| && forall j :: 0 <= j < |es| ==> es[j] in eps
    ensures EntryItemsAll(t, tm, eps, es[..i + 1]) == EntryItemsAll(t, tm, eps, es[..i]) + GenItems(EntryExtern(t, tm, eps[es[i]]))
  {
    assert es[..i + 1][..i] == es[..i];
  }
}
