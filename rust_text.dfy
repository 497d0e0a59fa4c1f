/**
 * What the Rust generator (`src/generate/rust.rs`) puts into its scope, as
 * functions of the manifest and of its `typemap`: the context preamble, the
 * items of each array type, and one `impl Context` function plus one extern
 * per entry point. `RustGen.Rust.Generate` is proved to push exactly these
 * items; the lemmas here say what they mean.
 */
module RustText {
  import opened Strings
  import opened Registry
  import opened Scope
  import M = Manifest
  import OrderedMap

  /** `RUST_TYPE_MAP` is empty, so `typemap` starts empty. */
  const TypeTable: TypeMap := map[]

  /**
   * The fixed text of `generate` and its helpers: every string literal
   * that does not depend on the manifest, held in one value so that the
   * functions below take it as a parameter.
   */
  datatype RustFixed = RustFixed(
    allowUnused: string,
    privateField: Param,
    ctxPtr: string,
    cInt: string,
    configStruct: Item,
    configNew: ExternFn,
    configFree: ExternFn,
    contextStruct: Item,
    contextNew: ExternFn,
    contextFree: ExternFn,
    contextSync: ExternFn,
    errorEnum: Item,
    contextType: Item,
    contextImpl: Item,
    contextDrop: Item,
    phantom: string,
    ctxRef: string,
    resultSelf: string,
    resultUnit: string,
    letPtr: string,
    close: string,
    nullCheck: string,
    okSelf: string,
    sliceCheck: string,
    valuesCheck: string,
    letRc: string,
    rcCheck: string,
    okUnit: string,
    unsafeOpen: string,
    constU8: string,
    mutU8: string)

  const ConfigPtr: string := "*mut futhark_context_config"
  const ContextPtr: string := "*mut futhark_context"
  const CInt: string := "std::os::raw::c_int"
  const PrivateField: Param := Param("_private", "[u8; 0]")

  /** `Context::new` as `generate` emits it. */
  const ContextNewLines: seq<string> := [
    "let config = unsafe { futhark_context_config_new () };",
    "if config.is_null() { return Err(Error::NullPtr) }",
    "let context = unsafe { futhark_context_new(config) };",
    "if context.is_null() { return Err(Error::NullPtr) }",
    "Ok(Context { config, context })"]

  /** `Context::sync` as `generate` emits it. */
  const ContextSyncLines: seq<string> := [
    "let rc = unsafe { futhark_context_sync(self.context) };",
    "if rc != 0 { return Err(Error::Code(rc)) }",
    "Ok(())"]

  /** `Drop for Context` as `generate` emits it. */
  const ContextDropLines: seq<string> := [
    "unsafe {",
    "    futhark_context_free(self.context);",
    "    futhark_context_config_free(self.config);",
    "}"]

  const Fixed: RustFixed := RustFixed(
    "#[allow(unused)]",
    PrivateField,
    ContextPtr,
    CInt,
    Struct("futhark_context_config", [PrivateField]),
    Ret(NewExtern("futhark_context_config_new"), ConfigPtr),
    Arg(NewExtern("futhark_context_config_free"), "_", ConfigPtr),
    Struct("futhark_context", [PrivateField]),
    Ret(Arg(NewExtern("futhark_context_new"), "config", ConfigPtr), ContextPtr),
    Arg(NewExtern("futhark_context_free"), "_", ContextPtr),
    Ret(Arg(NewExtern("futhark_context_sync"), "_", ContextPtr), CInt),
    Enum("Error", ["Code(" + CInt + ")", "NullPtr", "InvalidShape"]),
    Struct("Context", [Param("config", ConfigPtr), Param("context", ContextPtr)]),
    Impl("Context", "", [
      Fn("new", NoSelf, [], "Result<Self, Error>", ContextNewLines),
      Fn("sync", RefSelf, [], "Result<(), Error>", ContextSyncLines)]),
    Impl("Context", "Drop", [Fn("drop", MutSelf, [], "", ContextDropLines)]),
    "std::marker::PhantomData<&'a ()>",
    "&'a Context",
    "Result<Self, Error>",
    "Result<(), Error>",
    "let ptr = unsafe {",
    "};",
    "if ptr.is_null() { return Err(Error::NullPtr); }",
    "Ok(Self { ptr: ptr as *mut _, shape: dims, ctx: ctx.context, _t: std::marker::PhantomData })",
    "if data.len() as i64 != dims.iter().fold(1, |a, b| a * b) { return Err(Error::InvalidShape); }",
    "if data.len() as i64 != self.shape.iter().fold(1, |a, b| a * b) { return Err(Error::InvalidShape); }",
    "let rc = unsafe {",
    "if rc != 0 { return Err(Error::Code(rc)) }",
    "Ok(())",
    "unsafe {",
    "*const u8",
    "*mut u8")

  // ---------------------------------------------------------------- extern text

  /** The `-> RET` part: present exactly when `ret` is non-empty. */
  function RetText(ret: string): string {
    if ret == "" then "" else "-> " + ret
  }

  /** `ExternFn::gen`'s text: `extern "C" { fn NAME(n1: t1, ..., nk: tk)-> RET;` and a closing brace. */
  function ExternDecl(f: ExternFn): string {
    "extern \"C\" { fn " + f.name + "(" + ParamList(f.args) + ")" + RetText(f.ret) + ";\n}\n"
  }

  /** `ExternFn::gen` pushes two raw items: the lint allowance, then the declaration. */
  function GenItems(t: RustFixed, f: ExternFn): seq<Item> {
    [Raw(t.allowUnused), Raw(ExternDecl(f))]
  }

  /**
   * The declaration opens with the name and the parameter list, ends with
   * `;\n}\n`, and carries `-> RET` exactly when the return type is non-empty.
   */
  lemma ExternDeclShape(f: ExternFn)
    ensures StartsWith(ExternDecl(f), "extern \"C\" { fn " + f.name + "(" + ParamList(f.args) + ")")
    ensures EndsWith(ExternDecl(f), ";\n}\n")
    ensures ExternDecl(f) == "extern \"C\" { fn " + f.name + "(" + ParamList(f.args) + ")" + RetText(f.ret) + ";\n}\n"
    ensures RetText(f.ret) == "" <==> f.ret == ""
    ensures f.ret != "" ==> RetText(f.ret) == "-> " + f.ret
  {
    var head := "extern \"C\" { fn " + f.name + "(" + ParamList(f.args) + ")";
    var tail := ";\n}\n";
    var d := ExternDecl(f);
    assert d == head + (RetText(f.ret) + tail);
    assert d[..|head|] == head;
    assert d == (head + RetText(f.ret)) + tail;
    assert d[|d| - |tail|..] == tail;
    if f.ret != "" {
      assert |RetText(f.ret)| > 0;
    }
  }

  // ---------------------------------------------------------------- array names

  /** `ArrayInfo`: the C struct name, its pointer type, the wrapper's name and the element's names. */
  datatype ArrayInfo = ArrayInfo(originalName: string, ptr: string, rustName: string, elem: string, elemPtr: string)

  /** `futhark_{elemtype}_{rank}d`. */
  function OriginalName(a: M.ArrayType): string {
    "futhark_" + M.Suffix(a)
  }

  /** `Array{ELEMTYPE}D{rank}`, the element type upper-cased. */
  function RustName(a: M.ArrayType): string {
    "Array" + ToAsciiUppercase(M.ToStr(a.elemtype)) + "D" + IntToString(a.rank)
  }

  /** `*mut futhark_{elemtype}_{rank}d`. */
  function PtrType(a: M.ArrayType): string {
    "*mut " + OriginalName(a)
  }

  /** `*mut {elemtype}`. */
  function ElemPtr(a: M.ArrayType): string {
    "*mut " + M.ToStr(a.elemtype)
  }

  /** The `ArrayInfo` `generate_array_type` returns. */
  function Info(a: M.ArrayType): ArrayInfo {
    ArrayInfo(OriginalName(a), PtrType(a), RustName(a), M.ToStr(a.elemtype), ElemPtr(a))
  }

  /** No element type's name holds '_' or '*'. */
  lemma TagPlain(e: M.ElemType)
    ensures '_' !in M.ToStr(e) && '*' !in M.ToStr(e)
  {
  }

  /**
   * The pointer type determines the element type and the rank, so two
   * array types that share a pointer type share their wrapper's name.
   */
  lemma PtrTypeInjective(a: M.ArrayType, b: M.ArrayType)
    requires PtrType(a) == PtrType(b)
    ensures a.elemtype == b.elemtype && a.rank == b.rank
    ensures RustName(a) == RustName(b)
  {
    TagPlain(a.elemtype);
    TagPlain(b.elemtype);
    PtrSpellingParts(M.ToStr(a.elemtype), IntToString(a.rank), M.ToStr(b.elemtype), IntToString(b.rank));
    M.ToStrInjective(a.elemtype, b.elemtype);
    IntToStringInjective(a.rank, b.rank);
  }

  /** `*mut futhark_{x}_{r}d` gives back `x` and `r` when `x` has no '_'. */
  lemma PtrSpellingParts(x: string, r: string, x2: string, r2: string)
    requires '_' !in x && '_' !in x2
    requires "*mut " + ("futhark_" + (x + "_" + r + "d")) == "*mut " + ("futhark_" + (x2 + "_" + r2 + "d"))
    ensures x == x2 && r == r2
  {
    var s, s2 := x + "_" + r + "d", x2 + "_" + r2 + "d";
    assert s == ("*mut " + ("futhark_" + s))[13..];
    assert s2 == ("*mut " + ("futhark_" + s2))[13..];
    var y, y2 := r + "d", r2 + "d";
    assert s == x + ['_'] + y;
    assert s2 == x2 + ['_'] + y2;
    SplitAtFirst(x, y, x2, y2, '_');
    assert r == y[..|y| - 1] == r2;
  }

  /** Wrapper names carry the `Array` marker the entry-point loops test with `contains`. */
  lemma RustNameMarked(a: M.ArrayType)
    ensures Contains(RustName(a), "Array")
  {
    var s := RustName(a);
    assert s[..5] == "Array";
    ContainsWhenStartsWith(s, "Array");
  }

  /** A pointer type is no manifest name when manifest names never spell a `*mut` pointer. */
  lemma PtrTypeSpelling(a: M.ArrayType)
    ensures StartsWith(PtrType(a), "*mut ")
  {
    assert PtrType(a)[..5] == "*mut ";
  }

  // ---------------------------------------------------------------- array items

  /** `format!("[i64; {}]", rank)`. */
  function DimsType(a: M.ArrayType): string {
    "[i64; " + IntToString(a.rank) + "]"
  }

  /** `dim_params`: `dims[0]`, ..., `dims[n-1]`. */
  function DimRefs(n: nat): (r: seq<string>)
    ensures |r| == n
  {
    seq(n, i requires 0 <= i < n => "dims[" + NatToString(i) + "]")
  }

  /** `futhark_new_{elemtype}_{rank}d`. */
  function NewFnName(a: M.ArrayType): string {
    "futhark_new_" + M.Suffix(a)
  }

  /** The opaque C struct and the wrapper struct. */
  function ArrayStructs(t: RustFixed, a: M.ArrayType): seq<Item> {
    [Struct(OriginalName(a), [t.privateField]),
     Struct(RustName(a), [Param("ptr", PtrType(a)), Param("pub shape", DimsType(a)),
                          Param("ctx", t.ctxPtr), Param("_t", t.phantom)])]
  }

  /** The wrapper's `new`: an empty array of the given dimensions. */
  function ArrayNewFn(t: RustFixed, a: M.ArrayType, dims: string): Fn {
    Fn("new", NoSelf, [Param("ctx", t.ctxRef), Param("dims", DimsType(a))], t.resultSelf,
       [t.letPtr, "    " + NewFnName(a) + "(ctx.context, std::ptr::null(), " + dims + ")", t.close, t.nullCheck, t.okSelf])
  }

  /** The wrapper's `from_slice`: the shape check, then the same call with the slice's data. */
  function FromSliceFn(t: RustFixed, a: M.ArrayType, dims: string): Fn {
    Fn("from_slice", NoSelf,
       [Param("ctx", t.ctxRef), Param("dims", DimsType(a)), Param("data", "&[" + M.ToStr(a.elemtype) + "]")],
       t.resultSelf,
       [t.sliceCheck, t.letPtr, "    " + NewFnName(a) + "(ctx.context, data.as_ptr(), " + dims + ")",
        t.close, t.nullCheck, t.okSelf])
  }

  /** The wrapper's `values`: the shape check, then the copy, then the status code. */
  function ValuesFn(t: RustFixed, a: M.ArrayType): Fn {
    Fn("values", RefSelf, [Param("data", "&mut [" + M.ToStr(a.elemtype) + "]")], t.resultUnit,
       [t.valuesCheck, t.letRc,
        "    futhark_values_" + M.Suffix(a) + "(self.ctx, self.ptr as *mut _, data.as_mut_ptr())",
        t.close, t.rcCheck, t.okUnit])
  }

  /** `Drop`: one call to the array's `free`. */
  function DropFn(t: RustFixed, a: M.ArrayType): Fn {
    Fn("drop", MutSelf, [], "", [t.unsafeOpen, "    futhark_free_" + M.Suffix(a) + "(self.ctx, self.ptr as *mut _);", "}"])
  }

  /** The inherent `impl` with `new`, `from_slice` and `values`, then the `Drop` impl. */
  function ArrayImpls(t: RustFixed, a: M.ArrayType): seq<Item> {
    var dims := Join(DimRefs(M.RankCount(a.rank)), ", ");
    [Impl(RustName(a), "", [ArrayNewFn(t, a, dims), FromSliceFn(t, a, dims), ValuesFn(t, a)]),
     Impl(RustName(a), "Drop", [DropFn(t, a)])]
  }

  /** The `for i in 0..rank` loops adding `dim{i}: i64` parameters. */
  function WithDims(f: ExternFn, n: nat): ExternFn {
    if n == 0 then f else Arg(WithDims(f, n - 1), "dim" + NatToString(n - 1), "i64")
  }

  /** Each pass adds `dim{i}: i64` at the end; name and return type stay. */
  lemma {:induction false} WithDimsContents(f: ExternFn, n: nat)
    ensures WithDims(f, n).name == f.name && WithDims(f, n).ret == f.ret
    ensures |WithDims(f, n).args| == |f.args| + n
    ensures WithDims(f, n).args[..|f.args|] == f.args
    ensures forall i :: 0 <= i < n ==> WithDims(f, n).args[|f.args| + i] == Param("dim" + NatToString(i), "i64")
  {
    if n > 0 {
      WithDimsContents(f, n - 1);
      var g := WithDims(f, n - 1);
      BuilderLaws(g, "dim" + NatToString(n - 1), "i64", "");
      assert WithDims(f, n).args == g.args + [Param("dim" + NatToString(n - 1), "i64")];
      assert WithDims(f, n).args[..|f.args|] == g.args[..|f.args|];
    }
  }

  /** The `new` extern: context, `*const` element pointer, then the dimensions. */
  function NewExternFn(t: RustFixed, a: M.ArrayType): ExternFn {
    var start := Arg(Arg(NewExtern(NewFnName(a)), "_", t.ctxPtr), "_", ReplaceAll(ElemPtr(a), "*mut", "*const"));
    Ret(WithDims(start, M.RankCount(a.rank)), PtrType(a))
  }

  /** The `new_raw` extern: context, byte pointer, offset, then the dimensions. */
  function NewRawExternFn(t: RustFixed, a: M.ArrayType): ExternFn {
    var start := Arg(Arg(Arg(NewExtern("futhark_new_raw_" + M.Suffix(a)), "_", t.ctxPtr), "_", t.constU8), "offset", "i64");
    Ret(WithDims(start, M.RankCount(a.rank)), PtrType(a))
  }

  function FreeExternFn(t: RustFixed, a: M.ArrayType): ExternFn {
    Ret(Arg(Arg(NewExtern("futhark_free_" + M.Suffix(a)), "_", t.ctxPtr), "_", PtrType(a)), t.cInt)
  }

  function ValuesExternFn(t: RustFixed, a: M.ArrayType): ExternFn {
    Ret(Arg(Arg(Arg(NewExtern("futhark_values_" + M.Suffix(a)), "_", t.ctxPtr), "_", PtrType(a)), "_", ElemPtr(a)), t.cInt)
  }

  function ValuesRawExternFn(t: RustFixed, a: M.ArrayType): ExternFn {
    Ret(Arg(Arg(NewExtern("futhark_values_raw_" + M.Suffix(a)), "_", t.ctxPtr), "_", PtrType(a)), t.mutU8)
  }

  /** `ElemPtr` with `*mut` replaced: `*const {elemtype}`. */
  lemma ConstElemPtr(a: M.ArrayType)
    ensures ReplaceAll(ElemPtr(a), "*mut", "*const") == "*const " + M.ToStr(a.elemtype)
  {
    var e := M.ToStr(a.elemtype);
    TagPlain(a.elemtype);
    assert '*' !in " " + e;
    assert ElemPtr(a) == "*mut" + (" " + e);
    ReplaceAllLeading(" " + e, "*mut", "*const");
    ReplaceAllAbsent(" " + e, "*mut", "*const");
  }

  /** `new` takes 2 + rank parameters, `new_raw` 3 + rank, the last `rank` of each `dim0`..`dim{rank-1}`. */
  lemma NewExternArities(t: RustFixed, a: M.ArrayType)
    ensures |NewExternFn(t, a).args| == 2 + M.RankCount(a.rank)
    ensures |NewRawExternFn(t, a).args| == 3 + M.RankCount(a.rank)
    ensures NewExternFn(t, a).args[..2] == [Param("_", t.ctxPtr), Param("_", "*const " + M.ToStr(a.elemtype))]
    ensures forall i :: 0 <= i < M.RankCount(a.rank) ==>
      NewExternFn(t, a).args[2 + i] == Param("dim" + NatToString(i), "i64") &&
      NewRawExternFn(t, a).args[3 + i] == Param("dim" + NatToString(i), "i64")
    ensures NewExternFn(t, a).ret == PtrType(a) && NewRawExternFn(t, a).ret == PtrType(a)
  {
    var n := M.RankCount(a.rank);
    ConstElemPtr(a);
    var s1 := Arg(Arg(NewExtern(NewFnName(a)), "_", t.ctxPtr), "_", ReplaceAll(ElemPtr(a), "*mut", "*const"));
    var s2 := Arg(Arg(Arg(NewExtern("futhark_new_raw_" + M.Suffix(a)), "_", t.ctxPtr), "_", t.constU8), "offset", "i64");
    WithDimsContents(s1, n);
    WithDimsContents(s2, n);
  }

  /** The five externs of an array type, each pushed by `gen`. */
  function ArrayExterns(t: RustFixed, a: M.ArrayType): seq<Item> {
    GenItems(t, NewExternFn(t, a)) + GenItems(t, NewRawExternFn(t, a)) + GenItems(t, FreeExternFn(t, a)) +
    GenItems(t, ValuesExternFn(t, a)) + GenItems(t, ValuesRawExternFn(t, a))
  }

  /** Everything `generate_array_type` pushes, in order. */
  function ArrayItems(t: RustFixed, a: M.ArrayType): seq<Item> {
    ArrayStructs(t, a) + ArrayImpls(t, a) + ArrayExterns(t, a)
  }

  /** Four items, then two raw items for each of the five externs. */
  lemma ArrayItemsCount(t: RustFixed, a: M.ArrayType)
    ensures |ArrayItems(t, a)| == 14
    ensures ArrayItems(t, a)[2] == Impl(RustName(a), "", [
      ArrayNewFn(t, a, Join(DimRefs(M.RankCount(a.rank)), ", ")),
      FromSliceFn(t, a, Join(DimRefs(M.RankCount(a.rank)), ", ")),
      ValuesFn(t, a)])
    ensures ArrayItems(t, a)[5] == Raw(ExternDecl(NewExternFn(t, a)))
  {
  }

  // ---------------------------------------------------------------- the typemap

  /**
   * The `typemap` after `generate`'s loop has visited `ks`: for every array
   * type, its manifest name maps to its pointer type and the pointer type
   * to its wrapper's name. Opaque types are skipped.
   */
  function Registered(tm: TypeMap, types: map<string, M.Type>, ks: seq<string>): TypeMap
    requires forall i :: 0 <= i < |ks| ==> ks[i] in types
  {
    if |ks| == 0 then tm
    else
      var m := Registered(tm, types, ks[..|ks| - 1]);
      Register(m, ks[|ks| - 1], types[ks[|ks| - 1]])
  }

  /** Manifest type names never spell a Rust `*mut` pointer type. */
  predicate NoPointerNames(types: map<string, M.Type>) {
    forall k :: k in types ==> !StartsWith(k, "*mut ")
  }

  /** A pointer type is never a manifest name. */
  lemma PtrTypeNotName(types: map<string, M.Type>, a: M.ArrayType, k: string)
    requires NoPointerNames(types) && k in types
    ensures PtrType(a) != k
  {
    PtrTypeSpelling(a);
  }

  /** Registering one type leaves every entry alone that is neither its name nor its pointer type. */
  lemma RegisterOther(m: TypeMap, k: string, ty: M.Type, x: string)
    requires x != k && (ty.Array? ==> x != PtrType(ty.arrayType))
    ensures Resolve(Register(m, k, ty), x) == Resolve(m, x)
  {
  }

  /** A manifest name other than the one being registered keeps its entry. */
  lemma RegisterOtherName(m: TypeMap, k: string, ty: M.Type, types: map<string, M.Type>, x: string)
    requires NoPointerNames(types) && x in types && x != k
    ensures Resolve(Register(m, k, ty), x) == Resolve(m, x)
  {
    if ty.Array? {
      PtrTypeNotName(types, ty.arrayType, x);
    }
  }

  /** An array type's manifest name resolves to its pointer type right after it is registered. */
  lemma RegisterOwnName(m: TypeMap, k: string, types: map<string, M.Type>)
    requires NoPointerNames(types) && k in types && types[k].Array?
    ensures Resolve(Register(m, k, types[k]), k) == PtrType(types[k].arrayType)
  {
    PtrTypeNotName(types, types[k].arrayType, k);
  }

  /**
   * A pointer type keeps its wrapper's name when another type is registered:
   * an array type with the same pointer type has the same name.
   */
  lemma RegisterKeepsWrapper(m: TypeMap, k: string, types: map<string, M.Type>, a: M.ArrayType)
    requires NoPointerNames(types) && k in types
    requires Resolve(m, PtrType(a)) == RustName(a)
    ensures Resolve(Register(m, k, types[k]), PtrType(a)) == RustName(a)
  {
    PtrTypeNotName(types, a, k);
    var ty := types[k];
    if ty.Array? && PtrType(a) == PtrType(ty.arrayType) {
      PtrTypeInjective(a, ty.arrayType);
    }
  }

  /** An array type's pointer type resolves to its wrapper's name right after it is registered. */
  lemma RegisterOwnWrapper(m: TypeMap, k: string, types: map<string, M.Type>)
    requires k in types && types[k].Array?
    ensures Resolve(Register(m, k, types[k]), PtrType(types[k].arrayType)) == RustName(types[k].arrayType)
  {
  }

  /**
   * The first level: once the loop is over, every array type's name
   * resolves to its pointer type, whatever types came later in the walk.
   */
  lemma {:induction false} RegisteredName(tm: TypeMap, types: map<string, M.Type>, ks: seq<string>, j: nat)
    requires forall i :: 0 <= i < |ks| ==> ks[i] in types
    requires forall i, i2 :: 0 <= i < i2 < |ks| ==> ks[i] != ks[i2]
    requires NoPointerNames(types)
    requires j < |ks| && types[ks[j]].Array?
    ensures Resolve(Registered(tm, types, ks), ks[j]) == PtrType(types[ks[j]].arrayType)
    decreases |ks|
  {
    var n := |ks| - 1;
    var m := Registered(tm, types, ks[..n]);
    assert Registered(tm, types, ks) == Register(m, ks[n], types[ks[n]]);
    if j < n {
      RegisteredName(tm, types, ks[..n], j);
      assert ks[..n][j] == ks[j];
      RegisterOtherName(m, ks[n], types[ks[n]], types, ks[j]);
    } else {
      RegisterOwnName(m, ks[n], types);
    }
  }

  /**
   * The second level: the pointer type of every array type resolves to
   * its wrapper's name; a later array type with the same pointer type
   * re-registers the same name.
   */
  lemma {:induction false} RegisteredWrapper(tm: TypeMap, types: map<string, M.Type>, ks: seq<string>, j: nat)
    requires forall i :: 0 <= i < |ks| ==> ks[i] in types
    requires NoPointerNames(types)
    requires j < |ks| && types[ks[j]].Array?
    ensures Resolve(Registered(tm, types, ks), PtrType(types[ks[j]].arrayType)) == RustName(types[ks[j]].arrayType)
    decreases |ks|
  {
    var n := |ks| - 1;
    var m := Registered(tm, types, ks[..n]);
    assert Registered(tm, types, ks) == Register(m, ks[n], types[ks[n]]);
    if j < n {
      RegisteredWrapper(tm, types, ks[..n], j);
      assert ks[..n][j] == ks[j];
      RegisterKeepsWrapper(m, ks[n], types, types[ks[j]].arrayType);
    } else {
      RegisterOwnWrapper(m, ks[n], types);
    }
  }

  /**
   * A type no array was registered under (an element type such as `i64`)
   * resolves to itself at both levels.
   */
  lemma {:induction false} RegisteredUnknown(tm: TypeMap, types: map<string, M.Type>, ks: seq<string>, s: string)
    requires forall i :: 0 <= i < |ks| ==> ks[i] in types
    requires s !in tm && s !in types && !StartsWith(s, "*mut ")
    ensures Resolve(Registered(tm, types, ks), s) == s
    decreases |ks|
  {
    if |ks| > 0 {
      RegisteredUnknown(tm, types, ks[..|ks| - 1], s);
      if types[ks[|ks| - 1]].Array? {
        PtrTypeSpelling(types[ks[|ks| - 1]].arrayType);
      }
    }
  }

  // ---------------------------------------------------------------- entry points

  /** `out{i}`. */
  function OutName(i: nat): string {
    "out" + NatToString(i)
  }

  /** `input{i}`. */
  function InName(i: nat): string {
    "input" + NatToString(i)
  }

  /** The second lookup: from the pointer type to the wrapper's name, if any. */
  function Wrapper(tm: TypeMap, typ: string): string {
    Resolve(tm, Resolve(tm, typ))
  }

  /** A wrapper argument is borrowed (`&mut` for outputs, `&` for inputs); others keep their type. */
  function WrapperArg(name: string, t2: string, borrow: string): Param {
    if Contains(t2, "Array") then Param(name, borrow + t2) else Param(name, t2)
  }

  /** At the call site a wrapper is unwrapped to its pointer. */
  function CallArg(name: string, t2: string): string {
    if Contains(t2, "Array") then name + ".ptr as *mut _" else name
  }

  /** The extern parameters of the first `n` outputs: `out{i}` with the first lookup's type. */
  function OutputParams(tm: TypeMap, outs: seq<M.Output>, n: nat): (r: seq<Param>)
    requires n <= |outs|
    ensures |r| == n
  {
    seq(n, i requires 0 <= i < n => Param(OutName(i), Resolve(tm, outs[i].typ)))
  }

  /** The extern parameters of the first `n` inputs: `input{i}`, `*mut` rewritten to `*const`. */
  function InputParams(tm: TypeMap, ins: seq<M.Input>, n: nat): (r: seq<Param>)
    requires n <= |ins|
    ensures |r| == n
  {
    seq(n, i requires 0 <= i < n => Param(InName(i), ReplaceAll(Resolve(tm, ins[i].typ), "*mut", "*const")))
  }

  /** The wrapper function's arguments for the first `n` outputs. */
  function FuncOutputs(tm: TypeMap, outs: seq<M.Output>, n: nat): (r: seq<Param>)
    requires n <= |outs|
    ensures |r| == n
  {
    seq(n, i requires 0 <= i < n => WrapperArg(OutName(i), Wrapper(tm, outs[i].typ), "&mut "))
  }

  /** The wrapper function's arguments for the first `n` inputs. */
  function FuncInputs(tm: TypeMap, ins: seq<M.Input>, n: nat): (r: seq<Param>)
    requires n <= |ins|
    ensures |r| == n
  {
    seq(n, i requires 0 <= i < n => WrapperArg(InName(i), Wrapper(tm, ins[i].typ), "&"))
  }

  /** `call_args` for the first `n` outputs. */
  function CallOutputs(tm: TypeMap, outs: seq<M.Output>, n: nat): (r: seq<string>)
    requires n <= |outs|
    ensures |r| == n
  {
    seq(n, i requires 0 <= i < n => CallArg(OutName(i), Wrapper(tm, outs[i].typ)))
  }

  /** `call_args` for the first `n` inputs. */
  function CallInputs(tm: TypeMap, ins: seq<M.Input>, n: nat): (r: seq<string>)
    requires n <= |ins|
    ensures |r| == n
  {
    seq(n, i requires 0 <= i < n => CallArg(InName(i), Wrapper(tm, ins[i].typ)))
  }

  /** The entry point's extern: the context, the outputs, the inputs, returning a status code. */
  function EntryExtern(t: RustFixed, tm: TypeMap, e: M.Entry): ExternFn {
    ExternFn(e.cfun, [Param("_", t.ctxPtr)] + OutputParams(tm, e.outputs, |e.outputs|) + InputParams(tm, e.inputs, |e.inputs|), t.cInt)
  }

  /** The call of the C function inside the wrapper, the arguments joined by ", ". */
  function CallLine(cfun: string, calls: seq<string>): string {
    cfun + "(self.context, " + Join(calls, ", ") + ")"
  }

  /** The wrapper function `generate_entry_function` adds to `impl Context`. */
  function EntryFn(t: RustFixed, name: string, tm: TypeMap, e: M.Entry): Fn {
    var calls := CallOutputs(tm, e.outputs, |e.outputs|) + CallInputs(tm, e.inputs, |e.inputs|);
    Fn(name, RefSelf, FuncOutputs(tm, e.outputs, |e.outputs|) + FuncInputs(tm, e.inputs, |e.inputs|), t.resultUnit,
       [t.letRc, CallLine(e.cfun, calls), t.close, t.rcCheck, t.okUnit])
  }

  /** Everything `generate_entry_function` pushes: a new `impl Context` block, then the extern. */
  function EntryItems(t: RustFixed, tm: TypeMap, name: string, e: M.Entry): seq<Item> {
    [Impl("Context", "", [EntryFn(t, name, tm, e)])] + GenItems(t, EntryExtern(t, tm, e))
  }

  /**
   * Argument order in the extern: the context, then `out{i}` for every
   * output with the first lookup's type, then `input{j}` for every input
   * with `*mut` rewritten to `*const`; the status code is returned.
   */
  lemma EntryExternOrder(t: RustFixed, tm: TypeMap, e: M.Entry)
    ensures var x := EntryExtern(t, tm, e);
      |x.args| == 1 + |e.outputs| + |e.inputs| && x.args[0] == Param("_", t.ctxPtr) && x.ret == t.cInt &&
      (forall i :: 0 <= i < |e.outputs| ==> x.args[1 + i] == Param(OutName(i), Resolve(tm, e.outputs[i].typ))) &&
      (forall j :: 0 <= j < |e.inputs| ==>
        x.args[1 + |e.outputs| + j] == Param(InName(j), ReplaceAll(Resolve(tm, e.inputs[j].typ), "*mut", "*const")))
  {
    var x := EntryExtern(t, tm, e);
    var outs := OutputParams(tm, e.outputs, |e.outputs|);
    assert x.args == [Param("_", t.ctxPtr)] + outs + InputParams(tm, e.inputs, |e.inputs|);
  }

  /**
   * Argument order at the call site: the wrapper calls the C function with
   * the context, then the outputs, then the inputs, in declared order, and
   * a non-zero status becomes `Error::Code(rc)`.
   */
  lemma EntryCallOrder(t: RustFixed, tm: TypeMap, name: string, e: M.Entry)
    ensures var calls := CallOutputs(tm, e.outputs, |e.outputs|) + CallInputs(tm, e.inputs, |e.inputs|);
      |calls| == |e.outputs| + |e.inputs| &&
      (forall i :: 0 <= i < |e.outputs| ==> calls[i] == CallArg(OutName(i), Wrapper(tm, e.outputs[i].typ))) &&
      (forall j :: 0 <= j < |e.inputs| ==> calls[|e.outputs| + j] == CallArg(InName(j), Wrapper(tm, e.inputs[j].typ))) &&
      EntryFn(t, name, tm, e).lines[1] == CallLine(e.cfun, calls) &&
      EntryFn(t, name, tm, e).lines[3] == t.rcCheck &&
      |EntryFn(t, name, tm, e).args| == |e.outputs| + |e.inputs|
  {
  }

  /** The names `out{i}` and `input{j}` are pairwise distinct, so no argument shadows another. */
  lemma ArgumentNamesDistinct(i: nat, j: nat)
    ensures OutName(i) != InName(j)
    ensures OutName(i) == OutName(j) ==> i == j
    ensures InName(i) == InName(j) ==> i == j
  {
    assert OutName(i)[..3] == "out";
    assert InName(j)[..3] == "inp";
    if OutName(i) == OutName(j) {
      assert NatToString(i) == OutName(i)[3..] == OutName(j)[3..] == NatToString(j);
      NatToStringInjective(i, j);
    }
    if InName(i) == InName(j) {
      assert NatToString(i) == InName(i)[5..] == InName(j)[5..] == NatToString(j);
      NatToStringInjective(i, j);
    }
  }

  /** An input's pointer type is the same C type behind `*const`. */
  lemma ConstPtrSpelling(a: M.ArrayType)
    ensures ReplaceAll(PtrType(a), "*mut", "*const") == "*const " + OriginalName(a)
  {
    var o := OriginalName(a);
    TagPlain(a.elemtype);
    IntToStringChars(a.rank, '*');
    assert '*' !in M.Suffix(a);
    assert PtrType(a) == "*mut" + (" " + o);
    ReplaceAllLeading(" " + o, "*mut", "*const");
    ReplaceAllAbsent(" " + o, "*mut", "*const");
  }

  /**
   * With a type map that sends a name to an array type's pointer type and
   * that to the wrapper's name, an argument of that name is taken as a
   * borrowed wrapper and passed as `{name}.ptr as *mut _`.
   */
  lemma WrappedArgument(r: TypeMap, k: string, a: M.ArrayType, name: string)
    requires Resolve(r, k) == PtrType(a) && Resolve(r, PtrType(a)) == RustName(a)
    ensures Wrapper(r, k) == RustName(a)
    ensures WrapperArg(name, Wrapper(r, k), "&mut ") == Param(name, "&mut " + RustName(a))
    ensures WrapperArg(name, Wrapper(r, k), "&") == Param(name, "&" + RustName(a))
    ensures CallArg(name, Wrapper(r, k)) == name + ".ptr as *mut _"
  {
    RustNameMarked(a);
  }

  /**
   * After `generate`'s type loop, an argument whose manifest type is an
   * array type is declared with the pointer type (`*const` for inputs),
   * taken as a borrowed wrapper, and passed as `{name}.ptr as *mut _`.
   */
  lemma ArrayArgumentsUnwrapped(tm: TypeMap, types: map<string, M.Type>, ks: seq<string>, j: nat, name: string)
    requires forall i :: 0 <= i < |ks| ==> ks[i] in types
    requires forall i, i2 :: 0 <= i < i2 < |ks| ==> ks[i] != ks[i2]
    requires NoPointerNames(types)
    requires j < |ks| && types[ks[j]].Array?
    ensures var r := Registered(tm, types, ks);
      var a := types[ks[j]].arrayType;
      Resolve(r, ks[j]) == PtrType(a) &&
      ReplaceAll(Resolve(r, ks[j]), "*mut", "*const") == "*const " + OriginalName(a) &&
      Wrapper(r, ks[j]) == RustName(a) &&
      CallArg(name, Wrapper(r, ks[j])) == name + ".ptr as *mut _"
  {
    var a := types[ks[j]].arrayType;
    var r := Registered(tm, types, ks);
    RegisteredName(tm, types, ks, j);
    RegisteredWrapper(tm, types, ks, j);
    ConstPtrSpelling(a);
    WrappedArgument(r, ks[j], a, name);
  }

  /** A scalar argument (an element type's name) keeps its name and type and is passed as is. */
  lemma ScalarArgumentsBare(tm: TypeMap, types: map<string, M.Type>, ks: seq<string>, e: M.ElemType, name: string)
    requires forall i :: 0 <= i < |ks| ==> ks[i] in types
    requires M.ToStr(e) !in tm && M.ToStr(e) !in types
    ensures var r := Registered(tm, types, ks);
      Resolve(r, M.ToStr(e)) == M.ToStr(e) && Wrapper(r, M.ToStr(e)) == M.ToStr(e) &&
      WrapperArg(name, Wrapper(r, M.ToStr(e)), "&") == Param(name, M.ToStr(e)) &&
      CallArg(name, Wrapper(r, M.ToStr(e))) == name
  {
    var s := M.ToStr(e);
    TagPlain(e);
    assert s[0] != '*';
    RegisteredUnknown(tm, types, ks, s);
    assert !Contains(s, "Array") by {
      assert forall i :: 0 <= i < |s| ==> s[i] != 'A';
      NotContainsWithoutFirstChar(s, "Array");
    }
  }

  // ---------------------------------------------------------------- whole runs

  /** The config struct and its `new` and `free` externs. */
  function ConfigItems(t: RustFixed): seq<Item> {
    [t.configStruct] + GenItems(t, t.configNew) + GenItems(t, t.configFree)
  }

  /** The context struct, its `new`, `free` and `sync` externs, `Error`, `Context` and its two impls. */
  function ContextItems(t: RustFixed): seq<Item> {
    [t.contextStruct] + GenItems(t, t.contextNew) + GenItems(t, t.contextFree) + GenItems(t, t.contextSync) +
    [t.errorEnum, t.contextType, t.contextImpl, t.contextDrop]
  }

  /** The items `generate` pushes before walking the manifest. */
  function Preamble(t: RustFixed): seq<Item> {
    ConfigItems(t) + ContextItems(t)
  }

  /** The items one type contributes: an array type's, or nothing for an opaque type. */
  function TypeItems(t: RustFixed, ty: M.Type): seq<Item> {
    if ty.Array? then ArrayItems(t, ty.arrayType) else []
  }

  /** The registrations one type makes: name to pointer type, pointer type to wrapper. */
  function Register(m: TypeMap, k: string, ty: M.Type): TypeMap {
    if ty.Array? then m[k := PtrType(ty.arrayType)][PtrType(ty.arrayType) := RustName(ty.arrayType)] else m
  }

  /** The items of the array types among `ks`, in walking order. */
  function ArrayItemsAll(t: RustFixed, types: map<string, M.Type>, ks: seq<string>): seq<Item>
    requires forall i :: 0 <= i < |ks| ==> ks[i] in types
  {
    if |ks| == 0 then []
    else
      ArrayItemsAll(t, types, ks[..|ks| - 1]) + TypeItems(t, types[ks[|ks| - 1]])
  }

  /** The items of the entry points `es`, in walking order, read through `tm`. */
  function EntryItemsAll(t: RustFixed, tm: TypeMap, eps: map<string, M.Entry>, es: seq<string>): seq<Item>
    requires forall i :: 0 <= i < |es| ==> es[i] in eps
  {
    if |es| == 0 then [] else EntryItemsAll(t, tm, eps, es[..|es| - 1]) + EntryItems(t, tm, es[|es| - 1], eps[es[|es| - 1]])
  }

  /** One step of the type walk: the items. */
  lemma TypeItemsStep(t: RustFixed, types: map<string, M.Type>, ks: seq<string>, i: nat)
    requires i < |ks| && forall j :: 0 <= j < |ks| ==> ks[j] in types
    ensures ArrayItemsAll(t, types, ks[..i + 1]) == ArrayItemsAll(t, types, ks[..i]) + TypeItems(t, types[ks[i]])
  {
    assert ks[..i + 1][..i] == ks[..i];
  }

  /** One step of the type walk: the registrations. */
  lemma RegisteredStep(tm: TypeMap, types: map<string, M.Type>, ks: seq<string>, i: nat)
    requires i < |ks| && forall j :: 0 <= j < |ks| ==> ks[j] in types
    ensures Registered(tm, types, ks[..i + 1]) == Register(Registered(tm, types, ks[..i]), ks[i], types[ks[i]])
  {
    assert ks[..i + 1][..i] == ks[..i];
  }

  /** One step of the entry walk. */
  lemma EntryStep(t: RustFixed, tm: TypeMap, eps: map<string, M.Entry>, es: seq<string>, i: nat)
    requires i < |es| && forall j :: 0 <= j < |es| ==> es[j] in eps
    ensures EntryItemsAll(t, tm, eps, es[..i + 1]) == EntryItemsAll(t, tm, eps, es[..i]) + EntryItems(t, tm, es[i], eps[es[i]])
  {
    assert es[..i + 1][..i] == es[..i];
  }
}
