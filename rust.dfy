/**
 * The Rust generator of `src/generate/rust.rs` as it runs: a `typemap`
 * filled while the manifest's array types are generated and read back for
 * every entry point, and the `codegen::Scope` it appends items to, kept as
 * the sequence of items pushed so far.
 */
module RustGen {
  import opened Wrappers
  import opened Strings
  import opened Registry
  import opened Scope
  import opened RustText
  import opened Lib
  import M = Manifest
  import LibCompile

  /** `dim_params`: the `for i in 0..rank` loop pushing `dims[{i}]`. */
  method DimParams(rank: int) returns (ps: seq<string>)
    ensures ps == DimRefs(M.RankCount(rank))
  {
    ps := [];
    var i := 0;
    while i < rank
      invariant 0 <= i <= M.RankCount(rank)
      invariant |ps| == i
      invariant forall j :: 0 <= j < i ==> ps[j] == "dims[" + NatToString(j) + "]"
    {
      ps := ps + ["dims[" + NatToString(i) + "]"];
      i := i + 1;
    }
  }

  /** The `for i in 0..rank` loops calling `arg(dim{i}, "i64")` on an extern under construction. */
  method AddDims(f: ExternFn, rank: int) returns (g: ExternFn)
    ensures g == WithDims(f, M.RankCount(rank))
  {
    g := f;
    var i := 0;
    while i < rank
      invariant 0 <= i <= M.RankCount(rank)
      invariant g == WithDims(f, i)
    {
      g := Arg(g, "dim" + NatToString(i), "i64");
      i := i + 1;
    }
  }

  /** The extern parameter, wrapper argument and call argument of output `i`, read through `tm`. */
  method OutputSlot(tm: TypeMap, i: nat, typ: string) returns (p: Param, fa: Param, ca: string)
    ensures p == Param(OutName(i), Resolve(tm, typ))
    ensures fa == WrapperArg(OutName(i), Wrapper(tm, typ), "&mut ")
    ensures ca == CallArg(OutName(i), Wrapper(tm, typ))
  {
    var t := Resolve(tm, typ);
    var name := "out" + NatToString(i);
    p := Param(name, t);
    var t2 := Resolve(tm, t);
    if Contains(t2, "Array") {
      fa := Param(name, "&mut " + t2);
      ca := name + ".ptr as *mut _";
    } else {
      fa := Param(name, t2);
      ca := name;
    }
  }

  /** The same for input `i`: its extern type has `*mut` rewritten to `*const`, and a wrapper is borrowed shared. */
  method InputSlot(tm: TypeMap, i: nat, typ: string) returns (p: Param, fa: Param, ca: string)
    ensures p == Param(InName(i), ReplaceAll(Resolve(tm, typ), "*mut", "*const"))
    ensures fa == WrapperArg(InName(i), Wrapper(tm, typ), "&")
    ensures ca == CallArg(InName(i), Wrapper(tm, typ))
  {
    var t := Resolve(tm, typ);
    var name := "input" + NatToString(i);
    p := Param(name, ReplaceAll(t, "*mut", "*const"));
    var t2 := Resolve(tm, t);
    if Contains(t2, "Array") {
      fa := Param(name, "&" + t2);
      ca := name + ".ptr as *mut _";
    } else {
      fa := Param(name, t2);
      ca := name;
    }
  }

  /**
   * The loop over the outputs of `generate_entry_function`: each output adds
   * one extern parameter, one wrapper argument and one call argument.
   */
  method Outputs(tm: TypeMap, outs: seq<M.Output>, c0: ExternFn) returns (c: ExternFn, fargs: seq<Param>, calls: seq<string>)
    ensures c == c0.(args := c0.args + OutputParams(tm, outs, |outs|))
    ensures fargs == FuncOutputs(tm, outs, |outs|)
    ensures calls == CallOutputs(tm, outs, |outs|)
  {
    c, fargs, calls := c0, [], [];
    for i := 0 to |outs|
      invariant c == c0.(args := c0.args + OutputParams(tm, outs, i))
      invariant fargs == FuncOutputs(tm, outs, i)
      invariant calls == CallOutputs(tm, outs, i)
    {
      var p, fa, ca := OutputSlot(tm, i, outs[i].typ);
      OutputsSnoc(tm, outs, i);
      c := Arg(c, p.name, p.typ);
      fargs := fargs + [fa];
      calls := calls + [ca];
    }
  }

  /** The loop over the inputs, continuing the extern, the arguments and `call_args`. */
  method Inputs(tm: TypeMap, ins: seq<M.Input>, c0: ExternFn, f0: seq<Param>, k0: seq<string>)
    returns (c: ExternFn, fargs: seq<Param>, calls: seq<string>)
    ensures c == c0.(args := c0.args + InputParams(tm, ins, |ins|))
    ensures fargs == f0 + FuncInputs(tm, ins, |ins|)
    ensures calls == k0 + CallInputs(tm, ins, |ins|)
  {
    c, fargs, calls := c0, f0, k0;
    for i := 0 to |ins|
      invariant c == c0.(args := c0.args + InputParams(tm, ins, i))
      invariant fargs == f0 + FuncInputs(tm, ins, i)
      invariant calls == k0 + CallInputs(tm, ins, i)
    {
      var p, fa, ca := InputSlot(tm, i, ins[i].typ);
      InputsSnoc(tm, ins, i);
      c := Arg(c, p.name, p.typ);
      fargs := fargs + [fa];
      calls := calls + [ca];
    }
  }

  /** The output loop's three sequences grow by one slot each. */
  lemma OutputsSnoc(tm: TypeMap, outs: seq<M.Output>, i: nat)
    requires i < |outs|
    ensures OutputParams(tm, outs, i + 1) == OutputParams(tm, outs, i) + [Param(OutName(i), Resolve(tm, outs[i].typ))]
    ensures FuncOutputs(tm, outs, i + 1) == FuncOutputs(tm, outs, i) + [WrapperArg(OutName(i), Wrapper(tm, outs[i].typ), "&mut ")]
    ensures CallOutputs(tm, outs, i + 1) == CallOutputs(tm, outs, i) + [CallArg(OutName(i), Wrapper(tm, outs[i].typ))]
  {
  }

  /** The input loop's three sequences grow by one slot each. */
  lemma InputsSnoc(tm: TypeMap, ins: seq<M.Input>, i: nat)
    requires i < |ins|
    ensures InputParams(tm, ins, i + 1) == InputParams(tm, ins, i) + [Param(InName(i), ReplaceAll(Resolve(tm, ins[i].typ), "*mut", "*const"))]
    ensures FuncInputs(tm, ins, i + 1) == FuncInputs(tm, ins, i) + [WrapperArg(InName(i), Wrapper(tm, ins[i].typ), "&")]
    ensures CallInputs(tm, ins, i + 1) == CallInputs(tm, ins, i) + [CallArg(InName(i), Wrapper(tm, ins[i].typ))]
  {
  }

  /** The generator: `typemap`, the scope it fills, and the fixed text it emits. */
  class Rust {
    var typemap: TypeMap
    var scope: seq<Item>
    const text: RustFixed

    /** `Rust::default()`: the typemap from the (empty) `RUST_TYPE_MAP`, an empty scope. */
    constructor()
      ensures typemap == TypeTable && scope == [] && text == Fixed
    {
      typemap := TypeTable;
      scope := [];
      text := Fixed;
    }

    /**
     * `ExternFn::gen`: render `extern "C" { fn NAME(n1: t1, ...)-> RET;\n}\n`
     * and push it after `#[allow(unused)]`.
     */
    method Gen(f: ExternFn)
      modifies this
      ensures scope == old(scope) + GenItems(text, f)
      ensures typemap == old(typemap)
    {
      var s := "extern \"C\" { fn " + f.name + "(";
      var args: seq<string> := [];
      for i := 0 to |f.args|
        invariant |args| == i
        invariant forall j :: 0 <= j < i ==> args[j] == f.args[j].name + ": " + f.args[j].typ
      {
        args := args + [f.args[i].name + ": " + f.args[i].typ];
      }
      assert args == ParamTexts(f.args);
      s := s + Join(args, ", ");
      s := s + ")";
      ghost var head := s;
      if f.ret != "" {
        s := s + "-> ";
        s := s + f.ret;
        AppendAssoc(head, "-> ", f.ret);
      }
      assert s == head + RetText(f.ret);
      s := s + ";\n}\n";
      assert s == ExternDecl(f);
      scope := scope + [Raw(text.allowUnused)];
      scope := scope + [Raw(s)];
    }

    /**
     * `generate_array_type`: the two structs, the inherent `impl` with
     * `new`, `from_slice` and `values`, the `Drop` impl, then the five
     * externs; it returns the array's names.
     */
    method GenerateArrayType(a: M.ArrayType) returns (info: ArrayInfo)
      modifies this
      ensures info == Info(a)
      ensures scope == old(scope) + ArrayItems(text, a)
      ensures typemap == old(typemap)
    {
      info := ArrayInfo(OriginalName(a), PtrType(a), RustName(a), M.ToStr(a.elemtype), ElemPtr(a));
      var s0 := scope;
      scope := scope + ArrayStructs(text, a);
      var dimParams := DimParams(a.rank);
      var dims := Join(dimParams, ", ");
      scope := scope + [Impl(info.rustName, "", [ArrayNewFn(text, a, dims), FromSliceFn(text, a, dims), ValuesFn(text, a)]),
                        Impl(info.rustName, "Drop", [DropFn(text, a)])];
      assert scope == s0 + (ArrayStructs(text, a) + ArrayImpls(text, a));
      var s1 := scope;
      GenerateArrayExterns(a, info);
      assert scope == s1 + ArrayExterns(text, a);
      AppendAssoc(s0, ArrayStructs(text, a) + ArrayImpls(text, a), ArrayExterns(text, a));
    }

    /** The five `ExternFn`s of `generate_array_type`, each built and then `gen`-ed. */
    method GenerateArrayExterns(a: M.ArrayType, info: ArrayInfo)
      requires info == Info(a)
      modifies this
      ensures scope == old(scope) + ArrayExterns(text, a)
      ensures typemap == old(typemap)
    {
      var s0 := scope;
      var start := Arg(Arg(NewExtern(NewFnName(a)), "_", text.ctxPtr), "_", ReplaceAll(info.elemPtr, "*mut", "*const"));
      var newFn := AddDims(start, a.rank);
      Gen(Ret(newFn, info.ptr));
      var rawStart := Arg(Arg(Arg(NewExtern("futhark_new_raw_" + M.Suffix(a)), "_", text.ctxPtr), "_", text.constU8), "offset", "i64");
      var newRaw := AddDims(rawStart, a.rank);
      Gen(Ret(newRaw, info.ptr));
      Gen(Ret(Arg(Arg(NewExtern("futhark_free_" + M.Suffix(a)), "_", text.ctxPtr), "_", info.ptr), text.cInt));
      Gen(Ret(Arg(Arg(Arg(NewExtern("futhark_values_" + M.Suffix(a)), "_", text.ctxPtr), "_", info.ptr), "_", info.elemPtr), text.cInt));
      Gen(Ret(Arg(Arg(NewExtern("futhark_values_raw_" + M.Suffix(a)), "_", text.ctxPtr), "_", info.ptr), text.mutU8));
      AppendSix(s0, GenItems(text, NewExternFn(text, a)), GenItems(text, NewRawExternFn(text, a)),
                GenItems(text, FreeExternFn(text, a)), GenItems(text, ValuesExternFn(text, a)),
                GenItems(text, ValuesRawExternFn(text, a)), []);
    }

    /**
     * `generate_entry_function`: a new `impl Context` holding the wrapper,
     * whose arguments and `call_args` the two loops build, then the extern
     * with the context, every output and every input.
     */
    method GenerateEntryFunction(name: string, e: M.Entry)
      modifies this
      ensures scope == old(scope) + EntryItems(text, typemap, name, e)
      ensures typemap == old(typemap)
    {
      var c := Ret(Arg(NewExtern(e.cfun), "_", text.ctxPtr), text.cInt);
      var fargs, calls;
      c, fargs, calls := Outputs(typemap, e.outputs, c);
      c, fargs, calls := Inputs(typemap, e.inputs, c, fargs, calls);
      var func := Fn(name, RefSelf, fargs, text.resultUnit,
                     [text.letRc, e.cfun + "(self.context, " + Join(calls, ", ") + ")", text.close, text.rcCheck, text.okUnit]);
      assert func == EntryFn(text, name, typemap, e);
      scope := scope + [Impl("Context", "", [func])];
      assert c == EntryExtern(text, typemap, e);
      Gen(c);
    }

    /** The first part of the preamble: the config struct and its two externs. */
    method GenerateConfig()
      modifies this
      ensures scope == old(scope) + ConfigItems(text)
      ensures typemap == old(typemap)
    {
      var s0 := scope;
      scope := scope + [text.configStruct];
      Gen(text.configNew);
      Gen(text.configFree);
      AppendThree(s0, [text.configStruct], GenItems(text, text.configNew), GenItems(text, text.configFree));
    }

    /** The second part: the context struct, its three externs, `Error`, `Context` and its two impls. */
    method GenerateContext()
      modifies this
      ensures scope == old(scope) + ContextItems(text)
      ensures typemap == old(typemap)
    {
      var s0 := scope;
      scope := scope + [text.contextStruct];
      Gen(text.contextNew);
      Gen(text.contextFree);
      Gen(text.contextSync);
      scope := scope + [text.errorEnum, text.contextType, text.contextImpl, text.contextDrop];
      AppendFour(s0, [text.contextStruct], GenItems(text, text.contextNew), GenItems(text, text.contextFree), GenItems(text, text.contextSync));
      AppendAssoc(s0, [text.contextStruct] + GenItems(text, text.contextNew) + GenItems(text, text.contextFree) + GenItems(text, text.contextSync),
                  [text.errorEnum, text.contextType, text.contextImpl, text.contextDrop]);
    }

    /** One pass of the type loop: an array type is generated and registered twice; an opaque type is skipped. */
    method GenerateType(k: string, ty: M.Type)
      modifies this
      ensures typemap == Register(old(typemap), k, ty)
      ensures scope == old(scope) + TypeItems(text, ty)
    {
      if ty.Array? {
        var info := GenerateArrayType(ty.arrayType);
        typemap := typemap[k := info.ptr];
        typemap := typemap[info.ptr := info.rustName];
      } else {
        assert TypeItems(text, ty) == [];
      }
    }

    /**
     * The loop over `manifest.types` in key order: each array type is
     * generated and registered twice, name to pointer type and pointer
     * type to wrapper; opaque types are skipped.
     */
    method GenerateTypes(types: map<string, M.Type>, ks: seq<string>)
      requires forall i :: 0 <= i < |ks| ==> ks[i] in types
      modifies this
      ensures typemap == Registered(old(typemap), types, ks)
      ensures scope == old(scope) + ArrayItemsAll(text, types, ks)
    {
      var tm0, s0 := typemap, scope;
      for i := 0 to |ks|
        invariant typemap == Registered(tm0, types, ks[..i])
        invariant scope == s0 + ArrayItemsAll(text, types, ks[..i])
      {
        RegisteredStep(tm0, types, ks, i);
        TypeItemsStep(text, types, ks, i);
        GenerateType(ks[i], types[ks[i]]);
        AppendAssoc(s0, ArrayItemsAll(text, types, ks[..i]), TypeItems(text, types[ks[i]]));
      }
      assert ks[..|ks|] == ks;
    }

    /** The loop over `manifest.entry_points` in key order, every entry read through the final typemap. */
    method GenerateEntries(eps: map<string, M.Entry>, es: seq<string>)
      requires forall i :: 0 <= i < |es| ==> es[i] in eps
      modifies this
      ensures typemap == old(typemap)
      ensures scope == old(scope) + EntryItemsAll(text, typemap, eps, es)
    {
      var s0, tm := scope, typemap;
      for i := 0 to |es|
        invariant typemap == tm
        invariant scope == s0 + EntryItemsAll(text, tm, eps, es[..i])
      {
        EntryStep(text, tm, eps, es, i);
        GenerateEntryFunction(es[i], eps[es[i]]);
        AppendAssoc(s0, EntryItemsAll(text, tm, eps, es[..i]), EntryItems(text, tm, es[i], eps[es[i]]));
      }
      assert es[..|es|] == es;
    }

    /**
     * `Generate::generate`: the preamble, every array type, every entry
     * point, then the scope written to the output file. `writeError` is
     * what that `write!` reported, if anything; `?` passes it on.
     */
    method Generate(library: LibCompile.Library, writeError: Option<string>) returns (r: Result<(), Error>)
      modifies this
      ensures var m := library.manifest;
        var ks := M.TypeNames(m);
        typemap == Registered(old(typemap), m.types, ks) &&
        scope == old(scope) + Preamble(text) + ArrayItemsAll(text, m.types, ks) +
                 EntryItemsAll(text, typemap, m.entryPoints, M.EntryNames(m))
      ensures r.Failure? <==> writeError.Some?
      ensures writeError.Some? ==> r == Failure(Io(writeError.value))
    {
      var m := library.manifest;
      var s0 := scope;
      GenerateConfig();
      GenerateContext();
      AppendAssoc(s0, ConfigItems(text), ContextItems(text));
      var ks := M.TypeNames(m);
      GenerateTypes(m.types, ks);
      GenerateEntries(m.entryPoints, M.EntryNames(m));
      if writeError.Some? {
        return Failure(Io(writeError.value));
      }
      r := Success(());
    }
  }
}
