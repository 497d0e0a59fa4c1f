/**
 * The older generator module `src/generate.rs` as it runs: its `Config`,
 * `detect` choosing between Rust and Python by extension, the Python
 * generator that copies the compiled `.py` file, and the older Rust
 * generator, whose scope and one-level `typemap` live in `LegacyRust`.
 */
module LegacyGen {
  import opened Wrappers
  import opened Strings
  import opened Registry
  import opened Scope
  import opened LegacyText
  import opened Lib
  import M = Manifest
  import RT = RustText
  import RustGen
  import LibCompile
  import Paths

  /** This module's `Config`: the output path, the file itself being left out. */
  datatype Config = Config(outputPath: string)

  /** `Config::new`: `File::create` fails with `createError`, if any, and `?` passes it on. */
  function NewConfig(output: string, createError: Option<string>): (r: Result<Config, Error>)
    ensures r.Failure? <==> createError.Some?
    ensures r.Success? ==> r.value.outputPath == output
    ensures r.Failure? ==> r.error == Io(createError.value)
  {
    match createError
    case Some(e) => Failure(Io(e))
    case None => Success(Config(output))
  }

  /** The generators this `detect` can hand back. */
  datatype Generator = RustGenerator | PythonGenerator

  /** `Config::detect`: "rs" picks the Rust generator, "py" the Python one, anything else nothing. */
  function Detect(c: Config): (r: Option<Generator>)
    ensures r == Some(RustGenerator) <==> Paths.Extension(c.outputPath) == Some("rs")
    ensures r == Some(PythonGenerator) <==> Paths.Extension(c.outputPath) == Some("py")
    ensures r.None? <==> Paths.Extension(c.outputPath) !in {Some("rs"), Some("py")}
  {
    match Paths.Extension(c.outputPath)
    case Some("rs") => Some(RustGenerator)
    case Some("py") => Some(PythonGenerator)
    case _ => None
  }

  /** A path given the extension "py" selects Python, "rs" Rust; a path without a file name selects nothing. */
  lemma DetectAfterWithExtension(p: string, ext: string)
    requires Paths.FileName(p).Some?
    requires |ext| > 0 && '.' !in ext && '/' !in ext
    ensures Detect(Config(Paths.WithExtension(p, ext))) == Some(PythonGenerator) <==> ext == "py"
    ensures Detect(Config(Paths.WithExtension(p, ext))) == Some(RustGenerator) <==> ext == "rs"
  {
    Paths.WithExtensionSetsExtension(p, ext);
  }

  /**
   * How the Python generator ends: the panic on a non-Python backend, or
   * the result of the copy (`copied` says whether a copy was attempted).
   */
  datatype PythonRun = Panicked | Ran(copied: bool, result: Result<(), Error>)

  /**
   * `Python::generate`: with a Python or PyOpenCL backend, copy the compiled
   * `.py` file to the output unless it already is the output, `PathBuf`s
   * being equal when their components are; `copyError` is what `fs::copy`
   * reported, if anything.
   */
  function PythonGenerate(library: LibCompile.Library, config: Config, copyError: Option<string>): (r: PythonRun)
    ensures r == Panicked <==> library.manifest.backend !in {Python, PyOpenCL}
    ensures r.Ran? ==> (r.copied <==> Paths.Components(config.outputPath) != Paths.Components(library.pyFile))
    ensures r.Ran? ==> (r.result.Failure? <==> r.copied && copyError.Some?)
    ensures r.Ran? && r.result.Failure? ==> r.result.error == Io(copyError.value)
  {
    match library.manifest.backend
    case Python | PyOpenCL =>
      if Paths.Components(config.outputPath) != Paths.Components(library.pyFile) then
        Ran(true, if copyError.Some? then Failure(Io(copyError.value)) else Success(()))
      else Ran(false, Success(()))
    case _ => Panicked
  }

  /**
   * The compiled file is never copied onto itself, however the output
   * respells its path: with a doubled separator, a "." piece or a trailing
   * separator, nothing is copied and the run succeeds.
   */
  lemma PythonNoSelfCopy(library: LibCompile.Library, d: string, n: string, copyError: Option<string>)
    requires library.manifest.backend in {Python, PyOpenCL}
    requires library.pyFile == d + "/" + n
    ensures PythonGenerate(library, Config(d + "//" + n), copyError) == Ran(false, Success(()))
    ensures PythonGenerate(library, Config(d + "/./" + n), copyError) == Ran(false, Success(()))
    ensures PythonGenerate(library, Config(library.pyFile + "/"), copyError) == Ran(false, Success(()))
  {
    Paths.ComponentsNormalise(d, n);
    Paths.ComponentsNormalise(d + "/" + n, "");
  }

  /** The `for i in 0..rank` loop of `new`: one `dim{i}: i64` argument and one `dim{i}` call argument each. */
  method NewDims(rank: int) returns (params: seq<Param>, names: seq<string>)
    ensures names == DimNames(M.RankCount(rank))
    ensures |params| == |names| && forall i :: 0 <= i < |params| ==> params[i] == Param(names[i], "i64")
  {
    params, names := [], [];
    var i := 0;
    while i < rank
      invariant 0 <= i <= M.RankCount(rank)
      invariant |names| == i && |params| == i
      invariant forall j :: 0 <= j < i ==> names[j] == "dim" + NatToString(j) && params[j] == Param(names[j], "i64")
    {
      var dim := "dim" + NatToString(i);
      params := params + [Param(dim, "i64")];
      names := names + [dim];
      i := i + 1;
    }
  }

  /** The entry extern's loops: one `out{i}` per output, then one `input{j}` per input with `*const`. */
  method EntryArgs(tm: TypeMap, e: M.Entry, c0: ExternFn) returns (c: ExternFn)
    ensures c == c0.(args := c0.args + RT.OutputParams(tm, e.outputs, |e.outputs|) + RT.InputParams(tm, e.inputs, |e.inputs|))
  {
    c := c0;
    for i := 0 to |e.outputs|
      invariant c == c0.(args := c0.args + RT.OutputParams(tm, e.outputs, i))
    {
      var t := Resolve(tm, e.outputs[i].typ);
      RustGen.OutputsSnoc(tm, e.outputs, i);
      c := Arg(c, "out" + NatToString(i), t);
    }
    var c1 := c;
    for i := 0 to |e.inputs|
      invariant c == c1.(args := c1.args + RT.InputParams(tm, e.inputs, i))
    {
      var t := Resolve(tm, e.inputs[i].typ);
      RustGen.InputsSnoc(tm, e.inputs, i);
      c := Arg(c, "input" + NatToString(i), ReplaceAll(t, "*mut", "*const"));
    }
  }

  /** The older Rust generator: `typemap`, the scope it fills, and its fixed text. */
  class LegacyRust {
    var typemap: TypeMap
    var scope: seq<Item>
    const text: LegacyFixed

    /** `Rust::default()`: an empty typemap (from the empty `RUST_TYPE_MAP`) and an empty scope. */
    constructor()
      ensures typemap == RT.TypeTable && scope == [] && text == Fixed
    {
      typemap := RT.TypeTable;
      scope := [];
      text := Fixed;
    }

    /** This `ExternFn::gen`: render `unsafe extern "C" fn NAME(n1: t1, ...)-> RET;\n` as one raw item. */
    method Gen(f: ExternFn)
      modifies this
      ensures scope == old(scope) + GenItems(f)
      ensures typemap == old(typemap)
    {
      var s := "unsafe extern \"C\" fn " + f.name + "(";
      var args: seq<string> := [];
      for i := 0 to |f.args|
        invariant |args| == i
        invariant forall j :: 0 <= j < i ==> args[j] == f.args[j].name + ": " + f.args[j].typ
      {
        args := args + [f.args[i].name + ": " + f.args[i].typ];
      }
      assert args == ParamTexts(f.args);
      s := s + Join(args, ", ");
      s := s + ")";
      ghost var head := s;
      if f.ret != "" {
        s := s + "-> ";
        s := s + f.ret;
        AppendAssoc(head, "-> ", f.ret);
      }
      assert s == head + RT.RetText(f.ret);
      s := s + ";\n";
      assert s == LegacyDecl(f);
      scope := scope + [Raw(s)];
    }

    /** `generate_array_type`: the C struct, the wrapper, its `impl` with `new`, then the five externs. */
    method GenerateArrayType(a: M.ArrayType) returns (info: RT.ArrayInfo)
      modifies this
      ensures info == Info(a)
      ensures scope == old(scope) + ArrayItems(text, a)
      ensures typemap == old(typemap)
    {
      info := RT.ArrayInfo(RT.OriginalName(a), RT.PtrType(a), LegacyName(a), M.ToStr(a.elemtype), RT.ElemPtr(a));
      var s0 := scope;
      scope := scope + [Struct(info.originalName, []), Struct(info.rustName, [Param("inner", info.ptr)])];
      var params, dims := NewDims(a.rank);
      var n := M.RankCount(a.rank);
      assert params == seq(n, i requires 0 <= i < n => Param(DimNames(n)[i], "i64"));
      var newMethod := Fn("new", NoSelf, [Param("ctx", text.ctxRef)] + params, text.resultSelf,
                          [text.letPtr, RT.NewFnName(a) + "(ctx.inner, std::ptr::null(), " + Join(dims, ", ") + ")",
                           text.close, text.nullCheck, text.okInner]);
      scope := scope + [Impl(info.rustName, "", [newMethod])];
      assert scope == s0 + ArrayDecls(text, a);
      GenerateArrayExterns(a, info);
      AppendAssoc(s0, ArrayDecls(text, a), ArrayExterns(text, a));
    }

    /** The five externs of `generate_array_type`, each built and then `gen`-ed. */
    method GenerateArrayExterns(a: M.ArrayType, info: RT.ArrayInfo)
      requires info == Info(a)
      modifies this
      ensures scope == old(scope) + ArrayExterns(text, a)
      ensures typemap == old(typemap)
    {
      var s0 := scope;
      var newFn := RustGen.AddDims(Arg(Arg(NewExtern(RT.NewFnName(a)), "_", text.ctxPtr), "_", info.elemPtr), a.rank);
      Gen(Ret(newFn, info.ptr));
      var rawStart := Arg(Arg(Arg(NewExtern("futhark_new_raw_" + M.Suffix(a)), "_", text.ctxPtr), "_", text.mutU8), "offset", "i64");
      var newRaw := RustGen.AddDims(rawStart, a.rank);
      Gen(Ret(newRaw, info.ptr));
      Gen(Ret(Arg(Arg(NewExtern("futhark_free_" + M.Suffix(a)), "_", text.ctxPtr), "_", info.ptr), text.cInt));
      Gen(Ret(Arg(Arg(Arg(NewExtern("futhark_values_" + M.Suffix(a)), "_", text.ctxPtr), "_", info.ptr), "_", info.elemPtr), text.cInt));
      Gen(Ret(Arg(Arg(NewExtern("futhark_values_raw_" + M.Suffix(a)), "_", text.ctxPtr), "_", info.ptr), text.mutU8));
      AppendSix(s0, GenItems(NewExternFn(text, a)), GenItems(NewRawExternFn(text, a)), GenItems(FreeExternFn(text, a)),
                GenItems(ValuesExternFn(text, a)), GenItems(ValuesRawExternFn(text, a)), []);
    }

    /** `generate_entry_function`: only the extern, built by the two loops and `gen`-ed. */
    method GenerateEntryFunction(e: M.Entry)
      modifies this
      ensures scope == old(scope) + GenItems(EntryExtern(text, typemap, e))
      ensures typemap == old(typemap)
    {
      var c0 := Arg(NewExtern(e.cfun), "_", text.ctxPtr);
      assert c0.args == [Param("_", text.ctxPtr)];
      var c := EntryArgs(typemap, e, c0);
      assert Ret(c, text.cInt) == EntryExtern(text, typemap, e);
      Gen(Ret(c, text.cInt));
    }

    /** The config struct and its two externs. */
    method GenerateConfig()
      modifies this
      ensures scope == old(scope) + ConfigItems(text)
      ensures typemap == old(typemap)
    {
      var s0 := scope;
      scope := scope + [text.configStruct];
      Gen(text.configNew);
      Gen(text.configFree);
      AppendThree(s0, [text.configStruct], GenItems(text.configNew), GenItems(text.configFree));
    }

    /** The context struct, its three externs, `Error`, `Context`, and the `impl Context` left empty. */
    method GenerateContext()
      modifies this
      ensures scope == old(scope) + ContextItems(text)
      ensures typemap == old(typemap)
    {
      var s0 := scope;
      scope := scope + [text.contextStruct];
      Gen(text.contextNew);
      Gen(text.contextFree);
      Gen(text.contextSync);
      scope := scope + [text.errorEnum, text.contextType, text.contextImpl];
      AppendFour(s0, [text.contextStruct], GenItems(text.contextNew), GenItems(text.contextFree), GenItems(text.contextSync));
      AppendAssoc(s0, [text.contextStruct] + GenItems(text.contextNew) + GenItems(text.contextFree) + GenItems(text.contextSync),
                  [text.errorEnum, text.contextType, text.contextImpl]);
    }

    /** One pass of the type loop: an array type is generated and its name registered; an opaque type is skipped. */
    method GenerateType(k: string, ty: M.Type)
      modifies this
      ensures typemap == Register(old(typemap), k, ty)
      ensures scope == old(scope) + TypeItems(text, ty)
    {
      if ty.Array? {
        var info := GenerateArrayType(ty.arrayType);
        typemap := typemap[k := info.ptr];
      } else {
        assert TypeItems(text, ty) == [];
      }
    }

    /** The loop over `manifest.types` in key order. */
    method GenerateTypes(types: map<string, M.Type>, ks: seq<string>)
      requires forall i :: 0 <= i < |ks| ==> ks[i] in types
      modifies this
      ensures typemap == Registered(old(typemap), types, ks)
      ensures scope == old(scope) + ArrayItemsAll(text, types, ks)
    {
      var tm0, s0 := typemap, scope;
      for i := 0 to |ks|
        invariant typemap == Registered(tm0, types, ks[..i])
        invariant scope == s0 + ArrayItemsAll(text, types, ks[..i])
      {
        RegisteredStep(tm0, types, ks, i);
        TypeItemsStep(text, types, ks, i);
        GenerateType(ks[i], types[ks[i]]);
        AppendAssoc(s0, ArrayItemsAll(text, types, ks[..i]), TypeItems(text, types[ks[i]]));
      }
      assert ks[..|ks|] == ks;
    }

    /** The loop over `manifest.entry_points` in key order. */
    method GenerateEntries(eps: map<string, M.Entry>, es: seq<string>)
      requires forall i :: 0 <= i < |es| ==> es[i] in eps
      modifies this
      ensures typemap == old(typemap)
      ensures scope == old(scope) + EntryItemsAll(text, typemap, eps, es)
    {
      var s0, tm := scope, typemap;
      for i := 0 to |es|
        invariant typemap == tm
        invariant scope == s0 + EntryItemsAll(text, tm, eps, es[..i])
      {
        EntryStep(text, tm, eps, es, i);
        GenerateEntryFunction(eps[es[i]]);
        AppendAssoc(s0, EntryItemsAll(text, tm, eps, es[..i]), GenItems(EntryExtern(text, tm, eps[es[i]])));
      }
      assert es[..|es|] == es;
    }

    /**
     * `Generate::generate`: the preamble, every array type, every entry
     * point's extern, then the scope written out; `writeError` is what
     * `write!` reported, if anything.
     */
    method Generate(library: LibCompile.Library, writeError: Option<string>) returns (r: Result<(), Error>)
      modifies this
      ensures var m := library.manifest;
        var ks := M.TypeNames(m);
        typemap == Registered(old(typemap), m.types, ks) &&
        scope == old(scope) + Preamble(text) + ArrayItemsAll(text, m.types, ks) +
                 EntryItemsAll(text, typemap, m.entryPoints, M.EntryNames(m))
      ensures r.Failure? <==> writeError.Some?
      ensures writeError.Some? ==> r == Failure(Io(writeError.value))
    {
      var m := library.manifest;
      var s0 := scope;
      GenerateConfig();
      GenerateContext();
      AppendAssoc(s0, ConfigItems(text), ContextItems(text));
      GenerateTypes(m.types, M.TypeNames(m));
      GenerateEntries(m.entryPoints, M.EntryNames(m));
      if writeError.Some? {
        return Failure(Io(writeError.value));
      }
      r := Success(());
    }
  }
}
