/**
 * The OCaml generator as it runs: a `typemap` filled while the manifest's
 * array types are bound, then read back for every entry point, and two
 * files, the `.ml` given in the config and a fresh `.mli` beside it. Every
 * `ml!`/`mli!` invocation is one `WriteLines`, every `ml_no_newline!` and
 * `mli_no_newline!` one `Write`.
 */
module OCamlGen {
  import opened Wrappers
  import opened Strings
  import opened Registry
  import opened OCamlText
  import opened Lib
  import M = Manifest
  import LibCompile
  import Paths
  import G = Generate

  /** How `generate` ends when no I/O fails: normally, or in the `todo!()` for opaque types. */
  datatype Outcome = Finished | Unimplemented

  /** The two `for i in 0..rank` loops of loop 3, which index `dims` in order. */
  method WriteDimArgs(rank: int, ml: G.TextFile)
    modifies ml
    ensures ml.writes == old(ml.writes) + DimArgs(M.RankCount(rank))
    ensures ml.path == old(ml.path)
  {
    var i := 0;
    while i < rank
      invariant 0 <= i <= M.RankCount(rank)
      invariant ml.writes == old(ml.writes) + DimArgs(i)
      invariant ml.path == old(ml.path)
    {
      var piece := " (Int64.of_int dims.(" + NatToString(i) + "))";
      ml.Write(piece);
      AppendAssoc(old(ml.writes), DimArgs(i), [piece]);
      i := i + 1;
    }
  }

  class OCaml {
    var typemap: TypeMap
    const ctypesMap: TypeMap
    const baMap: TypeMap
    /** The text of `generate`'s string literals. */
    const fixed: FixedText

    /** `OCaml::default`: the three tables, with `typemap` starting as `OCAML_TYPE_MAP`. */
    constructor()
      ensures typemap == TypeTable && ctypesMap == CtypesTable && baMap == BigarrayTable
      ensures fixed == Boilerplate
    {
      typemap := TypeTable;
      ctypesMap := CtypesTable;
      baMap := BigarrayTable;
      fixed := Boilerplate;
    }

    /** The `.ml` and `.mli` writes between loop 2 and loop 3: the error type, its printer, `Context` and the array record. */
    method WriteRuntime(ml: G.TextFile, mli: G.TextFile)
      requires ml != mli
      modifies ml, mli
      ensures ml.writes == old(ml.writes) + Runtime(fixed)
      ensures mli.writes == old(mli.writes) + RuntimeSig(fixed)
      ensures ml.path == old(ml.path) && mli.path == old(mli.path)
    {
      ml.WriteLines(["end"]);
      ml.WriteLines([fixed.errorType, fixed.errorPrinter]);
      mli.WriteLines([fixed.errorType]);
      ml.WriteLines(fixed.contextLines);
      mli.WriteLines(fixed.contextSigLines);
      ml.WriteLines([fixed.arrayRecord]);
      AppendFour(old(ml.writes), Lines(["end"]), Lines([fixed.errorType, fixed.errorPrinter]),
        Lines(fixed.contextLines), Lines([fixed.arrayRecord]));
      AppendAssoc(old(mli.writes), Lines([fixed.errorType]), Lines(fixed.contextSigLines));
    }

    /** The `new_args` loop: context, element pointer, then one `int64_t` per dimension. */
    method NewBindingArgs(elemPtr: string, rank: int) returns (args: seq<string>)
      ensures args == NewArgs(elemPtr, rank)
    {
      args := ["context", elemPtr];
      var i := 0;
      while i < rank
        invariant 0 <= i <= M.RankCount(rank)
        invariant args == ["context", elemPtr] + Int64s(i)
      {
        args := args + ["int64_t"];
        i := i + 1;
      }
    }

    /** Loop 2's type for argument `k`: a non-array output is passed as a `ptr`. */
    method EntryBindingArg(e: M.Entry, k: nat) returns (arg: string)
      requires k < Arity(e)
      ensures arg == BindingArg(typemap, e, k)
    {
      if k < |e.outputs| {
        var t := Resolve(typemap, e.outputs[k].typ);
        if Contains(t, "array_") {
          arg := t;
        } else {
          arg := "ptr " + t;
        }
      } else {
        arg := Resolve(typemap, e.inputs[k - |e.outputs|].typ);
      }
    }

    /**
     * Loop 2's `args` for one entry point, read through the current
     * `typemap`: the context, then the outputs' loop and the inputs' loop,
     * as one pass over the argument positions.
     */
    method EntryBindingArgs(e: M.Entry) returns (args: seq<string>)
      ensures args == BindingArgs(typemap, e, Arity(e))
    {
      args := ["context"];
      var k := 0;
      while k < Arity(e)
        invariant 0 <= k <= Arity(e)
        invariant args == BindingArgs(typemap, e, k)
      {
        var arg := EntryBindingArg(e, k);
        args := args + [arg];
        k := k + 1;
      }
    }

    /** Loop 1's body for an array type: its `typedef`, then its `new`, `values` and `free` bindings. */
    method BindArray(a: M.ArrayType, ml: G.TextFile)
      modifies ml
      ensures ml.writes == old(ml.writes) + ArrayBinding(ctypesMap, a)
      ensures ml.path == old(ml.path)
    {
      var elemPtr := "ptr " + Resolve(ctypesMap, M.ToStr(a.elemtype));
      var ocamlName := "array_" + M.Suffix(a);
      var typedef := ["  let " + ocamlName + " = typedef (ptr void) \"array_" + M.Suffix(a) + "\""];
      ml.WriteLines(typedef);
      var newArgs := NewBindingArgs(elemPtr, a.rank);
      var bindings := [
        "  " + ForeignFunction("futhark_new_" + M.Suffix(a), ocamlName, newArgs),
        "  " + ForeignFunction("futhark_values_" + M.Suffix(a), "int", ["context", ocamlName, elemPtr]),
        "  " + ForeignFunction("futhark_free_" + M.Suffix(a), "int", ["context", ocamlName])];
      ml.WriteLines(bindings);
      AppendAssoc(old(ml.writes), Lines(typedef), Lines(bindings));
    }

    /** One pass of loop 1 over an array type: register its `array_` name, then bind it. */
    method BindArrayAt(types: map<string, M.Type>, ks: seq<string>, i: nat, ml: G.TextFile,
                       ghost o: seq<string>, ghost m: TypeMap)
      requires i < |ks| && AllArrays(types, ks[..i]) && ks[i] in types && types[ks[i]].Array?
      requires typemap == m + Registrations(types, ks[..i])
      requires ml.writes == o + ArrayBindings(ctypesMap, types, ks[..i])
      modifies this, ml
      ensures AllArrays(types, ks[..i + 1])
      ensures typemap == m + Registrations(types, ks[..i + 1])
      ensures ml.writes == o + ArrayBindings(ctypesMap, types, ks[..i + 1])
      ensures ml.path == old(ml.path)
    {
      var name := ks[i];
      var a := types[name].arrayType;
      var ocamlName := "array_" + M.Suffix(a);
      ArrayBindingsStep(ctypesMap, types, ks, i, a);
      RegistrationsStep(types, ks, i);
      MergeThenInsert(m, Registrations(types, ks[..i]), name, ocamlName);
      Extend(o, ArrayBindings(ctypesMap, types, ks[..i]), ArrayBinding(ctypesMap, a),
        ArrayBindings(ctypesMap, types, ks[..i + 1]));
      typemap := typemap[name := ocamlName];
      BindArray(a, ml);
    }

    /**
     * Loop 1: register and bind each array type in key order, stopping at
     * the first opaque type, where the source reaches `todo!()`.
     */
    method BindArrays(types: map<string, M.Type>, ks: seq<string>, ml: G.TextFile) returns (first: nat)
      requires forall i :: 0 <= i < |ks| ==> ks[i] in types
      modifies this, ml
      ensures first == FirstOpaque(types, ks) && AllArrays(types, ks[..first])
      ensures typemap == old(typemap) + Registrations(types, ks[..first])
      ensures ml.writes == old(ml.writes) + ArrayBindings(ctypesMap, types, ks[..first])
      ensures ml.path == old(ml.path)
    {
      var i := 0;
      while i < |ks|
        invariant 0 <= i <= |ks| && AllArrays(types, ks[..i])
        invariant typemap == old(typemap) + Registrations(types, ks[..i])
        invariant ml.writes == old(ml.writes) + ArrayBindings(ctypesMap, types, ks[..i])
        invariant ml.path == old(ml.path)
      {
        if types[ks[i]].Opaque? {
          FirstOpaqueAt(types, ks, i);
          return i;
        }
        BindArrayAt(types, ks, i, ml, old(ml.writes), old(typemap));
        i := i + 1;
      }
      FirstOpaqueAt(types, ks, i);
      assert ks[..i] == ks;
      return i;
    }

    /** Loop 2: one binding per entry point, in key order. */
    method BindEntries(eps: map<string, M.Entry>, ks: seq<string>, ml: G.TextFile)
      requires forall i :: 0 <= i < |ks| ==> ks[i] in eps
      modifies ml
      ensures ml.writes == old(ml.writes) + EntryBindings(typemap, eps, ks)
      ensures ml.path == old(ml.path)
    {
      var i := 0;
      while i < |ks|
        invariant 0 <= i <= |ks|
        invariant ml.writes == old(ml.writes) + EntryBindings(typemap, eps, ks[..i])
        invariant ml.path == old(ml.path)
      {
        var e := eps[ks[i]];
        var args := EntryBindingArgs(e);
        ml.WriteLines(["  " + ForeignFunction(e.cfun, "int", args)]);
        assert ks[..i + 1][..i] == ks[..i];
        AppendAssoc(old(ml.writes), EntryBindings(typemap, eps, ks[..i]), Lines([EntryBinding(typemap, e)]));
        i := i + 1;
      }
      assert ks[..i] == ks;
    }

    /** Loop 3's body for one array type: its module in the `.ml`, its signature in the `.mli`. */
    method WriteArrayModule(a: M.ArrayType, ocamlName: string, ml: G.TextFile, mli: G.TextFile)
      requires ml != mli
      modifies ml, mli
      ensures ml.writes == old(ml.writes) + ArrayModule(fixed.arrayText, ctypesMap, a, ocamlName)
      ensures mli.writes == old(mli.writes) + ArraySig(fixed.arrayText, ctypesMap, baMap, a, ocamlName)
      ensures ml.path == old(ml.path) && mli.path == old(mli.path)
    {
      var t := fixed.arrayText;
      var s := M.Suffix(a);
      var ctypesElem := Resolve(ctypesMap, M.ToStr(a.elemtype));
      var moduleName := G.FirstUppercase(ocamlName);
      var head := ["module " + moduleName + t.structOpen, t.typeLine, "", t.freePrefix + s + t.freeSuffix, "", t.vLine,
        t.dataPrefix + ctypesElem + t.dataSuffix];
      ml.WriteLines(head);
      ghost var acc := Lines(head);
      var fromData := t.newPrefix + s + t.fromDataSuffix;
      ml.Write(fromData);
      AppendAssoc(old(ml.writes), acc, [fromData]);
      acc := acc + [fromData];
      WriteDimArgs(a.rank, ml);
      AppendAssoc(old(ml.writes), acc, DimArgs(M.RankCount(a.rank)));
      acc := acc + DimArgs(M.RankCount(a.rank));
      var ofBigarray := t.checkAndFinalise + t.ofBigarrayHead + [t.newPrefix + s + t.fromBigarraySuffix];
      ml.WriteLines(ofBigarray);
      AppendAssoc(old(ml.writes), acc, Lines(ofBigarray));
      acc := acc + Lines(ofBigarray);
      WriteDimArgs(a.rank, ml);
      AppendAssoc(old(ml.writes), acc, DimArgs(M.RankCount(a.rank)));
      acc := acc + DimArgs(M.RankCount(a.rank));
      var values := t.checkAndFinalise + t.valuesHead + [t.valuesPrefix + s + t.valuesSuffix] + t.valuesTail;
      ml.WriteLines(values);
      AppendAssoc(old(ml.writes), acc, Lines(values));
      var ocamlElem := Resolve(ctypesMap, M.ToStr(a.elemtype));
      var baElem := Resolve(baMap, M.ToStr(a.elemtype));
      var ga := "(" + ocamlElem + ", " + baElem + t.genarraySuffix;
      mli.WriteLines(["module " + moduleName + t.sigOpen] + t.shapeAndV +
        [t.ofBigarrayVal + ga + " -> t", t.valuesVal + ga + " -> unit", "end"]);
    }

    /** One pass of loop 3: the module and signature of the `i`-th type follow those of the earlier ones. */
    method WriteArrayModuleAt(types: map<string, M.Type>, ks: seq<string>, i: nat, ml: G.TextFile, mli: G.TextFile,
                              ghost o: seq<string>, ghost p: seq<string>)
      requires ml != mli && AllArrays(types, ks) && i < |ks|
      requires ks[i] in typemap && typemap[ks[i]] == ArrayName(types[ks[i]].arrayType)
      requires AllArrays(types, ks[..i])
      requires ml.writes == o + ArrayModules(fixed.arrayText, ctypesMap, types, ks[..i])
      requires mli.writes == p + ArraySigs(fixed.arrayText, ctypesMap, baMap, types, ks[..i])
      modifies ml, mli
      ensures AllArrays(types, ks[..i + 1])
      ensures ml.writes == o + ArrayModules(fixed.arrayText, ctypesMap, types, ks[..i + 1])
      ensures mli.writes == p + ArraySigs(fixed.arrayText, ctypesMap, baMap, types, ks[..i + 1])
      ensures ml.path == old(ml.path) && mli.path == old(mli.path)
    {
      var a := types[ks[i]].arrayType;
      var ocamlName := typemap[ks[i]];
      ArrayModulesStep(fixed.arrayText, ctypesMap, types, ks, i, a);
      ArraySigsStep(fixed.arrayText, ctypesMap, baMap, types, ks, i, a);
      Extend(o, ArrayModules(fixed.arrayText, ctypesMap, types, ks[..i]), ArrayModule(fixed.arrayText, ctypesMap, a, ocamlName),
        ArrayModules(fixed.arrayText, ctypesMap, types, ks[..i + 1]));
      Extend(p, ArraySigs(fixed.arrayText, ctypesMap, baMap, types, ks[..i]), ArraySig(fixed.arrayText, ctypesMap, baMap, a, ocamlName),
        ArraySigs(fixed.arrayText, ctypesMap, baMap, types, ks[..i + 1]));
      WriteArrayModule(a, ocamlName, ml, mli);
    }

    /** Loop 3: every type is an array by now and is found in `typemap` under its `array_` name. */
    method WriteArrayModules(types: map<string, M.Type>, ks: seq<string>, ml: G.TextFile, mli: G.TextFile)
      requires ml != mli && AllArrays(types, ks)
      requires forall i :: 0 <= i < |ks| ==> ks[i] in typemap && typemap[ks[i]] == ArrayName(types[ks[i]].arrayType)
      modifies ml, mli
      ensures ml.writes == old(ml.writes) + ArrayModules(fixed.arrayText, ctypesMap, types, ks)
      ensures mli.writes == old(mli.writes) + ArraySigs(fixed.arrayText, ctypesMap, baMap, types, ks)
      ensures ml.path == old(ml.path) && mli.path == old(mli.path)
    {
      var i := 0;
      while i < |ks|
        invariant 0 <= i <= |ks| && AllArrays(types, ks[..i])
        invariant ml.writes == old(ml.writes) + ArrayModules(fixed.arrayText, ctypesMap, types, ks[..i])
        invariant mli.writes == old(mli.writes) + ArraySigs(fixed.arrayText, ctypesMap, baMap, types, ks[..i])
        invariant ml.path == old(ml.path) && mli.path == old(mli.path)
      {
        WriteArrayModuleAt(types, ks, i, ml, mli, old(ml.writes), old(mli.writes));
        i := i + 1;
      }
      assert ks[..i] == ks;
    }

    /** Loop 4's first loop, for output `i`: its `~out` label in the `let` and its labelled arrow in the `val`. */
    method WriteOutputParam(e: M.Entry, i: nat, ml: G.TextFile, mli: G.TextFile)
      requires i < |e.outputs| && ml != mli
      modifies ml, mli
      ensures ml.writes == old(ml.writes) + [DefPiece(e, i)]
      ensures mli.writes == old(mli.writes) + [SigPiece(typemap, e, i)]
      ensures ml.path == old(ml.path) && mli.path == old(mli.path)
    {
      var t := Resolve(typemap, e.outputs[i].typ);
      var elemType;
      if Contains(t, "array_") {
        elemType := G.FirstUppercase(t) + ".t";
      } else {
        elemType := t + " Ctypes.ptr";
      }
      var lbl := if |e.outputs| == 1 then "" else NatToString(i);
      ml.Write(" ~out" + lbl);
      mli.Write(" -> out" + lbl + ":" + elemType);
    }

    /** Loop 4's second loop, for input `j`: its name in the `let` and its arrow in the `val`. */
    method WriteInputParam(e: M.Entry, j: nat, ml: G.TextFile, mli: G.TextFile)
      requires j < |e.inputs| && ml != mli
      modifies ml, mli
      ensures ml.writes == old(ml.writes) + [DefPiece(e, |e.outputs| + j)]
      ensures mli.writes == old(mli.writes) + [SigPiece(typemap, e, |e.outputs| + j)]
      ensures ml.path == old(ml.path) && mli.path == old(mli.path)
    {
      ml.Write(" input" + NatToString(j));
      var elemType := Resolve(typemap, e.inputs[j].typ);
      if Contains(elemType, "array_") {
        elemType := G.FirstUppercase(elemType) + ".t";
      }
      mli.Write(" -> " + elemType);
      assert |e.outputs| + j - |e.outputs| == j;
    }

    /**
     * The `let` parameters and the `val` arrows of loop 4, one `write!` each:
     * the outputs' loop and then the inputs' loop, as one pass over the
     * argument positions.
     */
    method WriteParams(e: M.Entry, ml: G.TextFile, mli: G.TextFile)
      requires ml != mli
      modifies ml, mli
      ensures ml.writes == old(ml.writes) + DefParams(e, Arity(e))
      ensures mli.writes == old(mli.writes) + SigParams(typemap, e, Arity(e))
      ensures ml.path == old(ml.path) && mli.path == old(mli.path)
    {
      var k := 0;
      while k < Arity(e)
        invariant 0 <= k <= Arity(e)
        invariant ml.writes == old(ml.writes) + DefParams(e, k)
        invariant mli.writes == old(mli.writes) + SigParams(typemap, e, k)
        invariant ml.path == old(ml.path) && mli.path == old(mli.path)
      {
        if k < |e.outputs| {
          WriteOutputParam(e, k, ml, mli);
        } else {
          WriteInputParam(e, k - |e.outputs|, ml, mli);
        }
        AppendAssoc(old(ml.writes), DefParams(e, k), [DefPiece(e, k)]);
        AppendAssoc(old(mli.writes), SigParams(typemap, e, k), [SigPiece(typemap, e, k)]);
        k := k + 1;
      }
    }

    /** The call site's piece for argument `k`: the parameter name, unwrapped to `.ptr` for arrays. */
    method WriteCallPiece(e: M.Entry, k: nat, ml: G.TextFile)
      requires k < Arity(e)
      modifies ml
      ensures ml.writes == old(ml.writes) + [CallPiece(typemap, e, k)]
      ensures ml.path == old(ml.path)
    {
      var n := |e.outputs|;
      if k < n {
        var t := Resolve(typemap, e.outputs[k].typ);
        var lbl := if n == 1 then "" else NatToString(k);
        if Contains(t, "array_") {
          ml.Write(" out" + lbl + ".ptr");
        } else {
          ml.Write(" out" + lbl);
        }
      } else {
        var i := k - n;
        var t := Resolve(typemap, e.inputs[i].typ);
        if Contains(t, "array_") {
          ml.Write(" input" + NatToString(i) + ".ptr");
        } else {
          ml.Write(" input" + NatToString(i));
        }
      }
    }

    /** The call's arguments in loop 4: outputs, then inputs, array handles passed as their `.ptr`. */
    method WriteCallArgs(e: M.Entry, ml: G.TextFile)
      modifies ml
      ensures ml.writes == old(ml.writes) + CallArgs(typemap, e, Arity(e))
      ensures ml.path == old(ml.path)
    {
      var k := 0;
      while k < Arity(e)
        invariant 0 <= k <= Arity(e)
        invariant ml.writes == old(ml.writes) + CallArgs(typemap, e, k)
        invariant ml.path == old(ml.path)
      {
        WriteCallPiece(e, k, ml);
        AppendAssoc(old(ml.writes), CallArgs(typemap, e, k), [CallPiece(typemap, e, k)]);
        k := k + 1;
      }
    }

    /** Loop 4's body: the `let` definition in the `.ml` and its `val` in the `.mli`. */
    method WriteEntry(name: string, e: M.Entry, ml: G.TextFile, mli: G.TextFile)
      requires ml != mli
      modifies ml, mli
      ensures ml.writes == old(ml.writes) + EntryDef(typemap, name, e)
      ensures mli.writes == old(mli.writes) + EntrySig(typemap, name, e)
      ensures ml.path == old(ml.path) && mli.path == old(mli.path)
    {
      var head := "  let " + name + " ctx";
      var valHead := "  val " + name + ": Context.t";
      ml.Write(head);
      mli.Write(valHead);
      WriteParams(e, ml, mli);
      var unit := [" -> unit"];
      mli.WriteLines(unit);
      AppendAssoc(old(mli.writes), [valHead], SigParams(typemap, e, Arity(e)));
      AppendAssoc(old(mli.writes), [valHead] + SigParams(typemap, e, Arity(e)), Lines(unit));
      ghost var acc := [head] + DefParams(e, Arity(e));
      AppendAssoc(old(ml.writes), [head], DefParams(e, Arity(e)));
      var call := [" =", EntryCallPrefix + name + EntryCallSuffix];
      ml.WriteLines(call);
      AppendAssoc(old(ml.writes), acc, Lines(call));
      acc := acc + Lines(call);
      WriteCallArgs(e, ml);
      AppendAssoc(old(ml.writes), acc, CallArgs(typemap, e, Arity(e)));
      acc := acc + CallArgs(typemap, e, Arity(e));
      ml.WriteLines(EntryCheck);
      AppendAssoc(old(ml.writes), acc, Lines(EntryCheck));
    }

    /** Loop 4: the `Entry` module's definitions and signatures, in key order. */
    method WriteEntries(eps: map<string, M.Entry>, ks: seq<string>, ml: G.TextFile, mli: G.TextFile)
      requires ml != mli
      requires forall i :: 0 <= i < |ks| ==> ks[i] in eps
      modifies ml, mli
      ensures ml.writes == old(ml.writes) + EntryDefs(typemap, eps, ks)
      ensures mli.writes == old(mli.writes) + EntrySigs(typemap, eps, ks)
      ensures ml.path == old(ml.path) && mli.path == old(mli.path)
    {
      var i := 0;
      while i < |ks|
        invariant 0 <= i <= |ks|
        invariant ml.writes == old(ml.writes) + EntryDefs(typemap, eps, ks[..i])
        invariant mli.writes == old(mli.writes) + EntrySigs(typemap, eps, ks[..i])
        invariant ml.path == old(ml.path) && mli.path == old(mli.path)
      {
        var name := ks[i];
        var e := eps[name];
        ghost var d0, s0 := EntryDefs(typemap, eps, ks[..i]), EntrySigs(typemap, eps, ks[..i]);
        WriteEntry(name, e, ml, mli);
        assert ks[..i + 1][..i] == ks[..i];
        AppendAssoc(old(ml.writes), d0, EntryDef(typemap, name, e));
        AppendAssoc(old(mli.writes), s0, EntrySig(typemap, name, e));
        i := i + 1;
      }
      assert ks[..i] == ks;
    }

    /** Loop 4 with the `Entry` module's opening and closing lines around it. */
    method WriteEntryModule(eps: map<string, M.Entry>, ks: seq<string>, ml: G.TextFile, mli: G.TextFile)
      requires ml != mli
      requires forall i :: 0 <= i < |ks| ==> ks[i] in eps
      modifies ml, mli
      ensures ml.writes == old(ml.writes) + EntryModule(typemap, eps, ks)
      ensures mli.writes == old(mli.writes) + EntrySignature(typemap, eps, ks)
      ensures ml.path == old(ml.path) && mli.path == old(mli.path)
    {
      ml.WriteLines(["module Entry = struct"]);
      mli.WriteLines(["module Entry: sig"]);
      WriteEntries(eps, ks, ml, mli);
      ml.WriteLines(["end"]);
      mli.WriteLines(["end"]);
      AppendAssoc(old(ml.writes), Lines(["module Entry = struct"]), EntryDefs(typemap, eps, ks));
      AppendAssoc(old(ml.writes), Lines(["module Entry = struct"]) + EntryDefs(typemap, eps, ks), Lines(["end"]));
      AppendAssoc(old(mli.writes), Lines(["module Entry: sig"]), EntrySigs(typemap, eps, ks));
      AppendAssoc(old(mli.writes), Lines(["module Entry: sig"]) + EntrySigs(typemap, eps, ks), Lines(["end"]));
    }

    /**
     * Everything after loop 1 when no type was opaque: loop 2, the runtime,
     * loop 3 and the `Entry` module.
     */
    method WriteAfterBindings(m: M.Manifest, ml: G.TextFile, mli: G.TextFile, ghost tm0: TypeMap)
      requires ml != mli && AllArrays(m.types, M.TypeNames(m))
      requires typemap == Registered(tm0, m)
      modifies ml, mli
      ensures ml.writes == old(ml.writes) + EntryBindings(typemap, m.entryPoints, M.EntryNames(m)) + Runtime(fixed) +
        ArrayModules(fixed.arrayText, ctypesMap, m.types, M.TypeNames(m)) + EntryModule(typemap, m.entryPoints, M.EntryNames(m))
      ensures mli.writes == old(mli.writes) + RuntimeSig(fixed) + ArraySigs(fixed.arrayText, ctypesMap, baMap, m.types, M.TypeNames(m)) +
        EntrySignature(typemap, m.entryPoints, M.EntryNames(m))
      ensures ml.path == old(ml.path) && mli.path == old(mli.path)
    {
      var ks, es := M.TypeNames(m), M.EntryNames(m);
      BindEntries(m.entryPoints, es, ml);
      WriteRuntime(ml, mli);
      forall i | 0 <= i < |ks|
        ensures ks[i] in typemap && typemap[ks[i]] == ArrayName(m.types[ks[i]].arrayType)
      {
        RegisteredLookup(tm0, m.types, ks, ks[i]);
      }
      WriteArrayModules(m.types, ks, ml, mli);
      WriteEntryModule(m.entryPoints, es, ml, mli);
    }

    /**
     * `generate` once its `.mli` exists: the header, loop 1, and, when no
     * type is opaque, the rest of both files. `finished` is false when loop 1
     * reaches an opaque type's `todo!()`.
     */
    method WriteFiles(m: M.Manifest, ml: G.TextFile, mli: G.TextFile) returns (finished: bool)
      requires ml != mli
      modifies this, ml, mli
      ensures ml.path == old(ml.path) && mli.path == old(mli.path)
      ensures finished <==> FirstOpaque(m.types, M.TypeNames(m)) == |M.TypeNames(m)|
      ensures !finished ==>
        var ks := M.TypeNames(m);
        var first := FirstOpaque(m.types, ks);
        typemap == old(typemap) + Registrations(m.types, ks[..first]) &&
        ml.writes == old(ml.writes) + Lines(fixed.header) + ArrayBindings(ctypesMap, m.types, ks[..first]) &&
        mli.writes == old(mli.writes)
      ensures finished ==>
        AllArrays(m.types, M.TypeNames(m)) && typemap == Registered(old(typemap), m) &&
        ml.writes == old(ml.writes) + MlFile(fixed, ctypesMap, old(typemap), m) &&
        mli.writes == old(mli.writes) + MliFile(fixed, ctypesMap, baMap, old(typemap), m)
    {
      var ks := M.TypeNames(m);
      ml.WriteLines(fixed.header);
      ghost var tm0 := typemap;
      var first := BindArrays(m.types, ks, ml);
      if first < |ks| {
        return false;
      }
      assert ks[..first] == ks;
      WriteAfterBindings(m, ml, mli, tm0);
      var es := M.EntryNames(m);
      AppendSix(old(ml.writes), Lines(fixed.header), ArrayBindings(ctypesMap, m.types, ks),
        EntryBindings(typemap, m.entryPoints, es), Runtime(fixed), ArrayModules(fixed.arrayText, ctypesMap, m.types, ks),
        EntryModule(typemap, m.entryPoints, es));
      AppendThree(old(mli.writes), RuntimeSig(fixed), ArraySigs(fixed.arrayText, ctypesMap, baMap, m.types, ks),
        EntrySignature(typemap, m.entryPoints, es));
      return true;
    }

    /**
     * `generate`. `mliCreateError` is what `File::create` reported for the
     * `.mli` beside `config`'s output, if anything; its `?` returns before
     * anything is written. An opaque type stops the run inside loop 1, at
     * the `todo!()`, with the bindings of the array types before it written.
     */
    method Generate(library: LibCompile.Library, config: G.Config, ml: G.TextFile, mliCreateError: Option<string>)
      returns (r: Result<Outcome, Error>, mli: G.TextFile?)
      modifies this, ml
      ensures ml.path == old(ml.path)
      ensures mliCreateError.Some? ==>
        r == Failure(Io(mliCreateError.value)) && mli == null &&
        ml.writes == old(ml.writes) && typemap == old(typemap)
      ensures mliCreateError.None? ==>
        r.Success? && mli != null && fresh(mli) && mli.path == Paths.WithExtension(config.outputPath, "mli")
      ensures r == Success(Unimplemented) <==>
        mliCreateError.None? && FirstOpaque(library.manifest.types, M.TypeNames(library.manifest)) < |M.TypeNames(library.manifest)|
      ensures r == Success(Unimplemented) ==>
        var ks := M.TypeNames(library.manifest);
        var first := FirstOpaque(library.manifest.types, ks);
        typemap == old(typemap) + Registrations(library.manifest.types, ks[..first]) &&
        ml.writes == old(ml.writes) + Lines(fixed.header) + ArrayBindings(ctypesMap, library.manifest.types, ks[..first]) &&
        mli != null && mli.writes == []
      ensures r == Success(Finished) ==>
        AllArrays(library.manifest.types, M.TypeNames(library.manifest)) &&
        typemap == Registered(old(typemap), library.manifest) &&
        ml.writes == old(ml.writes) + MlFile(fixed, ctypesMap, old(typemap), library.manifest) &&
        mli != null && mli.writes == MliFile(fixed, ctypesMap, baMap, old(typemap), library.manifest)
    {
      if mliCreateError.Some? {
        return Failure(Io(mliCreateError.value)), null;
      }
      mli := new G.TextFile(Paths.WithExtension(config.outputPath, "mli"));
      var finished := WriteFiles(library.manifest, ml, mli);
      r := Success(if finished then Finished else Unimplemented);
    }
  }
}
