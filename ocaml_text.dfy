/**
 * The text the OCaml generator writes, as functions of the manifest and the
 * generator's maps: the `Bindings` module of `ctypes-foreign` declarations,
 * the runtime boilerplate, one module per array type and the `Entry`
 * module. `OCamlGen.OCaml.Generate` is proved to write exactly this text,
 * and the lemmas here state what the text means.
 */
module OCamlText {
  import opened Wrappers
  import opened Strings
  import opened Registry
  import M = Manifest
  import Generate

  /** `OCAML_CTYPES_MAP`: element type to `Ctypes` type; f16 and bool are absent. */
  const CtypesTable: TypeMap := map[
    "i8" := "int8_t", "u8" := "uint8_t", "i16" := "int16_t", "u16" := "uint16_t",
    "i32" := "int32_t", "u32" := "uint32_t", "i64" := "int64_t", "u64" := "uint64_t",
    "f32" := "float", "f64" := "double"]

  /** `OCAML_TYPE_MAP`: the initial contents of `typemap`. */
  const TypeTable: TypeMap := map[
    "i8" := "int", "u8" := "int", "i16" := "int", "u16" := "int",
    "i32" := "int32", "i64" := "int64", "u32" := "int32", "u64" := "int64",
    "f32" := "float", "f64" := "float"]

  /** `OCAML_BA_TYPE_MAP`: element type to `Bigarray` element kind. */
  const BigarrayTable: TypeMap := map[
    "i8" := "Bigarray.int8_signed_elt", "u8" := "Bigarray.int8_unsigned_elt",
    "i16" := "Bigarray.int16_signed_elt", "u16" := "Bigarray.int16_unsigned_elt",
    "i32" := "Bigarray.int32_elt", "i64" := "Bigarray.int64_elt",
    "u32" := "Bigarray.int32_elt", "u64" := "Bigarray.int64_elt",
    "f32" := "Bigarray.float32_elt", "f64" := "Bigarray.float64_elt"]

  /** Element types missing from the `Ctypes` table are written under their own name. */
  lemma CtypesFallback(e: M.ElemType)
    ensures Resolve(CtypesTable, M.ToStr(e)) == M.ToStr(e) <==> e == M.F16 || e == M.Bool
    ensures e != M.F16 && e != M.Bool ==> M.ToStr(e) in CtypesTable
  {
  }

  /** `foreign_function`: a `Foreign.foreign` binding whose type is the arguments then `returning ret`. */
  function ForeignFunction(name: string, ret: string, args: seq<string>): string {
    "let " + name + " = " + ForeignCall(name, ret, args)
  }

  /** The right-hand side of a binding: the C symbol and the function type. */
  function ForeignCall(name: string, ret: string, args: seq<string>): string {
    "Foreign.foreign \"" + name + "\" (" + Join(args, " @-> ") + " @-> returning (" + ret + "))"
  }

  /**
   * The binding's type has one arrow per argument: when no name, type or
   * return type contains '@', the text holds exactly |args| '@'s.
   */
  lemma ForeignFunctionArity(name: string, ret: string, args: seq<string>)
    requires |args| >= 1
    requires CountChar(name, '@') == 0 && CountChar(ret, '@') == 0
    requires forall i :: 0 <= i < |args| ==> CountChar(args[i], '@') == 0
    ensures CountChar(ForeignFunction(name, ret, args), '@') == |args|
  {
    var j := Join(args, " @-> ");
    var arrow := " @-> ";
    var returning := " @-> returning (";
    OneAtAfterSpace(arrow);
    OneAtAfterSpace(returning);
    CountCharJoin(args, arrow, '@');
    var q1 := "let " + name + " = ";
    var q2 := "Foreign.foreign \"";
    var p2 := name + "\" (";
    var p3 := returning + ret + "))";
    assert ForeignCall(name, ret, args) == q2 + p2 + j + p3;
    CountCharNone("let ", '@');
    CountCharNone(" = ", '@');
    CountCharNone(q2, '@');
    CountCharNone("\" (", '@');
    CountCharNone("))", '@');
    CountCharAppend("let ", name, '@');
    CountCharAppend("let " + name, " = ", '@');
    CountCharAppend(name, "\" (", '@');
    CountCharAppend(returning, ret, '@');
    CountCharAppend(returning + ret, "))", '@');
    CountCharAppend(q2, p2, '@');
    CountCharAppend(q2 + p2, j, '@');
    CountCharAppend(q2 + p2 + j, p3, '@');
    CountCharAppend(q1, ForeignCall(name, ret, args), '@');
  }

  /** A text that starts with " @" and has no other '@' holds exactly one. */
  lemma OneAtAfterSpace(s: string)
    requires |s| >= 2 && s[0] == ' ' && s[1] == '@'
    requires forall i :: 2 <= i < |s| ==> s[i] != '@'
    ensures CountChar(s, '@') == 1
  {
    var head, rest := s[..2], s[2..];
    assert s == head + rest;
    CountCharAppend(head, rest, '@');
    assert head[..1] == [' '];
    CountCharNone(rest, '@');
  }

  /** The name an array type is registered under in `typemap`: `array_{elemtype}_{rank}d`. */
  function ArrayName(a: M.ArrayType): string {
    "array_" + M.Suffix(a)
  }

  /** Array names carry the `array_` marker that the entry-point loops test with `contains`. */
  lemma ArrayNameMarked(a: M.ArrayType)
    ensures StartsWith(ArrayName(a), "array_") && Contains(ArrayName(a), "array_")
  {
    var s := ArrayName(a);
    assert s[..6] == "array_";
    ContainsWhenStartsWith(s, "array_");
  }

  /** `"int64_t"` repeated: one dimension argument per rank. */
  function Int64s(n: nat): seq<string> {
    if n == 0 then [] else Int64s(n - 1) + ["int64_t"]
  }

  /** The arguments of the `futhark_new_*` binding: context, element pointer, one `int64_t` per dimension. */
  function NewArgs(elemPtr: string, rank: int): seq<string> {
    ["context", elemPtr] + Int64s(M.RankCount(rank))
  }

  /** The context, the element pointer, then exactly one `int64_t` per dimension (none for rank <= 0). */
  lemma NewArgsContents(elemPtr: string, rank: int)
    ensures |NewArgs(elemPtr, rank)| == 2 + M.RankCount(rank)
    ensures NewArgs(elemPtr, rank)[0] == "context" && NewArgs(elemPtr, rank)[1] == elemPtr
    ensures forall k :: 2 <= k < |NewArgs(elemPtr, rank)| ==> NewArgs(elemPtr, rank)[k] == "int64_t"
  {
    Int64sContents(M.RankCount(rank));
  }

  lemma {:induction false} Int64sContents(n: nat)
    ensures |Int64s(n)| == n && forall k :: 0 <= k < n ==> Int64s(n)[k] == "int64_t"
  {
    if n > 0 {
      Int64sContents(n - 1);
    }
  }

  /** The `Ctypes` type of an array's elements: the table entry, or the element type itself. */
  function CtypesElem(ctypes: TypeMap, a: M.ArrayType): string {
    Resolve(ctypes, M.ToStr(a.elemtype))
  }

  /** Loop 1's writes for one array type: its typedef, then its new, values and free bindings. */
  function ArrayBinding(ctypes: TypeMap, a: M.ArrayType): seq<string> {
    var name := ArrayName(a);
    var elemPtr := "ptr " + CtypesElem(ctypes, a);
    Lines(["  let " + name + " = typedef (ptr void) \"array_" + M.Suffix(a) + "\""]) +
    Lines([
      "  " + ForeignFunction("futhark_new_" + M.Suffix(a), name, NewArgs(elemPtr, a.rank)),
      "  " + ForeignFunction("futhark_values_" + M.Suffix(a), "int", ["context", name, elemPtr]),
      "  " + ForeignFunction("futhark_free_" + M.Suffix(a), "int", ["context", name])])
  }

  /** Every key listed names an array type of the manifest. */
  predicate AllArrays(types: map<string, M.Type>, ks: seq<string>) {
    forall i :: 0 <= i < |ks| ==> ks[i] in types && types[ks[i]].Array?
  }

  /** Every prefix of a listing of array types lists array types. */
  lemma AllArraysPrefix(types: map<string, M.Type>, ks: seq<string>, i: nat)
    requires AllArrays(types, ks) && i <= |ks|
    ensures AllArrays(types, ks[..i])
  {
    assert forall j :: 0 <= j < i ==> ks[..i][j] == ks[j];
  }

  /** Loop 1's writes for the listed types, in order. */
  function ArrayBindings(ctypes: TypeMap, types: map<string, M.Type>, ks: seq<string>): seq<string>
    requires AllArrays(types, ks)
  {
    if |ks| == 0 then []
    else ArrayBindings(ctypes, types, ks[..|ks| - 1]) + ArrayBinding(ctypes, types[ks[|ks| - 1]].arrayType)
  }

  /** Loop 1 over one more array type adds its bindings after the earlier ones. */
  lemma ArrayBindingsStep(ctypes: TypeMap, types: map<string, M.Type>, ks: seq<string>, i: nat, a: M.ArrayType)
    requires i < |ks| && AllArrays(types, ks[..i]) && ks[i] in types && types[ks[i]].Array? && a == types[ks[i]].arrayType
    ensures AllArrays(types, ks[..i + 1])
    ensures ArrayBindings(ctypes, types, ks[..i + 1]) == ArrayBindings(ctypes, types, ks[..i]) + ArrayBinding(ctypes, a)
  {
    var u := ks[..i + 1];
    assert u[..i] == ks[..i] && u[i] == ks[i];
  }

  /** ... and registers that type under its `array_` name. */
  lemma RegistrationsStep(types: map<string, M.Type>, ks: seq<string>, i: nat)
    requires i < |ks| && AllArrays(types, ks[..i + 1])
    ensures AllArrays(types, ks[..i])
    ensures Registrations(types, ks[..i + 1]) ==
      Registrations(types, ks[..i])[ks[i] := ArrayName(types[ks[i]].arrayType)]
  {
    var u, v := ks[..i + 1], ks[..i];
    assert u == v + [ks[i]];
    assert forall k :: k in u <==> k in v || k == ks[i];
  }

  /** Position of the first opaque type in iteration order (where `todo!()` panics), or |ks|. */
  function FirstOpaque(types: map<string, M.Type>, ks: seq<string>): (r: nat)
    requires forall i :: 0 <= i < |ks| ==> ks[i] in types
    ensures r <= |ks| && AllArrays(types, ks[..r])
    ensures r < |ks| ==> types[ks[r]].Opaque?
    decreases |ks|
  {
    if |ks| == 0 || types[ks[0]].Opaque? then 0
    else
      var r := 1 + FirstOpaque(types, ks[1..]);
      assert forall i :: 1 <= i < r ==> ks[..r][i] == ks[1..][..r - 1][i - 1];
      r
  }

  /** The position where the listed types stop being arrays is `FirstOpaque`. */
  lemma {:induction false} FirstOpaqueAt(types: map<string, M.Type>, ks: seq<string>, i: nat)
    requires forall j :: 0 <= j < |ks| ==> ks[j] in types
    requires i <= |ks| && AllArrays(types, ks[..i])
    requires i < |ks| ==> types[ks[i]].Opaque?
    ensures FirstOpaque(types, ks) == i
    decreases i
  {
    if i > 0 {
      assert ks[..i][0] == ks[0];
      var t := ks[1..];
      var u := ks[1..i];
      forall j | 0 <= j < |u|
        ensures u[j] in types && types[u[j]].Array?
      {
        assert u[j] == ks[..i][j + 1];
      }
      assert t[..i - 1] == u;
      FirstOpaqueAt(types, t, i - 1);
    }
  }

  /** What loop 1 adds to `typemap`: each listed array type under its `array_` name. */
  function Registrations(types: map<string, M.Type>, ks: seq<string>): (m: TypeMap)
    requires AllArrays(types, ks)
    ensures m.Keys == set k | k in ks
  {
    map k | k in ks :: ArrayName(types[k].arrayType)
  }

  /**
   * After loop 1 every array type resolves to its `array_` name, which is
   * what makes the `typemap.get(name).unwrap()` of loop 3 succeed.
   */
  lemma RegisteredLookup(tm: TypeMap, types: map<string, M.Type>, ks: seq<string>, k: string)
    requires AllArrays(types, ks) && k in ks
    ensures k in tm + Registrations(types, ks)
    ensures Resolve(tm + Registrations(types, ks), k) == ArrayName(types[k].arrayType)
    ensures Contains(Resolve(tm + Registrations(types, ks), k), "array_")
  {
    ArrayNameMarked(types[k].arrayType);
  }

  /** Output `i` is labelled `out` when it is the only one, `out{i}` otherwise. */
  function OutLabel(n: nat, i: nat): string {
    if n == 1 then "" else NatToString(i)
  }

  /** Number of arguments an entry point has besides the context. */
  function Arity(e: M.Entry): nat {
    |e.outputs| + |e.inputs|
  }

  /** The OCaml parameter name of argument `k`: outputs first, then inputs. */
  function ParamName(e: M.Entry, k: nat): string
    requires k < Arity(e)
  {
    if k < |e.outputs| then "out" + OutLabel(|e.outputs|, k) else "input" + NatToString(k - |e.outputs|)
  }

  /** The manifest type of argument `k`, resolved through `typemap`. */
  function ArgType(tm: TypeMap, e: M.Entry, k: nat): string
    requires k < Arity(e)
  {
    Resolve(tm, if k < |e.outputs| then e.outputs[k].typ else e.inputs[k - |e.outputs|].typ)
  }

  /** Array types are recognised by the `array_` in their resolved name. */
  predicate IsArrayArg(tm: TypeMap, e: M.Entry, k: nat)
    requires k < Arity(e)
  {
    Contains(ArgType(tm, e, k), "array_")
  }

  /** Loop 2's binding type for argument `k`: outputs that are not arrays are passed by pointer. */
  function BindingArg(tm: TypeMap, e: M.Entry, k: nat): string
    requires k < Arity(e)
  {
    if k < |e.outputs| && !IsArrayArg(tm, e, k) then "ptr " + ArgType(tm, e, k) else ArgType(tm, e, k)
  }

  /** Loop 2's `args`: the context, then the first `n` arguments' binding types. */
  function BindingArgs(tm: TypeMap, e: M.Entry, n: nat): seq<string>
    requires n <= Arity(e)
  {
    if n == 0 then ["context"] else BindingArgs(tm, e, n - 1) + [BindingArg(tm, e, n - 1)]
  }

  /** The binding's first argument is the context; argument `k` sits right after it, at `k + 1`. */
  lemma {:induction false} BindingArgsContents(tm: TypeMap, e: M.Entry, n: nat)
    requires n <= Arity(e)
    ensures |BindingArgs(tm, e, n)| == 1 + n && BindingArgs(tm, e, n)[0] == "context"
    ensures forall k :: 0 <= k < n ==> BindingArgs(tm, e, n)[k + 1] == BindingArg(tm, e, k)
  {
    if n > 0 {
      BindingArgsContents(tm, e, n - 1);
    }
  }

  /** Loop 2's declaration for one entry point. */
  function EntryBinding(tm: TypeMap, e: M.Entry): string {
    "  " + ForeignFunction(e.cfun, "int", BindingArgs(tm, e, Arity(e)))
  }

  /** Loop 2's writes for the listed entry points, in order. */
  function EntryBindings(tm: TypeMap, eps: map<string, M.Entry>, ks: seq<string>): seq<string>
    requires forall i :: 0 <= i < |ks| ==> ks[i] in eps
  {
    if |ks| == 0 then []
    else EntryBindings(tm, eps, ks[..|ks| - 1]) + Lines([EntryBinding(tm, eps[ks[|ks| - 1]])])
  }

  /** The call-site expression for argument `k`: array handles are unwrapped to `.ptr`. */
  function CallArg(tm: TypeMap, e: M.Entry, k: nat): string
    requires k < Arity(e)
  {
    ParamName(e, k) + (if IsArrayArg(tm, e, k) then ".ptr" else "")
  }

  /** What loop 4 writes for argument `k` at the call site: ` out{i}.ptr`, ` input{i}`, ... */
  function CallPiece(tm: TypeMap, e: M.Entry, k: nat): string
    requires k < Arity(e)
  {
    var n := |e.outputs|;
    if k < n then
      (if IsArrayArg(tm, e, k) then " out" + OutLabel(n, k) + ".ptr" else " out" + OutLabel(n, k))
    else
      (if IsArrayArg(tm, e, k) then " input" + NatToString(k - n) + ".ptr" else " input" + NatToString(k - n))
  }

  lemma Regroup(a: string, b: string, c: string, d: string)
    ensures a + b + c + d == a + (b + c + d)
  {
  }

  /** Each piece of the call site is a space followed by that argument's expression. */
  lemma CallPieceIsArg(tm: TypeMap, e: M.Entry, k: nat)
    requires k < Arity(e)
    ensures CallPiece(tm, e, k) == " " + CallArg(tm, e, k)
  {
    var n := |e.outputs|;
    var tail := if IsArrayArg(tm, e, k) then ".ptr" else "";
    if k < n {
      var l := OutLabel(n, k);
      assert " out" == " " + "out";
      assert CallPiece(tm, e, k) == " out" + l + tail;
      Regroup(" ", "out", l, tail);
    } else {
      var l := NatToString(k - n);
      assert " input" == " " + "input";
      assert CallPiece(tm, e, k) == " input" + l + tail;
      Regroup(" ", "input", l, tail);
    }
  }

  /** The call site's arguments after the context handle, in order. */
  function CallArgs(tm: TypeMap, e: M.Entry, n: nat): seq<string>
    requires n <= Arity(e)
  {
    if n == 0 then [] else CallArgs(tm, e, n - 1) + [CallPiece(tm, e, n - 1)]
  }

  /**
   * The call site lines up with the binding: argument `k` is unwrapped to
   * `.ptr` exactly when the binding's type in slot `k + 1` (after the
   * context) names an array, and is passed under its bare name otherwise.
   */
  lemma CallSiteMatchesBinding(tm: TypeMap, e: M.Entry, k: nat)
    requires k < Arity(e)
    ensures |BindingArgs(tm, e, Arity(e))| == 1 + |e.outputs| + |e.inputs|
    ensures Contains(BindingArgs(tm, e, Arity(e))[k + 1], "array_") <==> CallArg(tm, e, k) == ParamName(e, k) + ".ptr"
    ensures !Contains(BindingArgs(tm, e, Arity(e))[k + 1], "array_") <==> CallArg(tm, e, k) == ParamName(e, k)
  {
    var t := ArgType(tm, e, k);
    BindingArgsContents(tm, e, Arity(e));
    var b := BindingArgs(tm, e, Arity(e))[k + 1];
    assert b == BindingArg(tm, e, k);
    if k < |e.outputs| && !IsArrayArg(tm, e, k) {
      ContainsAfterPrefix("ptr ", t, "array_");
      assert !Contains(b, "array_");
    } else {
      assert b == t;
    }
    assert |ParamName(e, k) + ".ptr"| != |ParamName(e, k)|;
  }

  /**
   * Loop 2 binds the entry under its C name, while loop 4's call names
   * `Bindings.futhark_entry_{name}`: the call reaches the binding exactly
   * when the entry's C name is `futhark_entry_` followed by its key.
   */
  lemma CallNameMatchesBinding(tm: TypeMap, name: string, e: M.Entry)
    ensures StartsWith(EntryBinding(tm, e), "  let " + e.cfun + " = ")
    ensures EntryCallPrefix + name + EntryCallSuffix == "    let rc = Bindings." + e.cfun + EntryCallSuffix <==>
      e.cfun == "futhark_entry_" + name
  {
    BindingNamed(e.cfun, BindingArgs(tm, e, Arity(e)));
    var p := "    let rc = Bindings.";
    assert EntryCallPrefix + name == p + ("futhark_entry_" + name);
    CancelAround(p, "futhark_entry_" + name, e.cfun, EntryCallSuffix);
  }

  /** An entry binding opens with `let`, the bound name and `=`. */
  lemma BindingNamed(cfun: string, args: seq<string>)
    ensures StartsWith("  " + ForeignFunction(cfun, "int", args), "  let " + cfun + " = ")
  {
    var h := "let " + cfun + " = ";
    var t := ForeignCall(cfun, "int", args);
    AppendAssoc("  ", h, t);
    AppendAssoc("  ", "let " + cfun, " = ");
    AppendAssoc("  ", "let ", cfun);
    assert "  " + "let " == "  let ";
    assert (("  " + h) + t)[..|"  " + h|] == "  " + h;
  }

  /** Two texts with the same prefix and suffix are equal exactly when their middles are. */
  lemma CancelAround(p: string, x: string, y: string, s: string)
    ensures p + x + s == p + y + s <==> x == y
  {
    if p + x + s == p + y + s {
      assert |x| == |y|;
      assert x == (p + x + s)[|p|..|p| + |x|];
      assert y == (p + y + s)[|p|..|p| + |y|];
    }
  }

  lemma OutPrefix(a: string, b: string, p: string)
    requires p + a == p + b
    ensures a == b
  {
    assert a == (p + a)[|p|..];
  }

  /** Distinct arguments get distinct parameter names, so no argument is passed twice. */
  lemma ParamNamesDistinct(e: M.Entry, j: nat, k: nat)
    requires j < Arity(e) && k < Arity(e) && j != k
    ensures ParamName(e, j) != ParamName(e, k)
  {
    var n := |e.outputs|;
    if j < n && k < n {
      if ParamName(e, j) == ParamName(e, k) {
        OutPrefix(NatToString(j), NatToString(k), "out");
        NatToStringInjective(j, k);
      }
    } else if j >= n && k >= n {
      if ParamName(e, j) == ParamName(e, k) {
        OutPrefix(NatToString(j - n), NatToString(k - n), "input");
        NatToStringInjective(j - n, k - n);
      }
    } else {
      assert ParamName(e, j)[0] != ParamName(e, k)[0];
    }
  }

  /** A single output is labelled `out`; with several, output `k` is `out{k}`. */
  lemma OutputLabels(e: M.Entry, k: nat)
    requires k < |e.outputs|
    ensures |e.outputs| == 1 ==> ParamName(e, k) == "out"
    ensures |e.outputs| != 1 ==> ParamName(e, k) == "out" + NatToString(k)
  {
  }

  /** What loop 4 writes for parameter `k` of the `let`: `~out..` labels for outputs, plain names for inputs. */
  function DefPiece(e: M.Entry, k: nat): string
    requires k < Arity(e)
  {
    var n := |e.outputs|;
    if k < n then " ~out" + OutLabel(n, k) else " input" + NatToString(k - n)
  }

  /** Outputs are passed by label (`~out`), inputs by position, under the names the call site uses. */
  lemma DefPieceNamesParam(e: M.Entry, k: nat)
    requires k < Arity(e)
    ensures DefPiece(e, k) == (if k < |e.outputs| then " ~" else " ") + ParamName(e, k)
  {
    var n := |e.outputs|;
    if k < n {
      assert " ~out" == " ~" + "out";
      Regroup(" ~", "out", OutLabel(n, k), "");
      assert " ~out" + OutLabel(n, k) + "" == " ~out" + OutLabel(n, k);
      assert "out" + OutLabel(n, k) + "" == "out" + OutLabel(n, k);
    } else {
      assert " input" == " " + "input";
      Regroup(" ", "input", NatToString(k - n), "");
      assert " input" + NatToString(k - n) + "" == " input" + NatToString(k - n);
      assert "input" + NatToString(k - n) + "" == "input" + NatToString(k - n);
    }
  }

  /** The `let` definition's parameters. */
  function DefParams(e: M.Entry, n: nat): seq<string>
    requires n <= Arity(e)
  {
    if n == 0 then [] else DefParams(e, n - 1) + [DefPiece(e, n - 1)]
  }

  /** The `.mli` type of argument `k`: array modules' `.t`, other outputs as `Ctypes.ptr`. */
  function SigType(tm: TypeMap, e: M.Entry, k: nat): string
    requires k < Arity(e)
  {
    var t := ArgType(tm, e, k);
    if IsArrayArg(tm, e, k) then Generate.FirstUppercase(t) + ".t"
    else if k < |e.outputs| then t + " Ctypes.ptr"
    else t
  }

  /** What loop 4 writes into the `.mli` for argument `k`: outputs are labelled, inputs are not. */
  function SigPiece(tm: TypeMap, e: M.Entry, k: nat): string
    requires k < Arity(e)
  {
    if k < |e.outputs| then " -> out" + OutLabel(|e.outputs|, k) + ":" + SigType(tm, e, k)
    else " -> " + SigType(tm, e, k)
  }

  /** The `.mli` arrows after `Context.t`. */
  function SigParams(tm: TypeMap, e: M.Entry, n: nat): seq<string>
    requires n <= Arity(e)
  {
    if n == 0 then [] else SigParams(tm, e, n - 1) + [SigPiece(tm, e, n - 1)]
  }

  /** Loop 4's `.ml` writes for one entry point. */
  function EntryDef(tm: TypeMap, name: string, e: M.Entry): seq<string> {
    ["  let " + name + " ctx"] + DefParams(e, Arity(e)) +
    Lines([" =", EntryCallPrefix + name + EntryCallSuffix]) +
    CallArgs(tm, e, Arity(e)) +
    Lines(EntryCheck)
  }

  /** The fixed pieces of an entry point's call and of its return-code check. */
  const EntryCallPrefix := "    let rc = Bindings.futhark_entry_"
  const EntryCallSuffix := " ctx.Context.handle"
  const EntryCheck: seq<string> := [" in", "    if rc <> 0 then raise (Error (Code rc))"]

  /** Loop 4's `.mli` writes for one entry point. */
  function EntrySig(tm: TypeMap, name: string, e: M.Entry): seq<string> {
    ["  val " + name + ": Context.t"] + SigParams(tm, e, Arity(e)) + Lines([" -> unit"])
  }

  function EntryDefs(tm: TypeMap, eps: map<string, M.Entry>, ks: seq<string>): seq<string>
    requires forall i :: 0 <= i < |ks| ==> ks[i] in eps
  {
    if |ks| == 0 then []
    else EntryDefs(tm, eps, ks[..|ks| - 1]) + EntryDef(tm, ks[|ks| - 1], eps[ks[|ks| - 1]])
  }

  function EntrySigs(tm: TypeMap, eps: map<string, M.Entry>, ks: seq<string>): seq<string>
    requires forall i :: 0 <= i < |ks| ==> ks[i] in eps
  {
    if |ks| == 0 then []
    else EntrySigs(tm, eps, ks[..|ks| - 1]) + EntrySig(tm, ks[|ks| - 1], eps[ks[|ks| - 1]])
  }

  /** ` (Int64.of_int dims.(i))` for each dimension, in index order, each its own `write!`. */
  function DimArgs(n: nat): seq<string> {
    if n == 0 then [] else DimArgs(n - 1) + [" (Int64.of_int dims.(" + NatToString(n - 1) + "))"]
  }

  /**
   * The literal text of loop 3, the lines and line pieces that surround
   * what each array type contributes (its suffix, its element types, its
   * module name and one `Int64` per dimension).
   */
  datatype ArrayTemplate = ArrayTemplate(
    structOpen: string, typeLine: string, freePrefix: string, freeSuffix: string, vLine: string,
    dataPrefix: string, dataSuffix: string, newPrefix: string, fromDataSuffix: string,
    checkAndFinalise: seq<string>, ofBigarrayHead: seq<string>, fromBigarraySuffix: string,
    valuesHead: seq<string>, valuesPrefix: string, valuesSuffix: string, valuesTail: seq<string>,
    genarraySuffix: string, sigOpen: string, shapeAndV: seq<string>, ofBigarrayVal: string, valuesVal: string)

  /**
   * All the literal text `generate` writes: the `Bindings` header, the
   * runtime between loops 2 and 3, and loop 3's template. The generator
   * holds it as `fixed`, equal to `Boilerplate`; the text functions take it
   * as a parameter.
   */
  datatype FixedText = FixedText(
    header: seq<string>, errorType: string, errorPrinter: string,
    contextLines: seq<string>, contextSigLines: seq<string>, arrayRecord: string,
    arrayText: ArrayTemplate)

  /** The end of both array constructors: the null check, the record and its finaliser. */
  const CheckAndFinalise: seq<string> := [
    " in",
    "    if is_null ptr then raise (Error NullPtr);",
    "    let t = { ptr; ctx; shape = dims } in",
    "    Gc.finalise free t; t",
    ""]

  const OfBigarrayHead: seq<string> := ["  let of_bigarray ctx ba =", "    let dims = Genarray.dims ba in"]

  /** `values` refuses a Bigarray whose dimensions differ from the array's shape. */
  const ValuesHead: seq<string> := [
    "  let values t ba =",
    "    let dims = Genarray.dims ba in",
    "    if not (Array.for_all2 Int.equal t.shape dims) then raise (Error (InvalidShape));"]

  const ValuesTail: seq<string> := ["    if rc <> 0 then raise (Error (Code rc))", "", "  let shape t = t.shape", "end"]

  /** The fixed pieces of an array module's lines, around the type's suffix and element type. */
  const StructOpen := " = struct"
  const TypeLine := "  type t = futhark_array"
  const FreePrefix := "  let free t = ignore (Bindings.futhark_free_"
  const FreeSuffix := " t.ctx.Context.handle t.ptr)"
  const VLine := "  let v ctx dims ="
  const DataPrefix := "    let data = CArray.make "
  const DataSuffix := " (Array.fold_left ( * ) 1 dims) in"
  const NewPrefix := "    let ptr = Bindings.futhark_new_"
  const FromDataSuffix := " ctx.Context.handle (CArray.start data)"
  const FromBigarraySuffix := " ctx.Context.handle (bigarray_start genarray ba)"
  const ValuesPrefix := "    let rc = Bindings.futhark_values_"
  const ValuesSuffix := " t.ctx.Context.handle t.ptr (bigarray_start genarray ba) in"

  const GenarraySuffix := ", Bigarray.c_layout) Bigarray.Genarray.t"

  /** The fixed lines of an array module's signature. */
  const SigOpen := ": sig"
  const ShapeAndV: seq<string> := ["  type t", "  val shape: t -> int array", "  val v: Context.t -> int array -> t"]
  const OfBigarrayVal := "  val of_bigarray: Context.t -> "
  const ValuesVal := "  val values: t -> "

  const ArrayBoilerplate: ArrayTemplate := ArrayTemplate(
    StructOpen, TypeLine, FreePrefix, FreeSuffix, VLine, DataPrefix, DataSuffix, NewPrefix, FromDataSuffix,
    CheckAndFinalise, OfBigarrayHead, FromBigarraySuffix, ValuesHead, ValuesPrefix, ValuesSuffix, ValuesTail,
    GenarraySuffix, SigOpen, ShapeAndV, OfBigarrayVal, ValuesVal)

  /** The first `ml!` of the `.ml` file: `Bindings` and its five context bindings. */
  const HeaderLines: seq<string> := [
    "open Ctypes",
    "",
    "module Bindings = struct",
    "  external _stub: unit -> unit = \"futhark_context_new\"",
    "  let context = typedef (ptr void) \"context\"",
    "  let context_config = typedef (ptr void) \"context_config\"",
    "  " + ForeignFunction("futhark_context_new", "context", ["context_config"]),
    "  " + ForeignFunction("futhark_context_free", "int", ["context"]),
    "  " + ForeignFunction("futhark_context_sync", "int", ["context"]),
    "  " + ForeignFunction("futhark_context_config_new", "context_config", ["void"]),
    "  " + ForeignFunction("futhark_context_config_free", "int", ["context"])]

  /** The error type, shared by the `.ml` and the `.mli`. */
  const ErrorType: string := "type error = InvalidShape | NullPtr | Code of int\nexception Error of error"

  /** The exception printer registered after the error type. */
  const ErrorPrinter: string :=
    "let () = Printexc.register_printer (function " +
    "| Error InvalidShape -> Some \"futhark error: invalid shape\" " +
    "| Error NullPtr -> Some \"futhark error: null pointer\" " +
    "| Error (Code c) -> Some (Printf.sprintf \"futhark error: code %d\" c) | _ -> None)"

  /** The `Context` module: creation with its null checks, finalisation, and `sync`. */
  const ContextLines: seq<string> := [
    "open Bigarray",
    "",
    "module Context = struct",
    "  type t = { handle: unit ptr; config: unit ptr }",
    "",
    "  let free t = ignore (Bindings.futhark_context_free t.handle); " +
    "ignore (Bindings.futhark_context_config_free t.config)",
    "",
    "  let v () =",
    "    let config = Bindings.futhark_context_config_new () in",
    "    if is_null config then raise (Error NullPtr);",
    "    let handle = Bindings.futhark_context_new config in",
    "    if is_null handle then (ignore @@ Bindings.futhark_context_config_free config; raise (Error NullPtr));",
    "    let t = { handle; config } in",
    "    Gc.finalise free t; t",
    "",
    "  let sync t = let rc = Bindings.futhark_context_sync t.handle in if rc <> 0 then raise (Error (Code rc))",
    "end"]

  /** The `Context` signature in the `.mli`. */
  const ContextSigLines: seq<string> := [
    "module Context: sig",
    "  type t",
    "  val v: unit -> t",
    "  val sync: t -> unit",
    "end"]

  /** The record every array module's `t` is. */
  const ArrayRecord: string := "type futhark_array = { ptr: unit ptr; shape: int array; ctx: Context.t }"

  /** The text of `generate`'s string literals. */
  const Boilerplate: FixedText :=
    FixedText(HeaderLines, ErrorType, ErrorPrinter, ContextLines, ContextSigLines, ArrayRecord, ArrayBoilerplate)

  /**
   * Loop 3's `.ml` writes for one array type registered as `name`: the
   * module with `free`, `v`, `of_bigarray`, `values` and `shape`; both
   * constructors pass one `Int64` per dimension to the `new` binding.
   */
  function ArrayModule(t: ArrayTemplate, ctypes: TypeMap, a: M.ArrayType, name: string): seq<string> {
    var s := M.Suffix(a);
    var dims := DimArgs(M.RankCount(a.rank));
    Lines([
      "module " + Generate.FirstUppercase(name) + t.structOpen,
      t.typeLine, "", t.freePrefix + s + t.freeSuffix, "", t.vLine,
      t.dataPrefix + CtypesElem(ctypes, a) + t.dataSuffix]) +
    [t.newPrefix + s + t.fromDataSuffix] +
    dims +
    Lines(t.checkAndFinalise + t.ofBigarrayHead + [t.newPrefix + s + t.fromBigarraySuffix]) +
    dims +
    Lines(t.checkAndFinalise + t.valuesHead + [t.valuesPrefix + s + t.valuesSuffix] + t.valuesTail)
  }

  /** The Bigarray type of an array's elements in the `.mli`. */
  function Genarray(t: ArrayTemplate, ctypes: TypeMap, ba: TypeMap, a: M.ArrayType): string {
    "(" + CtypesElem(ctypes, a) + ", " + Resolve(ba, M.ToStr(a.elemtype)) + t.genarraySuffix
  }

  /** Loop 3's `.mli` writes for one array type registered as `name`. */
  function ArraySig(t: ArrayTemplate, ctypes: TypeMap, ba: TypeMap, a: M.ArrayType, name: string): seq<string> {
    var ga := Genarray(t, ctypes, ba, a);
    Lines(["module " + Generate.FirstUppercase(name) + t.sigOpen] + t.shapeAndV +
      [t.ofBigarrayVal + ga + " -> t", t.valuesVal + ga + " -> unit", "end"])
  }

  function ArrayModules(t: ArrayTemplate, ctypes: TypeMap, types: map<string, M.Type>, ks: seq<string>): seq<string>
    requires AllArrays(types, ks)
  {
    if |ks| == 0 then []
    else
      ArrayModules(t, ctypes, types, ks[..|ks| - 1]) +
      ArrayModule(t, ctypes, types[ks[|ks| - 1]].arrayType, ArrayName(types[ks[|ks| - 1]].arrayType))
  }

  function ArraySigs(t: ArrayTemplate, ctypes: TypeMap, ba: TypeMap, types: map<string, M.Type>, ks: seq<string>): seq<string>
    requires AllArrays(types, ks)
  {
    if |ks| == 0 then []
    else
      ArraySigs(t, ctypes, ba, types, ks[..|ks| - 1]) +
      ArraySig(t, ctypes, ba, types[ks[|ks| - 1]].arrayType, ArrayName(types[ks[|ks| - 1]].arrayType))
  }

  /** Loop 3 over one more key adds that type's module. */
  lemma ArrayModulesStep(t: ArrayTemplate, ctypes: TypeMap, types: map<string, M.Type>, ks: seq<string>, i: nat, a: M.ArrayType)
    requires AllArrays(types, ks) && i < |ks| && a == types[ks[i]].arrayType
    ensures AllArrays(types, ks[..i]) && AllArrays(types, ks[..i + 1])
    ensures ArrayModules(t, ctypes, types, ks[..i + 1]) == ArrayModules(t, ctypes, types, ks[..i]) + ArrayModule(t, ctypes, a, ArrayName(a))
  {
    var u := ks[..i + 1];
    assert u[..|u| - 1] == ks[..i] && u[|u| - 1] == ks[i];
  }

  /** ... and its signature. */
  lemma ArraySigsStep(t: ArrayTemplate, ctypes: TypeMap, ba: TypeMap, types: map<string, M.Type>, ks: seq<string>, i: nat, a: M.ArrayType)
    requires AllArrays(types, ks) && i < |ks| && a == types[ks[i]].arrayType
    ensures AllArrays(types, ks[..i]) && AllArrays(types, ks[..i + 1])
    ensures ArraySigs(t, ctypes, ba, types, ks[..i + 1]) == ArraySigs(t, ctypes, ba, types, ks[..i]) + ArraySig(t, ctypes, ba, a, ArrayName(a))
  {
    var u := ks[..i + 1];
    assert u[..i] == ks[..i] && u[i] == ks[i];
  }

  /** The `.ml` writes between the bindings and the array modules. */
  function Runtime(f: FixedText): seq<string> {
    Lines(["end"]) + Lines([f.errorType, f.errorPrinter]) + Lines(f.contextLines) + Lines([f.arrayRecord])
  }

  /** The `.mli` writes before the array signatures. */
  function RuntimeSig(f: FixedText): seq<string> {
    Lines([f.errorType]) + Lines(f.contextSigLines)
  }

  /** The `Entry` module of the `.ml`: one definition per entry point, in key order. */
  function EntryModule(tm: TypeMap, eps: map<string, M.Entry>, ks: seq<string>): seq<string>
    requires forall i :: 0 <= i < |ks| ==> ks[i] in eps
  {
    Lines(["module Entry = struct"]) + EntryDefs(tm, eps, ks) + Lines(["end"])
  }

  /** The `Entry` signature of the `.mli`. */
  function EntrySignature(tm: TypeMap, eps: map<string, M.Entry>, ks: seq<string>): seq<string>
    requires forall i :: 0 <= i < |ks| ==> ks[i] in eps
  {
    Lines(["module Entry: sig"]) + EntrySigs(tm, eps, ks) + Lines(["end"])
  }

  /** What loop 1 leaves in `typemap` when every type is an array type. */
  function Registered(tm0: TypeMap, m: M.Manifest): TypeMap
    requires AllArrays(m.types, M.TypeNames(m))
  {
    tm0 + Registrations(m.types, M.TypeNames(m))
  }

  /**
   * The `.ml` a run writes for a manifest without opaque types, starting
   * from `typemap` `tm0`: the bindings, the runtime, the array modules and
   * the `Entry` module.
   */
  function MlFile(f: FixedText, ctypes: TypeMap, tm0: TypeMap, m: M.Manifest): seq<string>
    requires AllArrays(m.types, M.TypeNames(m))
  {
    var ks := M.TypeNames(m);
    var tm := Registered(tm0, m);
    Lines(f.header) + ArrayBindings(ctypes, m.types, ks) + EntryBindings(tm, m.entryPoints, M.EntryNames(m)) +
    Runtime(f) + ArrayModules(f.arrayText, ctypes, m.types, ks) + EntryModule(tm, m.entryPoints, M.EntryNames(m))
  }

  /** The matching `.mli`. */
  function MliFile(f: FixedText, ctypes: TypeMap, ba: TypeMap, tm0: TypeMap, m: M.Manifest): seq<string>
    requires AllArrays(m.types, M.TypeNames(m))
  {
    var tm := Registered(tm0, m);
    RuntimeSig(f) + ArraySigs(f.arrayText, ctypes, ba, m.types, M.TypeNames(m)) + EntrySignature(tm, m.entryPoints, M.EntryNames(m))
  }
}
