/**
 * What the Rust generators put into a `codegen::Scope`, item by item in the
 * order they push them, and the `ExternFn` builder both Rust generators
 * declare. Turning a scope into text is the `codegen` crate's business; a
 * raw item is text already.
 */
module Scope {
  import opened Strings

  /** A `name: type` pair: a struct field, a function argument or an extern parameter. */
  datatype Param = Param(name: string, typ: string)

  /** How a generated function takes `self`: `arg_ref_self`, `arg_mut_self` or not at all. */
  datatype Receiver = NoSelf | RefSelf | MutSelf

  /** A function added to an `impl` with `new_fn`: its arguments, return type and body lines. */
  datatype Fn = Fn(name: string, receiver: Receiver, args: seq<Param>, ret: string, lines: seq<string>)

  /**
   * `raw`, `new_struct`, `new_enum` and `new_impl` (with `impl_trait` naming
   * the trait, or "" for an inherent block).
   */
  datatype Item =
    | Raw(text: string)
    | Struct(name: string, fields: seq<Param>)
    | Enum(name: string, variants: seq<string>)
    | Impl(target: string, traitName: string, fns: seq<Fn>)

  /** `ExternFn`: a C function's name, its parameters in order and its return type ("" for none). */
  datatype ExternFn = ExternFn(name: string, args: seq<Param>, ret: string)

  /** `ExternFn::new`: no parameters, no return type. */
  function NewExtern(name: string): ExternFn {
    ExternFn(name, [], "")
  }

  /** `ExternFn::arg`. */
  function Arg(f: ExternFn, name: string, typ: string): ExternFn {
    f.(args := f.args + [Param(name, typ)])
  }

  /** `ExternFn::ret`. */
  function Ret(f: ExternFn, r: string): ExternFn {
    f.(ret := r)
  }

  /**
   * `arg` adds exactly one parameter, at the end, and keeps the others;
   * `ret` touches the return type only, so the two builders commute.
   */
  lemma BuilderLaws(f: ExternFn, name: string, typ: string, r: string)
    ensures |Arg(f, name, typ).args| == |f.args| + 1
    ensures Arg(f, name, typ).args[..|f.args|] == f.args
    ensures Arg(f, name, typ).args[|f.args|] == Param(name, typ)
    ensures Arg(f, name, typ).name == f.name && Arg(f, name, typ).ret == f.ret
    ensures Ret(f, r).name == f.name && Ret(f, r).args == f.args && Ret(f, r).ret == r
    ensures Ret(Arg(f, name, typ), r) == Arg(Ret(f, r), name, typ)
  {
    assert (f.args + [Param(name, typ)])[..|f.args|] == f.args;
  }

  /** `format!("{}: {}", name, type)` for each parameter, in order. */
  function ParamTexts(ps: seq<Param>): (r: seq<string>)
    ensures |r| == |ps|
  {
    seq(|ps|, i requires 0 <= i < |ps| => ps[i].name + ": " + ps[i].typ)
  }

  /** The parameter list of the extern text: the pieces joined by ", ". */
  function ParamList(ps: seq<Param>): string {
    Join(ParamTexts(ps), ", ")
  }

  /** One more `arg` puts ", name: type" at the end of a non-empty parameter list. */
  lemma ParamListSnoc(ps: seq<Param>, p: Param)
    requires |ps| >= 1
    ensures ParamList(ps + [p]) == ParamList(ps) + ", " + p.name + ": " + p.typ
  {
    assert ParamTexts(ps + [p]) == ParamTexts(ps) + [p.name + ": " + p.typ];
    JoinSnoc(ParamTexts(ps), p.name + ": " + p.typ, ", ");
  }

  /** `ParamTexts` of a prefix grown by one is the old list and the new text. */
  lemma ParamTextsSnoc(ps: seq<Param>, i: nat)
    requires i < |ps|
    ensures ParamTexts(ps[..i + 1]) == ParamTexts(ps[..i]) + [ps[i].name + ": " + ps[i].typ]
  {
  }

  /**
   * When no name or type contains ',', the rendered list has one ',' fewer
   * than there are parameters: every parameter lands in its own slot.
   */
  lemma ParamListCommas(ps: seq<Param>)
    requires |ps| >= 1
    requires forall i :: 0 <= i < |ps| ==> ',' !in ps[i].name && ',' !in ps[i].typ
    ensures CountChar(ParamList(ps), ',') == |ps| - 1
  {
    var ts := ParamTexts(ps);
    forall i | 0 <= i < |ts|
      ensures CountChar(ts[i], ',') == 0
    {
      var p := ps[i];
      CountCharNone(p.name, ',');
      CountCharNone(": ", ',');
      CountCharNone(p.typ, ',');
      CountCharAppend(p.name, ": ", ',');
      CountCharAppend(p.name + ": ", p.typ, ',');
    }
    CountCharJoin(ts, ", ", ',');
    assert ", "[..1] == [','];
    CountCharAppend([','], [' '], ',');
    assert [','] + [' '] == ", ";
  }
}
