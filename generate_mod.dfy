/**
 * The shared part of the generators: name helpers, the output `Config`, and
 * the choice of generator from the output file's extension.
 */
module Generate {
  import opened Wrappers
  import opened Strings
  import opened Lib
  import Paths

  /**
   * `first_uppercase`: `get_mut(0..1)` succeeds only when the first character
   * is one byte long (ASCII), and `make_ascii_uppercase` then upper-cases it.
   */
  function FirstUppercase(s: string): (r: string)
    ensures |r| == |s|
    ensures |s| > 0 ==> r[0] == AsciiUpper(s[0]) && r[1..] == s[1..]
    ensures |s| == 0 ==> r == ""
  {
    if |s| > 0 && IsAscii(s[0]) then [AsciiUpper(s[0])] + s[1..] else s
  }

  /** Upper-casing the first letter twice changes nothing more. */
  lemma FirstUppercaseIdempotent(s: string)
    ensures FirstUppercase(FirstUppercase(s)) == FirstUppercase(s)
  {
    if |s| > 0 {
      var r := FirstUppercase(s);
      assert r == [r[0]] + r[1..];
      assert FirstUppercase(r) == [AsciiUpper(r[0])] + r[1..];
    }
  }

  /** The spelling `convert_struct_name` accepts: `struct`, a blank, the name, a blank, `*`. */
  predicate StructSpelling(s: string) {
    |s| >= 9 && s[..6] == "struct" && IsAsciiWhitespace(s[6]) &&
    IsAsciiWhitespace(s[|s| - 2]) && s[|s| - 1] == '*'
  }

  /**
   * `convert_struct_name`: strip the prefix "struct", the suffix '*', then
   * one leading and one trailing ASCII blank. Each strip is unwrapped, so
   * `None` stands for the panic.
   */
  function ConvertStructName(s: string): (r: Option<string>)
    ensures r.Some? <==> StructSpelling(s)
    ensures r.Some? ==> |r.value| == |s| - 9 && r.value == s[7..|s| - 2]
  {
    if !StartsWith(s, "struct") then None
    else
      var t1 := s[6..];
      if !EndsWith(t1, "*") then None
      else
        var t2 := t1[..|t1| - 1];
        if |t2| == 0 || !IsAsciiWhitespace(t2[0]) then None
        else
          var t3 := t2[1..];
          if |t3| == 0 || !IsAsciiWhitespace(t3[|t3| - 1]) then None
          else
            assert t2 == s[6..|s| - 1];
            assert t3 == s[7..|s| - 1];
            assert t3[..|t3| - 1] == s[7..|s| - 2];
            Some(t3[..|t3| - 1])
  }

  /** The C spelling of a struct pointer converts back to the struct's name. */
  lemma ConvertStructNameRoundTrip(n: string)
    ensures ConvertStructName("struct " + n + " *") == Some(n)
  {
    var s := "struct " + n + " *";
    assert s[..6] == "struct" && s[6] == ' ' && s[|s| - 2] == ' ' && s[|s| - 1] == '*';
    assert s[7..|s| - 2] == n;
  }

  /**
   * `Config`: where the bindings go and whether the generated wrappers
   * synchronise after every call. The open file handle is the `TextFile`
   * a generator writes to.
   */
  datatype Config = Config(outputPath: string, autoSync: bool)

  /**
   * `Config::new`: `createError` is what `File::create(output)` reported,
   * if anything; the `?` turns it into `Io`.
   */
  function NewConfig(output: string, createError: Option<string>): (r: Result<Config, Error>)
    ensures r.Failure? <==> createError.Some?
    ensures r.Failure? ==> r.error == Io(createError.value)
    ensures r.Success? ==> r.value.outputPath == output && r.value.autoSync
  {
    match createError
    case Some(e) => Failure(Io(e))
    case None => Success(Config(output, true))
  }

  /** `Config::no_auto_sync`: clears the flag and keeps the output. */
  function NoAutoSync(c: Config): (r: Config)
    ensures !r.autoSync && r.outputPath == c.outputPath
  {
    c.(autoSync := false)
  }

  /** Turning synchronisation off is the only difference from a fresh config. */
  lemma NoAutoSyncAfterNew(output: string)
    ensures NewConfig(output, None).Success?
    ensures NoAutoSync(NewConfig(output, None).value) == Config(output, false)
  {
  }

  /** The generators `detect` can hand back. */
  datatype Generator = RustGenerator | OCamlGenerator

  /** `Config::detect`: "rs" picks the Rust generator, "ml" the OCaml one. */
  function Detect(c: Config): (r: Option<Generator>)
    ensures r == Some(RustGenerator) <==> Paths.Extension(c.outputPath) == Some("rs")
    ensures r == Some(OCamlGenerator) <==> Paths.Extension(c.outputPath) == Some("ml")
    ensures r.None? <==> Paths.Extension(c.outputPath) !in {Some("rs"), Some("ml")}
  {
    match Paths.Extension(c.outputPath)
    case Some("rs") => Some(RustGenerator)
    case Some("ml") => Some(OCamlGenerator)
    case _ => None
  }

  /** The generator follows the extension a path is given. */
  lemma DetectAfterWithExtension(p: string, ext: string)
    requires Paths.FileName(p).Some?
    requires |ext| > 0 && '.' !in ext && '/' !in ext
    ensures Detect(Config(Paths.WithExtension(p, ext), true)) == Some(RustGenerator) <==> ext == "rs"
    ensures Detect(Config(Paths.WithExtension(p, ext), true)) == Some(OCamlGenerator) <==> ext == "ml"
  {
    Paths.WithExtensionSetsExtension(p, ext);
  }

  /**
   * An output file as `write!` and `writeln!` fill it. `writes` lists every
   * piece written, in order; the file's contents are their concatenation.
   */
  class TextFile {
    var path: string
    var writes: seq<string>

    function Text(): string
      reads this
    {
      Concat(writes)
    }

    /** `File::create`: a new, empty file. */
    constructor(path: string)
      ensures this.path == path && writes == [] && Text() == ""
    {
      this.path := path;
      writes := [];
    }

    /** `write!`: the piece, without a line break. */
    method Write(s: string)
      modifies this
      ensures writes == old(writes) + [s] && path == old(path)
    {
      writes := writes + [s];
    }

    /** `writeln!` once per line, as one invocation of the generators' line-writing macros. */
    method WriteLines(ls: seq<string>)
      modifies this
      ensures writes == old(writes) + Lines(ls) && path == old(path)
    {
      writes := writes + Lines(ls);
    }
  }
}
