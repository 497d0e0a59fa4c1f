/**
 * The manifest `futhark` writes next to the C file: element types, the
 * records describing entry points and types, and how the manifest's path is
 * derived from the source file's.
 */
module Manifest {
  import opened Wrappers
  import opened Lib
  import OrderedMap
  import Paths
  import Strings

  datatype ElemType = I8 | I16 | I32 | I64 | U8 | U16 | U32 | U64 | F16 | F32 | F64 | Bool

  /** The twelve serde tags of `ElemType`. */
  const ElemTags: set<string> :=
    {"i8", "i16", "i32", "i64", "u8", "u16", "u32", "u64", "f16", "f32", "f64", "bool"}

  /** `ElemType::to_str`. */
  function ToStr(e: ElemType): (s: string)
    ensures s in ElemTags
    ensures 2 <= |s| <= 4
  {
    match e
    case I8 => "i8"
    case I16 => "i16"
    case I32 => "i32"
    case I64 => "i64"
    case U8 => "u8"
    case U16 => "u16"
    case U32 => "u32"
    case U64 => "u64"
    case F16 => "f16"
    case F32 => "f32"
    case F64 => "f64"
    case Bool => "bool"
  }

  /** The serde `rename` tags, as the manifest's `elemtype` field is read. */
  function ParseElemType(tag: string): (r: Option<ElemType>)
    ensures r.Some? <==> tag in ElemTags
  {
    if tag == "i8" then Some(I8)
    else if tag == "i16" then Some(I16)
    else if tag == "i32" then Some(I32)
    else if tag == "i64" then Some(I64)
    else if tag == "u8" then Some(U8)
    else if tag == "u16" then Some(U16)
    else if tag == "u32" then Some(U32)
    else if tag == "u64" then Some(U64)
    else if tag == "f16" then Some(F16)
    else if tag == "f32" then Some(F32)
    else if tag == "f64" then Some(F64)
    else if tag == "bool" then Some(Bool)
    else None
  }

  /** `to_str` returns each variant's own serde tag: the two round trips. */
  lemma ToStrIsTag(e: ElemType, tag: string)
    ensures ParseElemType(ToStr(e)) == Some(e)
    ensures ParseElemType(tag) == Some(e) ==> ToStr(e) == tag
  {
  }

  /** Twelve variants, twelve distinct names. */
  lemma ToStrInjective(a: ElemType, b: ElemType)
    ensures ToStr(a) == ToStr(b) ==> a == b
  {
    ToStrIsTag(a, ToStr(b));
  }

  /** Rust's `i32`, the type of an array's `rank`. */
  type I32 = x: int | -0x8000_0000 <= x < 0x8000_0000

  datatype Output = Output(typ: string, unique: bool)

  datatype Input = Input(name: string, typ: string, unique: bool)

  datatype Entry = Entry(cfun: string, outputs: seq<Output>, inputs: seq<Input>)

  /** The C function names of an array type; `free` and `new` are spelled `freeFn` and `newFn` here. */
  datatype ArrayOps = ArrayOps(freeFn: string, shape: string, values: string, newFn: string)

  datatype ArrayType = ArrayType(ctype: string, rank: I32, elemtype: ElemType, ops: ArrayOps)

  /** `{elemtype}_{rank}d`, the part every generated per-array name shares; `rank` is printed as `format!` prints an `i32`. */
  function Suffix(a: ArrayType): string {
    ToStr(a.elemtype) + "_" + Strings.IntToString(a.rank) + "d"
  }

  /** `for i in 0..rank` with an `i32` rank runs `rank` times, or not at all when rank <= 0. */
  function RankCount(rank: int): (n: nat)
    ensures rank >= 0 ==> n == rank
    ensures rank < 0 ==> n == 0
  {
    if rank > 0 then rank else 0
  }

  datatype OpaqueOps = OpaqueOps(freeFn: string, store: string, restore: string)

  datatype OpaqueType = OpaqueType(ctypes: string, ops: OpaqueOps)

  /** An untagged enum: every type in the manifest is an array or an opaque type. */
  datatype Type = Array(arrayType: ArrayType) | Opaque(opaqueType: OpaqueType)

  /** `entry_points` and `types` are `BTreeMap`s, visited in ascending key order. */
  datatype Manifest = Manifest(
    backend: Backend,
    version: string,
    entryPoints: map<string, Entry>,
    types: map<string, Type>)

  /** The order in which `for (name, ty) in &manifest.types` visits the types. */
  function TypeNames(m: Manifest): (ks: seq<string>)
    ensures OrderedMap.StrictlySorted(ks)
    ensures forall k :: k in ks <==> k in m.types
    ensures forall i :: 0 <= i < |ks| ==> ks[i] in m.types
  {
    OrderedMap.Keys(m.types)
  }

  /** The order in which `for (name, entry) in &manifest.entry_points` visits the entries. */
  function EntryNames(m: Manifest): (ks: seq<string>)
    ensures OrderedMap.StrictlySorted(ks)
    ensures forall k :: k in ks <==> k in m.entryPoints
    ensures forall i :: 0 <= i < |ks| ==> ks[i] in m.entryPoints
  {
    OrderedMap.Keys(m.entryPoints)
  }

  /**
   * Two manifests with the same type names are walked in the same order,
   * and that order is the unique ascending listing of the names.
   */
  lemma TypeOrderDeterministic(m: Manifest, n: Manifest, order: seq<string>)
    requires m.types.Keys == n.types.Keys
    requires OrderedMap.StrictlySorted(order) && forall k :: k in order <==> k in m.types
    ensures TypeNames(m) == TypeNames(n) == order
  {
    OrderedMap.KeysDeterministic(m.types, n.types, order);
  }

  /** Same for entry points. */
  lemma EntryOrderDeterministic(m: Manifest, n: Manifest, order: seq<string>)
    requires m.entryPoints.Keys == n.entryPoints.Keys
    requires OrderedMap.StrictlySorted(order) && forall k :: k in order <==> k in m.entryPoints
    ensures EntryNames(m) == EntryNames(n) == order
  {
    OrderedMap.KeysDeterministic(m.entryPoints, n.entryPoints, order);
  }

  /** How reading a file can fail: opening it, or decoding its JSON. */
  datatype ReadFailure = NotReadable(detail: string) | NotJson(detail: string)

  /** The file system and JSON decoder, seen as one function from a path to its outcome. */
  type ManifestReader = string -> Result<Manifest, ReadFailure>

  /** `Manifest::parse_file`: the `?`s turn I/O failures into `Io` and decoding failures into `Json`. */
  function ParseFile(read: ManifestReader, path: string): (r: Result<Manifest, Error>)
    ensures r.Success? <==> read(path).Success?
    ensures r.Success? ==> r.value == read(path).value
    ensures r.Failure? ==> r.error != CompilationFailed
    ensures r.Failure? ==> (r.error.Io? <==> read(path).error.NotReadable?)
  {
    match read(path)
    case Success(m) => Success(m)
    case Failure(NotReadable(d)) => Failure(Io(d))
    case Failure(NotJson(d)) => Failure(Json(d))
  }

  /** The path `from_source_file` reads: the source path with its extension replaced by `json`. */
  function ManifestPath(source: string): (p: string)
    ensures Paths.FileName(source).Some? ==>
      Paths.Extension(p) == Some("json") &&
      Paths.Stem(p) == Paths.Stem(source) &&
      Paths.Dir(p) == Paths.Dir(source)
  {
    if Paths.FileName(source).Some? then
      Paths.WithExtensionSetsExtension(source, "json");
      Paths.WithExtension(source, "json")
    else
      Paths.WithExtension(source, "json")
  }

  /** `Manifest::from_source_file`. */
  function FromSourceFile(read: ManifestReader, source: string): (r: Result<Manifest, Error>)
    ensures r == ParseFile(read, ManifestPath(source))
  {
    ParseFile(read, Paths.WithExtension(source, "json"))
  }


}
