# futhark-bindgen, modelled in Dafny

futhark-bindgen reads the JSON manifest that the Futhark compiler writes next
to a compiled library. From it, it generates bindings for Rust or OCaml.
This project models that generator and the runtime behaviour of the Rust
wrappers it emits, and proves properties of both:

- **Manifest** (`manifest.dfy`). Element types and their names, array and
  opaque types, entry points, the two `BTreeMap`s and the order in which
  the generator walks them. Also the `.json` path a manifest is read from.
- **Backends and compiler** (`lib.dfy`, `compiler.dfy`). `Backend::name`,
  the `Compiler` record, the outcome of `compile` and the paths of the
  files it reports.
- **Generator configuration** (`generate_mod.dfy`). `first_uppercase`
  (which also stands for the OCaml generator's `ascii_titlecase`, the same
  function body),
  `convert_struct_name`, `Config` and its `auto_sync` flag, and backend
  selection by the output file's extension. Also the append-only output
  file every generator writes to.
- **OCaml generator** (`ocaml_text.dfy`, `ocaml.dfy`). The four loops of
  `OCaml::generate`:
  - the array bindings and the `typemap` registrations;
  - the entry-point bindings;
  - the array modules;
  - the `Entry` module, with its parameters, labels and call sites.

  The generator is a class with the `typemap`. Each loop is a method that
  appends to the `.ml` and `.mli` files.
- **Rust generator** (`scope.dfy`, `rust_text.dfy`, `rust.dfy`). The
  `ExternFn` builder, `generate_array_type`, `generate_entry_function`,
  and the two-level `typemap` (name to pointer type, pointer type to
  wrapper). The generator is a class whose `scope` is an append-only
  sequence of items.
- **Older generator** (`legacy_text.dfy`, `legacy.dfy`). `src/generate.rs`,
  an earlier variant of the Rust generator. It has a one-line `gen`,
  `Array_{elem}_{rank}d` wrappers, one-level registration, the Python copy
  generator and `detect` over `rs`/`py`. It is modelled on its own,
  not merged with the newer one.
- **Generated runtime** (`foreign.dfy`, `context_template.dfy`,
  `array_template.dfy`). What the emitted Rust does at run time, over an
  abstract C library (`Foreign.CLib`):
  - `Options`;
  - `Context::new`, `new_with_options`, `sync`, `auto_sync`,
    `clear_caches`, profiling, `get_error`/`report` and `Drop`;
  - the array wrapper's `new`, `shape`, `values`, `get`, `from_ptr` and
    `Drop`.

  The library records every call in a trace and holds the arrays it made.
  What each foreign call returns is decided by an oracle indexed by the
  call's position. The proofs cover:
  - call order;
  - error paths;
  - that nothing allocated is left unreleased (`Unreleased`);
  - that `get` gives back what `new` stored.

Helper modules:

- `Wrappers`: `Option` and `Result`.
- `Strings`: decimal formatting, joining, `contains`, `replace` and ASCII
  upper-casing.
- `OrderedMap`: `BTreeMap` key order, strictly ascending in byte order.
- `Paths`: `Path::file_name`, `extension`, `file_stem` and
  `with_extension` over `/`-separated strings. Trailing separators and a
  trailing `.` component are skipped, as `Path::components` skips them.
  `Components` is the component list by which `PathBuf`s compare equal.
- `Registry`: a `typemap` lookup with the identity fallback.

Facts about the source that the model keeps as they are:

- **Element types without a `Ctypes` entry.** `f16` and `bool` have no
  entry in the OCaml generator's `Ctypes` table and are written under their
  own names (`src/generate/ocaml.rs:157-161`); the generator has no error
  for an unsupported type. The Rust generator writes `ElemType::to_str`
  for every element type.
- **Runtime errors.** The generated `Error` has the variants `Code`,
  `NullPtr` and `InvalidShape`.
- **Shape check.** `new` and `values` compare the data length with the
  `i64` product of the dimensions, which wraps (see Findings).
- **Context creation.** The `Context::new` that `src/generate/rust.rs`
  writes does not free the config when the context cannot be made (see
  Findings). The template in `context.rs` does free it.
- **Registration depth.** `src/generate.rs` registers only the first level
  of the `typemap`. `src/generate/rust.rs` registers both levels.

## Model

| member | source | states |
|---|---|---|
| Manifest.ToStr | src/manifest.rs:43-58 | every element type's name is one of the twelve tags, 2 to 4 characters long |
| Manifest.ParseElemType | src/manifest.rs:4-40 | a tag parses exactly when it is one of the twelve serde `rename` tags |
| Manifest.ToStrIsTag | src/manifest.rs:4-58 | `to_str` gives each variant's own serde tag: parsing `to_str(e)` gives `e`, and a tag that parses to `e` is `to_str(e)` |
| Manifest.ToStrInjective | src/manifest.rs:43-58 | distinct element types have distinct names |
| Manifest.RankCount | src/generate/rust.rs:115 | `for i in 0..rank` over an `i32` runs `rank` times, and not at all for a rank of 0 or less |
| Manifest.TypeNames | src/manifest.rs:123 | the types are visited in strictly ascending key order, each key of the map exactly once |
| Manifest.EntryNames | src/manifest.rs:122 | the entry points are visited in strictly ascending key order, each key exactly once |
| Manifest.TypeOrderDeterministic | src/manifest.rs:123 | two manifests with the same type names are walked in the same order, the unique ascending listing |
| Manifest.EntryOrderDeterministic | src/manifest.rs:122 | the same for entry points |
| Manifest.ParseFile | src/manifest.rs:132-136 | succeeds exactly when the file reads and decodes, with the decoded manifest; an unreadable file is `Io`, a malformed one `Json`, never `CompilationFailed` |
| Manifest.ManifestPath | src/manifest.rs:128 | the path read has the source's directory and stem and the extension `json` |
| Manifest.FromSourceFile | src/manifest.rs:127-130 | reads the manifest at the source path with its extension replaced by `json` |
| OrderedMap.Keys | src/manifest.rs:122-123 | a `BTreeMap` yields its keys strictly ascending, each once |
| OrderedMap.SortedListingUnique | src/manifest.rs:122-123 | two strictly ascending listings of the same keys are equal, so the iteration order is determined by the key set |
| OrderedMap.KeysDeterministic | src/manifest.rs:122-123 | maps with the same keys are iterated in the same order, whatever their values |
| Lib.Name | src/lib.rs:33-42 | every backend's name is one of the six serde tags |
| Lib.ParseBackend | src/lib.rs:11-30 | a backend tag parses exactly when it is one of the six tags |
| Lib.NameIsTag | src/lib.rs:11-42 | `name` returns each backend's serde tag: the two round trips between tag and variant |
| Lib.NameInjective | src/lib.rs:33-42 | distinct backends have distinct names |
| LibCompile.Compiler.constructor | src/lib.rs:72-78 | a new compiler runs `futhark` and keeps the backend and source path given |
| LibCompile.Compiler.SetExecutableName | src/lib.rs:80-82 | only the executable changes |
| LibCompile.Compiler.Compile | src/lib.rs:84-106 | a spawn failure is `Io`; `CompilationFailed` exactly when the compiler exits unsuccessfully; after a successful exit the result is the manifest read from the `.json` beside the source, and the c, h and py files have the source's directory and stem with their own extension |
| Paths.WithExtensionSetsExtension | src/lib.rs:95-98 | a path given an extension reports that extension and keeps its directory and stem |
| Paths.ComponentsNormalise | src/generate.rs:29 | paths compare by components: a doubled separator, an interior `.` piece and a trailing `/` or `/.` leave the components unchanged |
| Paths.TrailingComponentsIgnored | src/lib.rs:95-98 | a trailing `/` or `/.` changes neither the file name nor the path `with_extension` gives |
| Generate.FirstUppercase | src/generate/mod.rs:9-15 | the length is kept, the first character is ASCII-upper-cased, the rest is unchanged, and "" stays "". It also models `ascii_titlecase` (src/generate/ocaml.rs:83-89), whose body is the same, for the OCaml module names |
| Generate.FirstUppercaseIdempotent | src/generate/mod.rs:9-15 | upper-casing the first letter twice is upper-casing it once |
| Generate.ConvertStructName | src/generate/mod.rs:17-26 | succeeds exactly on `struct`, one ASCII whitespace character, a name, one ASCII whitespace character and `*`; the result is the name between, 9 characters shorter |
| Generate.ConvertStructNameRoundTrip | src/generate/mod.rs:17-26 | the C spelling `struct N *` of any name converts back to `N` |
| Generate.NewConfig | src/generate/mod.rs:43-49 | fails with `Io` exactly when creating the file fails; otherwise keeps the path with `auto_sync` on |
| Generate.NoAutoSync | src/generate/mod.rs:51-54 | clears `auto_sync` and keeps the output path |
| Generate.NoAutoSyncAfterNew | src/generate/mod.rs:43-54 | a fresh config with synchronisation turned off differs from the default only in the flag |
| Generate.Detect | src/generate/mod.rs:69-80 | `rs` selects Rust, `ml` OCaml, and any other or missing extension nothing (each direction) |
| Generate.DetectAfterWithExtension | src/generate/mod.rs:69-80 | a path given extension `ext` selects Rust exactly when `ext` is `rs` and OCaml exactly when it is `ml` |
| Generate.TextFile.Write | src/generate/ocaml.rs:95-130 | `write!` appends one piece to the file and nothing else |
| Generate.TextFile.WriteLines | src/generate/ocaml.rs:95-130 | the `ml!`/`mli!` macros append each line with its line break, in order |
| OCamlText.CtypesFallback | src/generate/ocaml.rs:157-161 | an element type is written under its own name exactly when it is `f16` or `bool`, the two missing from the `Ctypes` table |
| OCamlText.ForeignFunctionArity | src/generate/ocaml.rs:75-80 | a binding built from `n` arguments without '@' holds exactly `n` arrows: one per argument and the one before `returning` |
| OCamlText.ArrayNameMarked | src/generate/ocaml.rs:163 | every registered array name starts with `array_`, the marker the entry loops test |
| OCamlText.NewArgsContents | src/generate/ocaml.rs:167-170 | the `new` binding takes the context, the element pointer and exactly one `int64_t` per dimension |
| OCamlText.FirstOpaque | src/generate/ocaml.rs:153-195 | the position of the first opaque type in key order, where `todo!()` stops the walk; every type before it is an array |
| OCamlText.FirstOpaqueAt | src/generate/ocaml.rs:153-195 | any position up to which all types are arrays and at which an opaque type (or the end) sits is that position |
| OCamlText.Registrations | src/generate/ocaml.rs:164 | loop 1 registers exactly the listed type names |
| OCamlText.RegisteredLookup | src/generate/ocaml.rs:164 | after loop 1 every array type resolves to its `array_` name, so loop 3's `typemap.get(name).unwrap()` cannot fail |
| OCamlText.BindingArgsContents | src/generate/ocaml.rs:197-223 | an entry binding's argument list is the context, then one type per argument at position `k + 1`: outputs first, then inputs |
| OCamlText.CallPieceIsArg | src/generate/ocaml.rs:426-443 | each call-site piece is a blank followed by that argument's expression |
| OCamlText.CallSiteMatchesBinding | src/generate/ocaml.rs:197-223 | the binding has 1 + outputs + inputs arguments, and argument `k` is passed as `name.ptr` exactly when its binding type names an array, otherwise as the bare name |
| OCamlText.CallNameMatchesBinding | src/generate/ocaml.rs:409-412 | loop 2 binds the entry under its C name (line 223), and the call names `Bindings.futhark_entry_{name}`; the two agree exactly when the C name is `futhark_entry_` followed by the entry's key |
| OCamlText.ParamNamesDistinct | src/generate/ocaml.rs:381-392 | distinct arguments get distinct parameter names |
| OCamlText.OutputLabels | src/generate/ocaml.rs:381-385 | a single output is labelled `out`; with several, output `k` is `out{k}` |
| OCamlText.DefPieceNamesParam | src/generate/ocaml.rs:387-392 | outputs are taken as labels `~out..`, inputs by position, under the names the call site uses |
| OCamlGen.WriteDimArgs | src/generate/ocaml.rs:300-302 | one `Int64.of_int dims.(i)` piece per dimension, in index order |
| OCamlGen.OCaml.constructor | src/generate/ocaml.rs:49-72 | the three tables are the fixed ones and `typemap` starts as `OCAML_TYPE_MAP` |
| OCamlGen.OCaml.WriteRuntime | src/generate/ocaml.rs:226-273 | appends the error type, its printer, `Context` and the array record to both files |
| OCamlGen.OCaml.NewBindingArgs | src/generate/ocaml.rs:167-170 | the loop builds the context, the element pointer and one `int64_t` per dimension |
| OCamlGen.OCaml.EntryBindingArg | src/generate/ocaml.rs:200-220 | an argument's binding type: a non-array output is passed as a `ptr` |
| OCamlGen.OCaml.EntryBindingArgs | src/generate/ocaml.rs:197-222 | the outputs' and inputs' loops build the binding's argument list |
| OCamlGen.OCaml.BindArray | src/generate/ocaml.rs:165-191 | an array type adds its typedef and its `new`, `values` and `free` bindings |
| OCamlGen.OCaml.BindArrayAt | src/generate/ocaml.rs:153-192 | one pass of loop 1 registers the type and appends its bindings after the earlier ones |
| OCamlGen.OCaml.BindArrays | src/generate/ocaml.rs:153-195 | loop 1 registers and binds the array types in key order and stops at the first opaque type |
| OCamlGen.OCaml.BindEntries | src/generate/ocaml.rs:197-224 | loop 2 writes one binding per entry point, in key order |
| OCamlGen.OCaml.WriteArrayModule | src/generate/ocaml.rs:285-354 | one array type's module in the `.ml` and its signature in the `.mli` |
| OCamlGen.OCaml.WriteArrayModuleAt | src/generate/ocaml.rs:275-358 | one pass of loop 3 appends the type's module and signature after the earlier ones |
| OCamlGen.OCaml.WriteArrayModules | src/generate/ocaml.rs:275-358 | loop 3 writes every array type's module and signature, in key order |
| OCamlGen.OCaml.WriteOutputParam | src/generate/ocaml.rs:366-389 | an output adds its `~out` label to the `let` and its labelled arrow to the `val` |
| OCamlGen.OCaml.WriteInputParam | src/generate/ocaml.rs:391-406 | an input adds its name to the `let` and its arrow to the `val` |
| OCamlGen.OCaml.WriteParams | src/generate/ocaml.rs:366-406 | the outputs' and inputs' loops write the parameters and the arrows in argument order |
| OCamlGen.OCaml.WriteCallPiece | src/generate/ocaml.rs:414-443 | the call-site piece for one argument, unwrapped to `.ptr` for arrays |
| OCamlGen.OCaml.WriteCallArgs | src/generate/ocaml.rs:414-444 | the call site passes the outputs, then the inputs |
| OCamlGen.OCaml.WriteEntry | src/generate/ocaml.rs:362-448 | one entry point's `let` in the `.ml` and `val` in the `.mli` |
| OCamlGen.OCaml.WriteEntries | src/generate/ocaml.rs:362-449 | loop 4 covers every entry point in key order |
| OCamlGen.OCaml.WriteEntryModule | src/generate/ocaml.rs:360-451 | the `Entry` module and its signature enclose loop 4 |
| OCamlGen.OCaml.WriteAfterBindings | src/generate/ocaml.rs:197-451 | after loop 1: loop 2, the runtime, loop 3 and the `Entry` module, in that order |
| OCamlGen.OCaml.WriteFiles | src/generate/ocaml.rs:139-451 | finishes exactly when no type is opaque. Then `typemap` holds every array registration and both files hold the full text. Otherwise the run stops after the header and the bindings before the first opaque type, and the `.mli` is still empty |
| OCamlGen.OCaml.Generate | src/generate/ocaml.rs:92-453 | a failure to create the `.mli` is `Io` before anything is written; otherwise the `.mli` is beside the output, and the run ends unfinished (`todo!()`) exactly when an opaque type is met |
| Scope.BuilderLaws | src/generate/rust.rs:39-47 | `arg` adds exactly one parameter, at the end, keeping the others; `ret` changes only the return type; the two commute |
| Scope.ParamListSnoc | src/generate/rust.rs:49-64 | one more argument appends `, name: type` to the rendered list |
| Scope.ParamListCommas | src/generate/rust.rs:49-64 | without ',' in names and types, `n` parameters render with `n - 1` commas, one slot each |
| RustText.ExternDeclShape | src/generate/rust.rs:49-64 | the declaration opens with `extern "C" { fn NAME(` and the parameters, carries `-> RET` exactly when the return type is non-empty, and ends with `;\n}\n` |
| RustText.PtrTypeInjective | src/generate/rust.rs:78-91 | the pointer type determines the element type and rank, hence the wrapper's name |
| RustText.RustNameMarked | src/generate/rust.rs:81-84 | every wrapper name contains `Array` |
| RustText.DimRefs | src/generate/rust.rs:114-118 | one `dims[i]` per dimension |
| RustText.WithDimsContents | src/generate/rust.rs:187-210 | the dimension loops append `dim0`..`dim{n-1}` of type `i64` after the existing parameters, keeping name and return type |
| RustText.ConstElemPtr | src/generate/rust.rs:189 | the element pointer with `*mut` replaced is `*const {elem}` |
| RustText.NewExternArities | src/generate/rust.rs:187-210 | `new` has 2 + rank parameters and `new_raw` 3 + rank, the last rank being `dim0`..; both return the array's pointer type |
| RustText.ArrayItemsCount | src/generate/rust.rs:93-239 | an array type adds 14 items: the structs, the `impl` with `new`, `from_slice` and `values`, `Drop`, and two items per extern |
| RustText.RegisteredName | src/generate/rust.rs:404-413 | after the type loop every array type's name resolves to its pointer type, whatever came later |
| RustText.RegisteredWrapper | src/generate/rust.rs:404-413 | after the type loop every array type's pointer type resolves to its wrapper's name |
| RustText.RegisteredUnknown | src/generate/rust.rs:264-277 | a name registered by nobody (an element type) resolves to itself |
| RustText.RegisterKeepsWrapper | src/generate/rust.rs:408-409 | registering another type never changes the wrapper a pointer type resolves to |
| RustText.EntryExternOrder | src/generate/rust.rs:248-310 | the extern takes the context, then `out{i}` with the resolved type per output, then `input{j}` with `*mut` made `*const` per input, and returns a status code |
| RustText.EntryCallOrder | src/generate/rust.rs:261-320 | `call_args` holds the outputs, then the inputs, in declared order; the call is the second line and the `rc` check the fourth |
| RustText.ArgumentNamesDistinct | src/generate/rust.rs:263-310 | the names `out{i}` and `input{j}` never clash |
| RustText.ConstPtrSpelling | src/generate/rust.rs:295 | an input's pointer type becomes `*const futhark_{elem}_{rank}d` |
| RustText.WrappedArgument | src/generate/rust.rs:264-305 | a two-level resolution to a wrapper borrows the wrapper and passes `name.ptr as *mut _` |
| RustText.ArrayArgumentsUnwrapped | src/generate/rust.rs:261-310 | after the type loop an array argument is declared with its pointer type (`*const` for inputs), taken as its wrapper and passed as `name.ptr as *mut _` |
| RustText.ScalarArgumentsBare | src/generate/rust.rs:261-310 | a scalar argument keeps its type and is passed under its bare name |
| RustGen.DimParams | src/generate/rust.rs:114-118 | the loop builds `dims[0]`..`dims[rank-1]` |
| RustGen.AddDims | src/generate/rust.rs:187-210 | the loop appends `dim{i}: i64` for every dimension |
| RustGen.OutputSlot | src/generate/rust.rs:263-286 | an output's extern parameter, wrapper argument (`&mut`) and call argument |
| RustGen.InputSlot | src/generate/rust.rs:288-310 | an input's extern parameter (`*const`), wrapper argument (`&`) and call argument |
| RustGen.Outputs | src/generate/rust.rs:263-286 | the outputs' loop extends the extern, the arguments and `call_args` by one slot per output |
| RustGen.Inputs | src/generate/rust.rs:288-310 | the inputs' loop continues the three after the outputs |
| RustGen.Rust.constructor | src/generate/rust.rs:11-22 | the `typemap` starts from the empty `RUST_TYPE_MAP` and the scope is empty |
| RustGen.Rust.Gen | src/generate/rust.rs:49-64 | `gen` appends the lint allowance and the declaration, and nothing else |
| RustGen.Rust.GenerateArrayType | src/generate/rust.rs:77-241 | returns the array's names and appends its items |
| RustGen.Rust.GenerateArrayExterns | src/generate/rust.rs:185-239 | appends the five externs in order |
| RustGen.Rust.GenerateEntryFunction | src/generate/rust.rs:243-324 | appends the `impl Context` block and then the extern, read through the current `typemap` |
| RustGen.Rust.GenerateConfig | src/generate/rust.rs:329-340 | appends the config struct and its externs |
| RustGen.Rust.GenerateContext | src/generate/rust.rs:341-402 | appends the context struct, its externs, `Error`, `Context` and its impls |
| RustGen.Rust.GenerateType | src/generate/rust.rs:405-412 | an array type is generated and registered at both levels; an opaque type is skipped |
| RustGen.Rust.GenerateTypes | src/generate/rust.rs:404-413 | the type loop in key order: the registrations and the items of every array type |
| RustGen.Rust.GenerateEntries | src/generate/rust.rs:415-417 | the entry loop in key order, each read through the final `typemap` |
| RustGen.Rust.Generate | src/generate/rust.rs:328-424 | the preamble, the array types and the entry points, in that order; fails with `Io` exactly when the write fails |
| LegacyText.LegacyDeclShape | src/generate.rs:84-98 | one raw item `unsafe extern "C" fn NAME(` and the parameters, `-> RET` exactly when the return type is non-empty, ending with `;\n` |
| LegacyText.NewMethodParams | src/generate.rs:131-137 | `new` takes `ctx` and then exactly `dim0`..`dim{rank-1}` of type `i64`, in order |
| LegacyText.NewExternArities | src/generate.rs:151-174 | `new` has 2 + rank parameters and `new_raw` 3 + rank; the element pointer stays `*mut` |
| LegacyText.ArrayItemsCount | src/generate.rs:122-204 | an array type adds 8 items: the C struct, the wrapper with its pointer field, the `impl`, then one item per extern |
| LegacyText.RegisteredKeys | src/generate.rs:270-278 | only names are registered: a key is in the final `typemap` exactly when it was there before or names an array type |
| LegacyText.RegisterKeys | src/generate.rs:274 | one registration adds exactly the array type's name |
| LegacyText.RegisteredName | src/generate.rs:270-278 | after the loop every array type's name resolves to its pointer type |
| LegacyText.PointerUnregistered | src/generate.rs:274 | pointer types are never registered, so no wrapper is ever looked up |
| LegacyText.EntryExternOrder | src/generate.rs:207-229 | the extern takes the context, `out{i}` per output, then `input{j}` per input with `*const`, returning a status code |
| LegacyText.EntryItemsCount | src/generate.rs:280-282 | each entry point adds exactly one item, its extern |
| LegacyGen.NewConfig | src/generate.rs:11-16 | fails with `Io` exactly when creating the file fails; otherwise keeps the path |
| LegacyGen.Detect | src/generate.rs:297-308 | `rs` selects Rust, `py` Python, and anything else nothing |
| LegacyGen.DetectAfterWithExtension | src/generate.rs:297-308 | a path given extension `ext` selects Python exactly when `ext` is `py` and Rust exactly when it is `rs` |
| LegacyGen.PythonGenerate | src/generate.rs:25-37 | panics exactly for a non-Python backend; copies exactly when the output's path components differ from the compiled `.py`'s, as `PathBuf` equality compares them; fails with `Io` exactly when that copy fails |
| LegacyGen.PythonNoSelfCopy | src/generate.rs:28-31 | an output that respells the compiled `.py` with a doubled separator, a `.` piece or a trailing separator is not copied onto, and the run succeeds |
| LegacyGen.NewDims | src/generate.rs:133-137 | the loop builds `dim0`..`dim{rank-1}`, each an `i64` parameter |
| LegacyGen.EntryArgs | src/generate.rs:210-226 | the two loops append the outputs' then the inputs' parameters |
| LegacyGen.LegacyRust.constructor | src/generate.rs:46-57 | an empty `typemap` and an empty scope |
| LegacyGen.LegacyRust.Gen | src/generate.rs:84-98 | `gen` appends one raw item and nothing else |
| LegacyGen.LegacyRust.GenerateArrayType | src/generate.rs:110-205 | returns the array's names and appends its items |
| LegacyGen.LegacyRust.GenerateArrayExterns | src/generate.rs:151-203 | appends the five externs in order |
| LegacyGen.LegacyRust.GenerateEntryFunction | src/generate.rs:207-230 | appends only the extern |
| LegacyGen.LegacyRust.GenerateConfig | src/generate.rs:235-242 | appends the config struct and its two externs |
| LegacyGen.LegacyRust.GenerateContext | src/generate.rs:244-268 | appends the context struct, its externs, `Error`, `Context` and the empty `impl` |
| LegacyGen.LegacyRust.GenerateType | src/generate.rs:271-277 | an array type is generated and its name registered; an opaque type is skipped |
| LegacyGen.LegacyRust.GenerateTypes | src/generate.rs:270-278 | the type loop in key order |
| LegacyGen.LegacyRust.GenerateEntries | src/generate.rs:280-282 | the entry loop in key order |
| LegacyGen.LegacyRust.Generate | src/generate.rs:234-286 | the preamble, the array types and the entry points' externs; fails with `Io` exactly when the write fails |
| Foreign.CLib.CallArrayValues | src/generate/templates/rust/array.rs:105-109 | on status 0 the held elements are copied into the buffer; otherwise it is left as it was |
| Foreign.CLib.CallArrayShape | src/generate/templates/rust/array.rs:89-92 | returns the held array's dimensions |
| ContextTemplate.MessageInjective | src/generate/templates/rust/context.rs:8-16 | different errors are displayed differently |
| ContextTemplate.NewOptions | src/generate/templates/rust/context.rs:39-49 | debug, profile and logging off, no threads, no cache file or device, `auto_sync` on |
| ContextTemplate.Debug | src/generate/templates/rust/context.rs:52-55 | debugging on, every other field unchanged |
| ContextTemplate.Profile | src/generate/templates/rust/context.rs:58-61 | profiling on, every other field unchanged |
| ContextTemplate.Log | src/generate/templates/rust/context.rs:64-67 | logging on, every other field unchanged |
| ContextTemplate.CacheFile | src/generate/templates/rust/context.rs:70-73 | panics exactly when the name holds NUL; otherwise sets the cache file, every other field unchanged |
| ContextTemplate.AutoSync | src/generate/templates/rust/context.rs:75-78 | the flag takes the given value, every other field unchanged |
| ContextTemplate.DefaultOptionsCalls | src/generate/templates/rust/context.rs:108-131 | with `Options::new()`, `new_with_options` turns the three flags off, sets no cache file and asks for the context at the fifth call |
| ContextTemplate.BuildersCommute | src/generate/templates/rust/context.rs:52-78 | builders on different fields commute |
| ContextTemplate.Flag | src/generate/templates/rust/context.rs:113-115 | a flag is passed as 1 exactly when set, else 0 |
| ContextTemplate.NewUnreleased | src/generate/templates/rust/context.rs:94-105 | `new` leaks nothing: on failure nothing it made is live, on success exactly its config and context |
| ContextTemplate.NewWithOptionsUnreleased | src/generate/templates/rust/context.rs:108-131 | `new_with_options` leaks nothing either |
| ContextTemplate.NewThenDropReleases | src/generate/templates/rust/context.rs:190-198 | a context made and then dropped leaves nothing live |
| ContextTemplate.GeneratedNewLeaksConfig | src/generate/rust.rs:377-381 | when the context cannot be made, the generated `new` leaves its config allocated, unlike the template's |
| ContextTemplate.Context.New | src/generate/templates/rust/context.rs:94-105 | config then context. `NullPtr` if either is null, and a null context frees the config first. Succeeds exactly when both are non-null, with `auto_sync` on and no cache file |
| ContextTemplate.Context.NewWithOptions | src/generate/templates/rust/context.rs:108-131 | the config gets debugging, profiling, logging and the cache file before the context is made; same error paths as `new`; the context keeps the options' `auto_sync` and cache file |
| ContextTemplate.Context.Configure | src/generate/templates/rust/context.rs:113-119 | the three flags, then the cache file when there is one |
| ContextTemplate.Context.Sync | src/generate/templates/rust/context.rs:134-136 | one sync call; the status is ignored |
| ContextTemplate.Context.AutoSyncCalls | src/generate/templates/rust/context.rs:139-143 | a sync exactly when the flag is set |
| ContextTemplate.Context.AutoSync | src/generate/templates/rust/context.rs:139-143 | calls sync exactly when `auto_sync` is set |
| ContextTemplate.Context.ClearCaches | src/generate/templates/rust/context.rs:146-152 | fails with `Code(rc)` exactly when the status is non-zero |
| ContextTemplate.Context.PauseProfiling | src/generate/templates/rust/context.rs:155-159 | one pause call |
| ContextTemplate.Context.UnpauseProfiling | src/generate/templates/rust/context.rs:162-166 | one unpause call |
| ContextTemplate.Context.MessageCalls | src/generate/templates/rust/context.rs:169-187 | one call, plus a `free` of the message when it is not null |
| ContextTemplate.Context.Message | src/generate/templates/rust/context.rs:169-187 | `None` exactly when the message pointer is null; otherwise the message, which is then freed |
| ContextTemplate.Context.Drop | src/generate/templates/rust/context.rs:190-198 | sync, free the context, free the config, in that order, once |
| ArrayTemplate.WrapI64 | src/generate/templates/rust/array.rs:17 | `i64` wrap-around: the result is in range and in-range values are kept |
| ArrayTemplate.ProductI64Wraps | src/generate/templates/rust/array.rs:17 | the step-by-step wrapping product is the exact product wrapped once |
| ArrayTemplate.ProductNonNegative | src/generate/templates/rust/array.rs:58-59 | dimensions that are not negative have a product that is not negative |
| ArrayTemplate.OverflowPassesShapeCheck | src/generate/templates/rust/array.rs:17-21 | dimensions 2^32 by 2^32 with no data pass the written check, though they describe 2^64 elements |
| ArrayTemplate.ShapeChecksAgree | src/generate/templates/rust/array.rs:17-21 | without overflow, the written check and the exact one agree |
| ArrayTemplate.NewThenFreeReleases | src/generate/templates/rust/array.rs:22-31 | an array made, used by calls that allocate nothing, then freed leaves the live objects as they were |
| ArrayTemplate.ArrayWrapper.New | src/generate/templates/rust/array.rs:16-32 | `InvalidShape` with no foreign call exactly when the data length is not the product of the dimensions; `NullPtr` exactly when the library returns null; otherwise the array holds the data, the context auto-syncs once and the wrapper keeps the dimensions |
| ArrayTemplate.ArrayWrapper.Shape | src/generate/templates/rust/array.rs:35-37 | `rank` entries, the wrapper's shape |
| ArrayTemplate.ArrayWrapper.Values | src/generate/templates/rust/array.rs:40-54 | a buffer of the wrong length is `InvalidShape` and untouched; a non-zero status is `Code(rc)`; on success the buffer holds the array's elements and the context auto-syncs |
| ArrayTemplate.ArrayWrapper.Get | src/generate/templates/rust/array.rs:57-62 | a vector of product-of-shape elements filled by `values`: the held elements when the library holds that many |
| ArrayTemplate.ArrayWrapper.FromPtr | src/generate/templates/rust/array.rs:66-75 | one shape call; the shape is the first `rank` entries read, in index order |
| ArrayTemplate.ArrayWrapper.Drop | src/generate/templates/rust/array.rs:79-85 | one free of the wrapper's array, which the library no longer holds |
| ArrayTemplate.NewThenGet | src/generate/templates/rust/array.rs:16-62 | `get` after a successful `new` gives back exactly the data `new` was given |

## Left out

- The Rust side of `src/codegen.rs` is an empty stub. `src/generate/python.rs` is a file copy, which `LegacyGen.PythonGenerate` models in its older form. `src/codegen.rs` is not part of this model.
- `src/compiler.rs`, `src/package.rs`, `src/library.rs`, `src/bin` and `examples/`: process spawning, linking and build scripts are not part of this model. `compile`'s process outcome is a parameter (`ProcessRunner`), and the manifest reader is another (`ManifestReader`).
- `src/error.rs`: its three variants appear as the `Error` datatypes. The `From` conversions become the explicit mapping in `Manifest.ParseFile`.
- serde_json decoding is modelled only as tag ↔ variant (`ParseElemType`, `ParseBackend`) and as the reader's success or failure.
- The `codegen::Scope` crate's rendering is not modelled. The scope is a sequence of structured items (structs, impls, functions, raw text). Documentation strings, visibility, generics, `derive` and `repr` attributes are dropped from those items.
- The `rustfmt` call after writing is left out: its status is ignored, so it does not affect the result.
- Writing files: the output file is the sequence of pieces written to it. In the two Rust generators, which write once, a write error is a parameter, and `?` turns it into `Io`.
- OCamlGen.OCaml.Generate: every `ml!`/`mli!` write (`src/generate/ocaml.rs:95-130`) is assumed to succeed. The source's `?` after each of them returns `Io` and leaves both files partly written; that error path, and the partial files, are not modelled.
- RustText.RegisteredName, RustText.RegisteredWrapper, RustText.ArrayArgumentsUnwrapped and LegacyText.PointerUnregistered assume that no manifest type name starts with `*mut ` (`NoPointerNames`). The source does not check this. A type named like a pointer type would collide with it in the `typemap`.
- `x.to_str().expect("Invalid extension")` in `detect` is left out: non-UTF-8 paths cannot arise for strings.
- Opaque types: the OCaml generator's `todo!()` is modelled as an unfinished run, and both Rust generators skip them. The `opaque.rs`, `record.rs`, `record_project.rs` and `entry.rs` templates are not part of this model.
- The long fixed texts (the OCaml runtime module, the Rust `Error`/`Context` items) are a `FixedText` value built once by each generator's constructor. Their exact spelling is not repeated in the proofs.
- The `{backend_options}`, `{configure_num_threads}` and `{configure_set_device}` placeholders of `context.rs` are filled by code outside the shown files. The model makes no calls for them, so `num_threads` and `device` are kept but never passed.
- The element values of generated arrays are integers. Floating-point and boolean elements are not modelled separately, and `to_string_lossy` on messages is the identity.
- The C library is an oracle keyed by call number: null pointers, status codes and message texts. Pointers are distinct per call, so aliasing between foreign objects is not modelled.
- Rust lifetimes, `&'a Context` borrowing and `unsafe` pointer reads are not modelled. `Drop` runs at most once because each class carries a `dropped` flag.
- Rank is an `i32` in the manifest. Negative ranks run no dimension loop (`RankCount`), and the runtime wrappers take `rank` as a `nat`.
- ArrayTemplate.ArrayWrapper.Get: requires a non-negative product of the shape. The source's `size as usize` turns a negative product into a huge allocation, which aborts. The vector is sized by the exact product, where the source uses the wrapping `i64` product; the two agree when the product does not overflow (`ShapeChecksAgree`).
- ArrayTemplate.ArrayWrapper.FromPtr: requires the library to hold the array with at least `rank` dimensions. The source reads the shape pointer unchecked, which is undefined behaviour otherwise.
- ArrayTemplate.ArrayWrapper.New: uses the corrected exact-product shape check (see Findings). Debug builds panic on the `i64` overflow instead of wrapping, which is not modelled.
- ArrayTemplate.ArrayWrapper.Values: uses the same corrected check.
- The shape check of the `from_slice` and `values` that `src/generate/rust.rs` emits (lines 144 and 162) is modelled only as text. It has the same `i64` folding as the template.
- The generated `Context` of `src/generate/rust.rs` (its `sync` returning a `Result`, and a `Drop` without a sync) is modelled only as text. The runtime model follows the `context.rs` template.

## Findings

| source | as written | input that shows it | evidently intended | confidence | as-written member | corrected member |
|---|---|---|---|---|---|---|
| src/generate/templates/rust/array.rs:17-21 | `new` compares `data.len() as i64` with `dims.iter().product()` computed in `i64`, which wraps in release builds; `values` does the same at lines 41-45 | `dims = [2^32, 2^32]` with empty `data`: the product wraps to 0, so the check passes and the C side is asked for a 2^64-element array built from nothing | the length must equal the exact number of elements the dimensions describe | high, not executed | ArrayTemplate.OverflowPassesShapeCheck | ArrayTemplate.ArrayWrapper.New |
| src/generate/rust.rs:377-381 | the generated `Context::new` returns `Err(NullPtr)` when `futhark_context_new` gives null without freeing the config it just made | the config call succeeds and the context call returns null: the config stays allocated and no `Context` exists whose `Drop` could free it | free the config before returning, as the `context.rs` template does at lines 99-101 | high, not executed | ContextTemplate.GeneratedNewLeaksConfig | ContextTemplate.NewUnreleased |
