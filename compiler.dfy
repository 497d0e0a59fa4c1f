/**
 * `Compiler` and `Library` from the crate root: running `futhark <backend>
 * <src>` and collecting the files it leaves next to the source.
 */
module LibCompile {
  import opened Wrappers
  import opened Lib
  import M = Manifest
  import Paths

  /** What `Compiler::compile` hands back: the manifest and the generated files' paths. */
  datatype Library = Library(manifest: M.Manifest, cFile: string, hFile: string, pyFile: string, src: string)

  /** The outcome of `Command::status()`: the spawn itself can fail, or the process exits. */
  datatype ProcessStatus = SpawnFailed(detail: string) | Exited(success: bool)

  /** The operating system running `exe` with two arguments. */
  type ProcessRunner = (string, string, string) -> ProcessStatus

  /** The three generated files have the source's stem and directory and their own extension. */
  predicate SiblingFile(src: string, f: string, ext: string) {
    Paths.Extension(f) == Some(ext) && Paths.Stem(f) == Paths.Stem(src) && Paths.Dir(f) == Paths.Dir(src)
  }

  /** `src.with_extension(ext)` is such a sibling whenever `src` has a file name. */
  lemma SiblingPath(src: string, ext: string)
    requires |ext| > 0 && '.' !in ext && '/' !in ext
    ensures Paths.FileName(src).Some? ==> SiblingFile(src, Paths.WithExtension(src, ext), ext)
  {
    if Paths.FileName(src).Some? {
      Paths.WithExtensionSetsExtension(src, ext);
    }
  }

  class Compiler {
    var exe: string
    var backend: Backend
    var src: string

    /** `Compiler::new`: the executable defaults to `futhark`. */
    constructor(backend: Backend, src: string)
      ensures this.exe == "futhark" && this.backend == backend && this.src == src
    {
      this.exe := "futhark";
      this.backend := backend;
      this.src := src;
    }

    /** `set_executable_name`: only `exe` changes. */
    method SetExecutableName(name: string)
      modifies this
      ensures exe == name && backend == old(backend) && src == old(src)
    {
      exe := name;
    }

    /**
     * `compile`: a failed spawn is an `Io` error, an unsuccessful exit is
     * `CompilationFailed` and nothing else is, and after a successful exit
     * the library holds the manifest read from `src.json` and the `c`, `h`
     * and `py` siblings of `src`.
     */
    method Compile(run: ProcessRunner, read: M.ManifestReader) returns (r: Result<Library, Error>)
      ensures run(exe, Name(backend), src).SpawnFailed? ==>
        r == Failure(Io(run(exe, Name(backend), src).detail))
      ensures r == Failure(CompilationFailed) <==> run(exe, Name(backend), src) == Exited(false)
      ensures run(exe, Name(backend), src) == Exited(true) ==>
        (r.Success? <==> read(M.ManifestPath(src)).Success?)
      ensures r.Success? ==>
        run(exe, Name(backend), src) == Exited(true) &&
        r.value.manifest == read(M.ManifestPath(src)).value &&
        r.value.src == src
      ensures r.Success? && Paths.FileName(src).Some? ==>
        SiblingFile(src, r.value.cFile, "c") &&
        SiblingFile(src, r.value.hFile, "h") &&
        SiblingFile(src, r.value.pyFile, "py")
    {
      var status := run(exe, Name(backend), src);
      if status.SpawnFailed? {
        return Failure(Io(status.detail));
      }
      if !status.success {
        return Failure(CompilationFailed);
      }
      var manifest := M.ParseFile(read, Paths.WithExtension(src, "json"));
      if manifest.Failure? {
        return Failure(manifest.error);
      }
      var cFile, hFile, pyFile := Paths.WithExtension(src, "c"), Paths.WithExtension(src, "h"), Paths.WithExtension(src, "py");
      SiblingPath(src, "c");
      SiblingPath(src, "h");
      SiblingPath(src, "py");
      r := Success(Library(manifest.value, cFile, hFile, pyFile, src));
    }
  }
}
