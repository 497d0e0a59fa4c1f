/**
 * The crate root's plain data: the Futhark backend a library is compiled
 * with, whose serde tag is also the `futhark` sub-command, and the crate's
 * error type.
 */
module Lib {
  import opened Wrappers

  datatype Backend = C | CUDA | OpenCL | Multicore | Python | PyOpenCL

  /** The six serde tags, which are also the `futhark` sub-commands. */
  const BackendTags: set<string> := {"c", "cuda", "opencl", "multicore", "python", "pyopencl"}

  /** `Backend::name`. */
  function Name(b: Backend): (s: string)
    ensures s in BackendTags
  {
    match b
    case C => "c"
    case CUDA => "cuda"
    case OpenCL => "opencl"
    case Multicore => "multicore"
    case Python => "python"
    case PyOpenCL => "pyopencl"
  }

  /** What serde's `rename` tags accept when a manifest names its backend. */
  function ParseBackend(tag: string): (r: Option<Backend>)
    ensures r.Some? <==> tag in BackendTags
  {
    if tag == "c" then Some(C)
    else if tag == "cuda" then Some(CUDA)
    else if tag == "opencl" then Some(OpenCL)
    else if tag == "multicore" then Some(Multicore)
    else if tag == "python" then Some(Python)
    else if tag == "pyopencl" then Some(PyOpenCL)
    else None
  }

  /** `name` is the serde tag: parsing it gives the backend back, and a parsed tag is its name. */
  lemma NameIsTag(b: Backend, tag: string)
    ensures ParseBackend(Name(b)) == Some(b)
    ensures ParseBackend(tag) == Some(b) ==> Name(b) == tag
  {
  }

  /** Distinct backends have distinct names. */
  lemma NameInjective(a: Backend, b: Backend)
    ensures Name(a) == Name(b) ==> a == b
  {
    NameIsTag(a, Name(b));
  }

  /**
   * `crate::Error`. The payloads of `serde_json::Error` and `std::io::Error`
   * are kept as their messages.
   */
  datatype Error = CompilationFailed | Json(detail: string) | Io(detail: string)
}
