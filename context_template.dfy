/**
 * The runtime behaviour of the generated Rust `Options` builder and
 * `Context` wrapper, as the context template spells them out: which
 * foreign calls each operation makes, in which order, and what it returns
 * for each answer the C library can give.
 */
module ContextTemplate {
  import opened Wrappers
  import opened Strings
  import opened Foreign

  /** The wrapper's error type. */
  datatype Error = Code(code: int) | NullPtr | InvalidShape

  /** The text `Display` writes for an error. */
  function Message(e: Error): (m: string)
  {
    match e
    case Code(code) => "Futhark error code: " + IntToString(code)
    case NullPtr => "NULL pointer encountered"
    case InvalidShape => "Invalid image shape"
  }

  /** Different errors are displayed differently, so a message identifies its error. */
  lemma MessageInjective(a: Error, b: Error)
    requires Message(a) == Message(b)
    ensures a == b
  {
    var prefix := "Futhark error code: ";
    MessageHead(a);
    MessageHead(b);
    if a.Code? && b.Code? {
      assert IntToString(a.code) == Message(a)[|prefix|..];
      assert IntToString(b.code) == Message(b)[|prefix|..];
      IntToStringInjective(a.code, b.code);
    }
  }

  /** The first letter of each message tells the errors apart. */
  lemma MessageHead(e: Error)
    ensures |Message(e)| > 0
    ensures Message(e)[0] == if e.Code? then 'F' else if e.NullPtr? then 'N' else 'I'
  {
  }

  /** Context settings. `cacheFile` and `device` are C strings. */
  datatype Options = Options(
    debug: bool,
    profile: bool,
    logging: bool,
    numThreads: nat,
    cacheFile: Option<string>,
    device: Option<string>,
    autoSync: bool)

  /** `Options::new` (and `Default`). */
  function NewOptions(): (o: Options)
    ensures !o.debug && !o.profile && !o.logging && o.numThreads == 0
    ensures o.cacheFile.None? && o.device.None? && o.autoSync
  {
    Options(false, false, false, 0, None, None, true)
  }

  /** `Options::debug`: debugging on, nothing else changes. */
  function Debug(o: Options): (r: Options)
    ensures r.debug && r.(debug := o.debug) == o
  {
    o.(debug := true)
  }

  /** `Options::profile`: profiling on, nothing else changes. */
  function Profile(o: Options): (r: Options)
    ensures r.profile && r.(profile := o.profile) == o
  {
    o.(profile := true)
  }

  /** `Options::log`: logging on, nothing else changes. */
  function Log(o: Options): (r: Options)
    ensures r.logging && r.(logging := o.logging) == o
  {
    o.(logging := true)
  }

  /**
   * `Options::cache_file`: the cache file is set, nothing else changes.
   * Making the C string panics when `s` holds a NUL character: `None`.
   */
  function CacheFile(o: Options, s: string): (r: Option<Options>)
    ensures r.None? <==> '\0' in s
    ensures r.Some? ==> r.value.cacheFile == Some(s) && r.value.(cacheFile := o.cacheFile) == o
  {
    if '\0' in s then None else Some(o.(cacheFile := Some(s)))
  }

  /** `Options::auto_sync`: the flag takes the given value, nothing else changes. */
  function AutoSync(o: Options, sync: bool): (r: Options)
    ensures r.autoSync == sync && r.(autoSync := o.autoSync) == o
  {
    o.(autoSync := sync)
  }

  /** Builders on different fields commute. */
  lemma BuildersCommute(o: Options, sync: bool)
    ensures Debug(Profile(Log(AutoSync(o, sync)))) == AutoSync(Log(Profile(Debug(o))), sync)
  {
  }

  /** A flag as the C `int` it is passed as. */
  function Flag(b: bool): (i: int)
    ensures i == 0 || i == 1
    ensures i == 1 <==> b
  {
    if b then 1 else 0
  }

  /** The configuration calls `new_with_options` makes on a non-null config. */
  function ConfigureCalls(config: Ptr, opts: Options): (cs: seq<Call>)
  {
    [SetDebugging(config, Flag(opts.debug)),
     SetProfiling(config, Flag(opts.profile)),
     SetLogging(config, Flag(opts.logging))]
    + (if opts.cacheFile.Some? then [SetCacheFile(config, opts.cacheFile.value)] else [])
  }

  /**
   * The calls `Context::new` makes when its first call is call number `k`:
   * a config, then a context; a null context frees the config.
   */
  function NewCalls(o: Oracle, k: nat): seq<Call>
  {
    var config := PtrAt(o, k);
    if config == Null then [ConfigNew(Null)]
    else
      var context := PtrAt(o, k + 1);
      [ConfigNew(config), ContextNew(config, context)]
      + (if context == Null then [ConfigFree(config)] else [])
  }

  /** The call number at which `new_with_options` asks for the context. */
  function OptionsContextAt(k: nat, opts: Options): nat
  {
    k + 1 + |ConfigureCalls(Addr(k), opts)|
  }

  /** The calls `Context::new_with_options` makes when its first call is call number `k`. */
  function NewWithOptionsCalls(o: Oracle, k: nat, opts: Options): seq<Call>
  {
    var config := PtrAt(o, k);
    if config == Null then [ConfigNew(Null)]
    else
      var context := PtrAt(o, OptionsContextAt(k, opts));
      [ConfigNew(config)] + ConfigureCalls(config, opts) + [ContextNew(config, context)]
      + (if context == Null then [ConfigFree(config)] else [])
  }

  /**
   * `new_with_options(Options::new())` turns debugging, profiling and
   * logging off, sets no cache file, and asks for the context at the fifth
   * call; otherwise it takes the same paths as `new`.
   */
  lemma DefaultOptionsCalls(o: Oracle, k: nat)
    ensures var config := PtrAt(o, k);
      var context := PtrAt(o, k + 4);
      NewWithOptionsCalls(o, k, NewOptions()) ==
        if config == Null then [ConfigNew(Null)]
        else
          [ConfigNew(config), SetDebugging(config, 0), SetProfiling(config, 0), SetLogging(config, 0),
           ContextNew(config, context)] + (if context == Null then [ConfigFree(config)] else [])
  {
    assert |ConfigureCalls(Addr(k), NewOptions())| == 3;
  }

  /** The calls `Drop` makes, the sync being call number `k`. */
  function DropCalls(o: Oracle, k: nat, config: Ptr, context: Ptr): seq<Call>
  {
    [ContextSync(context, RcAt(o, k)), ContextFree(context), ConfigFree(config)]
  }

  /** One call's effect on the set of live foreign objects. */
  function Step(live: set<Ptr>, c: Call): set<Ptr>
  {
    match c
    case ConfigNew(p) => if p == Null then live else live + {p}
    case ContextNew(_, p) => if p == Null then live else live + {p}
    case ArrayNew(_, _, _, p) => if p == Null then live else live + {p}
    case ConfigFree(p) => live - {p}
    case ContextFree(p) => live - {p}
    case ArrayFree(_, p) => live - {p}
    case _ => live
  }

  /** The configs, contexts and arrays a sequence of calls allocates and does not free. */
  function Unreleased(calls: seq<Call>): set<Ptr>
  {
    if calls == [] then {} else Step(Unreleased(calls[..|calls| - 1]), calls[|calls| - 1])
  }

  lemma UnreleasedSnoc(calls: seq<Call>, c: Call)
    ensures Unreleased(calls + [c]) == Step(Unreleased(calls), c)
  {
    assert (calls + [c])[..|calls|] == calls;
  }

  /** Calls that allocate and free nothing leave the live set alone. */
  predicate Neutral(calls: seq<Call>)
  {
    forall i :: 0 <= i < |calls| ==>
      !(calls[i].ConfigNew? || calls[i].ContextNew? || calls[i].ArrayNew?
        || calls[i].ConfigFree? || calls[i].ContextFree? || calls[i].ArrayFree?)
  }

  /** Appending a neutral run of calls changes nothing. */
  lemma {:induction false} UnreleasedNeutral(calls: seq<Call>, more: seq<Call>)
    requires Neutral(more)
    ensures Unreleased(calls + more) == Unreleased(calls)
    decreases |more|
  {
    if more == [] {
      assert calls + more == calls;
    } else {
      var init, last := more[..|more| - 1], more[|more| - 1];
      assert calls + more == (calls + init) + [last];
      assert Neutral(init) by {
        assert forall i :: 0 <= i < |init| ==> init[i] == more[i];
      }
      UnreleasedSnoc(calls + init, last);
      assert Step(Unreleased(calls + init), last) == Unreleased(calls + init);
      UnreleasedNeutral(calls, init);
    }
  }

  /**
   * `Context::new` leaks nothing: when it fails every object it made is
   * freed, and when it succeeds exactly the config and the context it
   * returns are live.
   */
  lemma NewUnreleased(o: Oracle, k: nat)
    ensures Unreleased(NewCalls(o, k)) ==
      if PtrAt(o, k) != Null && PtrAt(o, k + 1) != Null then {PtrAt(o, k), PtrAt(o, k + 1)} else {}
  {
    var config, context := PtrAt(o, k), PtrAt(o, k + 1);
    UnreleasedSnoc([], ConfigNew(config));
    if config != Null {
      UnreleasedSnoc([ConfigNew(config)], ContextNew(config, context));
      if context == Null {
        UnreleasedSnoc([ConfigNew(config), ContextNew(config, context)], ConfigFree(config));
      }
    }
  }

  /** `Context::new_with_options` leaks nothing either. */
  lemma NewWithOptionsUnreleased(o: Oracle, k: nat, opts: Options)
    ensures Unreleased(NewWithOptionsCalls(o, k, opts)) ==
      var config, context := PtrAt(o, k), PtrAt(o, OptionsContextAt(k, opts));
      if config != Null && context != Null then {config, context} else {}
  {
    var config, context := PtrAt(o, k), PtrAt(o, OptionsContextAt(k, opts));
    UnreleasedSnoc([], ConfigNew(config));
    if config != Null {
      var setup := ConfigureCalls(config, opts);
      UnreleasedNeutral([ConfigNew(config)], setup);
      UnreleasedSnoc([ConfigNew(config)] + setup, ContextNew(config, context));
      if context == Null {
        UnreleasedSnoc([ConfigNew(config)] + setup + [ContextNew(config, context)], ConfigFree(config));
        assert NewWithOptionsCalls(o, k, opts)
            == [ConfigNew(config)] + setup + [ContextNew(config, context)] + [ConfigFree(config)];
      } else {
        assert NewWithOptionsCalls(o, k, opts) == [ConfigNew(config)] + setup + [ContextNew(config, context)];
      }
    }
  }

  /** A context that was made and then dropped leaves nothing live. */
  lemma NewThenDropReleases(o: Oracle, k: nat)
    requires PtrAt(o, k) != Null && PtrAt(o, k + 1) != Null
    ensures Unreleased(NewCalls(o, k) + DropCalls(o, k + 2, PtrAt(o, k), PtrAt(o, k + 1))) == {}
  {
    var config, context := PtrAt(o, k), PtrAt(o, k + 1);
    var made := NewCalls(o, k);
    NewUnreleased(o, k);
    var sync := ContextSync(context, RcAt(o, k + 2));
    assert made == [ConfigNew(config), ContextNew(config, context)];
    assert Unreleased(made) == {config, context};
    UnreleasedSnoc(made, sync);
    assert Unreleased(made + [sync]) == {config, context};
    UnreleasedSnoc(made + [sync], ContextFree(context));
    assert made + [sync] + [ContextFree(context)] == made + [sync, ContextFree(context)];
    assert Unreleased(made + [sync, ContextFree(context)]) == {config};
    UnreleasedSnoc(made + [sync, ContextFree(context)], ConfigFree(config));
    assert Unreleased(made + [sync, ContextFree(context)] + [ConfigFree(config)]) == {};
    assert made + DropCalls(o, k + 2, config, context)
        == made + [sync, ContextFree(context)] + [ConfigFree(config)];
  }

  /**
   * The `Context::new` that the Rust generator writes: like the template's,
   * except that a null context returns at once, without freeing the config.
   */
  function GeneratedNewCalls(o: Oracle, k: nat): seq<Call>
  {
    var config := PtrAt(o, k);
    if config == Null then [ConfigNew(Null)]
    else [ConfigNew(config), ContextNew(config, PtrAt(o, k + 1))]
  }

  /**
   * When the context cannot be made, the generated `new` fails and the
   * config it made stays allocated with nothing left to free it.
   */
  lemma GeneratedNewLeaksConfig()
    ensures var o := Oracle({1}, map[], map[]);
      PtrAt(o, 1) == Null && Unreleased(GeneratedNewCalls(o, 0)) == {Addr(0)}
      && Unreleased(NewCalls(o, 0)) == {}
  {
    var o := Oracle({1}, map[], map[]);
    UnreleasedSnoc([], ConfigNew(Addr(0)));
    UnreleasedSnoc([ConfigNew(Addr(0))], ContextNew(Addr(0), Null));
    NewUnreleased(o, 0);
  }

  /** A Futhark context: the foreign config and context it owns and its settings. */
  class Context {
    const lib: CLib
    const config: Ptr
    const context: Ptr
    const autoSync: bool
    const cacheFile: Option<string>
    ghost var dropped: bool

    constructor Make(lib: CLib, config: Ptr, context: Ptr, autoSync: bool, cacheFile: Option<string>)
      ensures this.lib == lib && this.config == config && this.context == context
      ensures this.autoSync == autoSync && this.cacheFile == cacheFile && !dropped
    {
      this.lib := lib;
      this.config := config;
      this.context := context;
      this.autoSync := autoSync;
      this.cacheFile := cacheFile;
      dropped := false;
    }

    /** `Context::new`: default settings, `auto_sync` on. */
    static method New(lib: CLib) returns (r: Result<Context, Error>)
      modifies lib
      ensures lib.trace == old(lib.trace) + NewCalls(lib.oracle, |old(lib.trace)|)
      ensures lib.arrays == old(lib.arrays)
      ensures var k := |old(lib.trace)|;
        r.Success? <==> PtrAt(lib.oracle, k) != Null && PtrAt(lib.oracle, k + 1) != Null
      ensures r.Failure? ==> r.error == NullPtr
      ensures r.Success? ==> var k := |old(lib.trace)|;
        fresh(r.value) && r.value.lib == lib && !r.value.dropped
        && r.value.config == PtrAt(lib.oracle, k) && r.value.context == PtrAt(lib.oracle, k + 1)
        && r.value.autoSync && r.value.cacheFile.None?
    {
      var k := |lib.trace|;
      var config := lib.CallConfigNew();
      if config == Null {
        return Failure(NullPtr);
      }
      var context := lib.CallContextNew(config);
      if context == Null {
        lib.CallConfigFree(config);
        return Failure(NullPtr);
      }
      var c := new Context.Make(lib, config, context, true, None);
      r := Success(c);
    }

    /** `Context::new_with_options`: the settings are passed to the config before the context is made. */
    static method NewWithOptions(lib: CLib, opts: Options) returns (r: Result<Context, Error>)
      modifies lib
      ensures lib.trace == old(lib.trace) + NewWithOptionsCalls(lib.oracle, |old(lib.trace)|, opts)
      ensures lib.arrays == old(lib.arrays)
      ensures var k := |old(lib.trace)|;
        r.Success? <==> PtrAt(lib.oracle, k) != Null && PtrAt(lib.oracle, OptionsContextAt(k, opts)) != Null
      ensures r.Failure? ==> r.error == NullPtr
      ensures r.Success? ==> var k := |old(lib.trace)|;
        fresh(r.value) && r.value.lib == lib && !r.value.dropped
        && r.value.config == PtrAt(lib.oracle, k)
        && r.value.context == PtrAt(lib.oracle, OptionsContextAt(k, opts))
        && r.value.autoSync == opts.autoSync && r.value.cacheFile == opts.cacheFile
    {
      var k := |lib.trace|;
      var config := lib.CallConfigNew();
      if config == Null {
        return Failure(NullPtr);
      }
      Configure(lib, config, opts);
      var context := lib.CallContextNew(config);
      if context == Null {
        lib.CallConfigFree(config);
        return Failure(NullPtr);
      }
      var c := new Context.Make(lib, config, context, opts.autoSync, opts.cacheFile);
      r := Success(c);
    }

    /** The settings `new_with_options` passes to a config. */
    static method Configure(lib: CLib, config: Ptr, opts: Options)
      modifies lib
      ensures lib.trace == old(lib.trace) + ConfigureCalls(config, opts)
      ensures lib.arrays == old(lib.arrays)
    {
      lib.CallConfigure(SetDebugging(config, Flag(opts.debug)));
      lib.CallConfigure(SetProfiling(config, Flag(opts.profile)));
      lib.CallConfigure(SetLogging(config, Flag(opts.logging)));
      if opts.cacheFile.Some? {
        lib.CallConfigure(SetCacheFile(config, opts.cacheFile.value));
      }
    }

    /** `sync`: the status code is ignored. */
    method Sync()
      modifies lib
      ensures lib.trace == old(lib.trace) + [ContextSync(context, RcAt(lib.oracle, |old(lib.trace)|))]
      ensures lib.arrays == old(lib.arrays)
    {
      var _ := lib.CallSync(context);
    }

    /** The calls `auto_sync` makes, as call number `k`: a sync exactly when the flag is set. */
    function AutoSyncCalls(k: nat): (cs: seq<Call>)
      ensures |cs| == if autoSync then 1 else 0
      ensures cs != [] ==> cs[0] == ContextSync(context, RcAt(lib.oracle, k))
    {
      if autoSync then [ContextSync(context, RcAt(lib.oracle, k))] else []
    }

    /** `auto_sync`. */
    method AutoSync()
      modifies lib
      ensures lib.trace == old(lib.trace) + AutoSyncCalls(|old(lib.trace)|)
      ensures lib.arrays == old(lib.arrays)
    {
      if autoSync {
        Sync();
      }
    }

    /** `clear_caches`: a non-zero status becomes `Code`. */
    method ClearCaches() returns (r: Result<(), Error>)
      modifies lib
      ensures var rc := RcAt(lib.oracle, |old(lib.trace)|);
        lib.trace == old(lib.trace) + [Call.ClearCaches(context, rc)]
        && (r.Failure? <==> rc != 0) && (r.Failure? ==> r.error == Code(rc))
      ensures lib.arrays == old(lib.arrays)
    {
      var rc := lib.CallClearCaches(context);
      if rc != 0 {
        return Failure(Code(rc));
      }
      r := Success(());
    }

    /** `pause_profiling`. */
    method PauseProfiling()
      modifies lib
      ensures lib.trace == old(lib.trace) + [Call.PauseProfiling(context)] && lib.arrays == old(lib.arrays)
    {
      lib.CallProfiling(Call.PauseProfiling(context));
    }

    /** `unpause_profiling`. */
    method UnpauseProfiling()
      modifies lib
      ensures lib.trace == old(lib.trace) + [Call.UnpauseProfiling(context)] && lib.arrays == old(lib.arrays)
    {
      lib.CallProfiling(Call.UnpauseProfiling(context));
    }

    /** The calls `get_error` (`report` false) or `report` make for message pointer `p`. */
    function MessageCalls(report: bool, p: Ptr): (cs: seq<Call>)
      ensures |cs| == if p == Null then 1 else 2
      ensures p != Null ==> cs[1] == FreeText(p)
    {
      [if report then Report(context, p) else GetError(context, p)]
      + (if p == Null then [] else [FreeText(p)])
    }

    /** `get_error` and `report`: no message iff the pointer is null; a message is copied, then freed. */
    method Message(report: bool) returns (m: Option<string>)
      modifies lib
      ensures var k := |old(lib.trace)|;
        lib.trace == old(lib.trace) + MessageCalls(report, TextPtrAt(lib.oracle, k))
        && (m.None? <==> k !in lib.oracle.textAt)
        && (m.Some? ==> m.value == lib.oracle.textAt[k])
      ensures lib.arrays == old(lib.arrays)
    {
      var s, text := lib.CallMessage(context, report);
      if s == Null {
        return None;
      }
      lib.CallFreeText(s);
      m := Some(text);
    }

    /** `Drop`: sync, free the context, free the config; once, since Rust drops a value once. */
    method Drop()
      requires !dropped
      modifies this, lib
      ensures dropped
      ensures lib.trace == old(lib.trace) + DropCalls(lib.oracle, |old(lib.trace)|, config, context)
      ensures lib.arrays == old(lib.arrays)
    {
      var _ := lib.CallSync(context);
      lib.CallContextFree(context);
      lib.CallConfigFree(config);
      dropped := true;
    }
  }
}
