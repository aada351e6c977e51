/**
 * The keyword adapter, the worker chain, the serial branch of `run_pipeline`,
 * the `Pipeline` object and the analysis-pipeline wiring of exptlib/pipeline.py.
 */
module Pipeline {
  import opened Wrappers
  import opened Values

  /** A keyword-argument bag. */
  type Kwargs = map<string, Val>

  /** One declared parameter: its name, and whether it is a `**kwargs` catch-all. */
  datatype Param = Param(name: string, varKeyword: bool)

  /**
   * A callable, reduced to its declared signature and to what it computes
   * from its positional arguments and the keywords it receives.
   */
  datatype Callable<R> = Callable(params: seq<Param>, body: (seq<Val>, Kwargs) -> R)

  // ---------------------------------------------------------------------------
  // Configuration
  // ---------------------------------------------------------------------------

  /** The shared parameters of every pipeline: the worker count and the overwrite flag. */
  datatype Params = Params(nCores: int, overwrite: bool)

  /** The class-level defaults. */
  const DefaultParams: Params := Params(4, false)

  /** `Params.parallelize`: anything but a single core runs in parallel. */
  predicate Parallelize(p: Params)
  {
    p.nCores != 1
  }

  // ---------------------------------------------------------------------------
  // Keyword adapter
  // ---------------------------------------------------------------------------

  predicate HasVarKeyword(params: seq<Param>)
  {
    exists i :: 0 <= i < |params| && params[i].varKeyword
  }

  /** The declared parameter names, in declaration order. */
  function Names(params: seq<Param>): (names: seq<string>)
    ensures |names| == |params|
    ensures forall i :: 0 <= i < |params| ==> names[i] == params[i].name
  {
    seq(|params|, i requires 0 <= i < |params| => params[i].name)
  }

  /**
   * What `eat_kwargs` turns a callable into: either the callable itself, which
   * then sees the whole bag, or a wrapper that keeps only the listed names.
   */
  datatype Adapter = Forward | Filter(names: seq<string>)

  function AdapterOf(params: seq<Param>): Adapter
  {
    if HasVarKeyword(params) then Forward else Filter(Names(params))
  }

  /** The entries of the bag whose key is one of the names, values unchanged. */
  function Keep(kwargs: Kwargs, names: seq<string>): (kept: Kwargs)
    ensures forall k :: k in kept <==> k in kwargs && k in names
    ensures forall k :: k in kept ==> kept[k] == kwargs[k]
  {
    map k | k in kwargs && k in names :: kwargs[k]
  }

  /** The keywords an adapted callable receives. */
  function Forwarded(a: Adapter, kwargs: Kwargs): Kwargs
  {
    match a
    case Forward => kwargs
    case Filter(names) => Keep(kwargs, names)
  }

  /** `eat_kwargs(f)(*args, **kwargs)`: positional arguments as given, keywords filtered. */
  function Call<R>(f: Callable<R>, args: seq<Val>, kwargs: Kwargs): R
  {
    f.body(args, Forwarded(AdapterOf(f.params), kwargs))
  }

  /** A catch-all parameter makes the adapter forward the whole bag. */
  lemma ForwardWholeBag<R>(f: Callable<R>, kwargs: Kwargs)
    requires HasVarKeyword(f.params)
    ensures Forwarded(AdapterOf(f.params), kwargs) == kwargs
  {
  }

  /**
   * Without a catch-all, exactly the entries whose key is a declared name are
   * forwarded, with their values; every other key is dropped.
   */
  lemma ForwardDeclaredOnly<R>(f: Callable<R>, kwargs: Kwargs)
    requires !HasVarKeyword(f.params)
    ensures forall k :: k in Forwarded(AdapterOf(f.params), kwargs) <==>
                        k in kwargs && exists i :: 0 <= i < |f.params| && f.params[i].name == k
    ensures forall k :: k in Forwarded(AdapterOf(f.params), kwargs) ==>
                        Forwarded(AdapterOf(f.params), kwargs)[k] == kwargs[k]
  {
    var names := Names(f.params);
    forall k ensures k in names <==> exists i :: 0 <= i < |f.params| && f.params[i].name == k {
      if k in names {
        var i :| 0 <= i < |names| && names[i] == k;
        assert f.params[i].name == k;
      }
    }
  }

  /** A callable with no matching parameter name receives no keyword at all. */
  lemma NoMatchingNameNoKeywords<R>(f: Callable<R>, kwargs: Kwargs)
    requires !HasVarKeyword(f.params)
    requires forall i :: 0 <= i < |f.params| ==> f.params[i].name !in kwargs
    ensures Forwarded(AdapterOf(f.params), kwargs) == map[]
  {
    ForwardDeclaredOnly(f, kwargs);
  }

  /**
   * The signature loop of `eat_kwargs`: returns at the first catch-all
   * parameter, and otherwise collects every parameter name.
   */
  method EatKwargs<R>(f: Callable<R>) returns (a: Adapter)
    ensures a == AdapterOf(f.params)
  {
    var kw: seq<string> := [];
    for i := 0 to |f.params|
      invariant |kw| == i
      invariant forall j :: 0 <= j < i ==> kw[j] == f.params[j].name && !f.params[j].varKeyword
    {
      if f.params[i].varKeyword {
        return Forward;
      }
      kw := kw + [f.params[i].name];
    }
    assert kw == Names(f.params);
    return Filter(kw);
  }

  /** The body of `eat_unused_kwargs`: builds `keep_kw` key by key. */
  method EatUnusedKwargs(kw: seq<string>, kwargs: Kwargs) returns (keep: Kwargs)
    ensures keep == Keep(kwargs, kw)
  {
    keep := map[];
    for i := 0 to |kw|
      invariant keep == Keep(kwargs, kw[..i])
    {
      assert kw[..i + 1] == kw[..i] + [kw[i]];
      if kw[i] in kwargs {
        keep := keep[kw[i] := kwargs[kw[i]]];
      }
    }
    assert kw[..|kw|] == kw;
  }

  /** Calls a callable through the adapter, as `eat_kwargs(func)(*args, **kwargs)` does. */
  method Invoke<R>(f: Callable<R>, args: seq<Val>, kwargs: Kwargs) returns (output: R)
    ensures output == Call(f, args, kwargs)
  {
    var a := EatKwargs(f);
    match a {
      case Forward =>
        output := f.body(args, kwargs);
      case Filter(kw) =>
        var keep := EatUnusedKwargs(kw, kwargs);
        output := f.body(args, keep);
    }
  }

  // ---------------------------------------------------------------------------
  // Tuple normalisation and the worker chain
  // ---------------------------------------------------------------------------

  /** The normalisation of `tuple_output` and `worker_process`. */
  function TupleOutput(v: Val): (t: Val)
    ensures t.Tuple?
    ensures v.Tuple? ==> t == v
    ensures !v.Tuple? ==> t.items == [v]
  {
    if v.Tuple? then v else Tuple([v])
  }

  lemma TupleOutputIdempotent(v: Val)
    ensures TupleOutput(TupleOutput(v)) == TupleOutput(v)
  {
  }

  /** `tuple_output(f)(*args, **kwargs)` */
  method TupleOutputCall(f: Callable<Val>, args: seq<Val>, kwargs: Kwargs) returns (output: Val)
    ensures output == TupleOutput(Call(f, args, kwargs))
  {
    output := Invoke(f, args, kwargs);
    if !output.Tuple? {
      output := Tuple([output]);
    }
  }

  /** One stage of the chain: its normalised output, ready to be unpacked positionally. */
  function Stage(w: Callable<Val>, args: seq<Val>, kwargs: Kwargs): seq<Val>
  {
    TupleOutput(Call(w, args, kwargs)).items
  }

  /** The chain: each stage's tuple is the positional arguments of the next. */
  function Chain(workers: seq<Callable<Val>>, args: seq<Val>, kwargs: Kwargs): seq<Val>
    decreases |workers|
  {
    if |workers| == 0 then args else Chain(workers[1..], Stage(workers[0], args, kwargs), kwargs)
  }

  /** What `worker_process` returns for one input. */
  function WorkerResult(workers: seq<Callable<Val>>, arg: Val, kwargs: Kwargs): (r: Val)
    ensures r.Tuple?
    ensures |workers| == 0 ==> r == TupleOutput(arg)
  {
    Tuple(Chain(workers, TupleOutput(arg).items, kwargs))
  }

  /** Running two chains one after the other is running their concatenation. */
  lemma {:induction false} ChainAppend(w1: seq<Callable<Val>>, w2: seq<Callable<Val>>, args: seq<Val>, kwargs: Kwargs)
    ensures Chain(w1 + w2, args, kwargs) == Chain(w2, Chain(w1, args, kwargs), kwargs)
    decreases |w1|
  {
    if |w1| == 0 {
      assert w1 + w2 == w2;
    } else {
      assert (w1 + w2)[0] == w1[0];
      assert (w1 + w2)[1..] == w1[1..] + w2;
      ChainAppend(w1[1..], w2, Stage(w1[0], args, kwargs), kwargs);
    }
  }

  /** `worker_process(w1 ++ w2, a) == worker_process(w2, worker_process(w1, a))` */
  lemma WorkerResultCompose(w1: seq<Callable<Val>>, w2: seq<Callable<Val>>, arg: Val, kwargs: Kwargs)
    ensures WorkerResult(w1 + w2, arg, kwargs) == WorkerResult(w2, WorkerResult(w1, arg, kwargs), kwargs)
  {
    ChainAppend(w1, w2, TupleOutput(arg).items, kwargs);
  }

  /** `worker_process`: normalise the input, then feed it through every stage. */
  method WorkerProcess(workers: seq<Callable<Val>>, arg: Val, kwargs: Kwargs) returns (r: Val)
    ensures r == WorkerResult(workers, arg, kwargs)
  {
    var args := arg;
    if !args.Tuple? {
      args := Tuple([args]);
    }
    ghost var start := args.items;
    for i := 0 to |workers|
      invariant args.Tuple?
      invariant Chain(workers[i..], args.items, kwargs) == Chain(workers, start, kwargs)
    {
      assert workers[i..][1..] == workers[i + 1..];
      args := TupleOutputCall(workers[i], args.items, kwargs);
    }
    r := args;
  }

  // ---------------------------------------------------------------------------
  // run_pipeline
  // ---------------------------------------------------------------------------

  /**
   * The observable effect of `run_pipeline`: on the serial branch, the list
   * of arguments the callback was called with (one entry per call); on any
   * other worker count, the items handed to the process pool.
   */
  datatype Run = Serial(callbackCalls: seq<seq<Val>>) | Pooled(n: int, items: seq<Val>)

  /** `kwargs or {}` */
  function KwargsOrEmpty(kwargs: Option<Kwargs>): Kwargs
  {
    if kwargs.Some? then kwargs.value else map[]
  }

  /** One result per input, in input order. */
  function SerialResults(workers: seq<Callable<Val>>, args: seq<Val>, kwargs: Kwargs): (results: seq<Val>)
    ensures |results| == |args|
    ensures forall i :: 0 <= i < |args| ==> results[i] == WorkerResult(workers, args[i], kwargs)
  {
    seq(|args|, i requires 0 <= i < |args| => WorkerResult(workers, args[i], kwargs))
  }

  function RunSpec(n: int, args: seq<Val>, workers: seq<Callable<Val>>, hasCallback: bool, kwargs: Option<Kwargs>): (run: Run)
    ensures run.Serial? <==> n == 1
    ensures run.Serial? ==> |run.callbackCalls| == if hasCallback then 1 else 0
    ensures run.Serial? && hasCallback ==>
              |run.callbackCalls[0]| == |args| &&
              forall i :: 0 <= i < |args| ==>
                run.callbackCalls[0][i] == WorkerResult(workers, args[i], KwargsOrEmpty(kwargs))
    ensures run.Pooled? ==> run.items == args && run.n == n
  {
    if n == 1 then
      Serial(if hasCallback then [SerialResults(workers, args, KwargsOrEmpty(kwargs))] else [])
    else
      Pooled(n, args)
  }

  /** The serial branch is taken exactly when the configuration does not parallelize. */
  lemma SerialIffNotParallel(p: Params, args: seq<Val>, workers: seq<Callable<Val>>, hasCallback: bool, kwargs: Option<Kwargs>)
    ensures RunSpec(p.nCores, args, workers, hasCallback, kwargs).Serial? <==> !Parallelize(p)
  {
  }

  /** With the class-level defaults, four cores, every run goes to the pool. */
  lemma DefaultParamsRunPooled(args: seq<Val>, workers: seq<Callable<Val>>, hasCallback: bool, kwargs: Option<Kwargs>)
    ensures Parallelize(DefaultParams)
    ensures RunSpec(DefaultParams.nCores, args, workers, hasCallback, kwargs) == Pooled(4, args)
  {
  }

  /** `run_pipeline`, with the process-pool branch reduced to the items it is given. */
  method RunPipeline(n: int, args: seq<Val>, workers: seq<Callable<Val>>, hasCallback: bool, kwargs: Option<Kwargs>)
    returns (run: Run)
    ensures run == RunSpec(n, args, workers, hasCallback, kwargs)
  {
    var kw := if kwargs.Some? then kwargs.value else map[];
    if n == 1 {
      var results: seq<Val> := [];
      for i := 0 to |args|
        invariant |results| == i
        invariant forall j :: 0 <= j < i ==> results[j] == WorkerResult(workers, args[j], kw)
      {
        var result := WorkerProcess(workers, args[i], kw);
        results := results + [result];
      }
      assert results == SerialResults(workers, args, kw);
      if hasCallback {
        return Serial([results]);
      }
      return Serial([]);
    }
    run := Pooled(n, args);
  }

  // ---------------------------------------------------------------------------
  // Pipeline
  // ---------------------------------------------------------------------------

  /** The items a call runs over: the generator's output, or the call's own arguments. */
  function CallItems(generator: Option<Callable<seq<Val>>>, args: seq<Val>, kwargs: Kwargs): seq<Val>
  {
    if generator.Some? then Call(generator.value, args, kwargs) else args
  }

  class Pipeline {
    const workers: seq<Callable<Val>>
    const generator: Option<Callable<seq<Val>>>
    const hasCallback: bool
    var kwargs: Kwargs

    constructor (workers: seq<Callable<Val>>, generator: Option<Callable<seq<Val>>>, hasCallback: bool, kwargs: Option<Kwargs>)
      ensures this.workers == workers && this.generator == generator && this.hasCallback == hasCallback
      ensures this.kwargs == KwargsOrEmpty(kwargs)
    {
      this.workers := workers;
      this.generator := generator;
      this.hasCallback := hasCallback;
      this.kwargs := if kwargs.Some? then kwargs.value else map[];
    }

    /**
     * `Pipeline.__call__`: the stored bag is updated in place by the call's
     * keywords, and the run sees the updated bag.
     */
    method Call(args: seq<Val>, callKwargs: Kwargs, params: Params) returns (run: Run)
      modifies this
      ensures kwargs == old(kwargs) + callKwargs
      ensures run == RunSpec(params.nCores, CallItems(generator, args, kwargs), workers, hasCallback, Some(kwargs))
    {
      kwargs := kwargs + callKwargs;
      var items := args;
      if generator.Some? {
        items := Invoke(generator.value, args, kwargs);
      }
      run := RunPipeline(params.nCores, items, workers, hasCallback, Some(kwargs));
    }
  }

  /** Keywords given to an earlier call stay in the bag unless a later call overrides them. */
  lemma MergedBagKeepsEarlierKeys(stored: Kwargs, callKwargs: Kwargs)
    ensures forall k :: k in stored + callKwargs <==> k in stored || k in callKwargs
    ensures forall k :: k in stored && k !in callKwargs ==> (stored + callKwargs)[k] == stored[k]
    ensures forall k :: k in callKwargs ==> (stored + callKwargs)[k] == callKwargs[k]
  {
  }

  // ---------------------------------------------------------------------------
  // Analysis pipeline and IOMapper
  // ---------------------------------------------------------------------------

  /** `analysis_pipeline`: read, work, then write to the output path. */
  function AnalysisPipeline(inputPath: Val, reader: Callable<Val>, worker: Callable<Val>, writer: Callable<Val>,
                            outputPath: Val, kwargs: Kwargs): Val
  {
    var args := Stage(reader, [inputPath], kwargs);
    var result := Stage(worker, args, kwargs);
    Call(writer, [outputPath] + result, kwargs)
  }

  /**
   * The reader and worker form a two-stage chain whose output tuple is
   * unpacked after the output path; for an input path that is not a tuple,
   * that chain is exactly what `worker_process` computes.
   */
  lemma AnalysisPipelineIsChain(inputPath: Val, reader: Callable<Val>, worker: Callable<Val>, writer: Callable<Val>,
                                outputPath: Val, kwargs: Kwargs)
    ensures AnalysisPipeline(inputPath, reader, worker, writer, outputPath, kwargs)
            == Call(writer, [outputPath] + Chain([reader, worker], [inputPath], kwargs), kwargs)
    ensures !inputPath.Tuple? ==>
              AnalysisPipeline(inputPath, reader, worker, writer, outputPath, kwargs)
              == Call(writer, [outputPath] + WorkerResult([reader, worker], inputPath, kwargs).items, kwargs)
  {
    var kw := kwargs;
    var afterReader := Stage(reader, [inputPath], kw);
    assert [reader, worker][1..] == [worker];
    assert Chain([reader, worker], [inputPath], kw) == Chain([worker], afterReader, kw);
    assert [worker][1..] == [];
    assert Chain([worker], afterReader, kw) == Chain([], Stage(worker, afterReader, kw), kw);
  }

  /** `IOMapper.dummy`: returns its positional arguments and accepts any keyword. */
  const Dummy: Callable<Val> := Callable([Param("args", false), Param("kwargs", true)], (args, kw) => Tuple(args))

  /** As a stage, the dummy passes its arguments through untouched. */
  lemma DummyIsIdentityStage(args: seq<Val>, kwargs: Kwargs)
    ensures Call(Dummy, args, kwargs) == Tuple(args)
    ensures Stage(Dummy, args, kwargs) == args
  {
    assert HasVarKeyword(Dummy.params) by { assert Dummy.params[1].varKeyword; }
  }

  /** A chain that starts with the dummy computes what the rest of the chain computes. */
  lemma DummyChain(workers: seq<Callable<Val>>, args: seq<Val>, kwargs: Kwargs)
    ensures Chain([Dummy] + workers, args, kwargs) == Chain(workers, args, kwargs)
  {
    DummyIsIdentityStage(args, kwargs);
    assert ([Dummy] + workers)[1..] == workers;
  }

  datatype IOMapper = IOMapper(generator: Callable<seq<Val>>, reader: Callable<Val>, worker: Callable<Val>, writer: Callable<Val>)

  /** `IOMapper.__init__`: a missing reader, worker or writer becomes the dummy. */
  function NewIOMapper(generator: Callable<seq<Val>>, reader: Option<Callable<Val>>, worker: Option<Callable<Val>>,
                       writer: Option<Callable<Val>>): (m: IOMapper)
    ensures m.generator == generator
    ensures m.reader == if reader.Some? then reader.value else Dummy
    ensures m.worker == if worker.Some? then worker.value else Dummy
    ensures m.writer == if writer.Some? then writer.value else Dummy
  {
    IOMapper(generator,
             if reader.Some? then reader.value else Dummy,
             if worker.Some? then worker.value else Dummy,
             if writer.Some? then writer.value else Dummy)
  }

  /**
   * Without a reader and a worker, the writer receives the output path and
   * the input path unchanged, whatever the input path is.
   */
  lemma MissingReaderAndWorkerPassInput(generator: Callable<seq<Val>>, writer: Callable<Val>, inputPath: Val,
                                        outputPath: Val, kwargs: Kwargs)
    ensures var m := NewIOMapper(generator, None, None, Some(writer));
            AnalysisPipeline(inputPath, m.reader, m.worker, m.writer, outputPath, kwargs)
            == Call(writer, [outputPath, inputPath], kwargs)
  {
    DummyIsIdentityStage([inputPath], kwargs);
    assert [outputPath] + [inputPath] == [outputPath, inputPath];
  }

  /**
   * Without a writer, the pipeline returns the output path followed by what
   * the reader and worker computed, as one tuple.
   */
  lemma MissingWriterReturnsResult(generator: Callable<seq<Val>>, reader: Callable<Val>, worker: Callable<Val>,
                                   inputPath: Val, outputPath: Val, kwargs: Kwargs)
    ensures var m := NewIOMapper(generator, Some(reader), Some(worker), None);
            AnalysisPipeline(inputPath, m.reader, m.worker, m.writer, outputPath, kwargs)
            == Tuple([outputPath] + Chain([reader, worker], [inputPath], kwargs))
  {
    AnalysisPipelineIsChain(inputPath, reader, worker, Dummy, outputPath, kwargs);
    DummyIsIdentityStage([outputPath] + Chain([reader, worker], [inputPath], kwargs), kwargs);
  }

  /** With none of the three, the pipeline returns its two paths as a tuple. */
  lemma AllMissingReturnsPaths(generator: Callable<seq<Val>>, inputPath: Val, outputPath: Val, kwargs: Kwargs)
    ensures var m := NewIOMapper(generator, None, None, None);
            AnalysisPipeline(inputPath, m.reader, m.worker, m.writer, outputPath, kwargs)
            == Tuple([outputPath, inputPath])
  {
    MissingReaderAndWorkerPassInput(generator, Dummy, inputPath, outputPath, kwargs);
    DummyIsIdentityStage([outputPath, inputPath], kwargs);
  }

  /** One item yielded by `IOMapper.__call__`. */
  datatype IOItem = IOItem(inputPath: Val, reader: Callable<Val>, worker: Callable<Val>, writer: Callable<Val>, outputPath: Val)

  /** Unpacking `input_path, output_path = v`: any two-element tuple, list or string. */
  function Unpack2(v: Val): (r: Option<(Val, Val)>)
    ensures r.Some? <==> ((v.Tuple? || v.List?) && |v.items| == 2) || (v.Str? && |v.s| == 2)
  {
    match v
    case Tuple(items) => if |items| == 2 then Some((items[0], items[1])) else None
    case List(items) => if |items| == 2 then Some((items[0], items[1])) else None
    case Str(s) => if |s| == 2 then Some((Str([s[0]]), Str([s[1]]))) else None
    case Int(_) => None
  }

  /**
   * `IOMapper.__call__`: yields one item per pair the generator produces.
   * The generator is lazy, so the items before a pair that does not unpack
   * are still yielded; `complete` is false when such a pair stopped it.
   */
  method Items(m: IOMapper, args: seq<Val>, kwargs: Kwargs) returns (items: seq<IOItem>, complete: bool)
    ensures var pairs := Call(m.generator, args, kwargs);
      && |items| <= |pairs|
      && (complete <==> |items| == |pairs| && forall i :: 0 <= i < |pairs| ==> Unpack2(pairs[i]).Some?)
      && (!complete ==> |items| < |pairs| && Unpack2(pairs[|items|]).None?)
      && forall i :: 0 <= i < |items| ==>
           Unpack2(pairs[i]).Some? &&
           items[i] == IOItem(Unpack2(pairs[i]).value.0, m.reader, m.worker, m.writer, Unpack2(pairs[i]).value.1)
  {
    var pairs := Invoke(m.generator, args, kwargs);
    items := [];
    for i := 0 to |pairs|
      invariant |items| == i
      invariant forall j :: 0 <= j < i ==>
                  Unpack2(pairs[j]).Some? &&
                  items[j] == IOItem(Unpack2(pairs[j]).value.0, m.reader, m.worker, m.writer, Unpack2(pairs[j]).value.1)
    {
      var pair := Unpack2(pairs[i]);
      if pair.None? {
        return items, false;
      }
      items := items + [IOItem(pair.value.0, m.reader, m.worker, m.writer, pair.value.1)];
    }
    complete := true;
  }
}
