# exptlib core, modelled in Dafny

exptlib is a small Python library for running experiments. This project models
the sequential parts of it:

- the pipeline machinery: the keyword adapter `eat_kwargs`, the tuple
  normalisation, the worker chain, the serial branch of `run_pipeline`,
  `Pipeline`, `analysis_pipeline` and `IOMapper`;
- `ExtendedAttribute`, a class attribute merged without duplicates along the
  method resolution order;
- `ExtendingAttribute`, a list descriptor that extends its per-instance list on
  every assignment;
- the two metadata descriptors, covering extension normalisation, suffix
  appending, read-only handling, caching and the overwrite prompt;
- `Experiment`, covering the yes/no question, `open`, the data-directory
  rules of both copies, and `new_file`.

Each module is written in the same form as its source:

- Code that mutates objects becomes a class with `modifies` clauses. This
  covers the descriptors, the stored keyword bag of `Pipeline`, the cached
  attributes and the files on disk.
- Loops become methods whose invariants tie them to specification functions.
- Pure rules become functions with lemmas about them.

The modules, by file:

| file | module | source |
|---|---|---|
| wrappers.dfy | Wrappers, Errors, Values, Paths | shared: Option/Result, the exceptions raised, Python values, path strings |
| pipeline.dfy | Pipeline | exptlib/pipeline.py |
| helpers.dfy | Helpers | exptlib/helpers.py |
| descriptors.dfy | Descriptors | exptlib/utilities.py and build/lib/exptlib/descriptors.py |
| experiment.dfy | Experiment | exptlib/experiment.py |
| legacy_experiment.dfy | LegacyExperiment | build/lib/exptlib/experiment.py |
| metadata.dfy | Metadata | exptlib/metadata.py |
| metadata_attributes.dfy | MetadataAttributes | exptlib/_metadata.py |

exptlib/utilities.py and build/lib/exptlib/descriptors.py are identical, so
the module Descriptors models both. Its rows below cite the first copy; the
same line numbers hold in the second.

Modelling choices:

- A callable is a record: its declared parameters, each with a flag for a
  `**kwargs` catch-all, and a function from positional arguments and keywords
  to a result.
- The filesystem is either a set of existing paths or a map from path to the
  data last written there. The user's answer to a prompt is a parameter.
- Every exception is a `Failure` carrying an `Errors.Error` value.

Two notes on the source:

- In build/lib/exptlib/experiment.py:32, the message for a missing string data
  directory carries a stray ")". The model keeps it.
- The comment at exptlib/utilities.py:84 gives `Mixed` as `[0, 1, 2, 3, 'a', 'b']`.
  The code computes `[0, 1, 2, 3, 4, 5, 'a', 'b']`, and
  `Descriptors.Examples` follows the code.

## Model

| member | source | states |
|---|---|---|
| Pipeline.Names | exptlib/pipeline.py:27-31 | the collected names are the parameters' names, one per parameter, in declaration order |
| Pipeline.Keep | exptlib/pipeline.py:35-38 | a key is kept iff it is in the bag and among the names; kept values are the bag's values |
| Pipeline.ForwardWholeBag | exptlib/pipeline.py:28-30 | a callable with a `**kwargs` parameter receives the whole keyword bag |
| Pipeline.ForwardDeclaredOnly | exptlib/pipeline.py:27-39 | without a catch-all, a keyword is forwarded iff its key is a declared parameter name, with its value unchanged; other keys are dropped |
| Pipeline.NoMatchingNameNoKeywords | exptlib/pipeline.py:34-39 | a callable none of whose names is in the bag receives an empty keyword map |
| Pipeline.EatKwargs | exptlib/pipeline.py:24-41 | the signature loop returns the callable itself at a catch-all parameter; otherwise it returns a filter over all declared names |
| Pipeline.EatUnusedKwargs | exptlib/pipeline.py:34-39 | the built `keep_kw` equals the bag restricted to the declared names |
| Pipeline.Invoke | exptlib/pipeline.py:34-41 | an adapted call passes the positional arguments unchanged and in order, and the keywords as the adapter filters them |
| Pipeline.TupleOutput | exptlib/pipeline.py:47-50 | the result is always a tuple: a tuple is kept as is, any other value becomes a 1-tuple of itself |
| Pipeline.TupleOutputIdempotent | exptlib/pipeline.py:47-50 | normalising twice equals normalising once |
| Pipeline.TupleOutputCall | exptlib/pipeline.py:44-51 | `tuple_output(f)` returns the normalised result of the adapted call |
| Pipeline.WorkerResult | exptlib/pipeline.py:54-60 | `worker_process` always returns a tuple; with no workers it returns the input normalised to a tuple |
| Pipeline.ChainAppend | exptlib/pipeline.py:58-59 | running a concatenated worker list equals running the second list on the first list's output |
| Pipeline.WorkerResultCompose | exptlib/pipeline.py:54-60 | `worker_process(w1 ++ w2, a) == worker_process(w2, worker_process(w1, a))` |
| Pipeline.WorkerProcess | exptlib/pipeline.py:54-60 | the loop that reassigns `args` computes `worker_process`'s result |
| Pipeline.SerialResults | exptlib/pipeline.py:71-74 | one result per input, in input order, each the worker chain applied to that input |
| Pipeline.RunSpec | exptlib/pipeline.py:63-81 | the serial branch is taken iff n == 1; the callback gets exactly one call, with the full ordered result list, iff a callback is given; otherwise the items and n go to the pool |
| Pipeline.SerialIffNotParallel | exptlib/pipeline.py:17-18 | the serial branch is taken exactly when `Params.parallelize` is false |
| Pipeline.DefaultParamsRunPooled | exptlib/pipeline.py:13-18 | the class defaults (four cores) parallelize, so every run with them goes to a pool of four |
| Pipeline.RunPipeline | exptlib/pipeline.py:63-77 | the loop that appends results produces the run that `RunSpec` describes |
| Pipeline.Pipeline.constructor | exptlib/pipeline.py:102-106 | stores the workers, generator and callback; a missing keyword bag becomes empty |
| Pipeline.Pipeline.Call | exptlib/pipeline.py:108-112 | the stored bag becomes the old bag overridden by the call's keywords; the run gets the generator's adapted output (or the call's arguments when there is no generator), `n_cores` and the updated bag |
| Pipeline.MergedBagKeepsEarlierKeys | exptlib/pipeline.py:109 | after the update, keys from earlier calls persist unless overridden, and the call's keywords win |
| Pipeline.AnalysisPipelineIsChain | exptlib/pipeline.py:117-127 | reader then worker form a two-stage chain whose tuple is unpacked after the output path into the adapted writer; for a non-tuple input this is `worker_process` over `[reader, worker]` |
| Pipeline.DummyIsIdentityStage | exptlib/pipeline.py:139-141 | the dummy returns its positional arguments as a tuple, so as a stage it passes its arguments through |
| Pipeline.DummyChain | exptlib/pipeline.py:133-141 | prefixing a chain with the dummy does not change what it computes |
| Pipeline.NewIOMapper | exptlib/pipeline.py:133-137 | a missing reader, worker or writer is replaced by the dummy; given ones are kept |
| Pipeline.MissingReaderAndWorkerPassInput | exptlib/pipeline.py:117-141 | with only a writer given, the writer receives the output path followed by the input path unchanged |
| Pipeline.MissingWriterReturnsResult | exptlib/pipeline.py:117-141 | with no writer, the pipeline returns the tuple of the output path followed by the reader-then-worker chain's output |
| Pipeline.AllMissingReturnsPaths | exptlib/pipeline.py:117-141 | with none of the three given, the pipeline returns `(output_path, input_path)` |
| Pipeline.Unpack2 | exptlib/pipeline.py:144 | the unpacking into two names succeeds iff the value is a two-element tuple, list or string |
| Pipeline.Items | exptlib/pipeline.py:143-145 | yields one item per generated pair, in order, each carrying the mapper's reader, worker and writer; it stops at the first pair that does not unpack |
| Helpers.AppendNewFirstOccurrences | exptlib/helpers.py:31-33 | the inner loop keeps the list equal to the first occurrences, in order, of everything seen so far |
| Helpers.MergeIsFirstOccurrences | exptlib/helpers.py:28-34 | the result lists every contributed item exactly once, ordered by first occurrence from the most basic class to the owner |
| Helpers.MergeContents | exptlib/helpers.py:28-34 | the result has no duplicates, contains every item of every class's list along the MRO, and contains nothing else |
| Helpers.MergeAbsent | exptlib/helpers.py:28-34 | if no class has the private attribute, the result is empty |
| Helpers.AppendNewMembers | exptlib/helpers.py:31-33 | after the inner loop, an item is in the list iff it was already there or is among the class's items |
| Helpers.AppendNewPresent | exptlib/helpers.py:30-33 | a class whose items are all present already adds nothing |
| Helpers.View | exptlib/helpers.py:29-30 | along a single-inheritance chain, a class sees its own list if it has one and otherwise its nearest ancestor's |
| Helpers.InheritedAddsNothing | exptlib/helpers.py:29-33 | the merge over inherited lists equals the merge over own lists only, so a class that only inherits adds nothing |
| Helpers.ExtendedAttribute.constructor | exptlib/helpers.py:24-25 | the private name is `"_" + name` |
| Helpers.ExtendedAttribute.Get | exptlib/helpers.py:27-34 | the nested loops over the reversed MRO build the merge; it depends only on the class sequence and is built fresh on each access |
| Helpers.DocExample | exptlib/helpers.py:11-21 | Parent gives [0, 1, 2] and Child gives [0, 1, 2, 3, 4, 5] |
| Descriptors.ExtendingAttribute.constructor | exptlib/utilities.py:25-26 | the private name is `"_" + name` |
| Descriptors.ExtendingAttribute.Get | exptlib/utilities.py:28-29 | after an assignment, reading returns the stored list object itself; before any assignment, reading raises AttributeError |
| Descriptors.ExtendingAttribute.Set | exptlib/utilities.py:31-38 | a value that is not a list or tuple fails the assertion and changes nothing; the first assignment stores a new list equal to the value; a later one extends the stored list in place to `old ++ value`; only the instance's `"_" + name` slot changes |
| Descriptors.Construct | exptlib/utilities.py:31-38 | a chain of assignments on a new instance leaves exactly one slot, holding the concatenation of the assigned values |
| Descriptors.Run | exptlib/utilities.py:28-38 | reading the attribute after a chain of assignments returns the concatenation of the assigned values |
| Descriptors.Examples | exptlib/utilities.py:72-85 | Parent [0,1,2], Child [0..5], Sibling [0,1,2,6,7], Mixed [0..5,'a','b'], Complex [0..7,'a','b'] |
| Experiment.Lower | exptlib/experiment.py:98 | lower-casing keeps the length and maps each character through ASCII lower-casing |
| Experiment.YesNoQuestion | exptlib/experiment.py:97-102 | True iff the lower-cased answer is affirmative; False iff it is negative but not affirmative; otherwise ValueError listing all recognised answers |
| Experiment.LowerIdempotent | exptlib/experiment.py:98-100 | lower-casing twice equals lower-casing once |
| Experiment.YesNoCaseInsensitive | exptlib/experiment.py:97-102 | an answer and its lower-cased form are classified alike |
| Experiment.AffirmativeWins | exptlib/experiment.py:97-100 | when custom lists overlap, the affirmative list wins |
| Experiment.DefaultListsDisjoint | exptlib/experiment.py:74-75 | the default lists are disjoint, and each default answer gets its own list's classification |
| Experiment.AskExamples | exptlib/experiment.py:97-102 | "YES" is True, "No" is False, "maybe" raises ValueError |
| Experiment.Experiment.constructor | exptlib/experiment.py:19-21 | stores the directory and assigns the data directory through the setter |
| Experiment.Experiment.SetDataDirectory | exptlib/experiment.py:27-29 | a truthy path is wrapped and a falsy one stored unchanged; the directory is untouched |
| Experiment.OpenDecision | exptlib/experiment.py:31-70 | for a missing directory without `mkdir`: an invalid answer raises, and "no" exits; `mkdir` or "yes" creates it; a truthy data directory that does not exist is retried as `directory/data_directory`, and ValueError is raised if that is missing too; exiting implies a missing directory without `mkdir` |
| Experiment.OpenExistingIgnoresAnswer | exptlib/experiment.py:52-60 | an existing directory is never prompted for, so neither `mkdir` nor the answer matters |
| Experiment.Open | exptlib/experiment.py:31-70 | creates the directory exactly when `open` decides to; outcome and new object follow that decision |
| LegacyExperiment.Resolve | build/lib/exptlib/experiment.py:17-43 | a missing experiment directory raises ValueError; a string data directory is used if it exists, else the joined path if that exists, else ValueError; a Path must exist; any other type raises TypeError; on success both directories exist and the metadata path is `directory/metadata.json` |
| LegacyExperiment.ResolveStableUnderNewPaths | build/lib/exptlib/experiment.py:17-43 | once resolution succeeds, more existing paths do not change its result, unless one of them would shadow the string as given |
| LegacyExperiment.New | build/lib/exptlib/experiment.py:17-43 | the constructor raises exactly when resolution fails, with the same error; otherwise the new object holds the resolved layout |
| LegacyExperiment.NewFile | build/lib/exptlib/experiment.py:64-67 | the path lies in the directory and, with a truthy extension, ends with `"." + ext`; its length accounts for the name and the extension |
| LegacyExperiment.NewFileExtensionInName | build/lib/exptlib/experiment.py:64-67 | a separate extension equals writing `name + "." + ext`; an empty extension is ignored |
| LegacyExperiment.NewFileNaming | build/lib/exptlib/experiment.py:64-67 | with one directory and one extension, different names give different paths |
| LegacyExperiment.LegacyQuestion | build/lib/exptlib/experiment.py:97-103 | the older question classifies every answer as the current one does, ignoring case |
| Metadata.LStripDots | exptlib/metadata.py:13 | the result is a suffix of the input, everything removed is a dot, and it does not start with a dot |
| Metadata.RStripDots | exptlib/metadata.py:13 | the result is a prefix of the input, everything removed is a dot, and it does not end with a dot |
| Metadata.StripDots | exptlib/metadata.py:13 | the stripped text neither starts nor ends with a dot, and it is empty only when the input is all dots |
| Metadata.Extension | exptlib/metadata.py:13 | the extension is one dot followed by text that neither starts nor ends with a dot |
| Metadata.StripKeepsClean | exptlib/metadata.py:13 | text without edge dots is not changed by the strip |
| Metadata.StripIgnoresEdgeDots | exptlib/metadata.py:13 | a leading or a trailing dot does not change the stripped text |
| Metadata.LStripTrailingDot | exptlib/metadata.py:13 | left-stripping keeps a trailing dot unless only dots remain |
| Metadata.ExtensionIdempotent | exptlib/metadata.py:13 | normalising an extension twice equals normalising it once |
| Metadata.ExtensionExamples | exptlib/metadata.py:13 | "json", ".json" and "json." all give ".json" |
| Metadata.IO.constructor | exptlib/metadata.py:11-15 | stores the type, reader and writer, and the normalised extension |
| Metadata.IO.ValidateType | exptlib/metadata.py:21-24 | data already of the type is returned unchanged; other data is converted |
| Metadata.ValidateTypeIdempotent | exptlib/metadata.py:21-24 | when conversion yields the type, validated data has it and validating again changes nothing |
| Metadata.IO.Read | exptlib/metadata.py:26-28 | returns the validated data read; a missing reader raises TypeError |
| Metadata.IO.Write | exptlib/metadata.py:30-34 | returns False and writes nothing when read-only; otherwise it writes once and returns True |
| Metadata.WriteDecision | exptlib/metadata.py:89-92 | writes iff not (safe overwrite and the file exists) or the user says yes; does not write on "no"; an invalid answer raises ValueError |
| Metadata.SafeOverwriteNeedsYes | exptlib/metadata.py:89-94 | with safe overwrite, an existing file is rewritten only after an affirmative answer |
| Metadata.Metadata.constructor | exptlib/metadata.py:47-59 | read-only iff there is no writer or `set_read_only` is given; extension normalised |
| Metadata.Metadata.SetName | exptlib/metadata.py:65-66 | records the attribute name |
| Metadata.Metadata.Get | exptlib/metadata.py:72-80 | class access returns the descriptor; a missing path raises FileNotFoundError with no cache change; otherwise it caches the validated read data under `name + "_cached"` and returns it |
| Metadata.Metadata.Set | exptlib/metadata.py:82-94 | read-only: the `Warned` outcome, no cache and no write; otherwise it caches the validated data first, then writes exactly when the write decision says so, with an invalid answer raising after caching; a normal end reports whether the file was written |
| MetadataAttributes.WithExtension | exptlib/_metadata.py:100-102 | the result ends with the extension; a path that already ends with it is unchanged; otherwise `"." + ext` is appended |
| MetadataAttributes.WithExtensionIdempotent | exptlib/_metadata.py:101-102 | applying the rule twice equals applying it once |
| MetadataAttributes.EmptyExtensionKeepsPath | exptlib/_metadata.py:93-102 | with the base class's empty extension no path is changed |
| MetadataAttributes.SuffixTestIgnoresDot | exptlib/_metadata.py:101 | with "json", "rawjson" is kept, "raw" becomes "raw.json", and "raw.json" is kept |
| MetadataAttributes.MetadataFile.constructor | exptlib/_metadata.py:124-125 | `create` builds the object and sets its path by the extension rule |
| MetadataAttributes.MetadataFile.SetPath | exptlib/_metadata.py:100-103 | the path becomes the given path under the extension rule; the data is untouched |
| MetadataAttributes.MetadataFile.Write | exptlib/_metadata.py:111-113 | stores the object's data at its path |
| MetadataAttributes.Open | exptlib/_metadata.py:128-146 | raises FileNotFoundError iff the extended path is absent; otherwise a new object with that path and the data read |
| MetadataAttributes.MetadataPath | exptlib/_metadata.py:75-76 | the metadata path lies in the instance directory and ends with the filename |
| MetadataAttributes.WrittenPath | exptlib/_metadata.py:53-54 | the written path ends with the extension and extends the metadata path |
| MetadataAttributes.AsWrittenSkipsPrompt | exptlib/_metadata.py:53-61 | as written, "dir/info.json" exists but the test checks "dir/info", so even "n" lets the write go ahead |
| MetadataAttributes.CorrectedCheckAsks | exptlib/_metadata.py:56-61 | testing the written path asks before an existing file is replaced, and writes without asking only to an absent one |
| MetadataAttributes.ChecksAgreeIffExtended | exptlib/_metadata.py:53-56 | the tested path and the written path agree exactly when the metadata path already ends with the extension |
| MetadataAttributes.MetadataAttribute.constructor | exptlib/_metadata.py:36-44 | stores the metadata class's extension, the filename and the flags |
| MetadataAttributes.MetadataAttribute.SetName | exptlib/_metadata.py:46-47 | records the attribute name |
| MetadataAttributes.MetadataAttribute.SetChecking | exptlib/_metadata.py:49-61 | the steps of `__set__` with the tested path as a parameter: read-only gives `Warned`, no cache and no write; otherwise it caches a new object at the extended path first, then writes exactly when the write decision over the tested path allows |
| MetadataAttributes.MetadataAttribute.Set | exptlib/_metadata.py:49-61 | `__set__` as written: read-only gives `Warned`, no cache and no write; otherwise it caches a new object at the extended path first, then writes exactly when the write decision allows, where existence is tested on `metadata_path`, the path without the extension |
| MetadataAttributes.MetadataAttribute.SetCorrected | exptlib/_metadata.py:49-61 | the same steps with existence tested on the extended path that is written |
| MetadataAttributes.MetadataAttribute.Get | exptlib/_metadata.py:63-69 | class access returns the descriptor; otherwise it opens the file (FileNotFoundError when absent) and caches the opened object under `name + "_cached"` |

## Left out

- exptlib/multiprocessing.py and build/lib/exptlib/runner.py: parallel processes, queues and locks are concurrency, not sequential logic.
- The process-pool branch of `run_pipeline` (exptlib/pipeline.py:79-81) is reduced to the `Pooled` record of the worker count and the items it would be given.
- Signature introspection: a callable carries its parameter names and catch-all flags as data. Python's argument-binding errors are not modelled, for example a keyword that duplicates a positional argument.
- Pipeline.Items: the ValueError or TypeError raised by a pair that does not unpack (a wrong length, or a value that is not iterable such as an int) is modelled only as `complete == false` after the items yielded before it.
- `create_analysis_pipeline` and `Pipeline.params` as a shared mutable class are not modelled. The parameters are passed to `Pipeline.Pipeline.Call`.
- pathlib:
  - a path is a string and `joinpath` is `directory + "/" + name`;
  - normalisation, absolute names and `Path("")` are not modelled;
  - `exists` is membership in a set or map of paths;
  - `mkdir` adds the directory alone, without parents;
  - `with_suffix` in `_IO.get_path` is an uninterpreted function.
- exptlib/directory.py is not part of this model. `Directory.new_file(filename)` is taken as `directory + "/" + filename`, the same rule as `LegacyExperiment.NewFile` without an extension.
- Serialisation and file formats: JSON, CSV, YAML, text and pandas readers and writers; the subclasses in exptlib/metadata.py:97-169 and exptlib/_metadata.py:149-206; all of build/lib/exptlib/metadata.py. A writer stores its data in the disk map and a reader returns what is stored. `read_kw` and `write_kw` are not modelled.
- Metadata.IO.ValidateType: the conversion `dtype(data)` is a supplied function. Whether it succeeds, or what it returns, is not modelled.
- Reflection: `Metadata.create` builds a type dynamically. The model stores the data as given. The `SetOnce` descriptor on `path` comes from an unshown module and is not modelled.
- The base classes' abstract `read` and `write`, and any TypeError from instantiating them, are not modelled.
- Python's MRO computation: `Helpers.ExtendedAttribute.Get` takes the class sequence as input, and `Helpers.View` builds the inherited view for single inheritance only.
- Console and process effects: `input()` becomes an answer parameter; `sys.exit` becomes the `SystemExit` error and `warnings.warn` the `Warned` outcome of an assignment; the text printed and the warning's message are not modelled; question texts are not modelled.
- Experiment.Lower: lower-casing covers ASCII letters only. Unicode case mapping is not modelled.
- Error messages are structured `Errors.Error` values that keep the parts the code formats. The exact text is not modelled.
- Descriptors.ExtendingAttribute.Get and Descriptors.ExtendingAttribute.Set look only at the instance's own `"_" + name` slot. In the source, `hasattr` and `getattr` also find a class attribute of that name; `extend` would then grow that list, which every instance shares. Class-level slots are not modelled.
- Helpers.ExtendedAttribute.Get: list identity and aliasing between classes' lists are not modelled. Only values are.
- The `subdirs`, `files`, `new_subdir`, `create` and `open` helpers of build/lib/exptlib/experiment.py are left out: they are directory listings, `mkdir`, or empty.
- playground.py (metaclass printing) and setup.py (packaging).

## Findings

| source | as written | input that shows it | evidently intended | confidence | as-written member | corrected member |
|---|---|---|---|---|---|---|
| exptlib/_metadata.py:53-61 | the overwrite prompt tests whether `directory/filename` exists, but `create` writes to that path with the metadata extension appended by `set_path` | filename "info", extension "json", and "dir/info.json" already on disk: "dir/info" is absent, so the prompt is skipped and the existing file is overwritten | test the path that will be written, `metadata.path` | medium, not executed | MetadataAttributes.MetadataAttribute.Set, MetadataAttributes.AsWrittenSkipsPrompt | MetadataAttributes.MetadataAttribute.SetCorrected, MetadataAttributes.CorrectedCheckAsks |
