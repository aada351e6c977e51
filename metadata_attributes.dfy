/**
 * The newer metadata layer of exptlib/_metadata.py: a `Metadata` object is
 * data mixed with the path of its file; `set_path` appends the class's
 * extension unless the path already ends with it; `open` refuses a missing
 * file; `MetadataAttribute` is the descriptor that caches a `Metadata` object
 * on the instance and writes it on assignment.
 *
 * Files are a map from path to the data stored there, as in the model of
 * exptlib/metadata.py.
 */
module MetadataAttributes {
  import opened Wrappers
  import opened Errors
  import opened Paths
  import Experiment
  import Metadata

  // ---------------------------------------------------------------------------
  // set_path
  // ---------------------------------------------------------------------------

  /**
   * The string rule of `set_path`: the path is kept when it ends with the
   * extension, otherwise `"." + ext` is appended.
   */
  function WithExtension(path: string, ext: string): (r: string)
    ensures EndsWith(r, ext)
    ensures EndsWith(path, ext) ==> r == path
    ensures !EndsWith(path, ext) ==> r == path + "." + ext
  {
    if EndsWith(path, ext) then path else path + "." + ext
  }

  /** Applying the rule twice is the same as applying it once. */
  lemma WithExtensionIdempotent(path: string, ext: string)
    ensures WithExtension(WithExtension(path, ext), ext) == WithExtension(path, ext)
  {
  }

  /** The base class's empty extension never changes a path. */
  lemma EmptyExtensionKeepsPath(path: string)
    ensures WithExtension(path, "") == path
  {
    assert path[|path|..] == "";
  }

  /** The suffix test ignores the dot: "rawjson" already counts as ending in "json". */
  lemma SuffixTestIgnoresDot()
    ensures WithExtension("rawjson", "json") == "rawjson"
    ensures WithExtension("raw", "json") == "raw.json"
    ensures WithExtension("raw.json", "json") == "raw.json"
  {
    assert "rawjson"[3..] == "json";
    assert "raw.json"[4..] == "json";
    assert "raw"[..] != "json";
  }

  // ---------------------------------------------------------------------------
  // Metadata objects and open
  // ---------------------------------------------------------------------------

  /** Files on disk are `Metadata.Disk`, shared with the model of exptlib/metadata.py. */
  type Disk<D> = Metadata.Disk<D>

  /**
   * An instance made by `Metadata.create`: the class's extension, the path set
   * by `set_path`, and the data it was built from (None for `cls.create(path)`
   * without data).
   */
  class MetadataFile<D> {
    const extension: string
    var path: string
    var data: Option<D>

    /** `create(path, *args)`: builds the object, then sets its path. */
    constructor (extension: string, path: string, data: Option<D>)
      ensures this.extension == extension && this.data == data
      ensures this.path == WithExtension(path, extension)
    {
      this.extension := extension;
      this.path := path;
      this.data := data;
      new;
      SetPath(path);
    }

    /** `set_path` */
    method SetPath(path: string)
      modifies this
      ensures this.path == WithExtension(path, extension)
      ensures data == old(data)
    {
      this.path := if EndsWith(path, extension) then path else path + "." + extension;
    }

    /** `write`: stores the data at the object's path. */
    method Write(disk: Disk<D>)
      requires data.Some?
      modifies disk
      ensures disk.files == old(disk.files)[path := data.value]
    {
      disk.files := disk.files[path := data.value];
    }
  }

  /**
   * `Metadata.open`: FileNotFoundError (naming the path as given) when the
   * extended path is absent; otherwise a new object holding what was read.
   */
  method Open<D>(extension: string, path: string, disk: Disk<D>) returns (r: Result<MetadataFile<D>, Error>)
    ensures WithExtension(path, extension) !in disk.files <==> r.Failure?
    ensures r.Failure? ==> r.error == MissingFile(path)
    ensures r.Success? ==>
              && fresh(r.value)
              && r.value.extension == extension
              && r.value.path == WithExtension(path, extension)
              && r.value.data == Some(disk.files[WithExtension(path, extension)])
  {
    var probe := new MetadataFile<D>(extension, path, None);
    if probe.path !in disk.files {
      return Failure(MissingFile(path));
    }
    var data := disk.files[probe.path];
    var m := new MetadataFile(extension, path, Some(data));
    r := Success(m);
  }

  // ---------------------------------------------------------------------------
  // Which path the overwrite prompt checks
  // ---------------------------------------------------------------------------

  /** `metadata_path`: `instance.directory.new_file(filename)`, with no extension. */
  function MetadataPath(directory: string, filename: string): (r: string)
    ensures StartsWith(r, directory + "/") && EndsWith(r, filename)
  {
    assert (directory + "/" + filename)[..|directory| + 1] == directory + "/";
    Join(directory, filename)
  }

  /** Where an assignment writes: the metadata path with the extension rule applied. */
  function WrittenPath(directory: string, filename: string, extension: string): (r: string)
    ensures EndsWith(r, extension) && StartsWith(r, MetadataPath(directory, filename))
  {
    WithExtension(MetadataPath(directory, filename), extension)
  }

  /** The path whose existence `__set__` tests, as written: the path without the extension. */
  function CheckedPathAsWritten(directory: string, filename: string, extension: string): string
  {
    MetadataPath(directory, filename)
  }

  /**
   * As written, the prompt can be skipped for a file that exists: with
   * filename "info" and extension "json", "dir/info.json" is overwritten
   * without asking, whatever the user would answer.
   */
  lemma AsWrittenSkipsPrompt()
    ensures var existing := {"dir/info.json"};
            && WrittenPath("dir", "info", "json") in existing
            && CheckedPathAsWritten("dir", "info", "json") !in existing
            && Metadata.WriteDecision(true, CheckedPathAsWritten("dir", "info", "json") in existing, "n") == Success(true)
  {
    assert !EndsWith("dir/info", "json") by {
      assert "dir/info"[4..] == "info";
    }
    assert WrittenPath("dir", "info", "json") == "dir/info.json";
    assert CheckedPathAsWritten("dir", "info", "json") == "dir/info";
  }

  /** The evidently intended check: the path that is written. */
  function CheckedPath(directory: string, filename: string, extension: string): string
  {
    WrittenPath(directory, filename, extension)
  }

  /**
   * With the corrected check, safe overwriting always asks before an existing
   * file is replaced, and writes without asking only to an absent file.
   */
  lemma CorrectedCheckAsks(existing: set<string>, directory: string, filename: string, extension: string, answer: string)
    ensures var exists' := CheckedPath(directory, filename, extension) in existing;
            && (WrittenPath(directory, filename, extension) in existing ==>
                  Metadata.WriteDecision(true, exists', answer) == Experiment.Ask(answer))
            && (WrittenPath(directory, filename, extension) !in existing ==>
                  Metadata.WriteDecision(true, exists', answer) == Success(true))
  {
  }

  /** The two checks agree exactly when the filename already ends with the extension. */
  lemma {:induction false} ChecksAgreeIffExtended(directory: string, filename: string, extension: string)
    ensures CheckedPathAsWritten(directory, filename, extension) == CheckedPath(directory, filename, extension)
            <==> EndsWith(Join(directory, filename), extension)
  {
    var p := Join(directory, filename);
    if !EndsWith(p, extension) {
      assert |WithExtension(p, extension)| == |p| + 1 + |extension|;
    }
  }

  // ---------------------------------------------------------------------------
  // MetadataAttribute
  // ---------------------------------------------------------------------------

  /** An instance carrying the descriptor: its directory and its cached Metadata objects. */
  type Owner<D> = Metadata.Owner<MetadataFile<D>>

  /** What `__get__` returns: the descriptor itself on class access, or the opened object. */
  datatype Access<D> = Descriptor | Opened(file: MetadataFile<D>)

  class MetadataAttribute<D> {
    /** `metadata.metadata_extension` of the Metadata class given. */
    const extension: string
    const filename: string
    const safeOverwrite: bool
    const readOnly: bool
    var name: string

    constructor (extension: string, filename: string, safeOverwrite: bool, readOnly: bool)
      ensures this.extension == extension && this.filename == filename
      ensures this.safeOverwrite == safeOverwrite && this.readOnly == readOnly
      ensures name == ""
    {
      this.extension := extension;
      this.filename := filename;
      this.safeOverwrite := safeOverwrite;
      this.readOnly := readOnly;
      this.name := "";
    }

    /** `__set_name__` */
    method SetName(name: string)
      modifies this
      ensures this.name == name
    {
      this.name := name;
    }

    /** `private_name` */
    function PrivateName(): string
      reads this
    {
      name + "_cached"
    }

    /**
     * The steps of `__set__`, with the path whose existence is tested as a
     * parameter: a read-only attribute only warns. Otherwise a new Metadata
     * object is cached first, then written when the write decision allows it.
     */
    method SetChecking(inst: Owner<D>, disk: Disk<D>, data: D, answer: string, checkedPath: string)
      returns (r: Result<Metadata.SetOutcome, Error>)
      modifies inst, disk
      ensures inst.directory == old(inst.directory)
      ensures readOnly ==> r == Success(Metadata.Warned) && inst.cached == old(inst.cached) && disk.files == old(disk.files)
      ensures !readOnly ==>
                var path := WrittenPath(inst.directory, filename, extension);
                var decision := Metadata.WriteDecision(safeOverwrite, checkedPath in old(disk.files), answer);
                && PrivateName() in inst.cached
                && fresh(inst.cached[PrivateName()])
                && inst.cached == old(inst.cached)[PrivateName() := inst.cached[PrivateName()]]
                && inst.cached[PrivateName()].path == path
                && inst.cached[PrivateName()].data == Some(data)
                && (r.Failure? <==> decision.Failure?)
                && (r.Failure? ==> r.error == decision.error)
                && (r.Success? ==> r.value == Metadata.Cached(decision == Success(true)))
                && disk.files == if decision == Success(true) then old(disk.files)[path := data] else old(disk.files)
    {
      if readOnly {
        return Success(Metadata.Warned);
      }
      var path := MetadataPath(inst.directory, filename);
      var metadata := new MetadataFile(extension, path, Some(data));
      inst.cached := inst.cached[PrivateName() := metadata];
      var write: Result<bool, Error>;
      if safeOverwrite && checkedPath in disk.files {
        write := Experiment.Ask(answer);
        if write.Failure? {
          return Failure(write.error);
        }
      } else {
        write := Success(true);
      }
      if write.value {
        metadata.Write(disk);
      }
      r := Success(Metadata.Cached(write.value));
    }

    /**
     * `__set__` as written: the existence test is on `metadata_path`, the
     * path without the extension, while the object writes to the extended
     * path (see AsWrittenSkipsPrompt).
     */
    method Set(inst: Owner<D>, disk: Disk<D>, data: D, answer: string) returns (r: Result<Metadata.SetOutcome, Error>)
      modifies inst, disk
      ensures inst.directory == old(inst.directory)
      ensures readOnly ==> r == Success(Metadata.Warned) && inst.cached == old(inst.cached) && disk.files == old(disk.files)
      ensures !readOnly ==>
                var path := WrittenPath(inst.directory, filename, extension);
                var decision := Metadata.WriteDecision(safeOverwrite, CheckedPathAsWritten(inst.directory, filename, extension) in old(disk.files), answer);
                && PrivateName() in inst.cached
                && fresh(inst.cached[PrivateName()])
                && inst.cached == old(inst.cached)[PrivateName() := inst.cached[PrivateName()]]
                && inst.cached[PrivateName()].path == path
                && inst.cached[PrivateName()].data == Some(data)
                && (r.Failure? <==> decision.Failure?)
                && (r.Failure? ==> r.error == decision.error)
                && (r.Success? ==> r.value == Metadata.Cached(decision == Success(true)))
                && disk.files == if decision == Success(true) then old(disk.files)[path := data] else old(disk.files)
    {
      r := SetChecking(inst, disk, data, answer, CheckedPathAsWritten(inst.directory, filename, extension));
    }

    /**
     * `__set__` with the evidently intended test: the existence of the path
     * that is written (see CorrectedCheckAsks).
     */
    method SetCorrected(inst: Owner<D>, disk: Disk<D>, data: D, answer: string)
      returns (r: Result<Metadata.SetOutcome, Error>)
      modifies inst, disk
      ensures inst.directory == old(inst.directory)
      ensures readOnly ==> r == Success(Metadata.Warned) && inst.cached == old(inst.cached) && disk.files == old(disk.files)
      ensures !readOnly ==>
                var path := WrittenPath(inst.directory, filename, extension);
                var decision := Metadata.WriteDecision(safeOverwrite, CheckedPath(inst.directory, filename, extension) in old(disk.files), answer);
                && PrivateName() in inst.cached
                && fresh(inst.cached[PrivateName()])
                && inst.cached == old(inst.cached)[PrivateName() := inst.cached[PrivateName()]]
                && inst.cached[PrivateName()].path == path
                && inst.cached[PrivateName()].data == Some(data)
                && (r.Failure? <==> decision.Failure?)
                && (r.Failure? ==> r.error == decision.error)
                && (r.Success? ==> r.value == Metadata.Cached(decision == Success(true)))
                && disk.files == if decision == Success(true) then old(disk.files)[path := data] else old(disk.files)
    {
      r := SetChecking(inst, disk, data, answer, CheckedPath(inst.directory, filename, extension));
    }

    /** `__get__`: class access returns the descriptor; instance access opens and caches the file. */
    method Get(inst: Option<Owner<D>>, disk: Disk<D>) returns (r: Result<Access<D>, Error>)
      modifies if inst.Some? then {inst.value} else {}
      ensures inst.None? ==> r == Success(Descriptor)
      ensures inst.Some? ==>
                var path := MetadataPath(inst.value.directory, filename);
                && inst.value.directory == old(inst.value.directory)
                && (r.Failure? <==> WithExtension(path, extension) !in disk.files)
                && (r.Failure? ==> r.error == MissingFile(path) && inst.value.cached == old(inst.value.cached))
                && (r.Success? ==>
                      && r.value.Opened?
                      && fresh(r.value.file)
                      && r.value.file.path == WithExtension(path, extension)
                      && r.value.file.data == Some(disk.files[WithExtension(path, extension)])
                      && inst.value.cached == old(inst.value.cached)[PrivateName() := r.value.file])
    {
      if inst.None? {
        return Success(Descriptor);
      }
      var owner := inst.value;
      var path := MetadataPath(owner.directory, filename);
      var file := Open(extension, path, disk);
      if file.Failure? {
        return Failure(file.error);
      }
      owner.cached := owner.cached[PrivateName() := file.value];
      r := Success(Opened(file.value));
    }
  }
}
