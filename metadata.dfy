/**
 * The metadata descriptor of exptlib/metadata.py: `_IO` bundles a data type,
 * a normalised file extension, a reader and an optional writer; `Metadata`
 * is a descriptor that reads a file on access, caches what it read on the
 * instance, and on assignment caches the data and then writes it, asking the
 * user first when the file exists and safe overwriting is on.
 *
 * Files are a map from path to the data stored there: a writer stores the
 * data it is given and a reader returns it, so serialisation is not modelled.
 */
module Metadata {
  import opened Wrappers
  import opened Errors
  import Experiment

  // ---------------------------------------------------------------------------
  // The extension rule: "." + ext.strip(".")
  // ---------------------------------------------------------------------------

  /** `s.lstrip(".")` */
  function LStripDots(s: string): (r: string)
    ensures |r| <= |s| && r == s[|s| - |r|..]
    ensures forall k :: 0 <= k < |s| - |r| ==> s[k] == '.'
    ensures |r| > 0 ==> r[0] != '.'
    decreases |s|
  {
    if |s| > 0 && s[0] == '.' then LStripDots(s[1..]) else s
  }

  /** `s.rstrip(".")` */
  function RStripDots(s: string): (r: string)
    ensures |r| <= |s| && r == s[..|r|]
    ensures forall k :: |r| <= k < |s| ==> s[k] == '.'
    ensures |r| > 0 ==> r[|r| - 1] != '.'
    decreases |s|
  {
    if |s| > 0 && s[|s| - 1] == '.' then RStripDots(s[..|s| - 1]) else s
  }

  /** `s.strip(".")`: `s` without its leading and trailing dots. */
  function StripDots(s: string): (r: string)
    ensures |r| > 0 ==> r[0] != '.' && r[|r| - 1] != '.'
    ensures forall k :: 0 <= k < |s| && s[k] != '.' ==> |r| > 0
  {
    RStripDots(LStripDots(s))
  }

  /** The extension `_IO` keeps: one leading dot before the stripped extension. */
  function Extension(ext: string): (r: string)
    ensures |r| > 0 && r[0] == '.'
    ensures |r| > 1 ==> r[1] != '.' && r[|r| - 1] != '.'
  {
    "." + StripDots(ext)
  }

  /** Text that neither starts nor ends with a dot is left alone by the strip. */
  lemma StripKeepsClean(s: string)
    requires |s| > 0 ==> s[0] != '.' && s[|s| - 1] != '.'
    ensures StripDots(s) == s
  {
  }

  lemma LStripDropsLeadingDot(s: string)
    ensures LStripDots("." + s) == LStripDots(s)
  {
    assert ("." + s)[1..] == s;
  }

  lemma RStripDropsTrailingDot(s: string)
    ensures RStripDots(s + ".") == RStripDots(s)
  {
    assert (s + ".")[..|s|] == s;
  }

  /** Left-stripping passes a trailing dot through, unless nothing but dots is left. */
  lemma {:induction false} LStripTrailingDot(s: string)
    ensures LStripDots(s + ".") == LStripDots(s) + "." || (LStripDots(s) == "" && LStripDots(s + ".") == "")
    decreases |s|
  {
    if |s| == 0 {
      assert LStripDots(".") == LStripDots("."[1..]);
    } else if s[0] == '.' {
      assert (s + ".")[1..] == s[1..] + ".";
      LStripTrailingDot(s[1..]);
    }
  }

  /** A leading or a trailing dot makes no difference to the strip. */
  lemma StripIgnoresEdgeDots(s: string)
    ensures StripDots("." + s) == StripDots(s)
    ensures StripDots(s + ".") == StripDots(s)
  {
    LStripDropsLeadingDot(s);
    LStripTrailingDot(s);
    RStripDropsTrailingDot(LStripDots(s));
  }

  /** Normalising an extension twice gives the same extension as normalising it once. */
  lemma ExtensionIdempotent(ext: string)
    ensures Extension(Extension(ext)) == Extension(ext)
  {
    StripIgnoresEdgeDots(StripDots(ext));
    StripKeepsClean(StripDots(ext));
  }

  lemma ExtensionExamples()
    ensures Extension("json") == ".json"
    ensures Extension(".json") == ".json"
    ensures Extension("json.") == ".json"
    ensures Extension("") == "."
  {
    StripKeepsClean("json");
    StripIgnoresEdgeDots("json");
  }

  // ---------------------------------------------------------------------------
  // Files and the objects that own the descriptors
  // ---------------------------------------------------------------------------

  /** The files on disk, each with the data last written there. */
  class Disk<D> {
    var files: map<string, D>

    constructor (files: map<string, D>)
      ensures this.files == files
    {
      this.files := files;
    }
  }

  /**
   * An instance of a class carrying a descriptor: its directory and what the
   * descriptors cached on it, under their private names.
   */
  class Owner<C> {
    var directory: string
    var cached: map<string, C>

    /** A fresh instance caches nothing yet. */
    constructor (directory: string)
      ensures this.directory == directory && cached == map[]
    {
      this.directory := directory;
      this.cached := map[];
    }
  }

  /**
   * How an assignment through a metadata descriptor ends when it raises
   * nothing: read-only metadata only warns; otherwise the value was cached,
   * and `written` says whether the file was written as well.
   */
  datatype SetOutcome = Warned | Cached(written: bool)

  // ---------------------------------------------------------------------------
  // _IO
  // ---------------------------------------------------------------------------

  class IO<D> {
    /** `isinstance(data, dtype)` */
    const isInstance: D -> bool
    /** `dtype(data)` */
    const convert: D -> D
    const extension: string
    /** Whether the reader is a callable rather than None. */
    const hasReader: bool
    /** Whether the writer is a callable rather than None. */
    var hasWriter: bool
    /** `Path(directory.joinpath(filename)).with_suffix(extension)` */
    const getPath: (string, string) -> string

    constructor (isInstance: D -> bool, convert: D -> D, extension: string, hasReader: bool, hasWriter: bool,
                 getPath: (string, string) -> string)
      ensures this.isInstance == isInstance && this.convert == convert && this.getPath == getPath
      ensures this.extension == Extension(extension)
      ensures this.hasReader == hasReader && this.hasWriter == hasWriter
    {
      this.isInstance := isInstance;
      this.convert := convert;
      this.extension := Extension(extension);
      this.hasReader := hasReader;
      this.hasWriter := hasWriter;
      this.getPath := getPath;
    }

    /** `read_only`: there is no writer. */
    predicate ReadOnly()
      reads this
    {
      !hasWriter
    }

    /** `validate_type`: data of the right type is kept as it is, anything else is converted. */
    function ValidateType(data: D): (r: D)
      ensures isInstance(data) ==> r == data
      ensures !isInstance(data) ==> r == convert(data)
    {
      if isInstance(data) then data else convert(data)
    }

    /** `read`: the reader's result, validated; a missing reader is not callable. */
    method Read(disk: Disk<D>, path: string) returns (r: Result<D, Error>)
      ensures !hasReader ==> r == Failure(NotCallable)
      ensures hasReader && path !in disk.files ==> r == Failure(MissingFile(path))
      ensures hasReader && path in disk.files ==> r == Success(ValidateType(disk.files[path]))
    {
      if !hasReader {
        return Failure(NotCallable);
      }
      if path !in disk.files {
        return Failure(MissingFile(path));
      }
      r := Success(ValidateType(disk.files[path]));
    }

    /** `write`: nothing happens and False is returned when read-only; otherwise the writer runs once. */
    method Write(data: D, path: string, disk: Disk<D>) returns (written: bool)
      modifies disk
      ensures written == !ReadOnly()
      ensures disk.files == if written then old(disk.files)[path := data] else old(disk.files)
    {
      if ReadOnly() {
        return false;
      }
      disk.files := disk.files[path := data];
      written := true;
    }
  }

  /** When conversion always yields the data type, validated data has it and validating again changes nothing. */
  lemma ValidateTypeIdempotent<D>(io: IO<D>, data: D)
    requires forall x :: io.isInstance(io.convert(x))
    ensures io.isInstance(io.ValidateType(data))
    ensures io.ValidateType(io.ValidateType(data)) == io.ValidateType(data)
  {
  }

  // ---------------------------------------------------------------------------
  // The write decision shared by both metadata descriptors
  // ---------------------------------------------------------------------------

  /**
   * Whether an assignment writes: without safe overwriting, or when the file
   * is absent, it always does; otherwise the user is asked and an invalid
   * answer raises.
   */
  function WriteDecision(safeOverwrite: bool, fileExists: bool, answer: string): (r: Result<bool, Error>)
    ensures r == Success(true) <==> !(safeOverwrite && fileExists) || Experiment.Ask(answer) == Success(true)
    ensures r == Success(false) <==> safeOverwrite && fileExists && Experiment.Ask(answer) == Success(false)
    ensures r.Failure? <==> safeOverwrite && fileExists && Experiment.Ask(answer).Failure?
  {
    if safeOverwrite && fileExists then Experiment.Ask(answer) else Success(true)
  }

  /** An existing file is never replaced without a "yes" while safe overwriting is on. */
  lemma SafeOverwriteNeedsYes(fileExists: bool, answer: string)
    requires fileExists
    ensures WriteDecision(true, fileExists, answer) == Success(true) ==> Experiment.Lower(answer) in Experiment.DefaultAffirmative
  {
  }

  // ---------------------------------------------------------------------------
  // Metadata
  // ---------------------------------------------------------------------------

  /** What `__get__` returns: the descriptor itself on class access, or the data read. */
  datatype Access<D> = Descriptor | Data(value: D)

  class Metadata<D> {
    const filename: string
    const io: IO<D>
    const safeOverwrite: bool
    var name: string

    /**
     * `__init__`, from the class attributes `dtype`, `extension`, `reader`
     * and `writer`; `set_read_only` drops the writer.
     */
    constructor (filename: string, isInstance: D -> bool, convert: D -> D, extension: string, hasReader: bool,
                 hasWriter: bool, getPath: (string, string) -> string, setReadOnly: bool, safeOverwrite: bool)
      ensures this.filename == filename && this.safeOverwrite == safeOverwrite
      ensures fresh(io)
      ensures io.isInstance == isInstance && io.convert == convert && io.getPath == getPath
      ensures io.extension == Extension(extension) && io.hasReader == hasReader
      ensures io.ReadOnly() <==> !hasWriter || setReadOnly
      ensures name == ""
    {
      this.filename := filename;
      var inner := new IO(isInstance, convert, extension, hasReader, hasWriter, getPath);
      this.io := inner;
      this.safeOverwrite := safeOverwrite;
      this.name := "";
      new;
      if setReadOnly {
        inner.hasWriter := false;
      }
    }

    /** `read_only` */
    predicate ReadOnly()
      reads this, io
    {
      io.ReadOnly()
    }

    /** `__set_name__` */
    method SetName(name: string)
      modifies this
      ensures this.name == name
    {
      this.name := name;
    }

    /** `private_name`: where the instance caches the data. */
    function PrivateName(): string
      reads this
    {
      name + "_cached"
    }

    /** The path of the file for one instance. */
    function PathFor(inst: Owner<D>): string
      reads this, inst
    {
      io.getPath(inst.directory, filename)
    }

    /**
     * `__get__`: class access returns the descriptor; instance access raises
     * FileNotFoundError for a missing file, otherwise reads, caches and
     * returns the data.
     */
    method Get(inst: Option<Owner<D>>, disk: Disk<D>) returns (r: Result<Access<D>, Error>)
      modifies if inst.Some? then {inst.value} else {}
      ensures inst.None? ==> r == Success(Descriptor)
      ensures inst.Some? ==>
                var path := PathFor(inst.value);
                && inst.value.directory == old(inst.value.directory)
                && (path !in disk.files ==> r == Failure(MissingFile(path)))
                && (path in disk.files && !io.hasReader ==> r == Failure(NotCallable))
                && (r.Failure? ==> inst.value.cached == old(inst.value.cached))
                && (path in disk.files && io.hasReader ==>
                      var data := io.ValidateType(disk.files[path]);
                      r == Success(Data(data)) && inst.value.cached == old(inst.value.cached)[PrivateName() := data])
    {
      if inst.None? {
        return Success(Descriptor);
      }
      var owner := inst.value;
      var path := io.getPath(owner.directory, filename);
      if path !in disk.files {
        return Failure(MissingFile(path));
      }
      var data := io.Read(disk, path);
      if data.Failure? {
        return Failure(data.error);
      }
      owner.cached := owner.cached[PrivateName() := data.value];
      r := Success(Data(data.value));
    }

    /**
     * `__set__`: read-only metadata only warns; otherwise the validated data
     * is cached first, then written when the write decision allows it.
     */
    method Set(inst: Owner<D>, disk: Disk<D>, data: D, answer: string) returns (r: Result<SetOutcome, Error>)
      modifies inst, disk
      ensures inst.directory == old(inst.directory)
      ensures ReadOnly() ==> r == Success(Warned) && inst.cached == old(inst.cached) && disk.files == old(disk.files)
      ensures !ReadOnly() ==>
                var path := PathFor(inst);
                var decision := WriteDecision(safeOverwrite, path in old(disk.files), answer);
                && inst.cached == old(inst.cached)[PrivateName() := io.ValidateType(data)]
                && (r.Failure? <==> decision.Failure?)
                && (r.Failure? ==> r.error == decision.error)
                && (r.Success? ==> r.value == Cached(decision == Success(true)))
                && disk.files == if decision == Success(true) then old(disk.files)[path := io.ValidateType(data)]
                                 else old(disk.files)
    {
      if ReadOnly() {
        return Success(Warned);
      }
      var path := io.getPath(inst.directory, filename);
      var validated := io.ValidateType(data);
      inst.cached := inst.cached[PrivateName() := validated];
      var write: Result<bool, Error>;
      if safeOverwrite && path in disk.files {
        write := Experiment.Ask(answer);
        if write.Failure? {
          return Failure(write.error);
        }
      } else {
        write := Success(true);
      }
      if write.value {
        var written := io.Write(validated, path, disk);
      }
      r := Success(Cached(write.value));
    }
  }
}
