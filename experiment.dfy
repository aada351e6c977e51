/**
 * `Experiment` of exptlib/experiment.py: the yes/no classification of the
 * user's answer, the branches of `Experiment.open` over a set of existing
 * paths, and the `data_directory` property.
 */
module Experiment {
  import opened Wrappers
  import opened Errors
  import opened Paths

  // ---------------------------------------------------------------------------
  // yes_no_question
  // ---------------------------------------------------------------------------

  /** ASCII lower-casing of one character. */
  function LowerChar(c: char): char
  {
    if 'A' <= c <= 'Z' then (c as int + 32) as char else c
  }

  /** `s.lower()`, restricted to ASCII letters. */
  function Lower(s: string): (r: string)
    ensures |r| == |s|
    ensures forall i :: 0 <= i < |s| ==> r[i] == LowerChar(s[i])
  {
    seq(|s|, i requires 0 <= i < |s| => LowerChar(s[i]))
  }

  const DefaultAffirmative: seq<string> := ["y", "yes", "1", "t", "true"]
  const DefaultNegative: seq<string> := ["n", "no", "0", "f", "false"]

  /**
   * The classification of `yes_no_question`, with the answer the user typed
   * as a parameter: affirmative first, then negative, otherwise ValueError.
   */
  function YesNoQuestion(answer: string, affirmative: seq<string>, negative: seq<string>): (r: Result<bool, Error>)
    ensures r == Success(true) <==> Lower(answer) in affirmative
    ensures r == Success(false) <==> Lower(answer) !in affirmative && Lower(answer) in negative
    ensures r.Failure? <==> Lower(answer) !in affirmative && Lower(answer) !in negative
    ensures r.Failure? ==> r.error == InvalidAnswer(affirmative + negative)
  {
    var a := Lower(answer);
    if a in affirmative then Success(true)
    else if a in negative then Success(false)
    else Failure(InvalidAnswer(affirmative + negative))
  }

  /** The question with its default answer lists, as every caller in the core asks it. */
  function Ask(answer: string): Result<bool, Error>
  {
    YesNoQuestion(answer, DefaultAffirmative, DefaultNegative)
  }

  lemma LowerIdempotent(s: string)
    ensures Lower(Lower(s)) == Lower(s)
  {
    forall i | 0 <= i < |s| ensures Lower(Lower(s))[i] == Lower(s)[i] {
      assert LowerChar(LowerChar(s[i])) == LowerChar(s[i]);
    }
  }

  /** Matching ignores case: an answer and its lower-cased form are classified alike. */
  lemma YesNoCaseInsensitive(answer: string, affirmative: seq<string>, negative: seq<string>)
    ensures YesNoQuestion(Lower(answer), affirmative, negative) == YesNoQuestion(answer, affirmative, negative)
  {
    LowerIdempotent(answer);
  }

  /** With overlapping custom lists the affirmative list wins. */
  lemma AffirmativeWins(answer: string, affirmative: seq<string>, negative: seq<string>)
    requires Lower(answer) in affirmative && Lower(answer) in negative
    ensures YesNoQuestion(answer, affirmative, negative) == Success(true)
  {
  }

  /** The default lists are disjoint, so each default answer has exactly one meaning. */
  lemma DefaultListsDisjoint()
    ensures forall i, j :: 0 <= i < |DefaultAffirmative| && 0 <= j < |DefaultNegative| ==>
              DefaultAffirmative[i] != DefaultNegative[j]
    ensures forall i :: 0 <= i < |DefaultNegative| ==> Ask(DefaultNegative[i]) == Success(false)
    ensures forall i :: 0 <= i < |DefaultAffirmative| ==> Ask(DefaultAffirmative[i]) == Success(true)
  {
    forall i | 0 <= i < |DefaultNegative| ensures Ask(DefaultNegative[i]) == Success(false) {
      assert Lower(DefaultNegative[i]) == DefaultNegative[i];
    }
    forall i | 0 <= i < |DefaultAffirmative| ensures Ask(DefaultAffirmative[i]) == Success(true) {
      assert Lower(DefaultAffirmative[i]) == DefaultAffirmative[i];
    }
  }

  lemma AskExamples()
    ensures Ask("YES") == Success(true)
    ensures Ask("No") == Success(false)
    ensures Ask("maybe") == Failure(InvalidAnswer(DefaultAffirmative + DefaultNegative))
  {
    assert Lower("YES") == "yes";
    assert Lower("No") == "no";
    assert Lower("maybe") == "maybe";
  }

  // ---------------------------------------------------------------------------
  // data_directory and the Experiment object
  // ---------------------------------------------------------------------------

  /** A directory argument: None, a string or a Path. */
  datatype DirArg = NoDir | StrDir(s: string) | PathDir(p: string)

  /** Python truthiness: None and the empty string are false; a Path object is always true. */
  predicate Truthy(a: DirArg)
  {
    (a.StrDir? && a.s != "") || a.PathDir?
  }

  function AsPath(a: DirArg): string
    requires !a.NoDir?
  {
    if a.StrDir? then a.s else a.p
  }

  /** What the property stores: a `Directory` around the path, or the falsy argument itself. */
  datatype DataDirectory = Wrapped(path: string) | Unwrapped(arg: DirArg)

  class Experiment {
    var directory: string
    var dataDirectory: DataDirectory

    /** `__init__`: wraps the directory and assigns the data directory through the setter. */
    constructor (directory: string, dataDirectory: DirArg)
      ensures this.directory == directory
      ensures Truthy(dataDirectory) ==> this.dataDirectory == Wrapped(AsPath(dataDirectory))
      ensures !Truthy(dataDirectory) ==> this.dataDirectory == Unwrapped(dataDirectory)
    {
      this.directory := directory;
      this.dataDirectory := Unwrapped(NoDir);
      new;
      SetDataDirectory(dataDirectory);
    }

    /** The `data_directory` setter. */
    method SetDataDirectory(path: DirArg)
      modifies this
      ensures directory == old(directory)
      ensures Truthy(path) ==> dataDirectory == Wrapped(AsPath(path))
      ensures !Truthy(path) ==> dataDirectory == Unwrapped(path)
    {
      if Truthy(path) {
        dataDirectory := Wrapped(AsPath(path));
      } else {
        dataDirectory := Unwrapped(path);
      }
    }
  }

  // ---------------------------------------------------------------------------
  // Experiment.open
  // ---------------------------------------------------------------------------

  /** Whether `open` creates the experiment directory: it is missing, and mkdir or a "yes" allows it. */
  predicate Creates(existing: set<string>, directory: string, mkdir: bool, answer: string)
  {
    directory !in existing && (mkdir || Ask(answer) == Success(true))
  }

  /**
   * The decision `open` makes: the data-directory argument it passes to the
   * constructor, or the exception that ends it.
   */
  function OpenDecision(existing: set<string>, directory: string, dataDirectory: DirArg, mkdir: bool, answer: string)
    : (r: Result<DirArg, Error>)
    ensures directory !in existing && !mkdir && Ask(answer).Failure? ==> r == Failure(Ask(answer).error)
    ensures directory !in existing && !mkdir && Ask(answer) == Success(false) ==> r == Failure(SystemExit)
    ensures r.Failure? && r.error == SystemExit ==> directory !in existing && !mkdir
    ensures (directory in existing || Creates(existing, directory, mkdir, answer)) ==>
              var existing' := existing + {directory};
              && (!Truthy(dataDirectory) ==> r == Success(dataDirectory))
              && (Truthy(dataDirectory) && AsPath(dataDirectory) in existing' ==> r == Success(PathDir(AsPath(dataDirectory))))
              && (Truthy(dataDirectory) && AsPath(dataDirectory) !in existing' ==>
                    var joined := Join(directory, AsPath(dataDirectory));
                    r == if joined in existing' then Success(PathDir(joined))
                         else Failure(MissingDirectory("Data directory " + joined)))
    ensures r.Success? && Truthy(dataDirectory) ==> r.value.PathDir? && r.value.p in existing + {directory}
  {
    var missing := directory !in existing;
    var ret := if missing && !mkdir then Ask(answer) else Success(true);
    if ret.Failure? then Failure(ret.error)
    else if !ret.value then Failure(SystemExit)
    else
      var existing' := existing + {directory};
      if !Truthy(dataDirectory) then Success(dataDirectory)
      else
        var path := AsPath(dataDirectory);
        if path in existing' then Success(PathDir(path))
        else
          var joined := Join(directory, path);
          if joined in existing' then Success(PathDir(joined))
          else Failure(MissingDirectory("Data directory " + joined))
  }

  /** An existing experiment directory is never prompted for: the answer plays no part. */
  lemma OpenExistingIgnoresAnswer(existing: set<string>, directory: string, dataDirectory: DirArg, mkdir: bool,
                                  answer: string, other: string)
    requires directory in existing
    ensures OpenDecision(existing, directory, dataDirectory, mkdir, answer)
            == OpenDecision(existing, directory, dataDirectory, false, other)
  {
  }

  /** The paths that exist on disk. */
  class FileTree {
    var existing: set<string>

    constructor (existing: set<string>)
      ensures this.existing == existing
    {
      this.existing := existing;
    }
  }

  /** `Experiment.open`: may create the experiment directory, then builds the object. */
  method Open(fs: FileTree, directory: string, dataDirectory: DirArg, mkdir: bool, answer: string)
    returns (r: Result<Experiment, Error>)
    modifies fs
    ensures fs.existing == if Creates(old(fs.existing), directory, mkdir, answer) then old(fs.existing) + {directory}
                           else old(fs.existing)
    ensures var d := OpenDecision(old(fs.existing), directory, dataDirectory, mkdir, answer);
      && (r.Success? <==> d.Success?)
      && (r.Failure? ==> r.error == d.error)
      && (r.Success? ==> fresh(r.value) && r.value.directory == directory &&
                         r.value.dataDirectory == if Truthy(d.value) then Wrapped(AsPath(d.value)) else Unwrapped(d.value))
  {
    if directory !in fs.existing {
      var ret: Result<bool, Error> := Success(true);
      if !mkdir {
        ret := Ask(answer);
      }
      if ret.Failure? {
        return Failure(ret.error);
      }
      if !ret.value {
        return Failure(SystemExit);
      }
      fs.existing := fs.existing + {directory};
    }
    var data := dataDirectory;
    if Truthy(data) {
      data := PathDir(AsPath(data));
      if data.p !in fs.existing {
        var joined := Join(directory, data.p);
        if joined !in fs.existing {
          return Failure(MissingDirectory("Data directory " + joined));
        }
        data := PathDir(joined);
      }
    }
    var e := new Experiment(directory, data);
    r := Success(e);
  }
}
