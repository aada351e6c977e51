/**
 * The older `Experiment` of build/lib/exptlib/experiment.py: the constructor
 * checks the experiment directory, resolves the data directory (a string is
 * tried as given and then inside the experiment directory; a Path must exist
 * as given; anything else is a TypeError) and names its metadata file;
 * `new_file` names a file inside the experiment directory.
 */
module LegacyExperiment {
  import opened Wrappers
  import opened Errors
  import opened Paths
  import Current = Experiment

  /** The `data_directory` argument: a string, a Path, or a value of any other type. */
  datatype DataArg = StrArg(s: string) | PathArg(p: string) | OtherArg

  /** The three attributes `__init__` assigns. */
  datatype Layout = Layout(directory: string, dataDirectory: string, metadataPath: string)

  const MetadataName: string := "metadata.json"

  /**
   * What `__init__` computes over the set of existing paths: the layout, or
   * the exception raised. The first check is the experiment directory; the
   * string branch carries the stray ")" its message has in the source.
   */
  function Resolve(existing: set<string>, directory: string, dataDirectory: DataArg): (r: Result<Layout, Error>)
    ensures directory !in existing ==> r == Failure(MissingDirectory("Experiment directory " + directory))
    ensures directory in existing && dataDirectory.OtherArg? ==> r == Failure(WrongType)
    ensures directory in existing && dataDirectory.StrArg? ==>
              var s := dataDirectory.s;
              && (r.Success? <==> s in existing || Join(directory, s) in existing)
              && (s in existing ==> r.Success? && r.value.dataDirectory == s)
              && (s !in existing && r.Success? ==> r.value.dataDirectory == Join(directory, s))
              && (r.Failure? ==> r.error == MissingDirectory("Data directory " + s + ")"))
    ensures directory in existing && dataDirectory.PathArg? ==>
              var p := dataDirectory.p;
              && (r.Success? <==> p in existing)
              && (r.Success? ==> r.value.dataDirectory == p)
              && (r.Failure? ==> r.error == MissingDirectory("Data directory " + p))
    ensures r.Success? ==>
              && r.value.directory == directory
              && directory in existing
              && r.value.dataDirectory in existing
              && r.value.metadataPath == Join(directory, MetadataName)
  {
    if directory !in existing then Failure(MissingDirectory("Experiment directory " + directory))
    else
      var data :=
        match dataDirectory
        case StrArg(s) =>
          if s in existing then Success(s)
          else if Join(directory, s) in existing then Success(Join(directory, s))
          else Failure(MissingDirectory("Data directory " + s + ")"))
        case PathArg(p) =>
          if p in existing then Success(p) else Failure(MissingDirectory("Data directory " + p))
        case OtherArg => Failure(WrongType);
      if data.Failure? then Failure(data.error)
      else Success(Layout(directory, data.value, Join(directory, MetadataName)))
  }

  /** A layout never depends on paths outside the ones it names: adding others changes nothing. */
  lemma ResolveStableUnderNewPaths(existing: set<string>, more: set<string>, directory: string, dataDirectory: DataArg)
    requires Resolve(existing, directory, dataDirectory).Success?
    requires dataDirectory.StrArg? ==> dataDirectory.s in existing || dataDirectory.s !in more
    ensures Resolve(existing + more, directory, dataDirectory) == Resolve(existing, directory, dataDirectory)
  {
  }

  class Experiment {
    var directory: string
    var dataDirectory: string
    var metadataPath: string

    constructor (layout: Layout)
      ensures directory == layout.directory
      ensures dataDirectory == layout.dataDirectory
      ensures metadataPath == layout.metadataPath
    {
      directory := layout.directory;
      dataDirectory := layout.dataDirectory;
      metadataPath := layout.metadataPath;
    }
  }

  /** `Experiment(directory, data_directory)`: the object, or the exception its constructor raises. */
  method New(existing: set<string>, directory: string, dataDirectory: DataArg) returns (r: Result<Experiment, Error>)
    ensures r.Success? <==> Resolve(existing, directory, dataDirectory).Success?
    ensures r.Failure? ==> r.error == Resolve(existing, directory, dataDirectory).error
    ensures r.Success? ==>
              var layout := Resolve(existing, directory, dataDirectory).value;
              && fresh(r.value)
              && r.value.directory == layout.directory
              && r.value.dataDirectory == layout.dataDirectory
              && r.value.metadataPath == layout.metadataPath
  {
    if directory !in existing {
      return Failure(MissingDirectory("Experiment directory " + directory));
    }
    var data: string;
    match dataDirectory {
      case StrArg(s) =>
        data := s;
        if data !in existing {
          data := Join(directory, s);
          if data !in existing {
            return Failure(MissingDirectory("Data directory " + s + ")"));
          }
        }
      case PathArg(p) =>
        data := p;
        if data !in existing {
          return Failure(MissingDirectory("Data directory " + p));
        }
      case OtherArg =>
        return Failure(WrongType);
    }
    var e := new Experiment(Layout(directory, data, Join(directory, MetadataName)));
    r := Success(e);
  }

  /** Python truthiness of the optional extension: None and "" are false. */
  predicate HasExtension(ext: Option<string>)
  {
    ext.Some? && ext.value != ""
  }

  /** `new_file(name, ext)`: the path of `name`, with `"." + ext` when an extension is given. */
  function NewFile(directory: string, name: string, ext: Option<string>): (r: string)
    ensures StartsWith(r, directory + "/")
    ensures HasExtension(ext) ==> EndsWith(r, "." + ext.value)
    ensures |r| == |directory| + 1 + |name| + (if HasExtension(ext) then 1 + |ext.value| else 0)
  {
    Join(directory, if HasExtension(ext) then name + "." + ext.value else name)
  }

  /** Giving the extension separately is the same as writing it into the name. */
  lemma NewFileExtensionInName(directory: string, name: string, ext: string)
    requires ext != ""
    ensures NewFile(directory, name, Some(ext)) == NewFile(directory, name + "." + ext, None)
    ensures NewFile(directory, name, Some("")) == NewFile(directory, name, None)
  {
    assert directory + "/" + (name + "." + ext) == directory + "/" + name + "." + ext;
  }

  /** Within one directory and with one extension, different names give different files. */
  lemma {:induction false} NewFileNaming(directory: string, name1: string, name2: string, ext: Option<string>)
    requires NewFile(directory, name1, ext) == NewFile(directory, name2, ext)
    ensures name1 == name2
  {
    var r := NewFile(directory, name1, ext);
    var k := |directory| + 1;
    assert |name1| == |name2|;
    var stem1 := if HasExtension(ext) then name1 + "." + ext.value else name1;
    var stem2 := if HasExtension(ext) then name2 + "." + ext.value else name2;
    assert r == (directory + "/") + stem1 == (directory + "/") + stem2;
    assert r[k..] == stem1 && r[k..] == stem2;
    assert stem1[..|name1|] == name1;
    assert stem2[..|name2|] == name2;
  }

  /** The older `yes_no_question`'s default answer lists. */
  const LegacyAffirmative: seq<string> := ["y", "yes", "1", "t", "true"]
  const LegacyNegative: seq<string> := ["n", "no", "0", "f", "false"]

  /**
   * The older `yes_no_question` follows the same rules as the current one:
   * same defaults, so the same classification, and case never matters.
   */
  lemma LegacyQuestion(answer: string)
    ensures Current.YesNoQuestion(answer, LegacyAffirmative, LegacyNegative) == Current.Ask(answer)
    ensures Current.YesNoQuestion(answer, LegacyAffirmative, LegacyNegative)
            == Current.YesNoQuestion(Current.Lower(answer), LegacyAffirmative, LegacyNegative)
  {
    Current.YesNoCaseInsensitive(answer, LegacyAffirmative, LegacyNegative);
  }
}
