/** Option and Result, used wherever the Python code returns None or raises. */
module Wrappers {

  datatype Option<+T> = None | Some(value: T)

  datatype Result<+T, +E> = Success(value: T) | Failure(error: E)
}

/** The exceptions the modelled code raises, one constructor per cause. */
module Errors {

  datatype Error =
    | InvalidAnswer(recognised: seq<string>)  // ValueError from yes_no_question: the accepted answers
    | MissingDirectory(description: string)   // ValueError "<description> does not exist!"
    | MissingFile(path: string)               // FileNotFoundError for a metadata path
    | WrongType                               // TypeError: `data_directory` must be str or Path
    | NotCallable                             // TypeError: a reader that is None was called
    | MissingAttribute(name: string)          // AttributeError from getattr without a default
    | AssertionFailed                         // AssertionError
    | SystemExit                              // sys.exit() after the user declined
}

/** Python values as the pipeline and the descriptors see them. */
module Values {

  datatype Val =
    | Int(i: int)
    | Str(s: string)
    | Tuple(items: seq<Val>)
    | List(items: seq<Val>)
}

/** The few path operations the core relies on, over paths written as strings. */
module Paths {

  /** `Path(directory).joinpath(name)`, for a relative name. */
  function Join(directory: string, name: string): string
  {
    directory + "/" + name
  }

  /** `s.endswith(suffix)` */
  predicate EndsWith(s: string, suffix: string)
  {
    |suffix| <= |s| && s[|s| - |suffix|..] == suffix
  }

  /** `s.startswith(prefix)` */
  predicate StartsWith(s: string, prefix: string)
  {
    |prefix| <= |s| && s[..|prefix|] == prefix
  }
}
