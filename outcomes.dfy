/** Optional values, the exceptions the staging scripts raise, and the
    results and outcomes that carry them. */
module Outcomes {
  import opened Paths

  datatype Option<+T> = None | Some(value: T)

  /** One constructor per exception the modelled code raises, either itself
      or through the filesystem calls it makes. */
  datatype Error =
    | OSIsUnknown(system: string)
    | BlenderScriptsDirUnknown(searchRoot: Path)
    | BlenderModuleNotFound(searchPath: Path)
    | VisualStudioMissing
    | BuildDirNotFound
    | VersionTooLow(version: string, minimum: string)
    | IncompatibleVersion(version: string)
    | OptixSdkUnknown
    | IndexOutOfRange
    | FileNotFound(path: Path)
    | FileExists(path: Path)
    | NotADirectory(path: Path)
    | IsADirectory(path: Path)
    | SameFile(path: Path)
    | DestinationExists(path: Path)
    | MoveIntoItself(src: Path, dst: Path)
    | RootNotRemovable
    | RecursionLimit
    | NameUnbound(name: string)

  /** The exceptions the os and shutil calls raise (OSError and shutil.Error). */
  predicate IsFileSystemError(e: Error)
  {
    e.FileNotFound? || e.FileExists? || e.NotADirectory? || e.IsADirectory?
    || e.SameFile? || e.DestinationExists? || e.MoveIntoItself? || e.RootNotRemovable?
  }

  datatype Result<+T> = Ok(value: T) | Err(error: Error) {
    predicate IsFailure()
    {
      Err?
    }

    function PropagateFailure<U>(): Result<U>
      requires Err?
    {
      Err(error)
    }

    function Extract(): T
      requires Ok?
    {
      value
    }
  }

  /** The result of a call that returns nothing but may raise. */
  datatype Outcome = Pass | Fail(error: Error)
}
