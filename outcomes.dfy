/** Results and errors shared by every module of the interfaces manager. */
module Outcomes {

  datatype Option<+T> = None | Some(value: T) {
    function GetOr(default: T): T {
      match this
      case Some(v) => v
      case None => default
    }
  }

  /** The exceptions the manager raises, one constructor per distinct cause. */
  datatype Error =
    | NotInStanza                             // an option line with no open block
    | MissingToken(line: string)              // an opener with no second token (IndexError)
    | MissingKey(key: string)                 // a dictionary lookup or pop of an absent key (KeyError)
    | Unhashable(key: string)                 // a list value used as a dictionary key (TypeError)
    | NotConcatenable(entry: string)          // a bare string entry added to a tuple (TypeError)
    | NoSuchFile(path: string)                // os.stat or os.unlink on a missing path (OSError)
    | NotOwned(path: string)                  // a snapshot owned by another user: possible hijack
    | CommandFailed(retcode: int, stderr: string) // a shell command with a non-zero exit status

  datatype Result<+T> = Ok(value: T) | Err(error: Error) {
    predicate IsFailure() { Err? }

    function PropagateFailure<U>(): Result<U>
      requires Err?
    {
      Err(error)
    }

    function Extract(): T
      requires Ok?
    {
      value
    }
  }
}
