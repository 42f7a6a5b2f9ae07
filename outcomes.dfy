/** Values shared by every part of the converter model: optional values, the
    errors the converter reports, the outcome of one request, the invocations
    it hands to external programs, and the host (filesystem and subprocesses)
    it talks to. The host is a record of oracles: the model never runs a
    program or touches a disk, it only asks the oracle what happened. */
module Outcomes {

  datatype Option<+T> = None | Some(value: T)

  /** Errors that `anyhow` carries out of `convert_file` and `process_song`. */
  datatype Error =
    | InvalidProfile       // the requested quality is not in the profile table
    | CanonicalizeFailed   // fs::canonicalize refused the input path
    | CreateDirFailed      // fs::create_dir_all failed on the output folder
    | SpawnFailed          // Command::status could not start the program
    | ReadDirFailed        // fs::read_dir failed on the output folder
    | EntryFailed          // one directory entry could not be read
    | RenameFailed         // fs::rename failed
    | PromptFailed         // an interactive prompt was cancelled or failed

  /** What one request comes to: success, an error value, or a panic of an
      `unwrap` (which ends the whole process rather than the request). */
  datatype Outcome = Pass | Fail(error: Error) | Panic

  /** A subprocess invocation: program name and argument vector. */
  datatype Invocation = Invocation(program: string, args: seq<string>)

  /** What Command::status reports: the program did not start, or it exited
      with a success or failure status. */
  datatype Status = NotStarted | Exited(success: bool)

  /** One entry of fs::read_dir: its file name, or an entry that failed. */
  datatype DirEntry = Named(name: string) | Unreadable

  /** The actions the converter attempts, in the order it attempts them. */
  datatype Effect =
    | MakeDirs(path: string)             // fs::create_dir_all
    | Run(invocation: Invocation)        // Command::status
    | Move(from: string, to: string)     // fs::rename
    | Report(path: string, error: Error) // eprintln! in the batch loop

  /** The host the converter runs on, as oracles. Each answer depends only on
      the question asked. */
  datatype Host = Host(
    canonicalize: string -> Option<string>,
    createDirAll: string -> bool,
    status: Invocation -> Status,
    readDir: string -> Option<seq<DirEntry>>,
    rename: (string, string) -> bool)
}
