/** The failures the updater reports, one variant per failure this model covers. */
module Errors {
  /** Why `env::var` failed: the variable is not set, or its value is not valid Unicode. */
  datatype VarError = NotPresent | NotUnicode

  datatype Error =
    | EnvVarFailed(name: string, cause: VarError)  // "Failed to get APPDATA" / HOMEDRIVE / HOMEPATH
    | InvalidChoice                 // "User made an invalid choice"
    | CapacityOverflow              // the panic of `Vec::with_capacity` for a size above isize::MAX
    | ChunkReadFailed               // "Failed to read chunk during download"
    | ReadDirFailed                 // "Failed to read directory"
    | ReadEntryFailed               // "Failed to read entry"
    | RemoveDirFailed(entry: string)  // "Failed to remove directory: .."
    | RemoveFileFailed(entry: string) // "Failed to remove file: .."
}
