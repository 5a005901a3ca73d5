/** What the hot-reloading runtimes read and write: directories of source files, and modules executed from them. */
module RuntimeFiles {

  /** A directory as a map from entry names to file contents. */
  type Directory = map<string, string>

  datatype Source = Missing | Present(dir: Directory)

  /** A module object; what matters about it is the text it was executed from. */
  datatype Module = Module(text: string)

  datatype LoadResult = Loaded(m: Module) | FileNotFound | ExecutionFailed

  /** The module was executed from the text that the entry has in the directory. */
  predicate IsFrom(m: Module, dir: Directory, entry: string) {
    entry in dir && m == Module(dir[entry])
  }

  /** The entry is not in both directories with the same text. */
  predicate Differs(before: Directory, after: Directory, entry: string) {
    (entry in before) != (entry in after) || (entry in before && before[entry] != after[entry])
  }
}
