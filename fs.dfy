/** The file-system snapshot the script reads: which directories exist and what
    they list, and the descriptor each element file holds. Paths are plain
    strings built with `Join`. */
module Fs {

  datatype Option<T> = None | Some(value: T)

  /** The outcome of a step that reads the file system: a value, or the path whose
      `fs.readdirSync` threw (the directory does not exist). */
  datatype Result<T> = Ok(value: T) | Thrown(path: string)

  /** `dirs` maps the path of every readable directory to its listing;
      `descriptor` gives, for the path of an element file, the element
      descriptor nested in its JSON content (`Content.Content.ObjectData`). */
  datatype FileSystem<V> = FileSystem(dirs: map<string, seq<string>>, descriptor: string -> V)

  /** `path.join(a, b)` for a directory path and a plain entry name. */
  function Join(a: string, b: string): string
  {
    a + "/" + b
  }

  /** `fs.readdirSync(path)` */
  function ReadDir<V>(fsys: FileSystem<V>, path: string): Result<seq<string>>
  {
    if path in fsys.dirs then Ok(fsys.dirs[path]) else Thrown(path)
  }
}
