/**
 * Values shared by the other modules: 32-bit integers, an optional value,
 * and the platform the factory is compiled for, with the two characters
 * that depend on it.
 */
module Common {

  /** The `int32_t` / `int` fields of the factory and of the descriptor. */
  newtype int32 = x: int | -0x8000_0000 <= x < 0x8000_0000

  datatype Option<T> = None | Some(value: T)

  /**
   * The platforms the factory compiles for. On Windows, `ndebug` says whether
   * the build defines NDEBUG (a release build), which decides which file-name
   * variant is tried first.
   */
  datatype Platform = Linux | MacOS | Windows(ndebug: bool)

  /** PATH_SEPARATOR: placed between a search directory and a file name. */
  function PathSeparator(p: Platform): string
  {
    if p.Windows? then "\\" else "/"
  }

  /** The delimiter between the entries of the plugin-path environment variable. */
  function EnvDelimiter(p: Platform): char
  {
    if p.Windows? then ';' else ':'
  }

  /** The two characters the factory treats as directory separators on every platform. */
  predicate IsSeparator(c: char)
  {
    c == '/' || c == '\\'
  }
}
