/** The on-disk dump as data. Every filesystem call of the program becomes a lookup in a
    `Fs` value: `read_dir` in `listings`, `Path::exists` in `existing`, `read_to_string` in
    `contents`, and `serde_json::from_str` in `parsed` (keyed by the text that was read). */
module Snapshot {
  import opened Wrappers
  import Json
  import Strings
  import opened Errors

  /** One entry yielded by `read_dir`: its file name and whether it is a directory. */
  datatype DirEntry = DirEntry(name: string, isDir: bool)

  datatype Fs = Fs(
    listings: map<string, seq<DirEntry>>,  // directories `read_dir` can open, entries in enumeration order
    existing: set<string>,                 // paths for which `exists()` holds
    contents: map<string, string>,         // files `read_to_string` can read
    parsed: map<string, Json.Value>        // texts that parse as JSON, with their value
  )

  /** The snapshot root every path starts from. */
  const Root: string := "output"

  /** `Path::join` / `format!("{}/{}", dir, name)`. */
  function Join(dir: string, name: string): string {
    dir + "/" + name
  }

  /** `output/<namespace>`. */
  function NamespaceDir(namespace: string): string {
    Join(Root, namespace)
  }

  predicate Exists(fs: Fs, path: string) {
    path in fs.existing
  }

  function ReadDir(fs: Fs, path: string): Result<seq<DirEntry>, AppError> {
    if path in fs.listings then Ok(fs.listings[path]) else Err(IoError("cannot read directory " + path))
  }

  function ReadToString(fs: Fs, path: string): Result<string, AppError> {
    if path in fs.contents then Ok(fs.contents[path]) else Err(IoError("cannot read " + path))
  }

  function ParseJson(fs: Fs, text: string): Result<Json.Value, AppError> {
    if text in fs.parsed then Ok(fs.parsed[text]) else Err(JsonError("not valid JSON"))
  }

  /** `Path::extension` of a file name: the text after the last dot, unless that dot is the
      first character (a hidden file) or there is no dot at all. */
  function Extension(name: string): Option<string> {
    var dot := Strings.LastIndexOfChar(name, '.');
    if dot.Some? && dot.value > 0 then Some(name[dot.value + 1..]) else None
  }

  /** `Path::file_stem`: the name without its extension. */
  function FileStem(name: string): string {
    var dot := Strings.LastIndexOfChar(name, '.');
    if dot.Some? && dot.value > 0 then name[..dot.value] else name
  }

  /** Stem, a dot and the extension give back the name. */
  lemma StemAndExtension(name: string)
    ensures Extension(name).Some? ==> name == FileStem(name) + "." + Extension(name).value
    ensures Extension(name).None? ==> FileStem(name) == name
  {
    var dot := Strings.LastIndexOfChar(name, '.');
    if dot.Some? && dot.value > 0 {
      assert name == name[..dot.value] + [name[dot.value]] + name[dot.value + 1..];
    }
  }
}
