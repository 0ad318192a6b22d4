/** Values shared by the daemon model: optional values, the Python exceptions
    that can escape a coroutine, decoded JSON, and the host services whose code
    is not part of this model. */
module Core {

  datatype Option<+T> = None | Some(value: T)

  /** The Python exception classes the modelled code can raise. An exception
      that escapes a handler coroutine is reported to the global error
      callback, which is not part of this model. */
  datatype PyError = KeyError | AttributeError | TypeError | ValueError | IndexError

  /** Either a value, or the exception that was raised instead. */
  datatype Result<+T> = Ok(value: T) | Err(error: PyError)

  /** A JSON value as Python's json module decodes it: `None`, `bool`, `int`,
      `float`, `str`, `list`, `dict`. */
  datatype Value =
    | Null
    | Bool(b: bool)
    | Int(i: int)
    | Float(x: real)
    | Str(s: string)
    | Arr(items: seq<Value>)
    | Obj(fields: map<string, Value>)

  /** `d.get(key)`: the value under `key`, or `None` when the key is absent. */
  function Get(d: map<string, Value>, key: string): Value
  {
    if key in d then d[key] else Null
  }

  /** `d.get(key, default)`. */
  function GetOr(d: map<string, Value>, key: string, default: Value): Value
  {
    if key in d then d[key] else default
  }

  /** The services of the host process that the daemon calls but whose code is
      not modelled; each is an arbitrary total function.
      - tempDir: `tempfile.gettempdir()`
      - server: `daemon_globals.SERVER`
      - join: `os.path.join` of two parts (`join(a, b, c)` is `join(join(a, b), c)`)
      - fileName: `daemon_assets.extract_filename_from_url`, given whatever `.get` returned
      - urlJoin: `urllib.parse.urljoin`
      - show: the text an f-string gives for a JSON value */
  datatype Host = Host(
    tempDir: string,
    server: string,
    join: (string, string) -> string,
    fileName: Value -> string,
    urlJoin: (string, Value) -> string,
    show: Value -> string)
}
