/** Python dictionaries with string values, as the scripts use them for
    tasks and issues, and the exceptions the modelled code can raise. */
module Records {
  import opened Wrappers

  /** A JSON-like task or issue record (`{"type": ..., "file": ..., ...}`). */
  type Dict = map<string, string>

  /** Python's `d.get(key, default)`. */
  function Get(d: Dict, key: string, default: string): string
  {
    if key in d then d[key] else default
  }

  /** Python's `d.get(key)`: None when the key is missing. */
  function Lookup(d: Dict, key: string): Option<string>
  {
    if key in d then Some(d[key]) else None
  }

  /** What a call into an external service (a model, a backend, the file
      system) produced: the exception it raised, or the value it returned. */
  datatype Reply<+T> = Raised(message: string) | Returned(value: T)

  /** The Python exceptions that reach the modelled code paths. */
  datatype Error =
    | TypeError(message: string)
    | KeyError(key: string)
    | RuntimeError(message: string)
}
