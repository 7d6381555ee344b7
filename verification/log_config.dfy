/** `update_config`: the defaults, updated from a JSON file when one is named. */
module LogConfig {

  import opened Wrappers
  import opened PyValue

  /**
   * What opening and decoding the config file gives. `open` raising
   * `FileNotFoundError` and `json.load` raising `JSONDecodeError` are caught
   * and only logged; any other failure of the open or the read
   * (`IsADirectoryError`, `PermissionError`, `UnicodeDecodeError`) is
   * `Unreadable` and leaves `update_config` uncaught. A decoded file is a
   * JSON object.
   */
  datatype ConfigFile = Missing | NotJson | Unreadable(error: string) | Decoded(update: map<string, Value>)

  /**
   * `path` is `str(config_path)`: the `--config` argument after
   * `pathlib.Path` normalisation, so `./unknown` and `unknown/` also read as
   * `"unknown"`, the value when it was not given. The file is only opened
   * for any other path.
   */
  function UpdateConfig(defaults: map<string, Value>, path: Option<string>, file: ConfigFile)
    : (r: Result<map<string, Value>>)
    ensures r.Failure? <==> path.Some? && path != Some("unknown") && file.Unreadable?
    ensures r.Failure? ==> r.error == file.error
    ensures path.None? || path == Some("unknown") || file.Missing? || file.NotJson? ==> r == Success(defaults)
    ensures path.Some? && path != Some("unknown") && file.Decoded? ==>
      && r.Success?
      && r.value.Keys == defaults.Keys + file.update.Keys
      && (forall k :: k in file.update ==> r.value[k] == file.update[k])
      && (forall k :: k in defaults && k !in file.update ==> r.value[k] == defaults[k])
  {
    if path.None? || path.value == "unknown" then Success(defaults)
    else
      match file
      case Missing => Success(defaults)
      case NotJson => Success(defaults)
      case Unreadable(e) => Failure(e)
      case Decoded(update) => Success(defaults + update)
  }
}
