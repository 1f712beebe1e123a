/** The host environment the detector and the handler probe: WordPress and Laravel
    global functions, PHP class and constant lookups, and WordPress's action counters.
    Each is an oracle fixed for the duration of a call. */
module Host {
  import opened Wrappers

  /** One query the detector makes of the host, in the order it makes them. */
  datatype Probe =
    | FunctionExists(name: string)  // function_exists($name)
    | ReadConfig(name: string)      // config($name, $default)
    | ApplyFilters(name: string)    // apply_filters($name, $value)
    | ClassExists(name: string)     // class_exists($name)
    | Defined(name: string)         // defined($name)
    | ReadConstant(name: string)    // constant($name)
    | DidAction(name: string)       // did_action($name)

  /** The host environment as a record of oracles.
      - `hasConfig`, `hasApplyFilters`, `hasDidAction`: whether the global functions
        `config`, `apply_filters` and `did_action` exist;
      - `configValue(key)`: the configured string under `key`, `None` when unset;
      - `configFlag(key)`: the configured boolean under `key`, `None` when unset;
      - `filter(hook, value)`: what `apply_filters(hook, value)` returns;
      - `classExists(name)`: whether the class `name` exists;
      - `constantOf(name)`: the value of the constant `name`, `None` when it is undefined;
      - `fireCount(hook)`: how many times the action `hook` has fired. */
  datatype Env = Env(
    hasConfig: bool,
    hasApplyFilters: bool,
    hasDidAction: bool,
    configValue: string -> Option<string>,
    configFlag: string -> Option<bool>,
    filter: (string, string) -> string,
    classExists: string -> bool,
    constantOf: string -> Option<string>,
    fireCount: string -> nat)
}
