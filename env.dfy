/** The process environment as a value: `std::env::var` reads it and
    `std::env::set_var` and dotenv loading produce a new one. */
module Env {
  import opened Wrappers

  type Environment = map<string, string>

  /** `std::env::var(name)`, with `Err` as `None`. */
  function Var(env: Environment, name: string): (r: Option<string>)
    ensures r.Some? <==> name in env
    ensures r.Some? ==> r.value == env[name]
  {
    if name in env then Some(env[name]) else None
  }

  /** dotenv's loading of a file: a variable already set keeps its value;
      the file only adds variables that were absent. */
  function LoadFile(env: Environment, file: Environment): (r: Environment)
    ensures r.Keys == env.Keys + file.Keys
    ensures forall k :: k in env ==> r[k] == env[k]
    ensures forall k :: k in file && k !in env ==> r[k] == file[k]
  {
    map k | k in env.Keys + file.Keys :: if k in env then env[k] else file[k]
  }
}
