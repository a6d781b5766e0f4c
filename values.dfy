/** JavaScript values as the handlers see them: optional fields, truthiness,
    template interpolation, the `a || b` defaulting of environment variables,
    and the results of operations that may throw. */
module Values {

  datatype Option<+T> = None | Some(value: T)

  /** The outcome of an operation that either returns or throws. */
  datatype Result<+T, +E> = Ok(value: T) | Err(error: E)

  /** `m[k]` on a plain record or `process.env`: `undefined` when the key is absent. */
  function Lookup(m: map<string, string>, k: string): (r: Option<string>)
    ensures r.Some? <==> k in m
    ensures r.Some? ==> r.value == m[k]
  {
    if k in m then Some(m[k]) else None
  }

  /** A string-or-undefined is truthy in JavaScript when it is present and not "". */
  predicate Truthy(o: Option<string>) {
    o.Some? && o.value != ""
  }

  /** Template interpolation `${x}`: `undefined` prints as the word "undefined". */
  function Interp(o: Option<string>): string {
    if o.Some? then o.value else "undefined"
  }

  /** `process.env[name] || default`: the default replaces a missing AND an empty value. */
  function EnvOr(env: map<string, string>, name: string, default: string): (r: string)
    ensures Truthy(Lookup(env, name)) ==> r == env[name]
    ensures !Truthy(Lookup(env, name)) ==> r == default
  {
    if Truthy(Lookup(env, name)) then env[name] else default
  }
}
