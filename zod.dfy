/** The part of zod's parsing behaviour the schemas rely on: each failed
    check adds an issue with a path and a message, the issues of an object
    come in the order of its fields, and `parse` succeeds only when there is
    none. */
module Zod {

  /** A `ZodIssue`, less its code. */
  datatype Issue = Issue(path: seq<string>, message: string)

  /** The outcome of `schema.parse(value)`: the value, or the `ZodError`
      thrown with its issues. */
  datatype Parsed<T> = Parsed(value: T) | ZodError(issues: seq<Issue>)

  /** One check on one field. */
  function Check(ok: bool, field: string, message: string): (r: seq<Issue>)
    ensures ok <==> r == []
    ensures !ok ==> r == [Issue([field], message)]
  {
    if ok then [] else [Issue([field], message)]
  }

  /** `parse`: the value when no check failed. */
  function Parse<T>(value: T, issues: seq<Issue>): (r: Parsed<T>)
    ensures r.Parsed? <==> issues == []
    ensures r.Parsed? ==> r.value == value
    ensures r.ZodError? ==> r.issues == issues
  {
    if issues == [] then Parsed(value) else ZodError(issues)
  }
}
