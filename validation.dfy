/**
 * The form schemas are zod object schemas. Parsing a form yields the set of
 * issues found: each field check that fails contributes one issue, on that
 * field's path, with the message the schema gives it. Checks on one field do
 * not stop checks on another, and an object-level refinement still runs when
 * a field check has failed (zod only skips it when a field has the wrong
 * type, which a form of strings never has). The form is accepted exactly
 * when the set is empty.
 */
module Validation {
  import PhonePattern

  datatype Issue = Issue(path: string, message: string)

  /** `z.string().min(n, message)`. */
  function MinLength(path: string, value: string, n: nat, message: string): (r: set<Issue>)
    ensures r == {} <==> |value| >= n
    ensures r != {} ==> r == {Issue(path, message)}
  {
    if |value| >= n then {} else {Issue(path, message)}
  }

  /** `z.string().regex(pattern, message)`. */
  function Regex(path: string, value: string, pattern: seq<PhonePattern.Piece>, message: string): (r: set<Issue>)
    ensures r == {} <==> PhonePattern.FullMatch(pattern, value)
    ensures r != {} ==> r == {Issue(path, message)}
  {
    if PhonePattern.FullMatch(pattern, value) then {} else {Issue(path, message)}
  }

  /**
   * `z.string().email(message)`. The address grammar zod applies is not
   * modelled: `isEmail` stands for it.
   */
  function Email(path: string, value: string, isEmail: string -> bool, message: string): (r: set<Issue>)
    ensures r == {} <==> isEmail(value)
    ensures r != {} ==> r == {Issue(path, message)}
  {
    if isEmail(value) then {} else {Issue(path, message)}
  }

  /** `z.enum([a, b])` on a string: any other value gets zod's enum message, which names the options and the value. */
  function Enum2(path: string, value: string, a: string, b: string): (r: set<Issue>)
    ensures r == {} <==> value == a || value == b
    ensures r != {} ==> r == {Issue(path, EnumMessage(a, b, value))}
  {
    if value == a || value == b then {} else {Issue(path, EnumMessage(a, b, value))}
  }

  function EnumMessage(a: string, b: string, received: string): string
  {
    "Invalid enum value. Expected '" + a + "' | '" + b + "', received '" + received + "'"
  }

  /** `.refine(ok, { message, path })`. */
  function Refine(ok: bool, path: string, message: string): (r: set<Issue>)
    ensures r == {} <==> ok
    ensures r != {} ==> r == {Issue(path, message)}
  {
    if ok then {} else {Issue(path, message)}
  }

  /** The paths that carry at least one issue. */
  function Paths(issues: set<Issue>): set<string>
  {
    set i | i in issues :: i.path
  }
}
