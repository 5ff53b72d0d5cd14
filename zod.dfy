/**
 * The part of zod's `safeParse` the request schemas use. An object schema parses
 * its fields in declaration order and gathers the issues of all of them. A string
 * schema first checks the type, then runs every one of its checks and reports each
 * one that fails. A number schema does the same with `int`, `min` and `max`. The
 * formats `.email()` and `.url()` are predicates given as parameters.
 */
module Zod {
  import opened Wrappers
  import opened Json

  /** zod's issue codes, as far as these schemas can raise them. */
  datatype IssueCode = InvalidType | TooSmall | TooBig | InvalidString

  /** One entry of `error.issues`. `message` is the schema's own text; None stands for
      the default text zod generates. */
  datatype Issue = Issue(path: string, code: IssueCode, message: Option<string>)

  /** The refinements of `z.string()`. `RegexRange(lo, hi, _)` is `.regex(/[lo-hi]/)`:
      some character lies in the range. */
  datatype StringCheck =
    | MinLength(min: nat, message: Option<string>)
    | MaxLength(max: nat, message: Option<string>)
    | RegexRange(lo: char, hi: char, message: Option<string>)
    | Format(valid: string -> bool, message: Option<string>)

  /** `z.string({ required_error })` followed by its checks. */
  datatype StringSchema = StringSchema(requiredError: Option<string>, checks: seq<StringCheck>)

  /** The value of `key` in a parsed body; None when the key is absent (`undefined`). */
  function Field(body: map<string, Json>, key: string): (v: Option<Json>)
    ensures v.Some? <==> key in body
    ensures v.Some? ==> v.value == body[key]
  {
    if key in body then Some(body[key]) else None
  }

  predicate HasCharIn(s: string, lo: char, hi: char) {
    exists i :: 0 <= i < |s| && lo <= s[i] <= hi
  }

  predicate Passes(s: string, c: StringCheck) {
    match c
    case MinLength(n, _) => |s| >= n
    case MaxLength(n, _) => |s| <= n
    case RegexRange(lo, hi, _) => HasCharIn(s, lo, hi)
    case Format(valid, _) => valid(s)
  }

  function CheckIssue(path: string, c: StringCheck): Issue {
    match c
    case MinLength(_, m) => Issue(path, TooSmall, m)
    case MaxLength(_, m) => Issue(path, TooBig, m)
    case RegexRange(_, _, m) => Issue(path, InvalidString, m)
    case Format(_, m) => Issue(path, InvalidString, m)
  }

  /** The issues of the checks `s` fails, in the order the checks are declared. */
  function StringIssues(s: string, checks: seq<StringCheck>, path: string): (issues: seq<Issue>)
    ensures issues == [] <==> forall k :: 0 <= k < |checks| ==> Passes(s, checks[k])
    ensures |issues| <= |checks|
    ensures forall e :: e in issues ==> e.path == path
  {
    if checks == [] then []
    else
      var rest := StringIssues(s, checks[1..], path);
      assert forall k :: 1 <= k < |checks| ==> checks[k] == checks[1..][k - 1];
      (if Passes(s, checks[0]) then [] else [CheckIssue(path, checks[0])]) + rest
  }

  /** A present string value passes its schema or fails with the issues of its checks;
      an absent one fails with `required_error`; any other value fails on its type. */
  function ParseString(v: Option<Json>, path: string, schema: StringSchema): (r: Result<string, seq<Issue>>)
    ensures r.Success? <==> v.Some? && v.value.String? && StringIssues(v.value.s, schema.checks, path) == []
    ensures r.Success? ==> r.value == v.value.s
    ensures r.Failure? ==> r.error != [] && forall e :: e in r.error ==> e.path == path
  {
    match v
    case None => Failure([Issue(path, InvalidType, schema.requiredError)])
    case Some(String(s)) =>
      var issues := StringIssues(s, schema.checks, path);
      if issues == [] then Success(s) else Failure(issues)
    case Some(_) => Failure([Issue(path, InvalidType, None)])
  }

  /** `.optional()`: an absent key parses to None. */
  function ParseOptionalString(v: Option<Json>, path: string, schema: StringSchema): (r: Result<Option<string>, seq<Issue>>)
    ensures v.None? ==> r == Success(None)
    ensures v.Some? ==> r.Success? == ParseString(v, path, schema).Success?
    ensures v.Some? && r.Success? ==> r.value == Some(ParseString(v, path, schema).value)
  {
    if v.None? then Success(None)
    else
      match ParseString(v, path, schema)
      case Success(s) => Success(Some(s))
      case Failure(e) => Failure(e)
  }

  /** JavaScript's `Number.isInteger`. */
  predicate IsInteger(n: real) {
    n.Floor as real == n
  }

  /** `z.number().int().min(lo).max(hi)`: the type first, then each check that fails. */
  function ParseIntInRange(v: Json, path: string, lo: int, hi: int): (r: Result<int, seq<Issue>>)
    ensures r.Success? <==> v.Number? && IsInteger(v.n) && lo as real <= v.n <= hi as real
    ensures r.Success? ==> r.value as real == v.n && lo <= r.value <= hi
  {
    match v
    case Number(n) =>
      var issues :=
        (if IsInteger(n) then [] else [Issue(path, InvalidType, None)])
        + (if n < lo as real then [Issue(path, TooSmall, None)] else [])
        + (if n > hi as real then [Issue(path, TooBig, None)] else []);
      if issues == [] then Success(n.Floor) else Failure(issues)
    case _ => Failure([Issue(path, InvalidType, None)])
  }

  /** The issues of a field's result, or none. */
  function IssuesOf<T>(r: Result<T, seq<Issue>>): seq<Issue> {
    if r.Failure? then r.error else []
  }

  /** A body that is not an object fails on its type at the root. */
  const NotAnObject := [Issue("", InvalidType, None)]

  /** One key of an object schema whose fields are all strings. */
  datatype FieldSpec = FieldSpec(key: string, schema: StringSchema)

  predicate FieldAccepted(m: map<string, Json>, f: FieldSpec) {
    f.key in m && m[f.key].String? && StringIssues(m[f.key].s, f.schema.checks, f.key) == []
  }

  /** The fields of an object parsed in declaration order: the values of all of them,
      or the issues of every field that fails. Unknown keys are dropped. */
  function ParseFields(m: map<string, Json>, fields: seq<FieldSpec>): (r: Result<seq<string>, seq<Issue>>)
    ensures r.Success? <==> forall k :: 0 <= k < |fields| ==> FieldAccepted(m, fields[k])
    ensures r.Success? ==> |r.value| == |fields| && forall k :: 0 <= k < |fields| ==> r.value[k] == m[fields[k].key].s
    ensures r.Failure? ==> r.error != []
  {
    if fields == [] then Success([])
    else
      var head := ParseString(Field(m, fields[0].key), fields[0].key, fields[0].schema);
      var rest := ParseFields(m, fields[1..]);
      assert forall k :: 1 <= k < |fields| ==> fields[k] == fields[1..][k - 1];
      if head.Success? && rest.Success? then Success([head.value] + rest.value)
      else Failure(IssuesOf(head) + IssuesOf(rest))
  }

  /** `z.object({...}).safeParse(body)` for an object of string fields. */
  function ParseStringObject(body: Json, fields: seq<FieldSpec>): (r: Result<seq<string>, seq<Issue>>)
    ensures r.Success? <==> body.Object? && forall k :: 0 <= k < |fields| ==> FieldAccepted(body.members, fields[k])
    ensures r.Success? ==> |r.value| == |fields| && forall k :: 0 <= k < |fields| ==> r.value[k] == body.members[fields[k].key].s
    ensures r.Failure? ==> r.error != []
  {
    if body.Object? then ParseFields(body.members, fields) else Failure(NotAnObject)
  }
}
