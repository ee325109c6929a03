/**
 Schema documents, references between them, and the inliner that replaces every reference by its target.
 A package is a fixed table: which file a relative path text names from a document, and what each file holds.
 */
module Schemas {
  import opened Basics

  datatype Json = Null | Bool(value: bool) | Num(number: real) | Str(text: string) | Arr(items: seq<Json>)
    | Obj(members: map<string, Json>)

  type Path = nat

  datatype Target = Target(path: Path, fragment: string)

  datatype Package = Package(locate: map<(Path, string), Path>, documents: map<Path, Json>)

  const REF := "$ref"

  /* JSON pointers. */

  // The parts of `s` between the separators.
  function Split(s: string, separator: char): (parts: seq<string>)
    ensures parts != []
  {
    if s == [] then [""]
    else
      var rest := Split(s[1..], separator);
      if s[0] == separator then [""] + rest else [[s[0]] + rest[0]] + rest[1..]
  }

  // Every occurrence of `~` and `code` replaced by `plain`, left to right.
  function Unescape(s: string, code: char, plain: char): string {
    if |s| < 2 then s
    else if s[0] == '~' && s[1] == code then [plain] + Unescape(s[2..], code, plain)
    else [s[0]] + Unescape(s[1..], code, plain)
  }

  function Token(part: string): string {
    Unescape(Unescape(part, '1', '/'), '0', '~')
  }

  predicate Digits(s: string) {
    s != "" && forall i :: 0 <= i < |s| ==> '0' <= s[i] <= '9'
  }

  function Value(s: string): nat
    requires forall i :: 0 <= i < |s| ==> '0' <= s[i] <= '9'
  {
    if s == "" then 0 else 10 * Value(s[..|s| - 1]) + (s[|s| - 1] - '0') as nat
  }

  // An array index has no sign and no leading zero.
  function Index(token: string): Option<nat> {
    if !Digits(token) || (token[0] == '0' && |token| != 1) then None else Some(Value(token))
  }

  function Step(v: Json, token: string): Option<Json> {
    match v
    case Obj(members) => if token in members then Some(members[token]) else None
    case Arr(items) => if Index(token).Some? && Index(token).value < |items| then Some(items[Index(token).value])
      else None
    case _ => None
  }

  function Descend(v: Json, parts: seq<string>): Option<Json>
    decreases |parts|
  {
    if parts == [] then Some(v)
    else
      var next := Step(v, Token(parts[0]));
      if next.None? then None else Descend(next.value, parts[1..])
  }

  function Fragment(document: Json, fragment: string): Option<Json> {
    if fragment == "" then Some(document)
    else if fragment[0] != '/' then None
    else Descend(document, Split(fragment[1..], '/'))
  }

  /* References. */

  predicate StartsWith(s: string, prefix: string) {
    |prefix| <= |s| && s[..|prefix|] == prefix
  }

  predicate Remote(reference: string) {
    StartsWith(reference, "http:") || StartsWith(reference, "https:") || StartsWith(reference, "file:")
    || StartsWith(reference, "urn:") || StartsWith(reference, "//")
  }

  function BeforeHash(s: string): string {
    if s == [] || s[0] == '#' then "" else [s[0]] + BeforeHash(s[1..])
  }

  function AfterHash(s: string): string {
    if s == [] then "" else if s[0] == '#' then s[1..] else AfterHash(s[1..])
  }

  function Referenced(pk: Package, current: Path, reference: string): Option<Target> {
    var path := BeforeHash(reference);
    if Remote(reference) then None
    else if path == "" then Some(Target(current, AfterHash(reference)))
    else if (current, path) in pk.locate then Some(Target(pk.locate[(current, path)], AfterHash(reference)))
    else None
  }

  function Content(pk: Package, t: Target): Option<Json> {
    if t.path in pk.documents then Fragment(pk.documents[t.path], t.fragment) else None
  }

  // The target of a reference value, if the value is a string that names something in the package.
  function Followed(pk: Package, current: Path, reference: Json): Option<Target> {
    if !reference.Str? then None
    else
      var t := Referenced(pk, current, reference.text);
      if t.Some? && Content(pk, t.value).Some? then t else None
  }

  /* Keywords outside the supported subset. */

  const FORBIDDEN := {"$dynamicRef", "$recursiveRef", "formatMinimum", "formatMaximum"}

  predicate Forbidden(v: Json) {
    match v
    case Obj(members) =>
      || ("type" in members && members["type"] == Str("number"))
      || !(members.Keys !! FORBIDDEN)
      || exists k :: k in members && Forbidden(members[k])
    case Arr(items) => exists i :: 0 <= i < |items| && Forbidden(items[i])
    case _ => false
  }

  /* The inliner. */

  // All of the results, if there is no failure among them.
  function Whole(results: map<string, Option<Json>>): Option<map<string, Json>> {
    if exists k :: k in results && results[k].None? then None
    else Some(map k | k in results :: results[k].value)
  }

  function WholeSeq(results: seq<Option<Json>>): Option<seq<Json>> {
    if exists i :: 0 <= i < |results| && results[i].None? then None
    else Some(seq(|results|, i requires 0 <= i < |results| => results[i].value))
  }

  // A reference next to other keywords is the conjunction of its target and those keywords.
  function Joined(target: Json, siblings: map<string, Json>): Json {
    if siblings == map[] then target else Obj(map["allOf" := Arr([target, Obj(siblings)])])
  }

  function JoinedIfBoth(target: Option<Json>, siblings: Option<map<string, Json>>): Option<Json> {
    if target.None? || siblings.None? then None else Some(Joined(target.value, siblings.value))
  }

  function Object(members: Option<map<string, Json>>): Option<Json> {
    if members.None? then None else Some(Obj(members.value))
  }

  function Array(items: Option<seq<Json>>): Option<Json> {
    if items.None? then None else Some(Arr(items.value))
  }

  // `left` is how many references may still be followed: the bound on the depth less the depth.
  function Resolve(pk: Package, v: Json, path: Path, left: int, stack: seq<Target>): Option<Json>
    requires left >= -1
    decreases left, v, 1
  {
    if left < 0 || Forbidden(v) then None
    else
      match v
      case Obj(members) =>
        if REF !in members then Object(Whole(ResolveMembers(pk, v, path, left, stack)))
        else
          var t := Followed(pk, path, members[REF]);
          if t.None? || t.value in stack then None
          else
            JoinedIfBoth(Resolve(pk, Content(pk, t.value).value, t.value.path, left - 1, stack + [t.value]),
              Whole(ResolveMembers(pk, v, path, left, stack)))
      case Arr(items) => Array(WholeSeq(ResolveItems(pk, v, path, left, stack)))
      case _ => Some(v)
  }

  // Every member but the reference itself.
  function ResolveMembers(pk: Package, v: Json, path: Path, left: int, stack: seq<Target>): map<string, Option<Json>>
    requires left >= -1 && v.Obj?
    decreases left, v, 0
  {
    map k | k in v.members && k != REF :: Resolve(pk, v.members[k], path, left, stack)
  }

  function ResolveItems(pk: Package, v: Json, path: Path, left: int, stack: seq<Target>): seq<Option<Json>>
    requires left >= -1 && v.Arr?
    decreases left, v, 0
  {
    seq(|v.items|, i requires 0 <= i < |v.items| => Resolve(pk, v.items[i], path, left, stack))
  }

  // The same inliner without the stack: only the bound stops it.
  function Unroll(pk: Package, v: Json, path: Path, left: int): Option<Json>
    requires left >= -1
    decreases left, v, 1
  {
    if left < 0 || Forbidden(v) then None
    else
      match v
      case Obj(members) =>
        if REF !in members then Object(Whole(UnrollMembers(pk, v, path, left)))
        else
          var t := Followed(pk, path, members[REF]);
          if t.None? then None
          else
            JoinedIfBoth(Unroll(pk, Content(pk, t.value).value, t.value.path, left - 1),
              Whole(UnrollMembers(pk, v, path, left)))
      case Arr(items) => Array(WholeSeq(UnrollItems(pk, v, path, left)))
      case _ => Some(v)
  }

  function UnrollMembers(pk: Package, v: Json, path: Path, left: int): map<string, Option<Json>>
    requires left >= -1 && v.Obj?
    decreases left, v, 0
  {
    map k | k in v.members && k != REF :: Unroll(pk, v.members[k], path, left)
  }

  function UnrollItems(pk: Package, v: Json, path: Path, left: int): seq<Option<Json>>
    requires left >= -1 && v.Arr?
    decreases left, v, 0
  {
    seq(|v.items|, i requires 0 <= i < |v.items| => Unroll(pk, v.items[i], path, left))
  }
}
