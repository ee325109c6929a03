/**
 What a schema accepts, by Draft 2020-12 without `unevaluated*`, `$id` and `$anchor`, and that inlining
 its references preserves it.
 */
module SchemaMeaning {
  import opened Basics
  import opened Schemas
  import opened SchemaFacts

  // What is left open: the assertion keywords that hold no schemas, and regular expressions.
  datatype Dialect = Dialect(holds: (string, Json, Json) -> bool, matches: (string, string) -> bool)

  const LISTS := {"allOf", "anyOf", "oneOf", "prefixItems"}
  const MAPS := {"properties", "patternProperties", "dependentSchemas"}
  const SINGLES := {"not", "if", "then", "else", "items", "contains", "additionalProperties", "propertyNames"}
  // Keywords that never decide acceptance: definitions and annotations.
  const SILENT := {"$defs", "definitions", "default", "examples", "title", "description", "$comment", "$schema",
    "deprecated", "readOnly", "writeOnly"}

  // `left` references may still be followed.
  ghost predicate Accepts(d: Dialect, pk: Package, v: Json, path: Path, left: nat, x: Json)
    decreases left, v, 3
  {
    match v
    case Bool(b) => b
    case Obj(members) =>
      && (REF in members ==> AcceptsTarget(d, pk, members[REF], path, left, x))
      && (forall k :: k in members && k != REF ==> Keyword(d, pk, v, k, path, left, x))
    case _ => false
  }

  ghost predicate AcceptsTarget(d: Dialect, pk: Package, reference: Json, path: Path, left: nat, x: Json)
    decreases left, reference, 2
  {
    var t := Followed(pk, path, reference);
    left > 0 && t.Some? && Accepts(d, pk, Content(pk, t.value).value, t.value.path, left - 1, x)
  }

  ghost predicate Keyword(d: Dialect, pk: Package, v: Json, k: string, path: Path, left: nat, x: Json)
    requires v.Obj? && k in v.members && k != REF
    decreases left, v, 2
  {
    var s := v.members[k];
    if k in LISTS then s.Arr? && ListHolds(d, pk, s, k, path, left, x)
    else if k in MAPS then s.Obj? && MapHolds(d, pk, s, k, path, left, x)
    else if k in SINGLES then SingleHolds(d, pk, v, k, path, left, x)
    else k in SILENT || d.holds(k, s, x)
  }

  ghost predicate ListHolds(d: Dialect, pk: Package, s: Json, k: string, path: Path, left: nat, x: Json)
    requires s.Arr?
    decreases left, s, 1
  {
    if k == "allOf" then forall i :: 0 <= i < |s.items| ==> Accepts(d, pk, s.items[i], path, left, x)
    else if k == "anyOf" then exists i :: 0 <= i < |s.items| && Accepts(d, pk, s.items[i], path, left, x)
    else if k == "oneOf" then
      exists i :: 0 <= i < |s.items| && Only(d, pk, s, i, path, left, x)
    else
      x.Arr? ==> forall i :: 0 <= i < |s.items| && i < |x.items| ==> Accepts(d, pk, s.items[i], path, left, x.items[i])
  }

  ghost predicate Only(d: Dialect, pk: Package, s: Json, i: nat, path: Path, left: nat, x: Json)
    requires s.Arr? && i < |s.items|
    decreases left, s, 0
  {
    Accepts(d, pk, s.items[i], path, left, x)
    && forall j :: 0 <= j < |s.items| && j != i ==> !Accepts(d, pk, s.items[j], path, left, x)
  }

  ghost predicate MapHolds(d: Dialect, pk: Package, s: Json, k: string, path: Path, left: nat, x: Json)
    requires s.Obj?
    decreases left, s, 1
  {
    x.Obj? ==>
      if k == "properties" then
        forall name :: name in s.members && name in x.members ==>
          Accepts(d, pk, s.members[name], path, left, x.members[name])
      else if k == "patternProperties" then
        forall pattern, name :: pattern in s.members && name in x.members && d.matches(pattern, name) ==>
          Accepts(d, pk, s.members[pattern], path, left, x.members[name])
      else
        forall name :: name in s.members && name in x.members ==> Accepts(d, pk, s.members[name], path, left, x)
  }

  // How many leading array items `prefixItems` beside the keyword speaks of.
  function Prefix(members: map<string, Json>): nat {
    if "prefixItems" in members && members["prefixItems"].Arr? then |members["prefixItems"].items| else 0
  }

  // The property is one that `properties` or `patternProperties` beside the keyword speaks of.
  ghost predicate Named(d: Dialect, members: map<string, Json>, name: string) {
    || ("properties" in members && members["properties"].Obj? && name in members["properties"].members)
    || ("patternProperties" in members && members["patternProperties"].Obj?
        && exists pattern :: pattern in members["patternProperties"].members && d.matches(pattern, name))
  }

  predicate Enough(members: map<string, Json>, count: nat) {
    && (if "minContains" in members && members["minContains"].Num? then members["minContains"].number <= count as real
      else count >= 1)
    && ("maxContains" in members && members["maxContains"].Num? ==> count as real <= members["maxContains"].number)
  }

  // How many of the items the schema accepts.
  ghost function Contained(d: Dialect, pk: Package, s: Json, path: Path, left: nat, items: seq<Json>): nat
    decreases left, s, 4
  {
    |set i | 0 <= i < |items| && Accepts(d, pk, s, path, left, items[i])|
  }

  ghost predicate SingleHolds(d: Dialect, pk: Package, v: Json, k: string, path: Path, left: nat, x: Json)
    requires v.Obj? && k in v.members
    decreases left, v, 1
  {
    var s := v.members[k];
    if k == "not" then !Accepts(d, pk, s, path, left, x)
    else if k == "if" then
      if Accepts(d, pk, s, path, left, x) then "then" in v.members ==> Accepts(d, pk, v.members["then"], path, left, x)
      else "else" in v.members ==> Accepts(d, pk, v.members["else"], path, left, x)
    else if k == "items" then
      x.Arr? ==> forall i :: Prefix(v.members) <= i < |x.items| ==> Accepts(d, pk, s, path, left, x.items[i])
    else if k == "contains" then
      x.Arr? ==> Enough(v.members, Contained(d, pk, s, path, left, x.items))
    else if k == "additionalProperties" then
      x.Obj? ==> forall name :: name in x.members && !Named(d, v.members, name) ==>
        Accepts(d, pk, s, path, left, x.members[name])
    else if k == "propertyNames" then
      x.Obj? ==> forall name :: name in x.members ==> Accepts(d, pk, s, path, left, Str(name))
    else true
  }

  /* Where inlining is harmless. */

  predicate RefFree(v: Json) {
    match v
    case Obj(members) => REF !in members && forall k :: k in members ==> RefFree(members[k])
    case Arr(items) => forall i :: 0 <= i < |items| ==> RefFree(items[i])
    case _ => true
  }

  // Schemas stand where schemas belong, and no value that is data holds an object with a `$ref` member.
  ghost predicate Clean(pk: Package, v: Json, path: Path, left: nat)
    decreases left, v, 1
  {
    v.Bool? ||
    (v.Obj?
     && (REF in v.members && Followed(pk, path, v.members[REF]).Some? && left > 0 ==>
           var t := Followed(pk, path, v.members[REF]).value; Clean(pk, Content(pk, t).value, t.path, left - 1))
     && forall k :: k in v.members && k != REF ==> CleanMember(pk, v, k, path, left))
  }

  ghost predicate CleanMember(pk: Package, v: Json, k: string, path: Path, left: nat)
    requires v.Obj? && k in v.members
    decreases left, v, 0
  {
    var s := v.members[k];
    if k in LISTS then s.Arr? && forall i :: 0 <= i < |s.items| ==> Clean(pk, s.items[i], path, left)
    else if k in MAPS then s.Obj? && forall name :: name in s.members ==> Clean(pk, s.members[name], path, left)
    else if k in SINGLES then Clean(pk, s, path, left)
    else k in SILENT || RefFree(s)
  }

  /* The shape of the output. */

  lemma UnrolledObject(pk: Package, v: Json, path: Path, left: nat)
    requires v.Obj? && REF !in v.members && Unroll(pk, v, path, left).Some?
    ensures var o := Unroll(pk, v, path, left).value;
      && o.Obj? && o.members.Keys == v.members.Keys
      && forall k :: k in v.members ==> Unroll(pk, v.members[k], path, left) == Some(o.members[k])
  {
    hide Forbidden;
    forall k | k in v.members
      ensures Unroll(pk, v.members[k], path, left).Some?
    {
      MemberUnrolls(pk, v, path, left, k);
    }
  }

  lemma UnrolledArray(pk: Package, v: Json, path: Path, left: nat)
    requires v.Arr? && Unroll(pk, v, path, left).Some?
    ensures var o := Unroll(pk, v, path, left).value;
      && o.Arr? && |o.items| == |v.items|
      && forall i :: 0 <= i < |v.items| ==> Unroll(pk, v.items[i], path, left) == Some(o.items[i])
  {
    hide Forbidden;
    forall i | 0 <= i < |v.items|
      ensures Unroll(pk, v.items[i], path, left).Some?
    {
      ItemUnrolls(pk, v, path, left, i);
    }
  }

  ghost predicate Inlined(pk: Package, members: map<string, Json>, path: Path, left: nat, result: map<string, Json>) {
    && result.Keys == members.Keys - {REF}
    && forall k :: k in result ==> Unroll(pk, members[k], path, left) == Some(result[k])
  }

  lemma UnrolledReference(pk: Package, v: Json, path: Path, left: nat) returns (t: Target, siblings: map<string, Json>)
    requires v.Obj? && REF in v.members && Unroll(pk, v, path, left).Some?
    ensures left > 0 && Followed(pk, path, v.members[REF]) == Some(t) && Content(pk, t).Some?
    ensures Unroll(pk, Content(pk, t).value, t.path, left - 1).Some? && Inlined(pk, v.members, path, left, siblings)
    ensures Unroll(pk, v, path, left).value ==
      Joined(Unroll(pk, Content(pk, t).value, t.path, left - 1).value, siblings)
  {
    hide Forbidden, Joined, Content;
    forall k | k in v.members && k != REF
      ensures Unroll(pk, v.members[k], path, left).Some?
    {
      MemberUnrolls(pk, v, path, left, k);
    }
    t := Followed(pk, path, v.members[REF]).value;
    siblings := Whole(UnrollMembers(pk, v, path, left)).value;
  }

  // The output of a successful inlining holds no reference at any depth.
  lemma {:induction false} OutputIsRefFree(pk: Package, v: Json, path: Path, left: nat)
    requires Unroll(pk, v, path, left).Some?
    ensures RefFree(Unroll(pk, v, path, left).value)
    decreases left, v
  {
    match v
    case Obj(members) =>
      if REF in members {
        var t, siblings := UnrolledReference(pk, v, path, left);
        OutputIsRefFree(pk, Content(pk, t).value, t.path, left - 1);
        forall k | k in siblings
          ensures RefFree(siblings[k])
        {
          OutputIsRefFree(pk, members[k], path, left);
        }
        assert RefFree(Obj(siblings));
      } else {
        UnrolledObject(pk, v, path, left);
        var o := Unroll(pk, v, path, left).value;
        forall k | k in members
          ensures RefFree(o.members[k])
        {
          OutputIsRefFree(pk, members[k], path, left);
        }
      }
    case Arr(items) =>
      UnrolledArray(pk, v, path, left);
      var o := Unroll(pk, v, path, left).value;
      forall i | 0 <= i < |items|
        ensures RefFree(o.items[i])
      {
        OutputIsRefFree(pk, items[i], path, left);
      }
    case _ =>
  }

  // A value without references comes out as it went in.
  lemma {:induction false} RefFreeIsFixed(pk: Package, v: Json, path: Path, left: nat)
    requires RefFree(v) && Unroll(pk, v, path, left).Some?
    ensures Unroll(pk, v, path, left) == Some(v)
    decreases v
  {
    match v
    case Obj(members) =>
      UnrolledObject(pk, v, path, left);
      forall k | k in members
        ensures Unroll(pk, members[k], path, left) == Some(members[k])
      {
        RefFreeIsFixed(pk, members[k], path, left);
      }
      assert Unroll(pk, v, path, left).value.members == members;
    case Arr(items) =>
      UnrolledArray(pk, v, path, left);
      forall i | 0 <= i < |items|
        ensures Unroll(pk, items[i], path, left) == Some(items[i])
      {
        RefFreeIsFixed(pk, items[i], path, left);
      }
      assert Unroll(pk, v, path, left).value.items == items;
    case _ =>
  }

  /* Meaning. */

  lemma {:induction false} ItemsPreserved(d: Dialect, pk: Package, s: Json, o: Json, path: Path, left: nat,
      path': Path, left': nat)
    requires s.Arr? && Unroll(pk, s, path, left) == Some(o)
    requires forall i :: 0 <= i < |s.items| ==> Clean(pk, s.items[i], path, left)
    ensures o.Arr? && |o.items| == |s.items|
    ensures forall i, y: Json :: 0 <= i < |s.items| ==>
      (Accepts(d, pk, s.items[i], path, left, y) <==> Accepts(d, pk, o.items[i], path', left', y))
    decreases left, s, 0
  {
    UnrolledArray(pk, s, path, left);
    hide Accepts, Unroll, Clean;
    forall i, y: Json | 0 <= i < |s.items|
      ensures Accepts(d, pk, s.items[i], path, left, y) <==> Accepts(d, pk, o.items[i], path', left', y)
    {
      Preserved(d, pk, s.items[i], path, left, path', left', y);
    }
  }

  lemma {:induction false} ListPreserved(d: Dialect, pk: Package, s: Json, o: Json, k: string, path: Path, left: nat,
      path': Path, left': nat, x: Json)
    requires s.Arr? && Unroll(pk, s, path, left) == Some(o)
    requires forall i :: 0 <= i < |s.items| ==> Clean(pk, s.items[i], path, left)
    ensures o.Arr? && (ListHolds(d, pk, s, k, path, left, x) <==> ListHolds(d, pk, o, k, path', left', x))
    decreases left, s, 1
  {
    hide Accepts, Unroll, Clean, ListHolds;
    ItemsPreserved(d, pk, s, o, path, left, path', left');
    ListFollows(d, pk, s, o, k, path, left, path', left', x);
  }

  lemma ListFollows(d: Dialect, pk: Package, s: Json, o: Json, k: string, path: Path, left: nat, path': Path,
      left': nat, x: Json)
    requires s.Arr? && o.Arr? && |o.items| == |s.items|
    requires forall i, y: Json :: 0 <= i < |s.items| ==>
      (Accepts(d, pk, s.items[i], path, left, y) <==> Accepts(d, pk, o.items[i], path', left', y))
    ensures ListHolds(d, pk, s, k, path, left, x) <==> ListHolds(d, pk, o, k, path', left', x)
  {
    hide Accepts;
    if k == "allOf" {
    } else if k == "anyOf" {
    } else if k == "oneOf" {
      OneOfFollows(d, pk, s, o, path, left, path', left', x);
    } else {
    }
  }

  lemma OneOfFollows(d: Dialect, pk: Package, s: Json, o: Json, path: Path, left: nat, path': Path, left': nat, x: Json)
    requires s.Arr? && o.Arr? && |o.items| == |s.items|
    requires forall i, y: Json :: 0 <= i < |s.items| ==>
      (Accepts(d, pk, s.items[i], path, left, y) <==> Accepts(d, pk, o.items[i], path', left', y))
    ensures ListHolds(d, pk, s, "oneOf", path, left, x) <==> ListHolds(d, pk, o, "oneOf", path', left', x)
  {
    hide Accepts;
    forall i | 0 <= i < |s.items|
      ensures Only(d, pk, s, i, path, left, x) <==> Only(d, pk, o, i, path', left', x)
    {
      assert forall j :: 0 <= j < |s.items| ==>
        (Accepts(d, pk, s.items[j], path, left, x) <==> Accepts(d, pk, o.items[j], path', left', x));
    }
    hide Only;
  }

  // A map of schemas has no member that is read as a reference.
  lemma SchemaMapHasNoRef(pk: Package, s: Json, path: Path, left: nat)
    requires s.Obj? && Unroll(pk, s, path, left).Some?
    requires forall name :: name in s.members ==> Clean(pk, s.members[name], path, left)
    ensures REF !in s.members
  {
    hide Forbidden;
    if REF in s.members { SchemaIsNoString(pk, s.members[REF], path, left); }
  }

  lemma SchemaIsNoString(pk: Package, v: Json, path: Path, left: nat)
    requires Clean(pk, v, path, left)
    ensures !v.Str?
  {}

  lemma {:induction false} MapPreserved(d: Dialect, pk: Package, s: Json, o: Json, k: string, path: Path, left: nat,
      path': Path, left': nat, x: Json)
    requires s.Obj? && Unroll(pk, s, path, left) == Some(o)
    requires forall name :: name in s.members ==> Clean(pk, s.members[name], path, left)
    ensures o.Obj? && o.members.Keys == s.members.Keys
    ensures MapHolds(d, pk, s, k, path, left, x) <==> MapHolds(d, pk, o, k, path', left', x)
    decreases left, s, 1
  {
    SchemaMapHasNoRef(pk, s, path, left);
    UnrolledObject(pk, s, path, left);
    forall name, y: Json | name in s.members
      ensures Accepts(d, pk, s.members[name], path, left, y) <==> Accepts(d, pk, o.members[name], path', left', y)
    {
      Preserved(d, pk, s.members[name], path, left, path', left', y);
    }
    hide Accepts, Unroll, Clean;
  }

  // The keywords that others look at come out with the same extent.
  lemma NeighboursPreserved(d: Dialect, pk: Package, v: Json, o: Json, path: Path, left: nat)
    requires v.Obj? && o.Obj? && Inlined(pk, v.members, path, left, o.members)
    requires forall k :: k in v.members && k != REF ==> CleanMember(pk, v, k, path, left)
    ensures Prefix(o.members) == Prefix(v.members)
    ensures forall name :: Named(d, o.members, name) <==> Named(d, v.members, name)
    ensures forall count: nat :: Enough(o.members, count) <==> Enough(v.members, count)
  {
    if "prefixItems" in v.members {
      assert CleanMember(pk, v, "prefixItems", path, left);
      UnrolledArray(pk, v.members["prefixItems"], path, left);
    }
    MapNeighbour(pk, v, o, "properties", path, left);
    MapNeighbour(pk, v, o, "patternProperties", path, left);
    DataPreserved(pk, v, o, "minContains", path, left);
    DataPreserved(pk, v, o, "maxContains", path, left);
    hide Unroll, CleanMember;
  }

  lemma MapNeighbour(pk: Package, v: Json, o: Json, k: string, path: Path, left: nat)
    requires v.Obj? && o.Obj? && Inlined(pk, v.members, path, left, o.members) && k in MAPS
    requires k in v.members ==> CleanMember(pk, v, k, path, left)
    ensures k in o.members <==> k in v.members
    ensures k in v.members ==>
      v.members[k].Obj? && o.members[k].Obj? && o.members[k].members.Keys == v.members[k].members.Keys
  {
    if k in v.members {
      SchemaMapHasNoRef(pk, v.members[k], path, left);
      UnrolledObject(pk, v.members[k], path, left);
    }
  }

  lemma DataPreserved(pk: Package, v: Json, o: Json, k: string, path: Path, left: nat)
    requires v.Obj? && o.Obj? && Inlined(pk, v.members, path, left, o.members)
    requires k !in LISTS && k !in MAPS && k !in SINGLES && k !in SILENT && k != REF
    requires k in v.members ==> CleanMember(pk, v, k, path, left)
    ensures k in o.members <==> k in v.members
    ensures k in v.members ==> o.members[k] == v.members[k]
  {
    if k in v.members { RefFreeIsFixed(pk, v.members[k], path, left); }
  }

  lemma {:induction false} SubschemaPreserved(d: Dialect, pk: Package, v: Json, o: Json, k: string, path: Path,
      left: nat, path': Path, left': nat)
    requires v.Obj? && o.Obj? && Inlined(pk, v.members, path, left, o.members)
    requires k in v.members && k in SINGLES && CleanMember(pk, v, k, path, left)
    ensures forall y: Json ::
      Accepts(d, pk, v.members[k], path, left, y) <==> Accepts(d, pk, o.members[k], path', left', y)
    decreases left, v, 0
  {
    forall y: Json
      ensures Accepts(d, pk, v.members[k], path, left, y) <==> Accepts(d, pk, o.members[k], path', left', y)
    {
      Preserved(d, pk, v.members[k], path, left, path', left', y);
    }
  }

  lemma {:induction false} SinglePreserved(d: Dialect, pk: Package, v: Json, o: Json, k: string, path: Path,
      left: nat, path': Path, left': nat, x: Json)
    requires v.Obj? && o.Obj? && Inlined(pk, v.members, path, left, o.members)
    requires forall k :: k in v.members && k != REF ==> CleanMember(pk, v, k, path, left)
    requires k in v.members && k in SINGLES
    ensures SingleHolds(d, pk, v, k, path, left, x) <==> SingleHolds(d, pk, o, k, path', left', x)
    decreases left, v, 1
  {
    hide Accepts, Unroll, CleanMember, Prefix, Named, Enough, SingleHolds;
    NeighboursPreserved(d, pk, v, o, path, left);
    SubschemaPreserved(d, pk, v, o, k, path, left, path', left');
    if "then" in v.members { SubschemaPreserved(d, pk, v, o, "then", path, left, path', left'); }
    if "else" in v.members { SubschemaPreserved(d, pk, v, o, "else", path, left, path', left'); }
    SingleFollows(d, pk, v, o, k, path, left, path', left', x);
  }

  ghost predicate SameSubschema(d: Dialect, pk: Package, v: Json, o: Json, k: string, path: Path, left: nat,
      path': Path, left': nat)
    requires v.Obj? && o.Obj?
  {
    && (k in v.members <==> k in o.members)
    && (k in v.members ==> forall y: Json ::
          Accepts(d, pk, v.members[k], path, left, y) <==> Accepts(d, pk, o.members[k], path', left', y))
  }

  lemma SingleFollows(d: Dialect, pk: Package, v: Json, o: Json, k: string, path: Path, left: nat, path': Path,
      left': nat, x: Json)
    requires v.Obj? && o.Obj? && k in v.members && k in SINGLES
    requires SameSubschema(d, pk, v, o, k, path, left, path', left')
    requires SameSubschema(d, pk, v, o, "then", path, left, path', left')
    requires SameSubschema(d, pk, v, o, "else", path, left, path', left')
    requires Prefix(o.members) == Prefix(v.members)
    requires forall name :: Named(d, o.members, name) <==> Named(d, v.members, name)
    requires forall count: nat :: Enough(o.members, count) <==> Enough(v.members, count)
    ensures SingleHolds(d, pk, v, k, path, left, x) <==> SingleHolds(d, pk, o, k, path', left', x)
  {
    hide Accepts, Prefix, Named, Enough, Contained;
    if k == "contains" && x.Arr? {
      ContainedFollows(d, pk, v.members[k], o.members[k], path, left, path', left', x.items);
    }
  }

  lemma ContainedFollows(d: Dialect, pk: Package, s: Json, o: Json, path: Path, left: nat, path': Path, left': nat,
      items: seq<Json>)
    requires forall y: Json :: Accepts(d, pk, s, path, left, y) <==> Accepts(d, pk, o, path', left', y)
    ensures Contained(d, pk, s, path, left, items) == Contained(d, pk, o, path', left', items)
  {
    hide Accepts;
    var before := set i | 0 <= i < |items| && Accepts(d, pk, s, path, left, items[i]);
    var after := set i | 0 <= i < |items| && Accepts(d, pk, o, path', left', items[i]);
    assert before == after;
    assert Contained(d, pk, s, path, left, items) == |before|;
    assert Contained(d, pk, o, path', left', items) == |after|;
  }

  lemma {:induction false} KeywordPreserved(d: Dialect, pk: Package, v: Json, o: Json, k: string, path: Path,
      left: nat, path': Path, left': nat, x: Json)
    requires v.Obj? && o.Obj? && Inlined(pk, v.members, path, left, o.members)
    requires forall k :: k in v.members && k != REF ==> CleanMember(pk, v, k, path, left)
    requires k in v.members && k != REF
    ensures Keyword(d, pk, v, k, path, left, x) <==> Keyword(d, pk, o, k, path', left', x)
    decreases left, v, 2
  {
    hide Unroll, ListHolds, MapHolds, SingleHolds;
    assert CleanMember(pk, v, k, path, left);
    if k in LISTS {
      ListPreserved(d, pk, v.members[k], o.members[k], k, path, left, path', left', x);
    } else if k in MAPS {
      MapPreserved(d, pk, v.members[k], o.members[k], k, path, left, path', left', x);
    } else if k in SINGLES {
      SinglePreserved(d, pk, v, o, k, path, left, path', left', x);
    } else if k !in SILENT {
      DataPreserved(pk, v, o, k, path, left);
    }
  }

  // The keywords of an object, leaving out a reference, all hold of the same instances after inlining.
  lemma {:induction false} KeywordsPreserved(d: Dialect, pk: Package, v: Json, o: Json, path: Path, left: nat,
      path': Path, left': nat, x: Json)
    requires v.Obj? && o.Obj? && Inlined(pk, v.members, path, left, o.members)
    requires forall k :: k in v.members && k != REF ==> CleanMember(pk, v, k, path, left)
    ensures (forall k :: k in v.members && k != REF ==> Keyword(d, pk, v, k, path, left, x)) <==>
      Accepts(d, pk, o, path', left', x)
    decreases left, v, 3
  {
    forall k | k in v.members && k != REF
      ensures Keyword(d, pk, v, k, path, left, x) <==> Keyword(d, pk, o, k, path', left', x)
    {
      KeywordPreserved(d, pk, v, o, k, path, left, path', left', x);
    }
    hide Keyword, Unroll, CleanMember;
  }

  // A joined schema accepts what both of its parts accept.
  lemma JoinedAcceptsBoth(d: Dialect, pk: Package, target: Json, siblings: map<string, Json>, path: Path, left: nat,
      x: Json)
    requires REF !in siblings
    ensures Accepts(d, pk, Joined(target, siblings), path, left, x) <==>
      Accepts(d, pk, target, path, left, x) && Accepts(d, pk, Obj(siblings), path, left, x)
  {
    if siblings == map[] {
      assert Accepts(d, pk, Obj(siblings), path, left, x);
    } else {
      var both := Arr([target, Obj(siblings)]);
      var o := Obj(map["allOf" := both]);
      assert Joined(target, siblings) == o && o.members.Keys == {"allOf"};
      assert both.items[0] == target && both.items[1] == Obj(siblings);
      assert Accepts(d, pk, o, path, left, x) <==> Keyword(d, pk, o, "allOf", path, left, x);
      assert Keyword(d, pk, o, "allOf", path, left, x) <==> ListHolds(d, pk, both, "allOf", path, left, x);
    }
  }

  lemma AcceptsObject(d: Dialect, pk: Package, v: Json, path: Path, left: nat, x: Json)
    requires v.Obj?
    ensures Accepts(d, pk, v, path, left, x) <==>
      && (forall k :: k in v.members && k != REF ==> Keyword(d, pk, v, k, path, left, x))
      && (REF in v.members ==> AcceptsTarget(d, pk, v.members[REF], path, left, x))
  {
    hide Keyword, AcceptsTarget;
  }

  lemma CleanObject(pk: Package, v: Json, path: Path, left: nat)
    requires v.Obj? && Clean(pk, v, path, left)
    ensures forall k :: k in v.members && k != REF ==> CleanMember(pk, v, k, path, left)
    ensures REF in v.members && Followed(pk, path, v.members[REF]).Some? && left > 0 ==>
      var t := Followed(pk, path, v.members[REF]).value; Clean(pk, Content(pk, t).value, t.path, left - 1)
  {
    hide CleanMember;
  }

  lemma {:induction false} Preserved(d: Dialect, pk: Package, v: Json, path: Path, left: nat, path': Path,
      left': nat, x: Json)
    requires Clean(pk, v, path, left) && Unroll(pk, v, path, left).Some?
    ensures Accepts(d, pk, v, path, left, x) <==> Accepts(d, pk, Unroll(pk, v, path, left).value, path', left', x)
    decreases left, v, 5
  {
    if v.Obj? {
      ObjectPreserved(d, pk, v, path, left, path', left', x);
    }
  }

  lemma {:induction false} ObjectPreserved(d: Dialect, pk: Package, v: Json, path: Path, left: nat, path': Path,
      left': nat, x: Json)
    requires v.Obj? && Clean(pk, v, path, left) && Unroll(pk, v, path, left).Some?
    ensures Accepts(d, pk, v, path, left, x) <==> Accepts(d, pk, Unroll(pk, v, path, left).value, path', left', x)
    decreases left, v, 4
  {
    AcceptsObject(d, pk, v, path, left, x);
    CleanObject(pk, v, path, left);
    hide Keyword, CleanMember, Clean, Accepts, Unroll, Content, Followed, Inlined;
    if REF in v.members {
      var t, siblings := UnrolledReference(pk, v, path, left);
      var target := Content(pk, t).value;
      Preserved(d, pk, target, t.path, left - 1, path', left', x);
      assert REF !in siblings by { InlinedHasNoRef(pk, v.members, path, left, siblings); }
      KeywordsPreserved(d, pk, v, Obj(siblings), path, left, path', left', x);
      hide Joined;
      JoinedAcceptsBoth(d, pk, Unroll(pk, target, t.path, left - 1).value, siblings, path', left', x);
    } else {
      UnrolledObject(pk, v, path, left);
      ObjectIsInlined(pk, v, path, left);
      KeywordsPreserved(d, pk, v, Unroll(pk, v, path, left).value, path, left, path', left', x);
    }
  }

  lemma InlinedHasNoRef(pk: Package, members: map<string, Json>, path: Path, left: nat, result: map<string, Json>)
    requires Inlined(pk, members, path, left, result)
    ensures REF !in result
  {}

  lemma ObjectIsInlined(pk: Package, v: Json, path: Path, left: nat)
    requires v.Obj? && REF !in v.members && Unroll(pk, v, path, left).Some?
    ensures Unroll(pk, v, path, left).value.Obj?
    ensures Inlined(pk, v.members, path, left, Unroll(pk, v, path, left).value.members)
  {
    UnrolledObject(pk, v, path, left);
    hide Unroll;
  }

  // Inlining preserves meaning: the output accepts exactly the instances the original accepts with its
  // references followed, wherever the output is placed and however few references may still be followed.
  lemma InliningPreservesMeaning(d: Dialect, pk: Package, v: Json, path: Path, left: nat, path': Path, left': nat,
      x: Json)
    requires Clean(pk, v, path, left) && Resolve(pk, v, path, left, []).Some?
    ensures var o := Resolve(pk, v, path, left, []).value;
      RefFree(o) && (Accepts(d, pk, v, path, left, x) <==> Accepts(d, pk, o, path', left', x))
  {
    CycleCheckEqualsDepthBound(pk, v, path, left);
    OutputIsRefFree(pk, v, path, left);
    Preserved(d, pk, v, path, left, path', left', x);
  }

  // What is clean within a bound that suffices is clean within any larger one.
  lemma {:induction false} CleanIsMonotone(pk: Package, v: Json, path: Path, left: nat, more: nat)
    requires left <= more && Clean(pk, v, path, left) && Unroll(pk, v, path, left).Some?
    ensures Clean(pk, v, path, more)
    decreases left, v, 1
  {
    if v.Obj? {
      CleanObject(pk, v, path, left);
      forall k | k in v.members && k != REF
        ensures CleanMember(pk, v, k, path, more)
      {
        MemberUnrolls(pk, v, path, left, k);
        CleanMemberIsMonotone(pk, v, k, path, left, more);
      }
      if REF in v.members {
        var t, siblings := UnrolledReference(pk, v, path, left);
        CleanIsMonotone(pk, Content(pk, t).value, t.path, left - 1, more - 1);
      }
      hide Unroll, CleanMember, Content, Followed;
    }
  }

  lemma {:induction false} CleanMemberIsMonotone(pk: Package, v: Json, k: string, path: Path, left: nat, more: nat)
    requires left <= more && v.Obj? && k in v.members && k != REF
    requires CleanMember(pk, v, k, path, left) && Unroll(pk, v.members[k], path, left).Some?
    ensures CleanMember(pk, v, k, path, more)
    decreases left, v, 0
  {
    var s := v.members[k];
    if k in LISTS {
      forall i | 0 <= i < |s.items|
        ensures Clean(pk, s.items[i], path, more)
      {
        ItemUnrolls(pk, s, path, left, i);
        CleanIsMonotone(pk, s.items[i], path, left, more);
      }
    } else if k in MAPS {
      SchemaMapHasNoRef(pk, s, path, left);
      forall name | name in s.members
        ensures Clean(pk, s.members[name], path, more)
      {
        MemberUnrolls(pk, s, path, left, name);
        CleanIsMonotone(pk, s.members[name], path, left, more);
      }
    } else if k in SINGLES {
      CleanIsMonotone(pk, s, path, left, more);
    }
  }

  // Following references further than the bound changes nothing once inlining has succeeded.
  lemma MeaningNeedsNoMore(d: Dialect, pk: Package, v: Json, path: Path, left: nat, more: nat, x: Json)
    requires left <= more && Clean(pk, v, path, left) && Resolve(pk, v, path, left, []).Some?
    ensures Accepts(d, pk, v, path, left, x) <==> Accepts(d, pk, v, path, more, x)
  {
    CycleCheckEqualsDepthBound(pk, v, path, left);
    UnrollIsMonotone(pk, v, path, left, more);
    CleanIsMonotone(pk, v, path, left, more);
    Preserved(d, pk, v, path, left, path, 0, x);
    Preserved(d, pk, v, path, more, path, 0, x);
  }
}
