/**
 Where inlining is not harmless, and exactly when: data that looks like a reference, and keywords outside
 the supported subset that only the inlined document holds.
 */
module SchemaLimits {
  import opened Basics
  import opened Schemas
  import opened SchemaFacts
  import opened SchemaMeaning

  /* The supported subset. */

  // The value comes out as the text "number": it is that text, or a lone reference to such a value.
  predicate Number(pk: Package, s: Json, path: Path, left: nat)
    decreases left, s
  {
    || s == Str("number")
    || (s.Obj? && s.members.Keys == {REF} && left > 0 && Followed(pk, path, s.members[REF]).Some?
        && var t := Followed(pk, path, s.members[REF]).value; Number(pk, Content(pk, t).value, t.path, left - 1))
  }

  // Some part of the document, with its references followed, has a `type` that comes out as "number".
  predicate Hides(pk: Package, v: Json, path: Path, left: nat)
    decreases left, v
  {
    match v
    case Obj(members) =>
      || ("type" in members && Number(pk, members["type"], path, left))
      || (REF in members && left > 0 && Followed(pk, path, members[REF]).Some?
          && var t := Followed(pk, path, members[REF]).value; Hides(pk, Content(pk, t).value, t.path, left - 1))
      || exists k :: k in members && k != REF && Hides(pk, members[k], path, left)
    case Arr(items) => exists i :: 0 <= i < |items| && Hides(pk, items[i], path, left)
    case _ => false
  }

  lemma LoneReference(pk: Package, v: Json, path: Path, left: nat) returns (t: Target)
    requires v.Obj? && v.members.Keys == {REF} && Unroll(pk, v, path, left).Some?
    ensures left > 0 && Followed(pk, path, v.members[REF]) == Some(t) && Content(pk, t).Some?
    ensures Unroll(pk, v, path, left) == Unroll(pk, Content(pk, t).value, t.path, left - 1)
  {
    var siblings;
    t, siblings := UnrolledReference(pk, v, path, left);
    hide Unroll;
    assert siblings == map[];
  }

  lemma {:induction false} NumberExactlyWhen(pk: Package, s: Json, path: Path, left: nat)
    requires Unroll(pk, s, path, left).Some?
    ensures Unroll(pk, s, path, left).value == Str("number") <==> Number(pk, s, path, left)
    decreases left
  {
    if s.Obj? {
      if s.members.Keys == {REF} {
        var t := LoneReference(pk, s, path, left);
        NumberExactlyWhen(pk, Content(pk, t).value, t.path, left - 1);
      } else {
        NeverText(pk, s, path, left);
      }
    }
  }

  // An object with other members than a reference comes out as an object.
  lemma NeverText(pk: Package, v: Json, path: Path, left: nat)
    requires v.Obj? && v.members.Keys != {REF} && Unroll(pk, v, path, left).Some?
    ensures Unroll(pk, v, path, left).value.Obj?
  {
    if REF in v.members {
      var t, siblings := UnrolledReference(pk, v, path, left);
      hide Unroll;
      assert v.members.Keys == (v.members.Keys - {REF}) + {REF};
      assert siblings != map[];
    } else {
      UnrolledObject(pk, v, path, left);
    }
  }

  lemma JoinedForbidden(target: Json, siblings: map<string, Json>)
    ensures Forbidden(Joined(target, siblings)) <==> Forbidden(target) || Forbidden(Obj(siblings))
  {
    if siblings != map[] {
      var both := Arr([target, Obj(siblings)]);
      var o := Obj(map["allOf" := both]);
      assert o.members.Keys == {"allOf"} && o.members["allOf"] == both;
      assert both.items[0] == target && both.items[1] == Obj(siblings);
      assert Forbidden(o) <==> Forbidden(both);
    }
  }

  // Some member but the reference hides the refused type.
  predicate MemberHides(pk: Package, v: Json, path: Path, left: nat)
    requires v.Obj?
  {
    || ("type" in v.members && Number(pk, v.members["type"], path, left))
    || exists k :: k in v.members && k != REF && Hides(pk, v.members[k], path, left)
  }

  lemma {:induction false} MembersLeaveExactlyWhen(pk: Package, v: Json, path: Path, left: nat,
      result: map<string, Json>)
    requires v.Obj? && !Forbidden(v) && Inlined(pk, v.members, path, left, result)
    ensures Forbidden(Obj(result)) <==> MemberHides(pk, v, path, left)
    decreases left, v, 0
  {
    if "type" in v.members {
      assert "type" in result;
      NumberExactlyWhen(pk, v.members["type"], path, left);
    }
    forall k | k in result
      ensures Forbidden(result[k]) <==> Hides(pk, v.members[k], path, left)
    {
      OutputLeavesExactlyWhen(pk, v.members[k], path, left);
    }
    assert v.members.Keys !! FORBIDDEN;
    hide Unroll, Hides, Number;
  }

  // The output holds a keyword the subset refuses exactly if the document, with its references followed,
  // has a `type` that comes out as "number". The other refused keywords never come out.
  lemma {:induction false} OutputLeavesExactlyWhen(pk: Package, v: Json, path: Path, left: nat)
    requires Unroll(pk, v, path, left).Some?
    ensures Forbidden(Unroll(pk, v, path, left).value) <==> Hides(pk, v, path, left)
    decreases left, v, 1
  {
    match v
    case Obj(members) =>
      if REF in members {
        var t, siblings := UnrolledReference(pk, v, path, left);
        OutputLeavesExactlyWhen(pk, Content(pk, t).value, t.path, left - 1);
        MembersLeaveExactlyWhen(pk, v, path, left, siblings);
        JoinedForbidden(Unroll(pk, Content(pk, t).value, t.path, left - 1).value, siblings);
      } else {
        ObjectIsInlined(pk, v, path, left);
        MembersLeaveExactlyWhen(pk, v, path, left, Unroll(pk, v, path, left).value.members);
      }
    case Arr(items) =>
      UnrolledArray(pk, v, path, left);
      forall i | 0 <= i < |items|
        ensures Forbidden(Unroll(pk, v, path, left).value.items[i]) <==> Hides(pk, items[i], path, left)
      {
        OutputLeavesExactlyWhen(pk, items[i], path, left);
      }
    case _ =>
  }

  // The same of the resolver with its stack.
  lemma OutputStaysInSubsetExactlyWhen(pk: Package, v: Json, path: Path, left: nat)
    requires Resolve(pk, v, path, left, []).Some?
    ensures !Forbidden(Resolve(pk, v, path, left, []).value) <==> !Hides(pk, v, path, left)
  {
    CycleCheckEqualsDepthBound(pk, v, path, left);
    OutputLeavesExactlyWhen(pk, v, path, left);
  }

  // A value of the subset without references is inlined to itself.
  lemma {:induction false} SubsetIsFixed(pk: Package, v: Json, path: Path, left: nat)
    requires RefFree(v) && !Forbidden(v)
    ensures Unroll(pk, v, path, left) == Some(v)
    decreases v
  {
    match v
    case Obj(members) =>
      forall k | k in members
        ensures Unroll(pk, members[k], path, left) == Some(members[k])
      {
        SubsetIsFixed(pk, members[k], path, left);
      }
      var results := UnrollMembers(pk, v, path, left);
      assert results.Keys == members.Keys;
      assert (map k | k in results :: results[k].value) == members;
    case Arr(items) =>
      forall i | 0 <= i < |items|
        ensures Unroll(pk, items[i], path, left) == Some(items[i])
      {
        SubsetIsFixed(pk, items[i], path, left);
      }
      var results := UnrollItems(pk, v, path, left);
      assert seq(|results|, i requires 0 <= i < |results| => results[i].value) == items;
    case _ =>
  }

  // So inlining the output once more gives the same output, wherever it is placed, or fails, exactly by
  // the same condition.
  lemma InliningAgainExactlyWhen(pk: Package, v: Json, path: Path, left: nat, path': Path, left': nat)
    requires Resolve(pk, v, path, left, []).Some?
    ensures var o := Resolve(pk, v, path, left, []).value;
      Resolve(pk, o, path', left', []) == if Hides(pk, v, path, left) then None else Some(o)
  {
    var o := Resolve(pk, v, path, left, []).value;
    CycleCheckEqualsDepthBound(pk, v, path, left);
    CycleCheckEqualsDepthBound(pk, o, path', left');
    OutputLeavesExactlyWhen(pk, v, path, left);
    OutputIsRefFree(pk, v, path, left);
    if !Forbidden(o) { SubsetIsFixed(pk, o, path', left'); }
    hide Forbidden, RefFree, Hides;
  }

  /* Data. */

  // A keyword whose value is data, compared with the instance or read for a bound.
  predicate DataKeyword(k: string) {
    k !in LISTS && k !in MAPS && k !in SINGLES && k !in SILENT && k != REF
  }

  // A dialect in which the keyword demands its value.
  function Demands(k: string): Dialect {
    Dialect((keyword, demanded, x) => keyword == k ==> x == demanded, (pattern, name) => false)
  }

  // A schema without subschemas or references of its own.
  predicate Flat(v: Json) {
    v.Obj? && forall k :: k in v.members ==> DataKeyword(k) || k in SILENT
  }

  predicate DataIsRefFree(v: Json)
    requires v.Obj?
  {
    forall k :: k in v.members && DataKeyword(k) ==> RefFree(v.members[k])
  }

  lemma FlatAccepts(d: Dialect, pk: Package, v: Json, path: Path, left: nat, x: Json)
    requires Flat(v)
    ensures Accepts(d, pk, v, path, left, x) <==>
      forall k :: k in v.members && DataKeyword(k) ==> d.holds(k, v.members[k], x)
  {
    assert !DataKeyword(REF) && REF !in SILENT;
    AcceptsObject(d, pk, v, path, left, x);
    hide Accepts, Keyword, DataKeyword, AcceptsTarget;
    forall k | k in v.members && k != REF
      ensures Keyword(d, pk, v, k, path, left, x) <==> (DataKeyword(k) ==> d.holds(k, v.members[k], x))
    {
      FlatKeyword(d, pk, v, k, path, left, x);
    }
  }

  lemma FlatKeyword(d: Dialect, pk: Package, v: Json, k: string, path: Path, left: nat, x: Json)
    requires Flat(v) && k in v.members && k != REF
    ensures Keyword(d, pk, v, k, path, left, x) <==> (DataKeyword(k) ==> d.holds(k, v.members[k], x))
  {
    assert DataKeyword(k) || k in SILENT;
    hide Flat, ListHolds, MapHolds, SingleHolds;
  }

  lemma FlatOutput(pk: Package, v: Json, path: Path, left: nat)
    requires Flat(v) && Unroll(pk, v, path, left).Some?
    ensures var o := Unroll(pk, v, path, left).value;
      && Flat(o) && o.members.Keys == v.members.Keys
      && (forall k :: k in v.members ==>
        RefFree(o.members[k]) && (RefFree(v.members[k]) ==> o.members[k] == v.members[k]))
  {
    assert !DataKeyword(REF) && REF !in SILENT;
    UnrolledObject(pk, v, path, left);
    var o := Unroll(pk, v, path, left).value;
    hide Unroll, DataKeyword;
    forall k | k in v.members
      ensures RefFree(o.members[k]) && (RefFree(v.members[k]) ==> o.members[k] == v.members[k])
    {
      OutputIsRefFree(pk, v.members[k], path, left);
      if RefFree(v.members[k]) { RefFreeIsFixed(pk, v.members[k], path, left); }
    }
  }

  // A flat schema keeps its meaning, in every dialect and for every instance, exactly if no data in it
  // holds an object with a `$ref` member.
  lemma FlatSchemasKeepTheirMeaningExactlyWhen(pk: Package, v: Json, path: Path, left: nat)
    requires Flat(v) && Resolve(pk, v, path, left, []).Some?
    ensures var o := Resolve(pk, v, path, left, []).value;
      (forall d: Dialect, x: Json :: Accepts(d, pk, v, path, left, x) <==> Accepts(d, pk, o, path, left, x))
      <==> DataIsRefFree(v)
  {
    CycleCheckEqualsDepthBound(pk, v, path, left);
    FlatOutput(pk, v, path, left);
    var o := Unroll(pk, v, path, left).value;
    hide Accepts, Unroll, Resolve, RefFree, DataKeyword, Flat;
    forall d: Dialect, x: Json
      ensures Accepts(d, pk, v, path, left, x) <==> forall k :: k in v.members && DataKeyword(k) ==>
        d.holds(k, v.members[k], x)
      ensures Accepts(d, pk, o, path, left, x) <==> forall k :: k in o.members && DataKeyword(k) ==>
        d.holds(k, o.members[k], x)
    {
      FlatAccepts(d, pk, v, path, left, x);
      FlatAccepts(d, pk, o, path, left, x);
    }
    if !DataIsRefFree(v) {
      var k :| k in v.members && DataKeyword(k) && !RefFree(v.members[k]);
      var x := v.members[k];
      assert Accepts(Demands(k), pk, v, path, left, x) && !Accepts(Demands(k), pk, o, path, left, x);
    }
  }

  /* Documents on which it goes wrong. */

  // A document that wants its instances to be a certain object, which has a member called `$ref`.
  const DATA := Obj(map[REF := Str("#/a")])
  const Demanding := Obj(map["const" := DATA, "a" := Bool(true)])
  const OneFile := Package(map[], map[0 := Demanding])

  // `#/a` names the member `a` of the document it stands in.
  lemma LocalReference(pk: Package, members: map<string, Json>)
    requires 0 in pk.documents && pk.documents[0] == Obj(members) && "a" in members
    ensures Followed(pk, 0, Str("#/a")) == Some(Target(0, "/a")) && Content(pk, Target(0, "/a")) == Some(members["a"])
  {
    var reference := "#/a";
    assert reference[0] == '#' && !Remote(reference);
    assert reference[1..] == "/a" && AfterHash(reference) == "/a";
    var rest := Split("", '/');
    assert "a"[1..] == "" && rest == [""] && rest[1..] == [] && ['a'] + rest[0] == "a";
    assert Split("a", '/') == ["a"];
    assert Token("a") == "a";
    assert "/a"[1..] == "a";
    assert Descend(Obj(members), ["a"]) == Descend(members["a"], []);
  }

  lemma ReferenceResolves(pk: Package, members: map<string, Json>, left: nat)
    requires left > 0 && 0 in pk.documents && pk.documents[0] == Obj(members) && "a" in members
    requires members["a"].Bool? || members["a"].Str?
    ensures Resolve(pk, DATA, 0, left, []) == Some(members["a"])
  {
    LocalReference(pk, members);
    hide Followed, Content;
    var t := Target(0, "/a");
    assert !Forbidden(DATA);
    assert Resolve(pk, members["a"], 0, left - 1, [] + [t]) == Some(members["a"]);
    assert ResolveMembers(pk, DATA, 0, left, []) == map[];
  }

  lemma PairResolves(pk: Package, k: string, l: string, u: Json, u': Json, w: Json, left: nat)
    requires k != l && k != REF && l != REF && !Forbidden(Obj(map[k := u, l := w]))
    requires Resolve(pk, u, 0, left, []) == Some(u') && Resolve(pk, w, 0, left, []) == Some(w)
    ensures Resolve(pk, Obj(map[k := u, l := w]), 0, left, []) == Some(Obj(map[k := u', l := w]))
  {
    var pair := Obj(map[k := u, l := w]);
    ObjectResolves(pk, pair, left);
    hide Forbidden, Resolve, Whole;
    var results := ResolveMembers(pk, pair, 0, left, []);
    assert results.Keys == {k, l} && results[k] == Some(u') && results[l] == Some(w);
    hide ResolveMembers;
    WholePair(results, k, l, u', w);
  }

  lemma ObjectResolves(pk: Package, v: Json, left: nat)
    requires v.Obj? && REF !in v.members && !Forbidden(v)
    ensures Resolve(pk, v, 0, left, []) == Object(Whole(ResolveMembers(pk, v, 0, left, [])))
  {
    hide Forbidden, Whole, ResolveMembers;
  }

  lemma WholePair(results: map<string, Option<Json>>, k: string, l: string, u: Json, w: Json)
    requires k != l && results.Keys == {k, l} && results[k] == Some(u) && results[l] == Some(w)
    ensures Whole(results) == Some(map[k := u, l := w])
  {
    assert (map key | key in results :: results[key].value) == map[k := u, l := w];
  }

  const Rewritten := Obj(map["const" := Bool(true), "a" := Bool(true)])

  // The data of a `const` is rewritten like a schema. Inlining succeeds, and where `const` demands its
  // value the two disagree: the original accepts the object it names, the output only `true`.
  lemma DataIsRewritten(left: nat)
    requires left > 0
    ensures Resolve(OneFile, Demanding, 0, left, []) == Some(Rewritten)
    ensures Accepts(Demands("const"), OneFile, Demanding, 0, left, DATA)
    ensures !Accepts(Demands("const"), OneFile, Rewritten, 0, left, DATA)
  {
    ReferenceResolves(OneFile, Demanding.members, left);
    assert !Forbidden(DATA);
    hide Accepts, Resolve;
    PairResolves(OneFile, "const", "a", DATA, Bool(true), Bool(true), left);
    ConstDemands(OneFile, DATA, Bool(true), left, DATA);
    ConstDemands(OneFile, Bool(true), Bool(true), left, DATA);
  }

  lemma ConstDemands(pk: Package, s: Json, w: Json, left: nat, x: Json)
    ensures Accepts(Demands("const"), pk, Obj(map["const" := s, "a" := w]), 0, left, x) <==> x == s
  {
    var v := Obj(map["const" := s, "a" := w]);
    var d := Demands("const");
    assert DataKeyword("const") && DataKeyword("a");
    assert v.members.Keys == {"const", "a"} && v.members["const"] == s;
    FlatAccepts(d, pk, v, 0, left, x);
    hide Accepts, DataKeyword;
    assert d.holds("const", s, x) <==> x == s;
    assert d.holds("a", w, x);
  }

  const Hidden := Obj(map["type" := DATA, "a" := Str("number")])
  const HiddenFile := Package(map[], map[0 := Hidden])

  // The check of the supported subset looks at each part before inlining only: a reference can put the
  // refused `"type": "number"` together, so the output need not pass the check again.
  lemma OutputMayLeaveTheSubset(left: nat)
    requires left > 0
    ensures Resolve(HiddenFile, Hidden, 0, left, []).Some? && Forbidden(Resolve(HiddenFile, Hidden, 0, left, []).value)
  {
    ReferenceResolves(HiddenFile, Hidden.members, left);
    assert !Forbidden(DATA);
    PairResolves(HiddenFile, "type", "a", DATA, Str("number"), Str("number"), left);
    assert "type" in map["type" := Str("number"), "a" := Str("number")];
  }
}
