/** The inliner's stack never decides the outcome, and inlining preserves what a schema accepts. */
module SchemaFacts {
  import opened Basics
  import opened Schemas

  /* The bound. */

  // A larger bound never changes a success.
  lemma {:induction false} UnrollIsMonotone(pk: Package, v: Json, path: Path, left: int, more: int)
    requires -1 <= left <= more && Unroll(pk, v, path, left).Some?
    ensures Unroll(pk, v, path, more) == Unroll(pk, v, path, left)
    decreases left, v
  {
    hide Forbidden, Content, Joined;
    match v
    case Obj(members) =>
      forall k | k in members && k != REF
        ensures Unroll(pk, members[k], path, more) == Unroll(pk, members[k], path, left)
      {
        MemberUnrolls(pk, v, path, left, k);
        UnrollIsMonotone(pk, members[k], path, left, more);
      }
      assert UnrollMembers(pk, v, path, left) == UnrollMembers(pk, v, path, more);
      if REF in members {
        var t := Followed(pk, path, members[REF]).value;
        UnrollIsMonotone(pk, Content(pk, t).value, t.path, left - 1, more - 1);
      }
    case Arr(items) =>
      forall i | 0 <= i < |items|
        ensures Unroll(pk, items[i], path, more) == Unroll(pk, items[i], path, left)
      {
        ItemUnrolls(pk, v, path, left, i);
        UnrollIsMonotone(pk, items[i], path, left, more);
      }
      assert UnrollItems(pk, v, path, left) == UnrollItems(pk, v, path, more);
    case _ =>
  }

  lemma MemberUnrolls(pk: Package, v: Json, path: Path, left: int, k: string)
    requires left >= -1 && v.Obj? && k in v.members && k != REF
    requires Unroll(pk, v, path, left).Some?
    ensures Unroll(pk, v.members[k], path, left).Some?
  {
    assert k in UnrollMembers(pk, v, path, left);
  }

  lemma ItemUnrolls(pk: Package, v: Json, path: Path, left: int, i: nat)
    requires left >= -1 && v.Arr? && i < |v.items|
    requires Unroll(pk, v, path, left).Some?
    ensures Unroll(pk, v.items[i], path, left).Some?
  {
    assert UnrollItems(pk, v, path, left)[i] == Unroll(pk, v.items[i], path, left);
  }

  /* The stack. */

  ghost predicate TooDeep(pk: Package, t: Target, left: int)
    requires left >= -1
  {
    Content(pk, t).Some? ==> Unroll(pk, Content(pk, t).value, t.path, left).None?
  }

  lemma {:induction false} LeastBound(pk: Package, t: Target, enough: int) returns (least: int)
    requires enough >= 0 && Content(pk, t).Some? && Unroll(pk, Content(pk, t).value, t.path, enough).Some?
    ensures 0 <= least <= enough && Unroll(pk, Content(pk, t).value, t.path, least).Some? && TooDeep(pk, t, least - 1)
    decreases enough
  {
    if enough > 0 && Unroll(pk, Content(pk, t).value, t.path, enough - 1).Some? {
      least := LeastBound(pk, t, enough - 1);
    } else {
      least := enough;
    }
  }

  lemma DeepStaysDeep(pk: Package, t: Target, less: int, left: int)
    requires -1 <= less <= left && TooDeep(pk, t, left)
    ensures TooDeep(pk, t, less)
  {
    if Content(pk, t).Some? && Unroll(pk, Content(pk, t).value, t.path, less).Some? {
      UnrollIsMonotone(pk, Content(pk, t).value, t.path, less, left);
    }
  }

  // If `v` unrolls within `enough`, while no target on the stack unrolls within one less, then following
  // `v` never meets the stack: a target met again could have been unrolled with a smaller bound before.
  lemma {:induction false} StackIsNeverMet(pk: Package, v: Json, path: Path, left: int, enough: int, stack: seq<Target>)
    requires 0 <= enough <= left && Unroll(pk, v, path, enough).Some?
    requires forall t :: t in stack ==> TooDeep(pk, t, enough - 1)
    ensures Resolve(pk, v, path, left, stack) == Unroll(pk, v, path, enough)
    decreases left, v, 1
  {
    hide Forbidden, Content, Joined, TooDeep;
    match v
    case Obj(members) =>
      forall k | k in members && k != REF
        ensures Resolve(pk, members[k], path, left, stack) == Unroll(pk, members[k], path, enough)
      {
        MemberUnrolls(pk, v, path, enough, k);
        StackIsNeverMet(pk, members[k], path, left, enough, stack);
      }
      assert ResolveMembers(pk, v, path, left, stack) == UnrollMembers(pk, v, path, enough);
      if REF in members {
        TargetResolves(pk, v, Followed(pk, path, members[REF]).value, left, enough, stack);
      }
    case Arr(items) =>
      forall i | 0 <= i < |items|
        ensures Resolve(pk, items[i], path, left, stack) == Unroll(pk, items[i], path, enough)
      {
        ItemUnrolls(pk, v, path, enough, i);
        StackIsNeverMet(pk, items[i], path, left, enough, stack);
      }
      assert ResolveItems(pk, v, path, left, stack) == UnrollItems(pk, v, path, enough);
    case _ =>
  }

  lemma {:induction false} TargetResolves(pk: Package, v: Json, t: Target, left: int, enough: int, stack: seq<Target>)
    requires 0 <= enough <= left && Content(pk, t).Some?
    requires Unroll(pk, Content(pk, t).value, t.path, enough - 1).Some?
    requires forall t :: t in stack ==> TooDeep(pk, t, enough - 1)
    ensures t !in stack
    ensures Resolve(pk, Content(pk, t).value, t.path, left - 1, stack + [t]) ==
      Unroll(pk, Content(pk, t).value, t.path, enough - 1)
    decreases left, v, 0
  {
    var least := LeastBound(pk, t, enough - 1);
    forall u | u in stack + [t]
      ensures TooDeep(pk, u, least - 1)
    {
      if u != t { DeepStaysDeep(pk, u, least - 1, enough - 1); }
    }
    StackIsNeverMet(pk, Content(pk, t).value, t.path, left - 1, least, stack + [t]);
    UnrollIsMonotone(pk, Content(pk, t).value, t.path, least, enough - 1);
  }

  // Whatever the stack, a success is the unrolling.
  lemma {:induction false} ResolvingIsUnrolling(pk: Package, v: Json, path: Path, left: int, stack: seq<Target>)
    requires left >= -1 && Resolve(pk, v, path, left, stack).Some?
    ensures Resolve(pk, v, path, left, stack) == Unroll(pk, v, path, left)
    decreases left, v
  {
    match v
    case Obj(members) =>
      forall k | k in members && k != REF
        ensures Resolve(pk, members[k], path, left, stack) == Unroll(pk, members[k], path, left)
      {
        assert k in ResolveMembers(pk, v, path, left, stack);
        ResolvingIsUnrolling(pk, members[k], path, left, stack);
      }
      assert ResolveMembers(pk, v, path, left, stack) == UnrollMembers(pk, v, path, left);
      if REF in members {
        var t := Followed(pk, path, members[REF]).value;
        ResolvingIsUnrolling(pk, Content(pk, t).value, t.path, left - 1, stack + [t]);
      }
    case Arr(items) =>
      forall i | 0 <= i < |items|
        ensures Resolve(pk, items[i], path, left, stack) == Unroll(pk, items[i], path, left)
      {
        assert ResolveItems(pk, v, path, left, stack)[i] == Resolve(pk, items[i], path, left, stack);
        ResolvingIsUnrolling(pk, items[i], path, left, stack);
      }
      assert ResolveItems(pk, v, path, left, stack) == UnrollItems(pk, v, path, left);
    case _ =>
  }

  // The cycle check decides nothing that the bound on the depth does not decide: with the stack and
  // without it the outcome is the same, success or failure, for every document and every bound.
  lemma CycleCheckEqualsDepthBound(pk: Package, v: Json, path: Path, left: int)
    requires left >= -1
    ensures Resolve(pk, v, path, left, []) == Unroll(pk, v, path, left)
  {
    if Resolve(pk, v, path, left, []).Some? {
      ResolvingIsUnrolling(pk, v, path, left, []);
    } else if Unroll(pk, v, path, left).Some? {
      StackIsNeverMet(pk, v, path, left, left, []);
    }
  }
}
