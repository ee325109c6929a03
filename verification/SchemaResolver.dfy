/**
 The resolver in its own form: an object that caches every document it has read and pushes and pops the
 references it is following.
 */
module SchemaResolvers {
  import opened Basics
  import opened Schemas

  // `done` holds the results of all members but those in `remaining`.
  ghost predicate Collected(all: map<string, Option<Json>>, done: map<string, Json>, remaining: set<string>) {
    && remaining <= all.Keys && done.Keys == all.Keys - remaining
    && forall k :: k in done ==> all[k] == Some(done[k])
  }

  lemma CollectOne(all: map<string, Option<Json>>, done: map<string, Json>, remaining: set<string>, k: string,
      child: Json)
    requires Collected(all, done, remaining) && k in remaining && all[k] == Some(child)
    ensures Collected(all, done[k := child], remaining - {k})
  {}

  lemma CollectedAll(all: map<string, Option<Json>>, done: map<string, Json>)
    requires Collected(all, done, {})
    ensures Whole(all) == Some(done)
  {
    assert (map k | k in all :: all[k].value) == done;
  }

  lemma FailureSpreads(all: map<string, Option<Json>>, k: string)
    requires k in all && all[k].None?
    ensures Whole(all) == None
  {}

  class SchemaResolver {
    const package: Package
    var documents: map<Path, Json>
    var stack: seq<Target>

    constructor (package: Package)
      ensures this.package == package && Valid() && documents == map[] && stack == []
    {
      this.package := package;
      documents, stack := map[], [];
    }

    // The cache holds what the package holds.
    ghost predicate Valid()
      reads this
    {
      forall path :: path in documents ==> path in package.documents && documents[path] == package.documents[path]
    }

    // Reads a document at most once.
    method LoadFinal(path: Path) returns (document: Option<Json>)
      requires Valid()
      modifies this`documents
      ensures Valid() && old(documents.Keys) <= documents.Keys <= old(documents.Keys) + {path}
      ensures document == if path in package.documents then Some(package.documents[path]) else None
      ensures path in old(documents) ==> documents == old(documents)
    {
      if path in documents { return Some(documents[path]); }
      if path !in package.documents { return None; }
      documents := documents[path := package.documents[path]];
      document := Some(documents[path]);
    }

    method Follow(current: Path, reference: Json) returns (target: Option<Target>, schema: Option<Json>)
      requires Valid()
      modifies this`documents
      ensures Valid() && old(documents.Keys) <= documents.Keys
      ensures target == Followed(package, current, reference)
      ensures target.Some? ==> schema == Content(package, target.value)
    {
      target, schema := None, None;
      if !reference.Str? { return; }
      var t := Referenced(package, current, reference.text);
      if t.None? { return; }
      var document := LoadFinal(t.value.path);
      if document.None? { return; }
      schema := Fragment(document.value, t.value.fragment);
      if schema.Some? { target := t; }
    }

    // What a call leaves: on success the stack is as it was, and the cache only grows.
    twostate predicate Restored(result: Option<Json>)
      reads this
    {
      Valid() && old(documents.Keys) <= documents.Keys && (result.Some? ==> stack == old(stack))
    }

    method ResolveSchema(v: Json, path: Path, left: int) returns (result: Option<Json>)
      requires Valid() && left >= -1
      modifies this`documents, this`stack
      ensures result == Resolve(package, v, path, left, old(stack))
      ensures Restored(result)
      decreases left, v, 1
    {
      if left < 0 || Forbidden(v) { return None; }
      match v {
        case Obj(members) =>
          if REF !in members {
            var resolved := ResolveMembersOf(v, path, left);
            result := Object(resolved);
          } else {
            var target, schema := Follow(path, members[REF]);
            if target.None? || target.value in stack { return None; }
            stack := stack + [target.value];
            var inlined := ResolveSchema(schema.value, target.value.path, left - 1);
            if inlined.None? { return None; }
            stack := stack[..|stack| - 1];
            assert stack == old(stack);
            var siblings := ResolveMembersOf(v, path, left);
            result := JoinedIfBoth(inlined, siblings);
          }
        case Arr(items) =>
          var resolved := ResolveItemsOf(v, path, left);
          result := Array(resolved);
        case _ => result := Some(v);
      }
    }

    // Every member but the reference itself, one after the other, up to the first failure.
    method ResolveMembersOf(v: Json, path: Path, left: int) returns (resolved: Option<map<string, Json>>)
      requires Valid() && left >= -1 && v.Obj?
      modifies this`documents, this`stack
      ensures resolved == Whole(ResolveMembers(package, v, path, left, old(stack)))
      ensures Valid() && old(documents.Keys) <= documents.Keys
      ensures resolved.Some? ==> stack == old(stack)
      decreases left, v, 0
    {
      var remaining := v.members.Keys - {REF};
      var done: map<string, Json> := map[];
      ghost var all := ResolveMembers(package, v, path, left, stack);
      assert Collected(all, done, remaining);
      while remaining != {}
        invariant Valid() && old(documents.Keys) <= documents.Keys && stack == old(stack)
        invariant remaining <= v.members.Keys - {REF} && Collected(all, done, remaining)
        decreases |remaining|
      {
        hide Resolve, Forbidden, Collected, Whole;
        var k :| k in remaining;
        var child := ResolveSchema(v.members[k], path, left);
        assert all[k] == child;
        if child.None? {
          FailureSpreads(all, k);
          return None;
        }
        CollectOne(all, done, remaining, k, child.value);
        done := done[k := child.value];
        remaining := remaining - {k};
      }
      CollectedAll(all, done);
      resolved := Some(done);
    }

    method ResolveItemsOf(v: Json, path: Path, left: int) returns (resolved: Option<seq<Json>>)
      requires Valid() && left >= -1 && v.Arr?
      modifies this`documents, this`stack
      ensures resolved == WholeSeq(ResolveItems(package, v, path, left, old(stack)))
      ensures Valid() && old(documents.Keys) <= documents.Keys
      ensures resolved.Some? ==> stack == old(stack)
      decreases left, v, 0
    {
      var done: seq<Json> := [];
      ghost var all := ResolveItems(package, v, path, left, stack);
      hide Resolve, Forbidden;
      while |done| < |v.items|
        invariant Valid() && old(documents.Keys) <= documents.Keys && stack == old(stack)
        invariant |done| <= |all| == |v.items|
        invariant forall i :: 0 <= i < |done| ==> all[i] == Some(done[i])
        decreases |v.items| - |done|
      {
        var child := ResolveSchema(v.items[|done|], path, left);
        assert child == all[|done|];
        if child.None? { return None; }
        done := done + [child.value];
      }
      assert seq(|all|, i requires 0 <= i < |all| => all[i].value) == done;
      resolved := Some(done);
    }

    // One schema of an action: resolved from its own document with an empty stack.
    method ResolveRoot(path: Path, bound: nat) returns (result: Option<Json>)
      requires Valid()
      modifies this`documents, this`stack
      ensures Valid()
      ensures path in package.documents ==> result == Resolve(package, package.documents[path], path, bound, [])
      ensures path !in package.documents ==> result == None
    {
      var root := LoadFinal(path);
      if root.None? { return None; }
      stack := [];
      result := ResolveSchema(root.value, path, bound);
    }
  }
}
