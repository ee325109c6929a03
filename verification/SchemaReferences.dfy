/**
 Which place a reference names, which references and keywords are refused, and how many references may be
 followed one after the other.
 */
module SchemaReferences {
  import opened Basics
  import opened Schemas
  import opened SchemaPointers
  import opened SchemaFacts

  /* References into files. */

  // The beginnings of a reference that leaves the package.
  ghost predicate Leaves(reference: string) {
    || "http:" <= reference || "https:" <= reference || "file:" <= reference || "urn:" <= reference
    || "//" <= reference
  }

  lemma RemoteExactlyWhen(reference: string)
    ensures Remote(reference) <==> Leaves(reference)
  {
    hide StartsWith;
    PrefixOf(reference, "http:");
    PrefixOf(reference, "https:");
    PrefixOf(reference, "file:");
    PrefixOf(reference, "urn:");
    PrefixOf(reference, "//");
  }

  lemma PrefixOf(s: string, prefix: string)
    ensures StartsWith(s, prefix) <==> prefix <= s
  {}

  lemma {:induction false} HashSplits(file: string, rest: string)
    requires '#' !in file
    ensures BeforeHash(file + "#" + rest) == file && AfterHash(file + "#" + rest) == rest
    ensures BeforeHash(file) == file && AfterHash(file) == ""
    decreases |file|
  {
    var whole := file + "#" + rest;
    if file == "" {
      assert whole[0] == '#' && whole[1..] == rest;
    } else {
      HashSplits(file[1..], rest);
      assert whole[0] == file[0] && whole[1..] == file[1..] + "#" + rest && file == [file[0]] + file[1..];
    }
  }

  // The file a reference text names from a document: the document itself where the text is empty.
  ghost predicate Names(pk: Package, current: Path, file: string, path: Path) {
    if file == "" then path == current else (current, file) in pk.locate && path == pk.locate[(current, file)]
  }

  lemma HashAddsNoPrefix(file: string, rest: string, prefix: string)
    requires '#' !in prefix && prefix <= file + "#" + rest
    ensures prefix <= file
  {
    var whole := file + "#" + rest;
    assert whole[|file|] == '#';
    assert |prefix| <= |file|;
    assert prefix == whole[..|prefix|] == file[..|prefix|];
  }

  lemma StaysLocal(file: string, rest: string)
    requires !Leaves(file)
    ensures !Remote(file + "#" + rest) && !Remote(file)
  {
    var whole := file + "#" + rest;
    RemoteExactlyWhen(whole);
    RemoteExactlyWhen(file);
    if "http:" <= whole { HashAddsNoPrefix(file, rest, "http:"); }
    if "https:" <= whole { HashAddsNoPrefix(file, rest, "https:"); }
    if "file:" <= whole { HashAddsNoPrefix(file, rest, "file:"); }
    if "urn:" <= whole { HashAddsNoPrefix(file, rest, "urn:"); }
    if "//" <= whole { HashAddsNoPrefix(file, rest, "//"); }
  }

  // A reference `file#pointer` names the place the pointer was written for, in that file, and a reference
  // `file` names the whole of it.
  lemma ReferenceNamesItsPlace(pk: Package, current: Path, file: string, path: Path, hops: seq<Hop>)
    requires '#' !in file && !Leaves(file) && Names(pk, current, file, path) && path in pk.documents
    requires Walk(pk.documents[path], hops).Some?
    ensures Followed(pk, current, Str(file + "#" + Pointer(hops))) == Some(Target(path, Pointer(hops)))
    ensures Content(pk, Target(path, Pointer(hops))) == Walk(pk.documents[path], hops)
    ensures Followed(pk, current, Str(file)) == Some(Target(path, ""))
    ensures Content(pk, Target(path, "")) == Some(pk.documents[path])
  {
    HashSplits(file, Pointer(hops));
    StaysLocal(file, Pointer(hops));
    PointerFindsItsPlace(pk.documents[path], hops);
    hide Remote, BeforeHash, AfterHash, Fragment, Pointer, Walk;
    assert Fragment(pk.documents[path], "") == Some(pk.documents[path]) by {
      WholeDocument(pk.documents[path]);
    }
  }

  lemma WholeDocument(document: Json)
    ensures Fragment(document, "") == Some(document)
  {}

  // Only places of the named file are ever found, and only by pointers: never by anchors.
  lemma FollowedIsAPlace(pk: Package, current: Path, reference: string) returns (hops: seq<Hop>)
    requires Followed(pk, current, Str(reference)).Some?
    ensures var t := Followed(pk, current, Str(reference)).value;
      && !Leaves(reference) && Names(pk, current, BeforeHash(reference), t.path) && t.path in pk.documents
      && t.fragment == AfterHash(reference) && (t.fragment == "" || t.fragment[0] == '/')
      && Content(pk, t) == Walk(pk.documents[t.path], hops)
  {
    RemoteExactlyWhen(reference);
    var t := Followed(pk, current, Str(reference)).value;
    hops := FragmentIsAPlace(pk.documents[t.path], t.fragment);
  }

  lemma FragmentIsAPlace(v: Json, fragment: string) returns (hops: seq<Hop>)
    requires Fragment(v, fragment).Some?
    ensures Walk(v, hops) == Fragment(v, fragment)
    ensures fragment == "" || fragment[0] == '/'
  {
    if fragment == "" {
      hops := [];
    } else {
      hops := DescentIsAPlace(v, Split(fragment[1..], '/'));
    }
  }

  lemma {:induction false} DescentIsAPlace(v: Json, parts: seq<string>) returns (hops: seq<Hop>)
    requires Descend(v, parts).Some?
    ensures Walk(v, hops) == Descend(v, parts)
    decreases |parts|
  {
    if parts == [] {
      hops := [];
    } else {
      var token := Token(parts[0]);
      var rest := DescentIsAPlace(Step(v, token).value, parts[1..]);
      var hop := if v.Obj? then Key(token) else At(Index(token).value);
      hops := [hop] + rest;
      assert hops[1..] == rest;
    }
  }

  // An array index is read from the decimal text of a number and from nothing else.
  lemma IndexExactlyWhen(token: string, n: nat)
    ensures Index(token) == Some(n) <==> token == Decimal(n)
  {
    DecimalReads(n);
    if Index(token) == Some(n) { DecimalOfValue(token); }
  }

  lemma DigitOf(c: char)
    requires '0' <= c <= '9'
    ensures '0' + (c - '0') as nat as char == c && 0 <= (c - '0') as nat < 10
  {}

  lemma DecimalStep(n: nat, digit: nat)
    requires n > 0 && digit < 10
    ensures Decimal(10 * n + digit) == Decimal(n) + ['0' + digit as char]
  {
    var m := 10 * n + digit;
    assert m / 10 == n && m % 10 == digit;
  }

  lemma {:induction false} DecimalOfValue(s: string)
    requires Digits(s) && (s[0] == '0' ==> |s| == 1)
    ensures Decimal(Value(s)) == s && (s[0] != '0' ==> Value(s) > 0)
    decreases |s|
  {
    var last := s[|s| - 1];
    var front := s[..|s| - 1];
    assert s == front + [last];
    DigitOf(last);
    if front == "" {
      assert Value(front) == 0;
    } else {
      hide Decimal;
      assert front[0] == s[0];
      DecimalOfValue(front);
      DecimalStep(Value(front), (last - '0') as nat);
    }
  }

  /* What is refused. */

  // A reference that leaves the package resolves nowhere.
  lemma RemoteIsRefused(pk: Package, v: Json, path: Path, left: int, stack: seq<Target>)
    requires left >= -1 && v.Obj? && "$ref" in v.members
    requires v.members["$ref"].Str? ==> Leaves(v.members["$ref"].text)
    ensures Resolve(pk, v, path, left, stack) == None
  {
    if v.members["$ref"].Str? { RemoteExactlyWhen(v.members["$ref"].text); }
    hide Remote, Leaves, Forbidden;
  }

  // The keywords outside the supported subset.
  ghost predicate Offends(v: Json) {
    && v.Obj?
    && (|| ("type" in v.members && v.members["type"] == Str("number"))
        || "$dynamicRef" in v.members || "$recursiveRef" in v.members
        || "formatMinimum" in v.members || "formatMaximum" in v.members)
  }

  lemma {:induction false} OffenceIsFound(v: Json, hops: seq<Hop>)
    requires Walk(v, hops).Some? && Offends(Walk(v, hops).value)
    ensures Forbidden(v)
    decreases |hops|
  {
    if hops != [] {
      match hops[0]
      case Key(name) => OffenceIsFound(v.members[name], hops[1..]);
      case At(index) => OffenceIsFound(v.items[index], hops[1..]);
    }
  }

  lemma {:induction false} FoundIsAnOffence(v: Json) returns (hops: seq<Hop>)
    requires Forbidden(v)
    ensures Walk(v, hops).Some? && Offends(Walk(v, hops).value)
    decreases v
  {
    if Offends(v) {
      hops := [];
    } else if v.Obj? {
      assert v.members.Keys !! FORBIDDEN;
      var k :| k in v.members && Forbidden(v.members[k]);
      var rest := FoundIsAnOffence(v.members[k]);
      hops := [Key(k)] + rest;
      assert hops[1..] == rest;
    } else {
      var i :| 0 <= i < |v.items| && Forbidden(v.items[i]);
      var rest := FoundIsAnOffence(v.items[i]);
      hops := [At(i)] + rest;
      assert hops[1..] == rest;
    }
  }

  // A document is refused exactly if some place in it, at any depth, offends.
  lemma RefusedExactlyWhen(v: Json)
    ensures Forbidden(v) <==> exists hops :: Walk(v, hops).Some? && Offends(Walk(v, hops).value)
  {
    if Forbidden(v) {
      var hops := FoundIsAnOffence(v);
    } else if hops :| Walk(v, hops).Some? && Offends(Walk(v, hops).value) {
      OffenceIsFound(v, hops);
    }
  }

  // Wherever the offence stands, nothing comes out.
  lemma OffendersNeverResolve(pk: Package, v: Json, hops: seq<Hop>, path: Path, left: int, stack: seq<Target>)
    requires left >= -1 && Walk(v, hops).Some? && Offends(Walk(v, hops).value)
    ensures Resolve(pk, v, path, left, stack) == None
  {
    OffenceIsFound(v, hops);
    hide Forbidden;
  }

  /* The bound. */

  // An array of `n` references, each to the next item, and the schema `true`.
  function Chain(n: nat): Json {
    Arr(seq(n + 1, i requires 0 <= i < n + 1 =>
      if i == n then Bool(true) else Obj(map["$ref" := Str("#" + Pointer([At(i + 1)]))])))
  }

  function ChainPackage(n: nat): Package {
    Package(map[], map[0 := Chain(n)])
  }

  lemma LinkFollows(n: nat, i: nat)
    requires i < n
    ensures var pk := ChainPackage(n);
      var t := Target(0, Pointer([At(i + 1)]));
      && Followed(pk, 0, Str("#" + Pointer([At(i + 1)]))) == Some(t) && Content(pk, t) == Some(Chain(n).items[i + 1])
  {
    var hops := [At(i + 1)];
    assert hops[1..] == [] && Walk(Chain(n).items[i + 1], []) == Some(Chain(n).items[i + 1]);
    assert Walk(Chain(n), hops) == Some(Chain(n).items[i + 1]);
    ReferenceNamesItsPlace(ChainPackage(n), 0, "", 0, hops);
    assert "" + "#" + Pointer(hops) == "#" + Pointer(hops);
  }

  lemma LinkIsAllowed(s: string)
    ensures !Forbidden(Obj(map["$ref" := Str(s)]))
  {}

  // A reference without siblings comes out as its target does, with one reference less to follow.
  lemma LinkUnrolls(pk: Package, text: string, t: Target, path: Path, left: nat)
    requires Followed(pk, path, Str(text)) == Some(t) && Content(pk, t).Some?
    ensures Unroll(pk, Obj(map["$ref" := Str(text)]), path, left) ==
      Unroll(pk, Content(pk, t).value, t.path, left - 1)
  {
    var link := Obj(map["$ref" := Str(text)]);
    assert link.members["$ref"] == Str(text);
    LinkIsAllowed(text);
    hide Forbidden, Followed, Content;
    assert UnrollMembers(pk, link, path, left) == map[];
    assert Whole(map[]) == Some(map[]);
  }

  lemma {:induction false} ChainUnrolls(n: nat, i: nat, left: int)
    requires i <= n && left >= -1
    ensures Unroll(ChainPackage(n), Chain(n).items[i], 0, left) == if n - i <= left then Some(Bool(true)) else None
    decreases n - i
  {
    if i < n && left >= 0 {
      hide Forbidden, Followed, Content, Pointer, Unroll;
      var text := "#" + Pointer([At(i + 1)]);
      LinkFollows(n, i);
      LinkUnrolls(ChainPackage(n), text, Target(0, Pointer([At(i + 1)])), 0, left);
      ChainUnrolls(n, i + 1, left - 1);
    }
  }

  // A chain of references resolves exactly if it is no longer than the bound.
  lemma ChainResolvesExactlyWhen(n: nat, left: nat)
    ensures Resolve(ChainPackage(n), Chain(n).items[0], 0, left, []) == if n <= left then Some(Bool(true)) else None
  {
    ChainUnrolls(n, 0, left);
    CycleCheckEqualsDepthBound(ChainPackage(n), Chain(n).items[0], 0, left);
  }
}
