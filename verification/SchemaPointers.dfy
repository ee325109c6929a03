/** Fragments are JSON pointers (RFC 6901): the pointer written for a place in a document finds that place. */
module SchemaPointers {
  import opened Basics
  import opened Schemas

  datatype Hop = Key(name: string) | At(index: nat)

  function Walk(v: Json, hops: seq<Hop>): Option<Json>
    decreases |hops|
  {
    if hops == [] then Some(v)
    else
      match hops[0]
      case Key(name) => if v.Obj? && name in v.members then Walk(v.members[name], hops[1..]) else None
      case At(index) => if v.Arr? && index < |v.items| then Walk(v.items[index], hops[1..]) else None
  }

  // Section 3 of RFC 6901: `~` is written `~0` and `/` is written `~1`.
  function Escape(s: string): string {
    if s == "" then ""
    else (if s[0] == '~' then "~0" else if s[0] == '/' then "~1" else [s[0]]) + Escape(s[1..])
  }

  function EscapeTildes(s: string): string {
    if s == "" then "" else (if s[0] == '~' then "~0" else [s[0]]) + EscapeTildes(s[1..])
  }

  function Decimal(n: nat): string {
    if n < 10 then ['0' + n as char] else Decimal(n / 10) + ['0' + (n % 10) as char]
  }

  function Text(hop: Hop): string {
    if hop.Key? then Escape(hop.name) else Decimal(hop.index)
  }

  function Pointer(hops: seq<Hop>): string {
    if hops == [] then "" else "/" + Text(hops[0]) + Pointer(hops[1..])
  }

  function Texts(hops: seq<Hop>): seq<string> {
    seq(|hops|, i requires 0 <= i < |hops| => Text(hops[i]))
  }

  lemma {:induction false} UnescapeKeeps(s: string, code: char, plain: char)
    requires '~' !in s
    ensures Unescape(s, code, plain) == s
    decreases |s|
  {
    if |s| >= 2 {
      UnescapeKeeps(s[1..], code, plain);
      assert s == [s[0]] + s[1..];
    }
  }

  lemma UnescapePair(s: string, x: char, code: char, plain: char)
    requires x != '~'
    ensures Unescape(['~', x] + s, code, plain) == (if x == code then [plain] else ['~', x]) + Unescape(s, code, plain)
  {
    var t := ['~', x] + s;
    assert t[2..] == s && t[1..] == [x] + s;
    if x != code {
      UnescapePlain(s, x, code, plain);
      assert ['~'] + ([x] + Unescape(s, code, plain)) == ['~', x] + Unescape(s, code, plain);
    }
  }

  lemma UnescapePlain(s: string, x: char, code: char, plain: char)
    requires x != '~'
    ensures Unescape([x] + s, code, plain) == [x] + Unescape(s, code, plain)
  {
    var t := [x] + s;
    assert t[1..] == s;
    if |t| < 2 { assert s == ""; }
  }

  lemma {:induction false} SlashesComeBack(s: string)
    ensures Unescape(Escape(s), '1', '/') == EscapeTildes(s)
    decreases |s|
  {
    if s != "" {
      SlashesComeBack(s[1..]);
      if s[0] == '~' {
        UnescapePair(Escape(s[1..]), '0', '1', '/');
        assert Escape(s) == ['~', '0'] + Escape(s[1..]);
      } else if s[0] == '/' {
        UnescapePair(Escape(s[1..]), '1', '1', '/');
        assert Escape(s) == ['~', '1'] + Escape(s[1..]);
      } else {
        UnescapePlain(Escape(s[1..]), s[0], '1', '/');
      }
    }
  }

  lemma {:induction false} TildesComeBack(s: string)
    ensures Unescape(EscapeTildes(s), '0', '~') == s
    decreases |s|
  {
    if s != "" {
      TildesComeBack(s[1..]);
      assert s == [s[0]] + s[1..];
      if s[0] == '~' {
        UnescapePair(EscapeTildes(s[1..]), '0', '0', '~');
        assert EscapeTildes(s) == ['~', '0'] + EscapeTildes(s[1..]);
      } else {
        UnescapePlain(EscapeTildes(s[1..]), s[0], '0', '~');
      }
    }
  }

  lemma {:induction false} EscapeHasNoSlash(s: string)
    ensures '/' !in Escape(s)
    decreases |s|
  {
    if s != "" { EscapeHasNoSlash(s[1..]); }
  }

  lemma {:induction false} DecimalReads(n: nat)
    ensures var s := Decimal(n);
      Digits(s) && Value(s) == n && (s[0] == '0' ==> n == 0) && (n == 0 ==> |s| == 1)
    decreases n
  {
    var s := Decimal(n);
    if n < 10 {
      assert s[..|s| - 1] == "";
    } else {
      DecimalReads(n / 10);
      assert s[..|s| - 1] == Decimal(n / 10);
      assert s[0] == Decimal(n / 10)[0];
    }
  }

  lemma StepFinds(v: Json, hop: Hop)
    requires Walk(v, [hop]).Some?
    ensures Step(v, Token(Text(hop))) == Walk(v, [hop]) && '/' !in Text(hop)
  {
    match hop
    case Key(name) =>
      SlashesComeBack(name);
      TildesComeBack(name);
      EscapeHasNoSlash(name);
      assert Walk(v, [hop]) == Walk(v.members[name], []);
    case At(index) =>
      DecimalReads(index);
      UnescapeKeeps(Decimal(index), '1', '/');
      UnescapeKeeps(Decimal(index), '0', '~');
      assert Walk(v, [hop]) == Walk(v.items[index], []);
  }

  lemma {:induction false} SplitPart(part: string, rest: string)
    requires '/' !in part
    ensures Split(part, '/') == [part]
    ensures Split(part + "/" + rest, '/') == [part] + Split(rest, '/')
    decreases |part|
  {
    var whole := part + "/" + rest;
    if part == "" {
      assert whole[0] == '/' && whole[1..] == rest;
    } else {
      SplitPart(part[1..], rest);
      assert part == [part[0]] + part[1..];
      assert whole[0] == part[0] && whole[1..] == part[1..] + "/" + rest;
    }
  }

  lemma {:induction false} SplitPointer(v: Json, hops: seq<Hop>)
    requires hops != [] && Walk(v, hops).Some?
    ensures Pointer(hops)[0] == '/' && Split(Pointer(hops)[1..], '/') == Texts(hops)
    decreases |hops|
  {
    hide Walk, Step, Token, Text, Split;
    var rest := hops[1..];
    var text := Text(hops[0]);
    FirstHop(v, hops);
    StepFinds(v, hops[0]);
    assert Texts(hops) == [text] + Texts(rest);
    if rest == [] {
      SplitPart(text, "");
      assert Pointer(hops)[1..] == text;
    } else {
      SplitPointer(Walk(v, [hops[0]]).value, rest);
      SplitPart(text, Pointer(rest)[1..]);
      assert Pointer(rest) == "/" + Pointer(rest)[1..];
      assert Pointer(hops)[1..] == text + "/" + Pointer(rest)[1..];
    }
  }

  lemma FirstHop(v: Json, hops: seq<Hop>)
    requires hops != [] && Walk(v, hops).Some?
    ensures Walk(v, [hops[0]]).Some? && Walk(Walk(v, [hops[0]]).value, hops[1..]) == Walk(v, hops)
  {
    assert [hops[0]][1..] == [];
    match hops[0]
    case Key(name) => assert Walk(v, [hops[0]]) == Walk(v.members[name], []);
    case At(index) => assert Walk(v, [hops[0]]) == Walk(v.items[index], []);
  }

  lemma {:induction false} DescendWalks(v: Json, hops: seq<Hop>)
    requires Walk(v, hops).Some?
    ensures Descend(v, Texts(hops)) == Walk(v, hops)
    decreases |hops|
  {
    if hops != [] {
      FirstHop(v, hops);
      StepFinds(v, hops[0]);
      DescendWalks(Walk(v, [hops[0]]).value, hops[1..]);
      assert Texts(hops)[1..] == Texts(hops[1..]);
    }
  }

  // Every place in a document is found by the pointer written for it, whatever characters its names hold.
  lemma PointerFindsItsPlace(v: Json, hops: seq<Hop>)
    requires Walk(v, hops).Some?
    ensures Fragment(v, Pointer(hops)) == Walk(v, hops)
  {
    if hops != [] {
      SplitPointer(v, hops);
      DescendWalks(v, hops);
    }
  }
}
