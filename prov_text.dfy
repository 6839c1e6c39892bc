/** The two text forms the provenance objects are written in: a flat JSON
    object whose members are all strings, and the PROV-N notation of
    section 5 of the W3C PROV-N recommendation, `kind(id, [key="value", ...])`
    for an element and `kind(a, b)` for a relation. Neither form escapes
    anything, so each comes with a reader that recovers the fields exactly
    when no field contains the characters that delimit it. */
module ProvText {
  import opened Wrappers
  import opened JavaStrings

  type Field = (string, string)

  /** A string that can sit between double quotes unescaped. */
  predicate Plain(s: string)
  {
    '"' !in s
  }

  predicate AllPlain(fs: seq<Field>)
  {
    forall i :: 0 <= i < |fs| ==> Plain(fs[i].0) && Plain(fs[i].1)
  }

  function Quoted(s: string): string
  {
    "\"" + s + "\""
  }

  // ---------------------------------------------------------------- JSON

  function JsonMember(f: Field): string
  {
    Quoted(f.0) + ":" + Quoted(f.1)
  }

  /** The members, separated by commas. */
  function JsonMembers(fs: seq<Field>): string
  {
    if |fs| == 0 then ""
    else if |fs| == 1 then JsonMember(fs[0])
    else JsonMember(fs[0]) + "," + JsonMembers(fs[1..])
  }

  function JsonObject(fs: seq<Field>): string
  {
    "{" + JsonMembers(fs) + "}"
  }

  /** Reads a double-quoted string off the front of `s`. */
  function ReadQuoted(s: string): (r: Option<(string, string)>)
    ensures r.Some? ==> s == Quoted(r.value.0) + r.value.1 && Plain(r.value.0)
  {
    if |s| == 0 || s[0] != '"' then None
    else
      var j := IndexOf(s[1..], '"');
      if j < 0 then None
      else
        QuotedSplit(s, j + 1);
        Some((s[1..j + 1], s[j + 2..]))
  }

  lemma QuotedSplit(s: string, j: nat)
    requires 0 < j < |s| && s[0] == '"' && s[j] == '"' && Plain(s[1..][..j - 1])
    ensures s == Quoted(s[1..j]) + s[j + 1..] && Plain(s[1..j])
  {
    assert s[1..][..j - 1] == s[1..j];
    assert s == [s[0]] + s[1..j] + [s[j]] + s[j + 1..];
  }

  lemma ReadQuotedOf(body: string, rest: string)
    requires Plain(body)
    ensures ReadQuoted(Quoted(body) + rest) == Some((body, rest))
  {
    var s := Quoted(body) + rest;
    assert s[1..] == body + ['"'] + rest;
    IndexOfAfter(body, '"', rest);
    assert s[1..|body| + 1] == body;
    assert s[|body| + 2..] == rest;
  }

  /** The first occurrence of `c` in `a + [c] + b`, when `a` lacks it, is right after `a`. */
  lemma IndexOfAfter(a: string, c: char, b: string)
    requires c !in a
    ensures IndexOf(a + [c] + b, c) == |a|
  {
    var s := a + [c] + b;
    assert s[|a|] == c;
    assert s[..|a|] == a;
  }

  /** Reads one `"key":"value"` member off the front of `s`. */
  function ReadMember(s: string): (r: Option<(Field, string)>)
    ensures r.Some? ==> |r.value.1| < |s|
  {
    match ReadQuoted(s)
    case None => None
    case Some((k, r1)) =>
      if |r1| == 0 || r1[0] != ':' then None
      else
        match ReadQuoted(r1[1..])
        case None => None
        case Some((v, r2)) => Some(((k, v), r2))
  }

  lemma ReadMemberOf(f: Field, rest: string)
    requires Plain(f.0) && Plain(f.1)
    ensures ReadMember(JsonMember(f) + rest) == Some((f, rest))
  {
    var tail := ":" + Quoted(f.1) + rest;
    assert JsonMember(f) + rest == Quoted(f.0) + tail;
    ReadQuotedOf(f.0, tail);
    assert tail[1..] == Quoted(f.1) + rest;
    ReadQuotedOf(f.1, rest);
  }

  /** Reads comma-separated `"key":"value"` members. */
  function ParseMembers(s: string): Option<seq<Field>>
    decreases |s|
  {
    if s == "" then Some([])
    else
      match ReadMember(s)
      case None => None
      case Some((f, r)) =>
        if r == "" then Some([f])
        else if r[0] == ',' && r[1..] != "" then
          match ParseMembers(r[1..])
          case None => None
          case Some(more) => Some([f] + more)
        else None
  }

  /** Reads a flat JSON object of string members. */
  function ParseJson(s: string): Option<seq<Field>>
  {
    if |s| >= 2 && s[0] == '{' && s[|s| - 1] == '}' then ParseMembers(s[1..|s| - 1]) else None
  }

  lemma JsonMembersNonEmpty(fs: seq<Field>)
    requires |fs| > 0
    ensures JsonMembers(fs) != ""
  {
  }

  lemma AllPlainTail(fs: seq<Field>)
    requires AllPlain(fs) && |fs| > 0
    ensures AllPlain(fs[1..]) && Plain(fs[0].0) && Plain(fs[0].1)
  {
    forall i | 0 <= i < |fs[1..]|
      ensures Plain(fs[1..][i].0) && Plain(fs[1..][i].1)
    {
      assert fs[1..][i] == fs[i + 1];
    }
  }

  lemma ParseMembersLast(f: Field)
    requires Plain(f.0) && Plain(f.1)
    ensures ParseMembers(JsonMember(f)) == Some([f])
  {
    ReadMemberOf(f, "");
    assert JsonMember(f) + "" == JsonMember(f);
  }

  lemma ParseMembersSingle(fs: seq<Field>)
    requires |fs| == 1 && AllPlain(fs)
    ensures ParseMembers(JsonMembers(fs)) == Some(fs)
  {
    ParseMembersLast(fs[0]);
    assert fs == [fs[0]];
  }

  lemma ParseMembersCons(f: Field, s: string, fs: seq<Field>)
    requires Plain(f.0) && Plain(f.1) && s != ""
    requires ParseMembers(s) == Some(fs)
    ensures ParseMembers(JsonMember(f) + "," + s) == Some([f] + fs)
  {
    var tail := "," + s;
    assert JsonMember(f) + "," + s == JsonMember(f) + tail;
    ReadMemberOf(f, tail);
    assert tail[1..] == s;
  }

  lemma {:induction false} ParseMembersOf(fs: seq<Field>)
    requires AllPlain(fs)
    ensures ParseMembers(JsonMembers(fs)) == Some(fs)
    decreases |fs|
  {
    if |fs| == 0 {
    } else if |fs| == 1 {
      ParseMembersSingle(fs);
    } else {
      AllPlainTail(fs);
      JsonMembersNonEmpty(fs[1..]);
      ParseMembersOf(fs[1..]);
      ParseMembersCons(fs[0], JsonMembers(fs[1..]), fs[1..]);
      assert [fs[0]] + fs[1..] == fs;
    }
  }

  /** Reading back a JSON object written from plain strings gives back its
      members, keys and values in order. */
  lemma JsonRoundTrip(fs: seq<Field>)
    requires AllPlain(fs)
    ensures ParseJson(JsonObject(fs)) == Some(fs)
  {
    var s := JsonObject(fs);
    assert s[1..|s| - 1] == JsonMembers(fs);
    ParseMembersOf(fs);
  }

  // ---------------------------------------------------------------- PROV-N

  function ProvNAttr(f: Field): string
  {
    f.0 + "=" + Quoted(f.1)
  }

  /** The attributes, separated by `", "`. */
  function ProvNAttrs(fs: seq<Field>): string
  {
    if |fs| == 0 then ""
    else if |fs| == 1 then ProvNAttr(fs[0])
    else ProvNAttr(fs[0]) + ", " + ProvNAttrs(fs[1..])
  }

  /** An element: `kind(id, [key="value", ...])`. */
  function ProvNElement(kind: string, id: string, fs: seq<Field>): string
  {
    kind + "(" + id + ", [" + ProvNAttrs(fs) + "])"
  }

  /** A relation: `kind(a, b)`. */
  function ProvNRelation(kind: string, a: string, b: string): string
  {
    kind + "(" + a + ", " + b + ")"
  }

  /** An attribute key ends at its `=` and a value between plain quotes. */
  predicate AttrsReadable(fs: seq<Field>)
  {
    forall i :: 0 <= i < |fs| ==> '=' !in fs[i].0 && Plain(fs[i].1)
  }

  /** Reads one `key="value"` attribute off the front of `s`. */
  function ReadAttr(s: string): (r: Option<(Field, string)>)
    ensures r.Some? ==> |r.value.1| < |s|
  {
    var e := IndexOf(s, '=');
    if e < 0 then None
    else
      match ReadQuoted(s[e + 1..])
      case None => None
      case Some((v, r)) => Some(((s[..e], v), r))
  }

  lemma ReadAttrOf(f: Field, rest: string)
    requires '=' !in f.0 && Plain(f.1)
    ensures ReadAttr(ProvNAttr(f) + rest) == Some((f, rest))
  {
    var s := ProvNAttr(f) + rest;
    assert s == f.0 + ['='] + (Quoted(f.1) + rest);
    IndexOfAfter(f.0, '=', Quoted(f.1) + rest);
    assert s[|f.0| + 1..] == Quoted(f.1) + rest;
    assert s[..|f.0|] == f.0;
    ReadQuotedOf(f.1, rest);
  }

  /** Reads `key="value"` attributes separated by `", "`. */
  function ParseAttrs(s: string): Option<seq<Field>>
    decreases |s|
  {
    if s == "" then Some([])
    else
      match ReadAttr(s)
      case None => None
      case Some((f, r)) =>
        if r == "" then Some([f])
        else if |r| > 2 && r[..2] == ", " then
          match ParseAttrs(r[2..])
          case None => None
          case Some(more) => Some([f] + more)
        else None
  }

  /** Splits `s` at the first `c`. */
  function ReadUntil(s: string, c: char): (r: Option<(string, string)>)
    ensures r.Some? ==> s == r.value.0 + [c] + r.value.1 && c !in r.value.0
  {
    var i := IndexOf(s, c);
    if i < 0 then None
    else
      assert s == s[..i] + [c] + s[i + 1..];
      Some((s[..i], s[i + 1..]))
  }

  lemma ReadUntilOf(a: string, c: char, b: string)
    requires c !in a
    ensures ReadUntil(a + [c] + b, c) == Some((a, b))
  {
    IndexOfAfter(a, c, b);
    var s := a + [c] + b;
    assert s[..|a|] == a && s[|a| + 1..] == b;
  }

  /** Reads `kind(id, [attributes])`: the kind ends at the first `(`, the id at the first `,`. */
  function ParseProvNElement(s: string): Option<(string, string, seq<Field>)>
  {
    match ReadUntil(s, '(')
    case None => None
    case Some((kind, rest)) =>
      match ReadUntil(rest, ',')
      case None => None
      case Some((id, after)) =>
        if |after| >= 4 && after[..2] == " [" && after[|after| - 2..] == "])" then
          match ParseAttrs(after[2..|after| - 2])
          case None => None
          case Some(fs) => Some((kind, id, fs))
        else None
  }

  /** Reads `kind(a, b)`: the kind ends at the first `(`, `a` at the first `,`. */
  function ParseProvNRelation(s: string): Option<(string, string, string)>
  {
    match ReadUntil(s, '(')
    case None => None
    case Some((kind, rest)) =>
      match ReadUntil(rest, ',')
      case None => None
      case Some((a, after)) =>
        if |after| >= 2 && after[0] == ' ' && after[|after| - 1] == ')' then
          Some((kind, a, after[1..|after| - 1]))
        else None
  }

  lemma ProvNAttrsNonEmpty(fs: seq<Field>)
    requires |fs| > 0
    ensures |ProvNAttrs(fs)| > 0
  {
  }

  lemma AttrsReadableTail(fs: seq<Field>)
    requires AttrsReadable(fs) && |fs| > 0
    ensures AttrsReadable(fs[1..]) && '=' !in fs[0].0 && Plain(fs[0].1)
  {
    forall i | 0 <= i < |fs[1..]|
      ensures '=' !in fs[1..][i].0 && Plain(fs[1..][i].1)
    {
      assert fs[1..][i] == fs[i + 1];
    }
  }

  lemma ParseAttrsSingle(fs: seq<Field>)
    requires |fs| == 1 && AttrsReadable(fs)
    ensures ParseAttrs(ProvNAttrs(fs)) == Some(fs)
  {
    ReadAttrOf(fs[0], "");
    assert ProvNAttr(fs[0]) + "" == ProvNAttr(fs[0]);
    assert fs == [fs[0]];
  }

  lemma ParseAttrsCons(f: Field, s: string, fs: seq<Field>)
    requires '=' !in f.0 && Plain(f.1) && s != ""
    requires ParseAttrs(s) == Some(fs)
    ensures ParseAttrs(ProvNAttr(f) + ", " + s) == Some([f] + fs)
  {
    var tail := ", " + s;
    assert ProvNAttr(f) + ", " + s == ProvNAttr(f) + tail;
    ReadAttrOf(f, tail);
    assert tail[..2] == ", " && tail[2..] == s;
  }

  lemma {:induction false} ParseAttrsOf(fs: seq<Field>)
    requires AttrsReadable(fs)
    ensures ParseAttrs(ProvNAttrs(fs)) == Some(fs)
    decreases |fs|
  {
    if |fs| == 0 {
    } else if |fs| == 1 {
      ParseAttrsSingle(fs);
    } else {
      AttrsReadableTail(fs);
      ProvNAttrsNonEmpty(fs[1..]);
      ParseAttrsOf(fs[1..]);
      ParseAttrsCons(fs[0], ProvNAttrs(fs[1..]), fs[1..]);
      assert [fs[0]] + fs[1..] == fs;
    }
  }

  /** Reading back an element gives its kind, id and attributes, as long as
      the kind has no `(`, the id no `,`, no key an `=` and no value a quote. */
  lemma ProvNElementRoundTrip(kind: string, id: string, fs: seq<Field>)
    requires '(' !in kind && ',' !in id && AttrsReadable(fs)
    ensures ParseProvNElement(ProvNElement(kind, id, fs)) == Some((kind, id, fs))
  {
    var attrs := ProvNAttrs(fs);
    var after := " [" + attrs + "])";
    var rest := id + [','] + after;
    assert ProvNElement(kind, id, fs) == kind + ['('] + rest;
    ReadUntilOf(kind, '(', rest);
    ReadUntilOf(id, ',', after);
    assert after[..2] == " [" && after[|after| - 2..] == "])";
    assert after[2..|after| - 2] == attrs;
    ParseAttrsOf(fs);
  }

  /** Reading back a relation gives its kind and its two ends in order, as
      long as the kind has no `(` and the first end no `,`. */
  lemma ProvNRelationRoundTrip(kind: string, a: string, b: string)
    requires '(' !in kind && ',' !in a
    ensures ParseProvNRelation(ProvNRelation(kind, a, b)) == Some((kind, a, b))
  {
    var after := " " + b + ")";
    var rest := a + [','] + after;
    assert ProvNRelation(kind, a, b) == kind + ['('] + rest;
    ReadUntilOf(kind, '(', rest);
    ReadUntilOf(a, ',', after);
    assert after[1..|after| - 1] == b;
  }
}
