/**
 Environment expansion in configuration strings (internal/config/config.go): every match of
 `\$\{([^}]+)\}|\$([A-Za-z_][A-Za-z0-9_]*)` is replaced by the variable's value, in one pass.
 The scanner below is related to the regular expression by what the expression matches.
 */
module ExpandEnv {
  import opened Outcomes

  predicate IdentStart(c: char) {
    'A' <= c <= 'Z' || 'a' <= c <= 'z' || c == '_'
  }

  predicate IdentPart(c: char) {
    IdentStart(c) || '0' <= c <= '9'
  }

  /** `text` is matched by the expression as a whole, with `name` in its capture group. */
  ghost predicate IsReference(text: string, name: string) {
    || (name != "" && '}' !in name && text == "${" + name + "}")
    || (name != "" && IdentStart(name[0]) && (forall c :: c in name ==> IdentPart(c)) && text == "$" + name)
  }

  const UPPER := "ABCDEFGHIJKLMNOPQRSTUVWXYZ"
  const LOWER := "abcdefghijklmnopqrstuvwxyz"
  const DIGITS := "0123456789"

  lemma RangeIsList(list: string, first: char, last: char, c: char)
    requires |list| == last as int - first as int + 1
    requires forall i :: 0 <= i < |list| ==> list[i] as int == first as int + i
    ensures c in list <==> first <= c <= last
  {
    if first <= c <= last { assert list[c as int - first as int] == c; }
  }

  /** The character classes, character by character. */
  lemma IdentifierCharacters(c: char)
    ensures IdentStart(c) <==> c in UPPER + LOWER + "_"
    ensures IdentPart(c) <==> c in UPPER + LOWER + "_" + DIGITS
  {
    RangeIsList(UPPER, 'A', 'Z', c);
    RangeIsList(LOWER, 'a', 'z', c);
    RangeIsList(DIGITS, '0', '9', c);
  }

  // ---------------------------------------------------------------- the scanner

  /** How many characters before the first '}', or all of them. */
  function UntilBrace(s: string): (n: nat)
    ensures n <= |s| && '}' !in s[..n] && (n < |s| ==> s[n] == '}')
  {
    if s == "" || s[0] == '}' then 0 else
      assert s[..1 + UntilBrace(s[1..])] == [s[0]] + s[1..][..UntilBrace(s[1..])];
      1 + UntilBrace(s[1..])
  }

  /** How many leading characters continue an identifier. */
  function IdentLength(s: string): (n: nat)
    ensures n <= |s| && (forall c :: c in s[..n] ==> IdentPart(c)) && (n < |s| ==> !IdentPart(s[n]))
  {
    if s == "" || !IdentPart(s[0]) then 0 else
      assert s[..1 + IdentLength(s[1..])] == [s[0]] + s[1..][..IdentLength(s[1..])];
      1 + IdentLength(s[1..])
  }

  datatype Match = Match(length: nat, name: string)

  /** The match at the very start of `s`: the braced alternative first, then the bare one. */
  function MatchHere(s: string): Option<Match> {
    if |s| < 2 || s[0] != '$' then None
    else if s[1] == '{' then
      var n := UntilBrace(s[2..]);
      if n == 0 || n == |s[2..]| then None else Some(Match(n + 3, s[2..n + 2]))
    else if IdentStart(s[1]) then
      var n := IdentLength(s[1..]);
      Some(Match(n + 1, s[1..n + 1]))
    else None
  }

  datatype Token = Literal(c: char) | Reference(text: string, name: string)

  lemma MatchFits(s: string)
    ensures MatchHere(s).Some? ==>
              var m := MatchHere(s).value;
              0 < m.length <= |s| && IsReference(s[..m.length], m.name)
  {
    if MatchHere(s).Some? {
      var m := MatchHere(s).value;
      if s[1] == '{' {
        assert s[..m.length] == "${" + m.name + "}";
      } else {
        assert IdentLength(s[1..]) > 0;
        assert s[..m.length] == "$" + m.name;
      }
    }
  }

  function Tokens(s: string): seq<Token>
    decreases |s|
  {
    if s == "" then [] else
      MatchFits(s);
      match MatchHere(s)
      case Some(m) => [Reference(s[..m.length], m.name)] + Tokens(s[m.length..])
      case None => [Literal(s[0])] + Tokens(s[1..])
  }

  /** The callback of ReplaceAllStringFunc, which matches the matched text once more for its groups. */
  function Replacement(text: string, env: string -> string): string {
    match MatchHere(text)
    case Some(m) => env(m.name)
    case None => env("")
  }

  function Expand(s: string, env: string -> string): string
    decreases |s|
  {
    if s == "" then "" else
      MatchFits(s);
      match MatchHere(s)
      case Some(m) => Replacement(s[..m.length], env) + Expand(s[m.length..], env)
      case None => [s[0]] + Expand(s[1..], env)
  }

  // ---------------------------------------------------------------- the match is the expression's

  lemma {:induction false} FirstBraceAt(s: string, k: nat)
    requires k < |s| && s[k] == '}' && '}' !in s[..k]
    ensures UntilBrace(s) == k
  {
    if k > 0 {
      assert s[0] in s[..k] && s[1..][..k - 1] == s[..k][1..];
      FirstBraceAt(s[1..], k - 1);
    }
  }

  lemma BracedReference(s: string, e: nat, name: string)
    requires e <= |s| && name != "" && '}' !in name && s[..e] == "${" + name + "}"
    ensures MatchHere(s) == Some(Match(e, name))
  {
    assert e == |name| + 3 && s[0] == s[..e][0] && s[1] == s[..e][1];
    assert s[2..|name| + 2] == s[..e][2..|name| + 2] == name;
    assert s[2..][|name|] == s[..e][|name| + 2] == '}';
    assert s[2..][..|name|] == name;
    FirstBraceAt(s[2..], |name|);
  }

  lemma BareReference(s: string, e: nat, name: string)
    requires e <= |s| && name != "" && IdentStart(name[0]) && (forall c :: c in name ==> IdentPart(c))
    requires s[..e] == "$" + name
    ensures MatchHere(s).Some? && MatchHere(s).value.length >= e
  {
    assert e == |name| + 1 && s[0] == s[..e][0] && s[1] == s[..e][1] == name[0];
    var rest := s[1..];
    assert rest[..|name|] == name;
    assert forall i :: 0 <= i < |name| ==> rest[i] == name[i] && name[i] in name;
  }

  /** The scanner finds a match exactly where the expression has one, and takes the longest. */
  lemma MatchIsLongestReference(s: string)
    ensures MatchHere(s).Some? <==> exists e, name :: 0 <= e <= |s| && IsReference(s[..e], name)
    ensures MatchHere(s).Some? ==>
              var m := MatchHere(s).value;
              && m.length <= |s| && IsReference(s[..m.length], m.name)
              && forall e, name :: 0 <= e <= |s| && IsReference(s[..e], name) ==>
                   e <= m.length && (e == m.length ==> name == m.name)
  {
    MatchFits(s);
    forall e, name | 0 <= e <= |s| && IsReference(s[..e], name)
      ensures MatchHere(s).Some? && e <= MatchHere(s).value.length
      ensures e == MatchHere(s).value.length ==> name == MatchHere(s).value.name
    {
      if name != "" && '}' !in name && s[..e] == "${" + name + "}" {
        BracedReference(s, e, name);
      } else {
        BareReference(s, e, name);
        var m := MatchHere(s).value;
        assert s[1] == s[..e][1] == name[0];
        if e == m.length { assert m.name == s[..e][1..] == name; }
      }
    }
  }

  /** Matching the matched text again captures the same name, all of it. */
  lemma RematchCapturesSameName(s: string)
    requires MatchHere(s).Some?
    ensures MatchHere(s).value.length <= |s|
    ensures MatchHere(s[..MatchHere(s).value.length]) == MatchHere(s)
  {
    MatchFits(s);
    var m := MatchHere(s).value;
    var text := s[..m.length];
    assert text[..m.length] == text;
    if s[1] == '{' {
      assert text == "${" + m.name + "}" && '}' !in m.name;
      BracedReference(text, m.length, m.name);
    } else {
      assert text == "$" + m.name;
      BareReference(text, m.length, m.name);
      MatchFits(text);
    }
  }

  // ---------------------------------------------------------------- the scan

  function Print(tokens: seq<Token>): string {
    if tokens == [] then "" else
      (match tokens[0] case Literal(c) => [c] case Reference(text, _) => text) + Print(tokens[1..])
  }

  /**
   The tokens cut their own printing as the expression does, leftmost and longest: a reference
   is the longest match at its place, and no match starts at a literal.
   */
  ghost predicate LeftmostLongest(tokens: seq<Token>) {
    tokens == [] ||
    (var s := Print(tokens);
     && LeftmostLongest(tokens[1..])
     && match tokens[0]
        case Literal(_) => forall e, name :: 0 <= e <= |s| ==> !IsReference(s[..e], name)
        case Reference(text, name) =>
          && IsReference(text, name)
          && forall e, other :: |text| < e <= |s| ==> !IsReference(s[..e], other))
  }

  lemma PrintFirst(token: Token, rest: seq<Token>)
    ensures Print([token] + rest) == (match token case Literal(c) => [c] case Reference(text, _) => text) + Print(rest)
  {
    assert ([token] + rest)[1..] == rest;
  }

  /** The first token, and what is scanned after it. */
  lemma FirstToken(s: string) returns (token: Token, n: nat)
    requires s != ""
    ensures 0 < n <= |s| && Tokens(s) == [token] + Tokens(s[n..])
    ensures s[..n] == match token case Literal(c) => [c] case Reference(text, _) => text
  {
    MatchFits(s);
    match MatchHere(s)
    case Some(m) => return Reference(s[..m.length], m.name), m.length;
    case None => return Literal(s[0]), 1;
  }

  lemma {:induction false} ScanIsLossless(s: string)
    ensures Print(Tokens(s)) == s
    decreases |s|
  {
    if s != "" {
      var token, n := FirstToken(s);
      ScanIsLossless(s[n..]);
      PrintFirst(token, Tokens(s[n..]));
      assert s[..n] + s[n..] == s;
    }
  }

  lemma {:induction false} ScanIsLeftmostLongest(s: string)
    ensures LeftmostLongest(Tokens(s))
    decreases |s|
  {
    if s != "" {
      MatchFits(s);
      ScanIsLossless(s);
      MatchIsLongestReference(s);
      match MatchHere(s)
      case Some(m) =>
        ScanIsLeftmostLongest(s[m.length..]);
        assert Tokens(s)[1..] == Tokens(s[m.length..]);
      case None =>
        ScanIsLeftmostLongest(s[1..]);
        assert Tokens(s)[1..] == Tokens(s[1..]);
    }
  }

  lemma LiteralFirst(c: char, rest: string)
    requires forall e, name :: 0 <= e <= |[c] + rest| ==> !IsReference(([c] + rest)[..e], name)
    ensures Tokens([c] + rest) == [Literal(c)] + Tokens(rest)
  {
    MatchIsLongestReference([c] + rest);
    assert ([c] + rest)[1..] == rest;
  }

  lemma ReferenceFirst(text: string, name: string, rest: string)
    requires IsReference(text, name)
    requires forall e, other :: |text| < e <= |text + rest| ==> !IsReference((text + rest)[..e], other)
    ensures Tokens(text + rest) == [Reference(text, name)] + Tokens(rest)
  {
    var s := text + rest;
    MatchIsLongestReference(s);
    assert s[..|text|] == text && s[|text|..] == rest;
    assert MatchHere(s) == Some(Match(|text|, name));
  }

  /** No other way of cutting the string obeys the expression. */
  lemma {:induction false} ScanIsUnique(tokens: seq<Token>)
    requires LeftmostLongest(tokens)
    ensures Tokens(Print(tokens)) == tokens
  {
    if tokens != [] {
      ScanIsUnique(tokens[1..]);
      assert tokens == [tokens[0]] + tokens[1..];
      PrintFirst(tokens[0], tokens[1..]);
      match tokens[0]
      case Literal(c) => LiteralFirst(c, Print(tokens[1..]));
      case Reference(text, name) => ReferenceFirst(text, name, Print(tokens[1..]));
    }
  }

  function Values(tokens: seq<Token>, env: string -> string): string {
    if tokens == [] then "" else
      (match tokens[0] case Literal(c) => [c] case Reference(_, name) => env(name)) + Values(tokens[1..], env)
  }

  /** The result is the literals and the values, side by side: a value is never scanned again. */
  lemma {:induction false} ExpansionOfTokens(s: string, env: string -> string)
    ensures Expand(s, env) == Values(Tokens(s), env)
    decreases |s|
  {
    if s != "" {
      MatchFits(s);
      match MatchHere(s)
      case Some(m) =>
        RematchCapturesSameName(s);
        ExpansionOfTokens(s[m.length..], env);
        assert Tokens(s)[1..] == Tokens(s[m.length..]);
      case None =>
        ExpansionOfTokens(s[1..], env);
        assert Tokens(s)[1..] == Tokens(s[1..]);
    }
  }
}
