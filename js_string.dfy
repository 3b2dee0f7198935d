/** The few JavaScript string operations the query builders use:
    `String.prototype.trim` and joining tokens with single spaces. */
module JsString {

  /** The characters `String.prototype.trim` removes: ECMAScript WhiteSpace
      (tab, vertical tab, form feed, space, no-break space, zero-width
      no-break space and the other space separators) and LineTerminator. */
  predicate IsJsWhitespace(c: char) {
    || c == '\t' || c == '\n' || c == '\U{000B}' || c == '\U{000C}' || c == '\r'
    || c == ' ' || c == '\U{00A0}' || c == '\U{1680}'
    || ('\U{2000}' <= c <= '\U{200A}')
    || c == '\U{2028}' || c == '\U{2029}' || c == '\U{202F}' || c == '\U{205F}'
    || c == '\U{3000}' || c == '\U{FEFF}'
  }

  /** `s` without its leading whitespace; `TrimStartMeaning` states exactly
      what it removes. */
  function TrimStart(s: string): (r: string)
    ensures r == [] || !IsJsWhitespace(r[0])
  {
    if s != [] && IsJsWhitespace(s[0]) then TrimStart(s[1..]) else s
  }

  /** `s` without its trailing whitespace; `TrimEndMeaning` states exactly
      what it removes. */
  function TrimEnd(s: string): (r: string)
    ensures r == [] || !IsJsWhitespace(r[|r| - 1])
  {
    if s != [] && IsJsWhitespace(s[|s| - 1]) then TrimEnd(s[..|s| - 1]) else s
  }

  /** Trimming the start removes exactly the leading whitespace: the result is
      a suffix of `s`, everything before it is whitespace, and it does not
      begin with whitespace. */
  lemma {:induction false} TrimStartMeaning(s: string)
    ensures var r := TrimStart(s);
      && |r| <= |s| && r == s[|s| - |r|..]
      && (forall i :: 0 <= i < |s| - |r| ==> IsJsWhitespace(s[i]))
      && (r == [] || !IsJsWhitespace(r[0]))
  {
    if s != [] && IsJsWhitespace(s[0]) {
      var t := s[1..];
      TrimStartMeaning(t);
      var r := TrimStart(t);
      assert TrimStart(s) == r;
      assert t[|t| - |r|..] == s[|s| - |r|..];
      forall i | 0 <= i < |s| - |r| ensures IsJsWhitespace(s[i]) {
        if i > 0 { assert s[i] == t[i - 1]; }
      }
    }
  }

  /** Trimming the end removes exactly the trailing whitespace: the result is
      a prefix of `s`, everything after it is whitespace, and it does not end
      with whitespace. */
  lemma {:induction false} TrimEndMeaning(s: string)
    ensures var r := TrimEnd(s);
      && |r| <= |s| && r == s[..|r|]
      && (forall i :: |r| <= i < |s| ==> IsJsWhitespace(s[i]))
      && (r == [] || !IsJsWhitespace(r[|r| - 1]))
  {
    if s != [] && IsJsWhitespace(s[|s| - 1]) {
      var t := s[..|s| - 1];
      TrimEndMeaning(t);
      var r := TrimEnd(t);
      assert TrimEnd(s) == r;
      assert t[..|r|] == s[..|r|];
      forall i | |r| <= i < |s| ensures IsJsWhitespace(s[i]) {
        if i < |s| - 1 { assert s[i] == t[i]; }
      }
    }
  }

  /** `s.trim()`. */
  function Trim(s: string): string {
    TrimEnd(TrimStart(s))
  }

  /** The string a reduce builds by appending `' ' + token` for every token, from `''`. */
  function Spaced(ts: seq<string>): string {
    if ts == [] then "" else " " + ts[0] + Spaced(ts[1..])
  }

  /** `ts.join(' ')`. */
  function JoinSpaces(ts: seq<string>): string {
    if ts == [] then ""
    else if |ts| == 1 then ts[0]
    else ts[0] + " " + JoinSpaces(ts[1..])
  }

  /** A token that trimming cannot shorten: non-empty, no whitespace at either end. */
  predicate Plain(t: string) {
    |t| > 0 && !IsJsWhitespace(t[0]) && !IsJsWhitespace(t[|t| - 1])
  }

  lemma {:induction false} SpacedIsSpaceThenJoin(ts: seq<string>)
    requires ts != []
    ensures Spaced(ts) == " " + JoinSpaces(ts)
  {
    if |ts| == 1 {
      assert Spaced(ts[1..]) == "";
    } else {
      SpacedIsSpaceThenJoin(ts[1..]);
    }
  }

  lemma {:induction false} JoinEnds(ts: seq<string>)
    requires ts != [] && forall i :: 0 <= i < |ts| ==> Plain(ts[i])
    ensures |JoinSpaces(ts)| > 0
    ensures Plain(ts[0]) && JoinSpaces(ts)[0] == ts[0][0]
    ensures Plain(ts[|ts| - 1]) && JoinSpaces(ts)[|JoinSpaces(ts)| - 1] == ts[|ts| - 1][|ts[|ts| - 1]| - 1]
  {
    if |ts| > 1 {
      JoinEnds(ts[1..]);
      var j := JoinSpaces(ts[1..]);
      assert JoinSpaces(ts) == ts[0] + " " + j;
      assert ts[1..][|ts[1..]| - 1] == ts[|ts| - 1];
    }
  }

  lemma TrimStartKeeps(s: string)
    requires s == [] || !IsJsWhitespace(s[0])
    ensures TrimStart(s) == s
  {
  }

  lemma TrimEndKeeps(s: string)
    requires s == [] || !IsJsWhitespace(s[|s| - 1])
    ensures TrimEnd(s) == s
  {
  }

  /** Trimming leaves a plain token as it is. */
  lemma TrimPlain(s: string)
    requires Plain(s)
    ensures Trim(s) == s
  {
    TrimStartKeeps(s);
    TrimEndKeeps(s);
  }

  /** Trimming a reduce of `' ' + token` steps over plain tokens gives exactly the
      tokens joined by single spaces, and the empty string only for no tokens. */
  lemma TrimSpacedPlain(ts: seq<string>)
    requires forall i :: 0 <= i < |ts| ==> Plain(ts[i])
    ensures Trim(Spaced(ts)) == JoinSpaces(ts)
    ensures (Trim(Spaced(ts)) == "") <==> ts == []
  {
    if ts != [] {
      SpacedIsSpaceThenJoin(ts);
      JoinEnds(ts);
      var j := JoinSpaces(ts);
      assert (" " + j)[1..] == j;
      TrimStartKeeps(j);
      assert TrimStart(" " + j) == j;
      TrimEndKeeps(j);
    }
  }
}
