/** Models of the few JavaScript built-ins and idioms the pages rely on:
    optional fields, truthiness, `??`, `||` defaults, `toLowerCase`,
    `includes` and `trim`. */
module Js {

  /** A field that may be absent: `None` is JavaScript's `undefined` (or `null`). */
  datatype Option<T> = None | Some(value: T)

  /** A JSON value as it can arrive in a response field. Arrays and objects
      are not looked into; only their truthiness matters here. */
  datatype JsValue = JNull | JBool(b: bool) | JNum(n: real) | JStr(s: string) | JArray | JObject

  /** ECMAScript ToBoolean of an optional JSON value (an absent field is falsy). */
  predicate Truthy(v: Option<JsValue>)
  {
    match v
    case None => false
    case Some(JNull) => false
    case Some(JBool(b)) => b
    case Some(JNum(n)) => n != 0.0
    case Some(JStr(s)) => s != ""
    case Some(JArray) => true
    case Some(JObject) => true
  }

  /** Truthiness of an optional string: absent and "" are falsy. */
  predicate Present(s: Option<string>)
  {
    s.Some? && s.value != ""
  }

  /** `a ?? b`: the first operand unless it is null or undefined. */
  function Coalesce<T>(a: Option<T>, b: Option<T>): (r: Option<T>)
    ensures a.Some? ==> r == a
    ensures a.None? ==> r == b
  {
    if a.Some? then a else b
  }

  /** `(s || "")` on an optional string. */
  function OrEmpty(s: Option<string>): (r: string)
    ensures Present(s) <==> r != ""
    ensures Present(s) ==> r == s.value
  {
    if s.Some? then s.value else ""
  }

  /** `String.prototype.toLowerCase`, for the ASCII letters. */
  function LowerChar(c: char): (d: char)
    ensures 'A' <= c <= 'Z' ==> 'a' <= d <= 'z' && d as int - c as int == 32
    ensures !('A' <= c <= 'Z') ==> d == c
  {
    if 'A' <= c <= 'Z' then (c as int + 32) as char else c
  }

  function ToLower(s: string): (r: string)
    ensures |r| == |s|
    ensures forall i :: 0 <= i < |s| ==> r[i] == LowerChar(s[i])
  {
    seq(|s|, i requires 0 <= i < |s| => LowerChar(s[i]))
  }

  /** Lower-casing twice is lower-casing once. */
  lemma ToLowerIdempotent(s: string)
    ensures ToLower(ToLower(s)) == ToLower(s)
  {
  }

  /** `(name || "").toLowerCase().includes(query.toLowerCase())`: the
      case-insensitive name search every list on the site uses. */
  predicate NameMatches(name: Option<string>, query: string)
  {
    Includes(ToLower(OrEmpty(name)), ToLower(query))
  }

  /** An empty query matches every name, absent or not. */
  lemma EmptyQueryMatches(name: Option<string>)
    ensures NameMatches(name, "")
  {
    IncludesEmpty(ToLower(OrEmpty(name)));
  }

  /** The search ignores the case of ASCII letters in the query. */
  lemma QueryCaseIgnored(name: Option<string>, query: string)
    ensures NameMatches(name, ToLower(query)) == NameMatches(name, query)
  {
    ToLowerIdempotent(query);
  }

  /** An absent or empty name is matched only by the empty query. */
  lemma NamelessMatchesOnlyEmpty(name: Option<string>, query: string)
    requires !Present(name)
    ensures NameMatches(name, query) <==> query == ""
  {
    if query == "" {
      EmptyQueryMatches(name);
    }
  }

  /** `s.includes(t)`: `t` occurs in `s` as a contiguous block. */
  predicate Includes(s: string, t: string)
    decreases |s|
  {
    t <= s || (|s| > 0 && Includes(s[1..], t))
  }

  /** The empty string occurs in every string, so an empty search matches everything. */
  lemma IncludesEmpty(s: string)
    ensures Includes(s, "")
  {
  }

  /** The recursive definition agrees with the positional one: `t` occurs at some offset of `s`. */
  lemma {:induction false} IncludesAt(s: string, t: string)
    ensures Includes(s, t) <==> exists i :: 0 <= i <= |s| && t <= s[i..]
  {
    if |s| == 0 {
      if t <= s[0..] {
        assert t <= s;
      }
    } else {
      IncludesAt(s[1..], t);
      if Includes(s, t) {
        if t <= s {
          assert t <= s[0..];
        } else {
          var i :| 0 <= i <= |s[1..]| && t <= s[1..][i..];
          assert s[1..][i..] == s[i + 1..];
        }
      } else {
        forall i | 0 <= i <= |s|
          ensures !(t <= s[i..])
        {
          if i == 0 {
            assert s[0..] == s;
          } else {
            assert s[1..][i - 1..] == s[i..];
          }
        }
      }
    }
  }

  /** The characters `String.prototype.trim` removes: ECMAScript WhiteSpace and LineTerminator. */
  predicate IsJsSpace(c: char)
  {
    c == '\t' || c == '\n' || c == '\U{000B}' || c == '\U{000C}' || c == '\r' || c == ' '
    || c == '\U{00A0}' || c == '\U{1680}' || ('\U{2000}' <= c <= '\U{200A}')
    || c == '\U{2028}' || c == '\U{2029}' || c == '\U{202F}' || c == '\U{205F}'
    || c == '\U{3000}' || c == '\U{FEFF}'
  }

  predicate AllSpace(s: string)
  {
    forall i :: 0 <= i < |s| ==> IsJsSpace(s[i])
  }

  /** `trimStart`: drop leading whitespace. */
  function TrimStart(s: string): string
    decreases |s|
  {
    if |s| > 0 && IsJsSpace(s[0]) then TrimStart(s[1..]) else s
  }

  /** `trimEnd`: drop trailing whitespace. */
  function TrimEnd(s: string): string
    decreases |s|
  {
    if |s| > 0 && IsJsSpace(s[|s| - 1]) then TrimEnd(s[..|s| - 1]) else s
  }

  /** `String.prototype.trim`. */
  function Trim(s: string): string
  {
    TrimEnd(TrimStart(s))
  }

  /** `trimStart` removes exactly the leading run of whitespace. */
  lemma {:induction false} TrimStartDrops(s: string)
    ensures var r := TrimStart(s);
      |r| <= |s| && r == s[|s| - |r|..] && AllSpace(s[..|s| - |r|]) && (r == [] || !IsJsSpace(r[0]))
    decreases |s|
  {
    if |s| > 0 && IsJsSpace(s[0]) {
      TrimStartDrops(s[1..]);
      var r := TrimStart(s[1..]);
      assert s[1..][|s| - 1 - |r|..] == s[|s| - |r|..];
      assert s[..|s| - |r|] == [s[0]] + s[1..][..|s| - 1 - |r|];
    }
  }

  /** `trimEnd` removes exactly the trailing run of whitespace. */
  lemma {:induction false} TrimEndDrops(s: string)
    ensures var r := TrimEnd(s);
      |r| <= |s| && r == s[..|r|] && AllSpace(s[|r|..]) && (r == [] || !IsJsSpace(r[|r| - 1]))
    decreases |s|
  {
    if |s| > 0 && IsJsSpace(s[|s| - 1]) {
      var init := s[..|s| - 1];
      TrimEndDrops(init);
      var r := TrimEnd(init);
      assert init[..|r|] == s[..|r|];
      assert s[|r|..] == init[|r|..] + [s[|s| - 1]];
    }
  }

  /** A string with no whitespace at either end is its own trim. */
  lemma TrimUnpadded(s: string)
    requires |s| > 0 && !IsJsSpace(s[0]) && !IsJsSpace(s[|s| - 1])
    ensures Trim(s) == s
  {
  }

  /** What `trim` leaves has no whitespace at either end, and it is empty
      exactly when the input is all whitespace. */
  lemma TrimEdges(s: string)
    ensures Trim(s) == [] || (!IsJsSpace(Trim(s)[0]) && !IsJsSpace(Trim(s)[|Trim(s)| - 1]))
    ensures Trim(s) == [] <==> AllSpace(s)
  {
    var t := TrimStart(s);
    TrimStartDrops(s);
    TrimEndDrops(t);
    var r := TrimEnd(t);
    if r != [] {
      assert r[0] == t[0];
    }
    if r == [] {
      assert s == s[..|s| - |t|] + t;
    }
  }

  /** What `trim` leaves is a block of the original with only whitespace around it. */
  lemma TrimIsInnerBlock(s: string)
    ensures |TrimStart(s)| <= |s|
    ensures var r, a := Trim(s), |s| - |TrimStart(s)|;
      a + |r| <= |s| && r == s[a..a + |r|] && AllSpace(s[..a]) && AllSpace(s[a + |r|..])
  {
    var t := TrimStart(s);
    TrimStartDrops(s);
    TrimEndDrops(t);
    var r, a := TrimEnd(t), |s| - |t|;
    assert t == s[a..];
    assert r == t[..|r|];
    assert s[a..][..|r|] == s[a..a + |r|];
    assert s[a + |r|..] == t[|r|..];
  }
}
