/**
 * The JavaScript string operations the terminal relies on, stated over
 * Dafny strings (sequences of characters): `toLowerCase` (ASCII letters),
 * `trim`, `split` on one separator character, `join`, and the decimal
 * rendering of a natural number used by template strings.
 */
module TextUtil {

  datatype Option<T> = None | Some(value: T)

  /** The code points that JavaScript's `String.prototype.trim` removes:
      the WhiteSpace characters (including every space separator of
      category Zs) and the LineTerminator characters of ECMAScript. */
  predicate IsJsWhitespace(c: char) {
    c == '\t' || c == '\n' || c == '\U{000B}' || c == '\U{000C}' || c == '\r'
    || c == ' ' || c == '\U{00A0}' || c == '\U{1680}'
    || ('\U{2000}' <= c <= '\U{200A}')
    || c == '\U{2028}' || c == '\U{2029}' || c == '\U{202F}' || c == '\U{205F}'
    || c == '\U{3000}' || c == '\U{FEFF}'
  }

  predicate AllWhitespace(s: string) {
    forall i :: 0 <= i < |s| ==> IsJsWhitespace(s[i])
  }

  /** `toLowerCase` on one character, for the ASCII letters. */
  function LowerChar(c: char): (r: char)
    ensures 'A' <= c <= 'Z' ==> 'a' <= r <= 'z'
    ensures !('A' <= c <= 'Z') ==> r == c
  {
    if 'A' <= c <= 'Z' then (c as int + 32) as char else c
  }

  /** `toLowerCase` on a string, character by character. */
  function Lower(s: string): (r: string)
    ensures |r| == |s|
    ensures forall i :: 0 <= i < |s| ==> r[i] == LowerChar(s[i])
  {
    if s == [] then [] else [LowerChar(s[0])] + Lower(s[1..])
  }

  lemma {:induction false} LowerAppend(a: string, b: string)
    ensures Lower(a + b) == Lower(a) + Lower(b)
  {
    var l, r := Lower(a + b), Lower(a) + Lower(b);
    assert |l| == |r|;
    forall i | 0 <= i < |l| ensures l[i] == r[i] {
      if i < |a| { assert (a + b)[i] == a[i]; } else { assert (a + b)[i] == b[i - |a|]; }
    }
  }

  /** `trimStart`: drops the leading whitespace, and only that. */
  function TrimStart(s: string): string
    decreases |s|
  {
    if s != [] && IsJsWhitespace(s[0]) then TrimStart(s[1..]) else s
  }

  /** `trimStart` keeps a suffix of its input, drops only whitespace, and
      stops at the first character that is not whitespace. */
  lemma {:induction false} TrimStartShape(s: string)
    ensures |TrimStart(s)| <= |s| && TrimStart(s) == s[|s| - |TrimStart(s)|..]
    ensures AllWhitespace(s[..|s| - |TrimStart(s)|])
    ensures TrimStart(s) != [] ==> !IsJsWhitespace(TrimStart(s)[0])
    decreases |s|
  {
    if s != [] && IsJsWhitespace(s[0]) {
      var u := s[1..];
      var r := TrimStart(u);
      assert TrimStart(s) == r;
      TrimStartShape(u);
      var n := |s| - |r|;
      assert u[n - 1..] == s[n..];
      var dropped := s[..n];
      forall i | 0 <= i < n ensures IsJsWhitespace(dropped[i]) {
        if i > 0 {
          assert u[..n - 1][i - 1] == s[i];
        }
      }
    }
  }

  /** `trimEnd`: drops the trailing whitespace, and only that. */
  function TrimEnd(s: string): string
    decreases |s|
  {
    if s != [] && IsJsWhitespace(s[|s| - 1]) then TrimEnd(s[..|s| - 1]) else s
  }

  /** `trimEnd` keeps a prefix of its input, drops only whitespace, and
      stops at the last character that is not whitespace. */
  lemma {:induction false} TrimEndShape(s: string)
    ensures |TrimEnd(s)| <= |s| && TrimEnd(s) == s[..|TrimEnd(s)|]
    ensures AllWhitespace(s[|TrimEnd(s)|..])
    ensures TrimEnd(s) != [] ==> !IsJsWhitespace(TrimEnd(s)[|TrimEnd(s)| - 1])
    decreases |s|
  {
    if s != [] && IsJsWhitespace(s[|s| - 1]) {
      var u := s[..|s| - 1];
      var r := TrimEnd(u);
      assert TrimEnd(s) == r;
      TrimEndShape(u);
      assert u[..|r|] == s[..|r|];
      var dropped := s[|r|..];
      forall i | 0 <= i < |s| - |r| ensures IsJsWhitespace(dropped[i]) {
        if i < |s| - 1 - |r| {
          assert u[|r|..][i] == s[|r| + i];
        }
      }
    }
  }

  /** `trim`: `trimStart` then `trimEnd`. */
  function Trim(s: string): string {
    TrimEnd(TrimStart(s))
  }

  /** What `trim` keeps is a contiguous piece of the input with only
      whitespace around it, and no whitespace at its own ends. */
  lemma TrimIsInnerPiece(s: string)
    ensures exists k :: 0 <= k <= |s| - |Trim(s)| && Trim(s) == s[k..k + |Trim(s)|]
                        && AllWhitespace(s[..k]) && AllWhitespace(s[k + |Trim(s)|..])
    ensures Trim(s) != [] ==> !IsJsWhitespace(Trim(s)[0]) && !IsJsWhitespace(Trim(s)[|Trim(s)| - 1])
  {
    var k := TrimOffset(s);
  }

  /** The position in `s` where the piece `trim` keeps begins. */
  lemma TrimOffset(s: string) returns (k: nat)
    ensures k <= |s| - |Trim(s)| && Trim(s) == s[k..k + |Trim(s)|]
    ensures AllWhitespace(s[..k]) && AllWhitespace(s[k + |Trim(s)|..])
    ensures Trim(s) != [] ==> !IsJsWhitespace(Trim(s)[0]) && !IsJsWhitespace(Trim(s)[|Trim(s)| - 1])
  {
    TrimStartShape(s);
    TrimEndShape(TrimStart(s));
    k := InnerPiece(s, TrimStart(s), Trim(s));
  }

  /** A suffix `t` of `s` after whitespace, and a prefix `r` of `t` before
      whitespace, sit in `s` as one piece framed by whitespace. */
  lemma InnerPiece(s: string, t: string, r: string) returns (k: nat)
    requires |t| <= |s| && t == s[|s| - |t|..] && AllWhitespace(s[..|s| - |t|])
    requires t != [] ==> !IsJsWhitespace(t[0])
    requires |r| <= |t| && r == t[..|r|] && AllWhitespace(t[|r|..])
    requires r != [] ==> !IsJsWhitespace(r[|r| - 1])
    ensures k <= |s| - |r| && r == s[k..k + |r|]
    ensures AllWhitespace(s[..k]) && AllWhitespace(s[k + |r|..])
    ensures r != [] ==> !IsJsWhitespace(r[0]) && !IsJsWhitespace(r[|r| - 1])
  {
    k := |s| - |t|;
    assert r == s[k..k + |r|] by {
      assert s[k..][..|r|] == s[k..k + |r|];
    }
    assert AllWhitespace(s[k + |r|..]) by {
      assert s[k + |r|..] == t[|r|..];
    }
    if r != [] {
      assert r[0] == t[0];
    }
  }

  lemma {:induction false} TrimStartStops(pre: string, rest: string)
    requires AllWhitespace(pre)
    requires rest == [] || !IsJsWhitespace(rest[0])
    ensures TrimStart(pre + rest) == rest
    decreases |pre|
  {
    if pre == [] {
      assert pre + rest == rest;
    } else {
      assert (pre + rest)[1..] == pre[1..] + rest;
      TrimStartStops(pre[1..], rest);
    }
  }

  lemma {:induction false} TrimEndStops(rest: string, post: string)
    requires AllWhitespace(post)
    requires rest == [] || !IsJsWhitespace(rest[|rest| - 1])
    ensures TrimEnd(rest + post) == rest
    decreases |post|
  {
    if post == [] {
      assert rest + post == rest;
    } else {
      var s := rest + post;
      assert s[..|s| - 1] == rest + post[..|post| - 1];
      TrimEndStops(rest, post[..|post| - 1]);
    }
  }

  /** `trimEnd` keeps every character up to the last non-whitespace one. */
  lemma TrimEndKeeps(s: string, i: nat)
    requires i < |s| && !IsJsWhitespace(s[i])
    ensures |TrimEnd(s)| > i
  {
    var r := TrimEnd(s);
    TrimEndShape(s);
    forall j | |r| <= j < |s| ensures IsJsWhitespace(s[j]) {
      assert s[|r|..][j - |r|] == s[j];
    }
  }

  /** `trim` of whitespace, then a piece with non-whitespace ends, then
      anything, begins with that piece. */
  lemma TrimKeepsHead(pre: string, head: string, rest: string)
    requires AllWhitespace(pre)
    requires head != [] && !IsJsWhitespace(head[0]) && !IsJsWhitespace(head[|head| - 1])
    ensures |Trim(pre + head + rest)| >= |head|
    ensures Trim(pre + head + rest)[..|head|] == head
  {
    var hr := head + rest;
    assert TrimStart(pre + head + rest) == hr by {
      assert pre + head + rest == pre + hr;
      TrimStartStops(pre, hr);
    }
    var t := TrimEnd(hr);
    assert |t| >= |head| by {
      assert hr[|head| - 1] == head[|head| - 1];
      TrimEndKeeps(hr, |head| - 1);
    }
    assert t[..|head|] == head by {
      TrimEndShape(hr);
      assert t == hr[..|t|];
      assert hr[..|t|][..|head|] == hr[..|head|];
    }
  }

  /** A string whose ends are not whitespace is kept whole by `trim` when it
      is framed by whitespace: the shape of every template literal in
      the command table. */
  lemma TrimFramed(pre: string, body: string, post: string)
    requires AllWhitespace(pre) && AllWhitespace(post)
    requires body != [] && !IsJsWhitespace(body[0]) && !IsJsWhitespace(body[|body| - 1])
    ensures Trim(pre + body + post) == body
  {
    assert pre + body + post == pre + (body + post);
    TrimStartStops(pre, body + post);
    TrimEndStops(body, post);
  }

  /** A string made only of whitespace trims to the empty string. */
  lemma TrimAllWhitespace(s: string)
    requires AllWhitespace(s)
    ensures Trim(s) == ""
  {
    assert s + [] == s;
    TrimStartStops(s, []);
  }

  /** The position of the first `sep` in `s`. */
  function IndexOf(s: string, sep: char): (i: nat)
    requires sep in s
    ensures i < |s| && s[i] == sep && sep !in s[..i]
  {
    if s[0] == sep then 0 else 1 + IndexOf(s[1..], sep)
  }

  /** `join(sep)`. */
  function Join(parts: seq<string>, sep: string): string {
    if parts == [] then ""
    else if |parts| == 1 then parts[0]
    else parts[0] + sep + Join(parts[1..], sep)
  }

  /** `split(sep)` for a one-character separator: the pieces contain no
      separator, and joining them back with it restores the input. */
  function Split(s: string, sep: char): (parts: seq<string>)
    ensures |parts| >= 1
    ensures forall i :: 0 <= i < |parts| ==> sep !in parts[i]
    ensures Join(parts, [sep]) == s
    decreases |s|
  {
    if sep !in s then [s]
    else
      var i := IndexOf(s, sep);
      var rest := Split(s[i + 1..], sep);
      assert s == s[..i] + [sep] + s[i + 1..];
      [s[..i]] + rest
  }

  /** The first piece of `split(sep)` is everything before the first separator. */
  lemma SplitHead(s: string, sep: char)
    ensures sep !in s ==> Split(s, sep)[0] == s
    ensures sep in s ==> Split(s, sep)[0] == s[..IndexOf(s, sep)]
  {
  }

  function DigitChar(d: nat): (c: char)
    requires d < 10
    ensures '0' <= c <= '9'
  {
    ('0' as int + d) as char
  }

  /** The decimal digits of a number, as template strings render it. */
  function NatToString(n: nat): (s: string)
    ensures s != [] && forall i :: 0 <= i < |s| ==> '0' <= s[i] <= '9'
  {
    if n < 10 then [DigitChar(n)] else NatToString(n / 10) + [DigitChar(n % 10)]
  }

  /** Decimal rendering is injective, read back by the usual positional value. */
  function DigitsValue(s: string): int {
    if s == [] then 0 else DigitsValue(s[..|s| - 1]) * 10 + (s[|s| - 1] as int - '0' as int)
  }

  lemma {:induction false} NatToStringValue(n: nat)
    ensures DigitsValue(NatToString(n)) == n
  {
    if n >= 10 {
      NatToStringValue(n / 10);
      var s := NatToString(n);
      assert s[..|s| - 1] == NatToString(n / 10);
    }
  }

  predicate OccursAt(s: string, t: string, k: nat) {
    k + |t| <= |s| && s[k..k + |t|] == t
  }

  ghost predicate Contains(s: string, t: string) {
    exists k: nat :: OccursAt(s, t, k)
  }

  lemma OccursBetween(a: string, t: string, b: string)
    ensures OccursAt(a + t + b, t, |a|)
  {
    assert (a + t + b)[|a|..|a| + |t|] == t;
  }

  lemma AppendAssociates(a: string, b: string, c: string)
    ensures (a + b) + c == a + (b + c)
  {
  }

  lemma OccursBefore(x: string, y: string, t: string, k: nat)
    requires OccursAt(x, t, k)
    ensures OccursAt(x + y, t, k)
  {
    assert (x + y)[k..k + |t|] == x[k..k + |t|];
  }

  lemma ContainsAt(s: string, t: string, k: nat)
    requires OccursAt(s, t, k)
    ensures Contains(s, t)
  {
  }
}
