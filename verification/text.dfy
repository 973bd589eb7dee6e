/** The few JavaScript string operations the application relies on:
    `trim`, `split` on one character, `join`, `toUpperCase`, `includes`
    and the falsy-string fallback `s || d`. */
module Text {
  import opened Options

  /** The characters `String.prototype.trim` removes: the ECMAScript
      WhiteSpace and LineTerminator code points. */
  predicate IsSpace(c: char) {
    || c == ' ' || c == '\t' || c == '\n' || c == '\r'
    || c == '\U{000B}' || c == '\U{000C}' || c == '\U{00A0}' || c == '\U{1680}'
    || ('\U{2000}' <= c <= '\U{200A}')
    || c == '\U{2028}' || c == '\U{2029}' || c == '\U{202F}' || c == '\U{205F}'
    || c == '\U{3000}' || c == '\U{FEFF}'
  }

  /** A string that is empty or made of white space only. */
  predicate AllSpace(s: string) {
    forall i :: 0 <= i < |s| ==> IsSpace(s[i])
  }

  /** Length of the white-space run at the start of `s`. */
  function LeadingSpaces(s: string): (n: nat)
    ensures n <= |s|
    ensures forall i :: 0 <= i < n ==> IsSpace(s[i])
    ensures n < |s| ==> !IsSpace(s[n])
  {
    if |s| == 0 || !IsSpace(s[0]) then 0 else 1 + LeadingSpaces(s[1..])
  }

  /** Length of the white-space run at the end of `s`. */
  function TrailingSpaces(s: string): (n: nat)
    ensures n <= |s|
    ensures forall i :: |s| - n <= i < |s| ==> IsSpace(s[i])
    ensures n < |s| ==> !IsSpace(s[|s| - n - 1])
  {
    if |s| == 0 || !IsSpace(s[|s| - 1]) then 0 else 1 + TrailingSpaces(s[..|s| - 1])
  }

  /** `s.trim()`: the longest slice of `s` that neither starts nor ends with
      white space; only white space is cut away on either side. */
  function Trim(s: string): (r: string)
    ensures r == [] <==> AllSpace(s)
    ensures r != [] ==> !IsSpace(r[0]) && !IsSpace(r[|r| - 1])
    ensures exists a, b :: 0 <= a <= b <= |s| && r == s[a..b] && AllSpace(s[..a]) && AllSpace(s[b..])
  {
    var a := LeadingSpaces(s);
    var t := s[a..];
    var b := a + |t| - TrailingSpaces(t);
    assert t[..|t| - TrailingSpaces(t)] == s[a..b];
    assert AllSpace(s[b..]) by {
      forall i | 0 <= i < |s| - b ensures IsSpace(s[b..][i]) {
        assert s[b..][i] == t[b - a + i];
      }
    }
    assert a == |s| ==> AllSpace(s);
    assert a < |s| ==> !AllSpace(s) by {
      if a < |s| { assert !IsSpace(s[a]); }
    }
    s[a..b]
  }

  /** Trimming an already trimmed string changes nothing. */
  lemma TrimIdempotent(s: string)
    ensures Trim(Trim(s)) == Trim(s)
  {
    var r := Trim(s);
    if r != [] {
      assert LeadingSpaces(r) == 0;
      assert TrailingSpaces(r) == 0;
    }
  }

  /** JavaScript's `s || fallback` for a string that may be absent:
      the empty string is falsy as well. */
  function OrElse(s: Option<string>, fallback: string): (r: string)
    ensures s.Some? && s.value != [] ==> r == s.value
    ensures s.None? || s.value == [] ==> r == fallback
  {
    if s.Some? && s.value != [] then s.value else fallback
  }

  /** A present, non-empty string: what a `!value` check lets through. */
  predicate Truthy(s: Option<string>) {
    s.Some? && s.value != []
  }

  /** `s.includes(sub)`. */
  predicate Includes(s: string, sub: string)
    decreases |s|
  {
    sub <= s || (|s| > 0 && Includes(s[1..], sub))
  }

  /** `toUpperCase` on one character, for the ASCII letters. */
  function UpperChar(c: char): (u: char)
    ensures 'a' <= c <= 'z' ==> 'A' <= u <= 'Z' && u as int - 'A' as int == c as int - 'a' as int
    ensures !('a' <= c <= 'z') ==> u == c
  {
    if 'a' <= c <= 'z' then (c as int - 'a' as int + 'A' as int) as char else c
  }

  /** `s.toUpperCase()` on ASCII letters, position by position. */
  function Upper(s: string): (u: string)
    ensures |u| == |s|
    ensures forall i :: 0 <= i < |s| ==> u[i] == UpperChar(s[i])
  {
    seq(|s|, i requires 0 <= i < |s| => UpperChar(s[i]))
  }

  /** `s.split(sep)` for a one-character separator: the pieces between
      consecutive separators, in order; there is always at least one. */
  function Split(s: string, sep: char): (parts: seq<string>)
    ensures |parts| >= 1
    ensures forall i :: 0 <= i < |parts| ==> sep !in parts[i]
  {
    if s == [] then [[]]
    else
      var rest := Split(s[1..], sep);
      if s[0] == sep then [[]] + rest
      else [[s[0]] + rest[0]] + rest[1..]
  }

  /** `parts.join(sep)`. */
  function Join(parts: seq<string>, sep: char): string
  {
    if |parts| == 0 then []
    else if |parts| == 1 then parts[0]
    else parts[0] + [sep] + Join(parts[1..], sep)
  }

  /** `split` and `join` are inverse: joining the pieces restores the string. */
  lemma {:induction false} JoinSplit(s: string, sep: char)
    ensures Join(Split(s, sep), sep) == s
  {
    if s != [] {
      var rest := Split(s[1..], sep);
      JoinSplit(s[1..], sep);
      if s[0] != sep {
        if |rest| == 1 {
          assert Split(s, sep) == [[s[0]] + rest[0]];
        } else {
          assert Split(s, sep)[1..] == rest[1..];
          assert rest == [rest[0]] + rest[1..];
        }
      }
    }
  }

  /** Joining two non-empty piece lists joins their joins. */
  lemma {:induction false} JoinConcat(a: seq<string>, b: seq<string>, sep: char)
    requires |a| > 0 && |b| > 0
    ensures Join(a + b, sep) == Join(a, sep) + [sep] + Join(b, sep)
  {
    if |a| > 1 {
      assert (a + b)[1..] == a[1..] + b;
      JoinConcat(a[1..], b, sep);
    } else {
      assert (a + b)[1..] == b;
    }
  }

  /** A string without the separator is one piece. */
  lemma {:induction false} SplitWithoutSep(s: string, sep: char)
    requires sep !in s
    ensures Split(s, sep) == [s]
  {
    if s != [] {
      assert sep !in s[1..];
      SplitWithoutSep(s[1..], sep);
      assert [s[0]] + s[1..] == s;
    }
  }

  /** Splitting at a separator splits the pieces list at the same point. */
  lemma {:induction false} SplitAround(a: string, sep: char, b: string)
    ensures Split(a + [sep] + b, sep) == Split(a, sep) + Split(b, sep)
  {
    if a == [] {
      assert a + [sep] + b == [sep] + b;
      assert ([sep] + b)[1..] == b;
    } else {
      assert (a + [sep] + b)[0] == a[0];
      assert (a + [sep] + b)[1..] == a[1..] + [sep] + b;
      SplitAround(a[1..], sep, b);
    }
  }

  /** The text after the last `c` of `s`, or all of `s` when it has no `c`. */
  function AfterLast(s: string, c: char): (r: string)
    ensures c !in r
    ensures |r| <= |s| && r == s[|s| - |r|..]
    ensures |r| < |s| ==> s[|s| - |r| - 1] == c
    ensures |r| == |s| <==> c !in s
  {
    if s == [] then []
    else if s[|s| - 1] == c then []
    else
      var r' := AfterLast(s[..|s| - 1], c);
      assert s[..|s| - 1][|s| - 1 - |r'|..] + [s[|s| - 1]] == s[|s| - |r'| - 1..];
      r' + [s[|s| - 1]]
  }

  /** A single non-separator character is one piece. */
  lemma SplitOne(x: char, sep: char)
    requires x != sep
    ensures Split([x], sep) == [[x]]
  {
    assert [x][1..] == [];
    var rest := Split([x][1..], sep);
    assert rest == [[]];
    assert [x] + rest[0] == [x] && rest[1..] == [];
  }

  /** Appending one character to a string extends or opens its last piece. */
  lemma {:induction false} SplitSnoc(s: string, x: char, sep: char)
    ensures var p := Split(s, sep);
            Split(s + [x], sep) ==
              if x == sep then p + [[]] else p[..|p| - 1] + [p[|p| - 1] + [x]]
  {
    if x == sep {
      SplitAround(s, sep, []);
      assert s + [sep] + [] == s + [x];
    } else if s == [] {
      assert s + [x] == [x];
      SplitOne(x, sep);
    } else {
      assert (s + [x])[1..] == s[1..] + [x];
      SplitSnoc(s[1..], x, sep);
      SplitSnocStep(s, x, sep);
    }
  }

  /** The inductive step of `SplitSnoc` for a first character that is not
      the separator, given the statement for the tail. */
  lemma SplitSnocStep(s: string, x: char, sep: char)
    requires s != [] && x != sep
    requires var q := Split(s[1..], sep);
             Split(s[1..] + [x], sep) == q[..|q| - 1] + [q[|q| - 1] + [x]]
    ensures var p := Split(s, sep);
            Split(s + [x], sep) == p[..|p| - 1] + [p[|p| - 1] + [x]]
  {
    assert (s + [x])[0] == s[0];
    assert (s + [x])[1..] == s[1..] + [x];
    var q := Split(s[1..], sep);
    var p := Split(s, sep);
    var r := Split(s[1..] + [x], sep);
    if s[0] == sep {
      assert p == [[]] + q;
      assert p[..|p| - 1] == [[]] + q[..|q| - 1];
    } else if |q| == 1 {
      assert p == [[s[0]] + q[0]];
      assert r == [q[0] + [x]];
      assert Split(s + [x], sep) == [[s[0]] + r[0]] + r[1..];
      assert [s[0]] + (q[0] + [x]) == ([s[0]] + q[0]) + [x];
    } else {
      assert p == [[s[0]] + q[0]] + q[1..];
      assert p[..|p| - 1] == [[s[0]] + q[0]] + q[1..|q| - 1];
    }
  }

  /** `s.split(c).pop()` is the text after the last `c`. */
  lemma {:induction false} LastPieceIsAfterLast(s: string, c: char)
    ensures var p := Split(s, c); p[|p| - 1] == AfterLast(s, c)
  {
    if s != [] {
      var s' := s[..|s| - 1];
      assert s == s' + [s[|s| - 1]];
      SplitSnoc(s', s[|s| - 1], c);
      LastPieceIsAfterLast(s', c);
    }
  }
}
