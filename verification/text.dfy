/**
 * The string operations the application relies on, as JavaScript defines them:
 * `toLowerCase` (on ASCII letters), `includes`, `trim`, `split(',')` and `join`.
 */
module Text {

  function LowerChar(c: char): char {
    if 'A' <= c <= 'Z' then (c as int + 32) as char else c
  }

  /** `s.toLowerCase()`, restricted to the ASCII letters. */
  function Lower(s: string): (r: string)
    ensures |r| == |s|
  {
    seq(|s|, i requires 0 <= i < |s| => LowerChar(s[i]))
  }

  /** `s.includes(sub)`: `sub` occurs somewhere in `s`. */
  function Contains(s: string, sub: string): bool
    decreases |s|
  {
    sub <= s || (s != [] && Contains(s[1..], sub))
  }

  /** An occurrence at a known position is enough for `Contains`. */
  lemma {:induction false} ContainsAt(s: string, sub: string, i: nat)
    requires i + |sub| <= |s| && s[i..i + |sub|] == sub
    ensures Contains(s, sub)
    decreases i
  {
    if i > 0 {
      assert s[1..][i - 1..i - 1 + |sub|] == s[i..i + |sub|];
      ContainsAt(s[1..], sub, i - 1);
    }
  }

  /** If no occurrence of the first character of `sub` in `s` starts a copy of `sub`, `sub` does not occur. */
  lemma {:induction false} NotContains(s: string, sub: string)
    requires |sub| > 0
    requires forall i :: 0 <= i < |s| && s[i] == sub[0] ==> |s| < i + |sub| || s[i..i + |sub|] != sub
    ensures !Contains(s, sub)
    decreases |s|
  {
    if s != [] {
      assert s[0] == sub[0] ==> |s| < |sub| || s[0..|sub|] != sub;
      forall i | 0 <= i < |s[1..]| && s[1..][i] == sub[0] ensures |s[1..]| < i + |sub| || s[1..][i..i + |sub|] != sub {
        assert s[i + 1] == sub[0];
        if i + |sub| <= |s[1..]| {
          assert s[1..][i..i + |sub|] == s[i + 1..i + 1 + |sub|];
        }
      }
      NotContains(s[1..], sub);
    }
  }

  /** A string none of whose characters is the first character of `sub` does not contain `sub`. */
  lemma NoFirstChar(s: string, sub: string)
    requires |sub| > 0
    requires forall i :: 0 <= i < |s| ==> s[i] != sub[0]
    ensures !Contains(s, sub)
  {
    NotContains(s, sub);
  }

  /** Every occurrence of a longer string carries an occurrence of each of its substrings. */
  lemma {:induction false} ContainsTransitive(s: string, mid: string, sub: string)
    requires Contains(s, mid) && Contains(mid, sub)
    ensures Contains(s, sub)
    decreases |s|
  {
    if mid <= s {
      PrefixContains(s, mid, sub);
    } else {
      ContainsTransitive(s[1..], mid, sub);
      assert sub <= s || (s != [] && Contains(s[1..], sub));
    }
  }

  lemma {:induction false} PrefixContains(s: string, mid: string, sub: string)
    requires mid <= s && Contains(mid, sub)
    ensures Contains(s, sub)
    decreases |mid|
  {
    if sub <= mid {
      assert sub <= s;
    } else {
      assert mid != [] && Contains(mid[1..], sub);
      assert mid[1..] <= s[1..];
      PrefixContains(s[1..], mid[1..], sub);
    }
  }

  /** The characters `String.prototype.trim` removes: WhiteSpace and LineTerminator of ECMAScript. */
  predicate IsSpace(c: char) {
    || c == '\t' || c == '\n' || c == '\U{000B}' || c == '\U{000C}' || c == '\r' || c == ' '
    || c == '\U{00A0}' || c == '\U{1680}' || ('\U{2000}' <= c <= '\U{200A}')
    || c == '\U{2028}' || c == '\U{2029}' || c == '\U{202F}' || c == '\U{205F}'
    || c == '\U{3000}' || c == '\U{FEFF}'
  }

  /** Neither end of `s` is white space. */
  predicate IsTrimmed(s: string) {
    s == [] || (!IsSpace(s[0]) && !IsSpace(s[|s| - 1]))
  }

  function TrimStart(s: string): (r: string)
    ensures |r| <= |s| && r == s[|s| - |r|..]
    ensures r == [] || !IsSpace(r[0])
    decreases |s|
  {
    if s != [] && IsSpace(s[0]) then TrimStart(s[1..]) else s
  }

  function TrimEnd(s: string): (r: string)
    ensures |r| <= |s| && r == s[..|r|]
    ensures r == [] || !IsSpace(r[|r| - 1])
    decreases |s|
  {
    if s != [] && IsSpace(s[|s| - 1]) then TrimEnd(s[..|s| - 1]) else s
  }

  /** `s.trim()`: white space removed from both ends, nothing else. */
  function Trim(s: string): (r: string)
    ensures IsTrimmed(r)
    ensures |r| <= |s|
    ensures IsTrimmed(s) ==> r == s
  {
    TrimEnd(TrimStart(s))
  }

  /** A single leading blank in front of a trimmed, non-empty string is what `trim` takes away. */
  lemma TrimLeadingBlank(t: string)
    requires IsTrimmed(t) && t != []
    ensures Trim([' '] + t) == t
  {
    var s := [' '] + t;
    assert s[1..] == t;
    assert TrimStart(s) == TrimStart(t);
  }

  /** `s.split(sep)` for a one-character separator: the pieces between separators, empty ones included. */
  function Split(s: string, sep: char): (r: seq<string>)
    ensures |r| >= 1
    ensures forall i :: 0 <= i < |r| ==> sep !in r[i]
    decreases |s|
  {
    if s == [] then [[]]
    else
      var rest := Split(s[1..], sep);
      if s[0] == sep then [[]] + rest else [[s[0]] + rest[0]] + rest[1..]
  }

  /** `ts.join(sep)`. */
  function Join(ts: seq<string>, sep: string): string
    decreases |ts|
  {
    if |ts| == 0 then []
    else if |ts| == 1 then ts[0]
    else ts[0] + sep + Join(ts[1..], sep)
  }

  /** A separator-free piece followed by the separator splits off as one piece. */
  lemma {:induction false} SplitAfterPiece(t: string, sep: char, rest: string)
    requires sep !in t
    ensures Split(t + [sep] + rest, sep) == [t] + Split(rest, sep)
    decreases |t|
  {
    if t == [] {
      assert t + [sep] + rest == [sep] + rest;
      assert ([sep] + rest)[1..] == rest;
    } else {
      var s := t + [sep] + rest;
      assert s[0] == t[0];
      assert s[1..] == t[1..] + [sep] + rest;
      SplitAfterPiece(t[1..], sep, rest);
      assert [t[0]] + t[1..] == t;
    }
  }

  /** Splitting a string that does not contain the separator gives the string back. */
  lemma {:induction false} SplitNoSep(t: string, sep: char)
    requires sep !in t
    ensures Split(t, sep) == [t]
    decreases |t|
  {
    if t != [] {
      SplitNoSep(t[1..], sep);
      assert [t[0]] + t[1..] == t;
    }
  }

  /** Splitting `c + s` for a non-separator `c` prepends `c` to the first piece. */
  lemma SplitConsChar(c: char, s: string, sep: char)
    requires c != sep
    ensures Split([c] + s, sep) == [[c] + Split(s, sep)[0]] + Split(s, sep)[1..]
  {
    assert ([c] + s)[1..] == s;
  }

  /** Trimming only removes characters: whatever is left was in the input. */
  lemma TrimChars(s: string)
    ensures forall i :: 0 <= i < |Trim(s)| ==> Trim(s)[i] in s
  {
    var a := TrimStart(s);
    var r := TrimEnd(a);
    forall i | 0 <= i < |r| ensures r[i] in s {
      assert r[i] == a[i];
      assert a[i] == s[|s| - |a| + i];
    }
  }

  /** Every piece after the first, with one blank in front: what `", "`-joined pieces split on `,` give. */
  function Blanked(ts: seq<string>): (r: seq<string>)
    ensures |r| == |ts|
    ensures forall i :: 0 <= i < |ts| ==> r[i] == [' '] + ts[i]
  {
    seq(|ts|, i requires 0 <= i < |ts| => [' '] + ts[i])
  }

  lemma JoinCons(ts: seq<string>)
    requires |ts| >= 2
    ensures Join(ts, ", ") == ts[0] + [','] + ([' '] + Join(ts[1..], ", "))
  {
  }

  lemma BlankedCons(ts: seq<string>)
    requires ts != []
    ensures Blanked(ts) == [[' '] + ts[0]] + Blanked(ts[1..])
  {
  }

  /** Splitting `", "`-joined, comma-free pieces on `,` gives the pieces back, each after the first with a leading blank. */
  lemma {:induction false} SplitJoin(ts: seq<string>)
    requires ts != []
    requires forall i :: 0 <= i < |ts| ==> ',' !in ts[i]
    ensures Split(Join(ts, ", "), ',') == [ts[0]] + Blanked(ts[1..])
    decreases |ts|
  {
    if |ts| == 1 {
      SplitNoSep(ts[0], ',');
    } else {
      var rest := Join(ts[1..], ", ");
      JoinCons(ts);
      SplitAfterPiece(ts[0], ',', [' '] + rest);
      SplitJoin(ts[1..]);
      SplitConsChar(' ', rest, ',');
      BlankedCons(ts[1..]);
    }
  }
}
