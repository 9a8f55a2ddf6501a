/** String operations of Python's `str` that the backend relies on, restricted to ASCII:
    `split`, `join`, `strip`, `lower`, `endswith`, `replace` and `title`. */
module Text {

  /** The characters Python's `str.strip()` removes (the ASCII members of `str.isspace`). */
  const Whitespace: set<char> := {' ', '\t', '\n', '\r', '\U{0B}', '\U{0C}', '\U{1C}', '\U{1D}', '\U{1E}', '\U{1F}'}

  /** `s.lstrip(chars)`: drop the longest prefix made of characters in `drop`. */
  function TrimStart(s: string, drop: set<char>): (r: string)
    ensures |r| <= |s| && r == s[|s| - |r|..]
    ensures forall i :: 0 <= i < |s| - |r| ==> s[i] in drop
    ensures r != [] ==> r[0] !in drop
  {
    if |s| > 0 && s[0] in drop then TrimStart(s[1..], drop) else s
  }

  /** `s.rstrip(chars)`: drop the longest suffix made of characters in `drop`. */
  function TrimEnd(s: string, drop: set<char>): (r: string)
    ensures |r| <= |s| && r == s[..|r|]
    ensures forall i :: |r| <= i < |s| ==> s[i] in drop
    ensures r != [] ==> r[|r| - 1] !in drop
  {
    if |s| > 0 && s[|s| - 1] in drop then TrimEnd(s[..|s| - 1], drop) else s
  }

  /** `s.strip(chars)`: a contiguous piece of `s` that neither starts nor ends with a
      character of `drop`, everything cut away on either side being in `drop`. */
  function Strip(s: string, drop: set<char>): (r: string)
    ensures var k := |s| - |TrimStart(s, drop)|;
            && k + |r| <= |s| && r == s[k..k + |r|]
            && (forall i :: 0 <= i < k ==> s[i] in drop)
            && (forall i :: k + |r| <= i < |s| ==> s[i] in drop)
    ensures r != [] ==> r[0] !in drop && r[|r| - 1] !in drop
  {
    var t := TrimStart(s, drop);
    var r := TrimEnd(t, drop);
    var k := |s| - |t|;
    assert r == s[k..k + |r|];
    r
  }

  /** `s.split(sep)` with an explicit one-character separator: never empty, and
      no piece contains the separator. */
  function Split(s: string, sep: char): (parts: seq<string>)
    ensures |parts| >= 1
    ensures forall i :: 0 <= i < |parts| ==> sep !in parts[i]
  {
    if |s| == 0 then [""]
    else
      var rest := Split(s[1..], sep);
      if s[0] == sep then [""] + rest
      else [[s[0]] + rest[0]] + rest[1..]
  }

  /** `sep.join(parts)`. */
  function Join(parts: seq<string>, sep: char): string
    requires |parts| >= 1
  {
    if |parts| == 1 then parts[0] else parts[0] + [sep] + Join(parts[1..], sep)
  }

  lemma {:induction false} JoinConsFirst(c: char, parts: seq<string>, sep: char)
    requires |parts| >= 1
    ensures Join([[c] + parts[0]] + parts[1..], sep) == [c] + Join(parts, sep)
  {
    if |parts| > 1 {
      assert ([[c] + parts[0]] + parts[1..])[1..] == parts[1..];
    }
  }

  /** Joining the pieces of a split gives back the original string. */
  lemma {:induction false} JoinSplit(s: string, sep: char)
    ensures Join(Split(s, sep), sep) == s
  {
    if |s| > 0 {
      JoinSplit(s[1..], sep);
      var rest := Split(s[1..], sep);
      if s[0] == sep {
        assert ([""] + rest)[1..] == rest;
      } else {
        JoinConsFirst(s[0], rest, sep);
      }
    }
  }

  /** Splitting a join whose pieces do not contain the separator gives back the pieces. */
  lemma {:induction false} SplitJoin(parts: seq<string>, sep: char)
    requires |parts| >= 1
    requires forall i :: 0 <= i < |parts| ==> sep !in parts[i]
    ensures Split(Join(parts, sep), sep) == parts
    decreases |parts|, |parts[0]|
  {
    var p := parts[0];
    if |p| > 0 {
      var tail := [p[1..]] + parts[1..];
      assert forall i :: 0 <= i < |tail| ==> sep !in tail[i] by {
        forall i | 0 <= i < |tail| ensures sep !in tail[i] {
          if i == 0 { assert forall c :: c in p[1..] ==> c in p; } else { assert tail[i] == parts[i]; }
        }
      }
      SplitJoin(tail, sep);
      JoinConsFirst(p[0], tail, sep);
      assert [p[0]] + p[1..] == p;
      assert [[p[0]] + p[1..]] + tail[1..] == parts;
      assert Join(parts, sep) == [p[0]] + Join(tail, sep);
      assert p[0] != sep;
      assert (Join(parts, sep))[1..] == Join(tail, sep);
    } else if |parts| > 1 {
      SplitJoin(parts[1..], sep);
      assert Join(parts, sep) == [sep] + Join(parts[1..], sep);
      assert (Join(parts, sep))[1..] == Join(parts[1..], sep);
    }
  }

  predicate IsUpper(c: char) { 'A' <= c <= 'Z' }
  predicate IsLower(c: char) { 'a' <= c <= 'z' }
  predicate IsLetter(c: char) { IsUpper(c) || IsLower(c) }
  predicate IsDigit(c: char) { '0' <= c <= '9' }

  function ToLower(c: char): (r: char)
    ensures IsLetter(c) ==> IsLower(r) && !IsUpper(r)
    ensures !IsUpper(c) ==> r == c
  {
    if IsUpper(c) then (c as int + 32) as char else c
  }

  function ToUpper(c: char): (r: char)
    ensures IsLetter(c) ==> IsUpper(r) && !IsLower(r)
    ensures !IsLower(c) ==> r == c
  {
    if IsLower(c) then (c as int - 32) as char else c
  }

  /** `s.lower()`: the same length and no capital left; a capital becomes the small letter
      whose capital it is, and every other character is kept. */
  function Lower(s: string): (r: string)
    ensures |r| == |s|
    ensures forall i :: 0 <= i < |r| ==> !IsUpper(r[i])
    ensures forall i :: 0 <= i < |s| && IsUpper(s[i]) ==> IsLower(r[i]) && ToUpper(r[i]) == s[i]
    ensures forall i :: 0 <= i < |s| && !IsUpper(s[i]) ==> r[i] == s[i]
  {
    seq(|s|, i requires 0 <= i < |s| => ToLower(s[i]))
  }

  /** Lowering twice is lowering once. */
  lemma LowerIdempotent(s: string)
    ensures Lower(Lower(s)) == Lower(s)
  {
    var r := Lower(s);
    assert forall i :: 0 <= i < |r| ==> Lower(r)[i] == r[i];
  }

  /** `s.endswith(suffix)`. */
  predicate EndsWith(s: string, suffix: string)
  {
    |suffix| <= |s| && s[|s| - |suffix|..] == suffix
  }

  /** `sub in s`. */
  predicate Contains(s: string, sub: string)
    decreases |s|
  {
    |sub| <= |s| && (s[..|sub|] == sub || (|s| > 0 && Contains(s[1..], sub)))
  }

  /** `s.replace(from, to)` for one-character `from` and `to`. */
  function Replace(s: string, from: char, to: char): (r: string)
    ensures |r| == |s|
    ensures from != to ==> from !in r
    ensures forall i :: 0 <= i < |s| && s[i] != from ==> r[i] == s[i]
  {
    seq(|s|, i requires 0 <= i < |s| => if s[i] == from then to else s[i])
  }

  /** When `to` does not occur in `s`, replacing back undoes the replacement: every position
      that now holds `to` held `from`. */
  lemma ReplaceRoundTrip(s: string, from: char, to: char)
    requires to !in s
    ensures Replace(Replace(s, from, to), to, from) == s
  {
    var r := Replace(s, from, to);
    assert forall i :: 0 <= i < |s| ==> Replace(r, to, from)[i] == s[i];
  }

  /** How `str.title()` maps one character, given whether the character before it is a letter. */
  function TitleChar(c: char, prevCased: bool): char
  {
    if IsLetter(c) then (if prevCased then ToLower(c) else ToUpper(c)) else c
  }

  /** `s.title()` when the character before `s` was (`prevCased`) or was not a letter. */
  function TitleFrom(s: string, prevCased: bool): (r: string)
    ensures |r| == |s|
    ensures forall i :: 0 <= i < |s| ==> IsLetter(r[i]) == IsLetter(s[i])
  {
    if |s| == 0 then [] else [TitleChar(s[0], prevCased)] + TitleFrom(s[1..], IsLetter(s[0]))
  }

  /** `s.title()`: a letter is upper case exactly when the character before it is not a
      letter; other characters are kept. */
  function Title(s: string): (r: string)
    ensures |r| == |s|
    ensures forall i :: 0 <= i < |s| ==> r[i] == TitleChar(s[i], i > 0 && IsLetter(s[i - 1]))
  {
    TitleAt(s, false);
    TitleFrom(s, false)
  }

  lemma {:induction false} TitleAt(s: string, prevCased: bool)
    ensures forall i :: 0 <= i < |s| ==>
      TitleFrom(s, prevCased)[i] == TitleChar(s[i], if i == 0 then prevCased else IsLetter(s[i - 1]))
  {
    if |s| > 0 {
      TitleAt(s[1..], IsLetter(s[0]));
      forall i | 1 <= i < |s|
        ensures TitleFrom(s, prevCased)[i] == TitleChar(s[i], IsLetter(s[i - 1]))
      {
        assert TitleFrom(s, prevCased)[i] == TitleFrom(s[1..], IsLetter(s[0]))[i - 1];
        assert s[1..][i - 1] == s[i];
        if i > 1 { assert s[1..][i - 2] == s[i - 1]; }
      }
      assert TitleFrom(s, prevCased)[0] == TitleChar(s[0], prevCased);
    }
  }

  /** Title-casing is idempotent. */
  lemma {:induction false} TitleIdempotent(s: string, prevCased: bool)
    ensures TitleFrom(TitleFrom(s, prevCased), prevCased) == TitleFrom(s, prevCased)
  {
    if |s| > 0 {
      TitleIdempotent(s[1..], IsLetter(s[0]));
      var t := TitleFrom(s, prevCased);
      assert t[1..] == TitleFrom(s[1..], IsLetter(s[0]));
      assert IsLetter(t[0]) == IsLetter(s[0]);
    }
  }
}
