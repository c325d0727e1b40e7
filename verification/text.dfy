/**
 * String helpers the screens use on names, queries and style keys:
 * `String.prototype.trim`, `toLowerCase`, `includes`, and the
 * `replace(/\s+/g, "_")` normalisation of dance-style names.
 */
module Text {

  /** ECMAScript WhiteSpace and LineTerminator code points (what `trim` and `\s` match). */
  predicate IsSpace(c: char) {
    || c == ' ' || c == '\t' || c == '\n' || c == '\r'
    || c == '\U{000B}' || c == '\U{000C}' || c == '\U{00A0}' || c == '\U{1680}'
    || ('\U{2000}' <= c <= '\U{200A}')
    || c == '\U{2028}' || c == '\U{2029}' || c == '\U{202F}' || c == '\U{205F}'
    || c == '\U{3000}' || c == '\U{FEFF}'
  }

  predicate NoSpace(s: string) {
    forall i :: 0 <= i < |s| ==> !IsSpace(s[i])
  }

  /** `trimStart`: drops the leading white space. */
  function TrimStart(s: string): (r: string)
    ensures |r| <= |s| && r == s[|s| - |r|..]
    ensures forall k :: 0 <= k < |s| - |r| ==> IsSpace(s[k])
    ensures r == [] || !IsSpace(r[0])
  {
    if s != [] && IsSpace(s[0]) then TrimStart(s[1..]) else s
  }

  /** `trimEnd`: drops the trailing white space. */
  function TrimEnd(s: string): (r: string)
    ensures |r| <= |s| && r == s[..|r|]
    ensures forall k :: |r| <= k < |s| ==> IsSpace(s[k])
    ensures r == [] || !IsSpace(r[|r| - 1])
  {
    if s != [] && IsSpace(s[|s| - 1]) then TrimEnd(s[..|s| - 1]) else s
  }

  /** `String.prototype.trim`. */
  function Trim(s: string): string {
    TrimEnd(TrimStart(s))
  }

  /** `!s.trim()`: the text is empty once trimmed. */
  predicate IsBlank(s: string) {
    Trim(s) == ""
  }

  /** A string is blank exactly when every character of it is white space. */
  lemma BlankIffAllSpace(s: string)
    ensures IsBlank(s) <==> forall k :: 0 <= k < |s| ==> IsSpace(s[k])
  {
    var t := TrimStart(s);
    if IsBlank(s) {
      forall k | 0 <= k < |s| ensures IsSpace(s[k]) {
        if k >= |s| - |t| {
          assert t[k - (|s| - |t|)] == s[k];
        }
      }
    } else {
      assert TrimEnd(t) != [];
      assert !IsSpace(TrimEnd(t)[0]);
      assert TrimEnd(t)[0] == s[|s| - |t|];
    }
  }

  /** A trimmed text that is not blank starts and ends with a character that is not white space. */
  lemma TrimmedEnds(s: string)
    requires !IsBlank(s)
    ensures Trim(s) != [] && !IsSpace(Trim(s)[0]) && !IsSpace(Trim(s)[|Trim(s)| - 1])
  {
    var t := TrimStart(s);
    var r := TrimEnd(t);
    assert r == t[..|r|];
    assert r[0] == t[0];
  }

  function LowerChar(c: char): char {
    if 'A' <= c <= 'Z' then (c as int + 32) as char else c
  }

  /** `toLowerCase`, for the ASCII letters. */
  function ToLower(s: string): (r: string)
    ensures |r| == |s|
    ensures forall i :: 0 <= i < |s| ==> r[i] == LowerChar(s[i])
  {
    seq(|s|, i requires 0 <= i < |s| => LowerChar(s[i]))
  }

  predicate NoUpper(s: string) {
    forall i :: 0 <= i < |s| ==> !('A' <= s[i] <= 'Z')
  }

  /** `s.startsWith(p)`. */
  predicate StartsWith(s: string, p: string) {
    |p| <= |s| && s[..|p|] == p
  }

  /** `s.includes(sub)`: `sub` occurs somewhere in `s`. */
  predicate Includes(s: string, sub: string)
    decreases |s|
  {
    StartsWith(s, sub) || (s != [] && Includes(s[1..], sub))
  }

  /** `sub` occurs in `s` starting at offset `i`. */
  predicate OccursAt(s: string, sub: string, i: int) {
    0 <= i <= |s| - |sub| && s[i..i + |sub|] == sub
  }

  /** `includes` is a search for an occurrence at some offset. */
  lemma {:induction false} IncludesAt(s: string, sub: string)
    ensures Includes(s, sub) <==> exists i :: OccursAt(s, sub, i)
    decreases |s|
  {
    if s != [] {
      IncludesAt(s[1..], sub);
      if exists i :: OccursAt(s, sub, i) {
        var i :| OccursAt(s, sub, i);
        if i > 0 {
          assert s[1..][i - 1..i - 1 + |sub|] == s[i..i + |sub|];
          assert OccursAt(s[1..], sub, i - 1);
        }
      }
      if Includes(s[1..], sub) {
        var i :| OccursAt(s[1..], sub, i);
        assert s[1..][i..i + |sub|] == s[i + 1..i + 1 + |sub|];
        assert OccursAt(s, sub, i + 1);
      }
      if StartsWith(s, sub) {
        assert OccursAt(s, sub, 0);
      }
    } else {
      if exists i :: OccursAt(s, sub, i) {
        var i :| OccursAt(s, sub, i);
        assert StartsWith(s, sub);
      }
      if StartsWith(s, sub) {
        assert OccursAt(s, sub, 0);
      }
    }
  }

  /** Replaces each run of white space by a single `_` (`replace(/\s+/g, "_")`). */
  function Underscored(s: string): (r: string)
    ensures NoSpace(r)
    decreases |s|
  {
    if s == [] then []
    else if IsSpace(s[0]) then "_" + Underscored(TrimStart(s))
    else [s[0]] + Underscored(s[1..])
  }

  /** The catalog key of a dance-style name: `name.toLowerCase().replace(/\s+/g, "_")`. */
  function StyleKey(name: string): string {
    Underscored(ToLower(name))
  }

  lemma {:induction false} UnderscoredOfSpaceFree(s: string)
    requires NoSpace(s)
    ensures Underscored(s) == s
    decreases |s|
  {
    if s != [] {
      UnderscoredOfSpaceFree(s[1..]);
    }
  }

  lemma {:induction false} UnderscoredKeepsLower(s: string)
    requires NoUpper(s)
    ensures NoUpper(Underscored(s))
    decreases |s|
  {
    if s != [] {
      if IsSpace(s[0]) {
        UnderscoredKeepsLower(TrimStart(s));
      } else {
        UnderscoredKeepsLower(s[1..]);
      }
    }
  }

  /** Normalising a style key a second time changes nothing, so a stored key matches itself. */
  lemma StyleKeyIdempotent(name: string)
    ensures StyleKey(StyleKey(name)) == StyleKey(name)
  {
    var k := StyleKey(name);
    UnderscoredKeepsLower(ToLower(name));
    assert ToLower(k) == k;
    UnderscoredOfSpaceFree(k);
  }

  /** No character of `s` is `c`. */
  predicate Avoids(s: string, c: char) {
    forall i :: 0 <= i < |s| ==> s[i] != c
  }

  /** The index of the first `c` in `s`, or `|s|` when there is none. */
  function IndexOf(s: string, c: char): (i: nat)
    ensures i <= |s|
    ensures Avoids(s[..i], c)
    ensures i < |s| ==> s[i] == c
  {
    if s == [] || s[0] == c then 0 else 1 + IndexOf(s[1..], c)
  }

  lemma {:induction false} IndexOfAfter(a: string, sep: string, b: string)
    requires sep != [] && Avoids(a, sep[0])
    ensures IndexOf(a + sep + b, sep[0]) == |a|
    decreases |a|
  {
    if a != [] {
      assert (a + sep + b)[1..] == a[1..] + sep + b;
      IndexOfAfter(a[1..], sep, b);
    }
  }

  /**
   * A text joined as `a + sep + b`, where `a` does not contain the
   * separator's first character, splits back into `a` and `b`: the keys the
   * screens build from a style, a level and a name determine all three.
   */
  lemma SplitAtSeparator(a: string, b: string, a': string, b': string, sep: string)
    requires sep != [] && Avoids(a, sep[0]) && Avoids(a', sep[0])
    requires a + sep + b == a' + sep + b'
    ensures a == a' && b == b'
  {
    var k := a + sep + b;
    IndexOfAfter(a, sep, b);
    IndexOfAfter(a', sep, b');
    assert a == k[..|a|] == a';
    assert b == k[|a| + |sep|..] == b';
  }

  /** `s.split(sep)` for a one-character separator: the pieces between the separators, in order. */
  function Split(s: string, sep: char): (r: seq<string>)
    ensures |r| >= 1
    ensures forall k :: 0 <= k < |r| ==> Avoids(r[k], sep)
    decreases |s|
  {
    if s == [] then [[]]
    else
      var rest := Split(s[1..], sep);
      if s[0] == sep then [[]] + rest
      else
        assert Avoids([s[0]] + rest[0], sep) by {
          assert forall i :: 1 <= i < 1 + |rest[0]| ==> ([s[0]] + rest[0])[i] == rest[0][i - 1];
        }
        [[s[0]] + rest[0]] + rest[1..]
  }

  /** `words.join(sep)`. */
  function Join(words: seq<string>, sep: string): string {
    if words == [] then []
    else if |words| == 1 then words[0]
    else words[0] + sep + Join(words[1..], sep)
  }

  /** A text without the separator is a single piece. */
  lemma {:induction false} SplitWhole(w: string, sep: char)
    requires Avoids(w, sep)
    ensures Split(w, sep) == [w]
    decreases |w|
  {
    if w != [] {
      SplitWhole(w[1..], sep);
      assert [w[0]] + w[1..] == w;
    }
  }

  /** The first piece of a text is everything before its first separator. */
  lemma {:induction false} SplitFirst(w: string, rest: string, sep: char)
    requires Avoids(w, sep)
    ensures Split(w + [sep] + rest, sep) == [w] + Split(rest, sep)
    decreases |w|
  {
    var s := w + [sep] + rest;
    if w == [] {
      assert s[1..] == rest;
    } else {
      assert s[1..] == w[1..] + [sep] + rest;
      SplitFirst(w[1..], rest, sep);
      assert [w[0]] + w[1..] == w;
    }
  }
}
