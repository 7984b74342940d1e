/** The JavaScript string operations the application relies on:
    `String.prototype.trim`, `includes` and `replace` with a string pattern. */
module JsString {
  import opened Wrappers

  /** The characters `trim` removes: ECMAScript WhiteSpace (TAB, VT, FF,
      SPACE, NBSP, ZWNBSP and the Unicode space separators) and
      LineTerminator (LF, CR, LS, PS). */
  predicate IsWhitespace(c: char) {
    c == '\U{0009}' || c == '\U{000B}' || c == '\U{000C}' || c == ' '
    || c == '\U{00A0}' || c == '\U{FEFF}' || c == '\U{1680}'
    || ('\U{2000}' <= c <= '\U{200A}')
    || c == '\U{202F}' || c == '\U{205F}' || c == '\U{3000}'
    || c == '\n' || c == '\r' || c == '\U{2028}' || c == '\U{2029}'
  }

  /** Every character of `s` is whitespace (so `!s.trim()` holds). */
  predicate IsBlank(s: string) {
    forall i :: 0 <= i < |s| ==> IsWhitespace(s[i])
  }

  /** `s` with its leading whitespace removed: a suffix of `s` preceded only
      by whitespace, and not itself starting with whitespace. */
  function TrimStart(s: string): (r: string)
    ensures |r| <= |s| && r == s[|s| - |r|..]
    ensures forall i :: 0 <= i < |s| - |r| ==> IsWhitespace(s[i])
    ensures r != [] ==> !IsWhitespace(r[0])
  {
    if s != [] && IsWhitespace(s[0]) then TrimStart(s[1..]) else s
  }

  /** `s` with its trailing whitespace removed: a prefix of `s` followed only
      by whitespace, and not itself ending with whitespace. */
  function TrimEnd(s: string): (r: string)
    ensures |r| <= |s| && r == s[..|r|]
    ensures forall i :: |r| <= i < |s| ==> IsWhitespace(s[i])
    ensures r != [] ==> !IsWhitespace(r[|r| - 1])
  {
    if s != [] && IsWhitespace(s[|s| - 1]) then TrimEnd(s[..|s| - 1]) else s
  }

  /** `s.trim()`: no longer than `s`, and neither starting nor ending with
      whitespace. */
  function Trim(s: string): (r: string)
    ensures |r| <= |s|
    ensures r != "" ==> !IsWhitespace(r[0]) && !IsWhitespace(r[|r| - 1])
  {
    var t := TrimStart(s);
    var r := TrimEnd(t);
    assert r != "" ==> r[0] == t[0];
    r
  }

  /** The trimmed string is empty exactly when the string is blank. */
  lemma TrimEmptyIffBlank(s: string)
    ensures Trim(s) == "" <==> IsBlank(s)
  {
    var t := TrimStart(s);
    var k := |s| - |t|;
    if Trim(s) != "" {
      assert t != [];
      assert !IsWhitespace(s[k]);
    }
  }

  /** The trimmed string is the contiguous piece of `s` left once the
      leading and the trailing whitespace are cut away. */
  lemma TrimShape(s: string)
    ensures var k := |s| - |TrimStart(s)|; var r := Trim(s);
      k + |r| <= |s| && s[k..k + |r|] == r
      && (forall i :: 0 <= i < k ==> IsWhitespace(s[i]))
      && (forall i :: k + |r| <= i < |s| ==> IsWhitespace(s[i]))
  {
    var t := TrimStart(s);
    var k := |s| - |t|;
    var r := TrimEnd(t);
    assert s[k..k + |r|] == t[..|r|];
    forall i | k + |r| <= i < |s| ensures IsWhitespace(s[i]) {
      assert s[i] == t[i - k];
    }
  }

  /** `pat` occurs in `s` at index `j`. */
  predicate MatchesAt(s: string, pat: string, j: nat) {
    j + |pat| <= |s| && s[j..j + |pat|] == pat
  }

  /** `s.indexOf(pat, from)`: the first index at or after
      `from` where `pat` occurs, or None (-1 in JavaScript). */
  function IndexOf(s: string, pat: string, from: nat): (r: Option<nat>)
    decreases |s| - from
    ensures r.Some? ==> from <= r.value && MatchesAt(s, pat, r.value)
    ensures r.Some? ==> forall j :: from <= j < r.value ==> !MatchesAt(s, pat, j)
    ensures r.None? ==> forall j :: from <= j ==> !MatchesAt(s, pat, j)
  {
    if from + |pat| > |s| then None
    else if s[from..from + |pat|] == pat then Some(from)
    else IndexOf(s, pat, from + 1)
  }

  /** `s.includes(pat)`. */
  predicate Includes(s: string, pat: string) {
    IndexOf(s, pat, 0).Some?
  }

  /** An occurrence anywhere makes `includes` true, and the first one is
      where `indexOf` points. */
  lemma IncludesIffOccurs(s: string, pat: string)
    ensures Includes(s, pat) <==> exists j :: MatchesAt(s, pat, j)
  {
    if !Includes(s, pat) {
      forall j: nat ensures !MatchesAt(s, pat, j) { }
    }
  }

  /** The replacement text of `String.prototype.replace` with a string
      pattern (ECMAScript GetSubstitution with no captures): `$$` is `$`,
      `$&` the matched text, `` $` `` the text before it, `$'` the text
      after it; every other `$` sequence stays literal, since a string
      pattern has neither numbered nor named groups. */
  function Substitute(rep: string, matched: string, before: string, after: string): (r: string)
    ensures forall c :: c in r ==> c in rep || c in matched || c in before || c in after
    decreases |rep|
  {
    if rep == [] then []
    else if |rep| >= 2 && rep[0] == '$' && rep[1] == '$' then "$" + Substitute(rep[2..], matched, before, after)
    else if |rep| >= 2 && rep[0] == '$' && rep[1] == '&' then matched + Substitute(rep[2..], matched, before, after)
    else if |rep| >= 2 && rep[0] == '$' && rep[1] == '`' then before + Substitute(rep[2..], matched, before, after)
    else if |rep| >= 2 && rep[0] == '$' && rep[1] == '\'' then after + Substitute(rep[2..], matched, before, after)
    else [rep[0]] + Substitute(rep[1..], matched, before, after)
  }

  /** A replacement without `$` is inserted literally. */
  lemma {:induction false} SubstituteLiteral(rep: string, matched: string, before: string, after: string)
    requires '$' !in rep
    ensures Substitute(rep, matched, before, after) == rep
    decreases |rep|
  {
    if rep != [] {
      assert rep[0] != '$';
      assert '$' !in rep[1..] by {
        forall i | 0 <= i < |rep| - 1 ensures rep[1..][i] != '$' {
          assert rep[1..][i] == rep[i + 1];
        }
      }
      SubstituteLiteral(rep[1..], matched, before, after);
      assert rep == [rep[0]] + rep[1..];
    }
  }

  /** `s.replace(pat, rep)` with a string pattern: only the first occurrence
      is replaced; without one, `s` is returned unchanged. */
  function ReplaceFirst(s: string, pat: string, rep: string): (r: string)
    ensures !Includes(s, pat) ==> r == s
    ensures Includes(s, pat) ==>
      var k := IndexOf(s, pat, 0).value;
      var after := s[k + |pat|..];
      k + |after| <= |r| && r[..k] == s[..k] && r[|r| - |after|..] == after
  {
    match IndexOf(s, pat, 0)
    case None => s
    case Some(k) =>
      var before, after := s[..k], s[k + |pat|..];
      var r := before + Substitute(rep, pat, before, after) + after;
      assert r[..k] == before;
      assert r[|r| - |after|..] == after;
      r
  }

  /** With a `$`-free replacement, `replace` puts `rep` in place of the
      first occurrence of `pat` and keeps everything around it. */
  lemma ReplaceFirstLiteral(s: string, pat: string, rep: string)
    requires Includes(s, pat)
    requires '$' !in rep
    ensures var k := IndexOf(s, pat, 0).value;
      MatchesAt(s, pat, k)
      && (forall j :: 0 <= j < k ==> !MatchesAt(s, pat, j))
      && ReplaceFirst(s, pat, rep) == s[..k] + rep + s[k + |pat|..]
  {
    var k := IndexOf(s, pat, 0).value;
    var before, after := s[..k], s[k + |pat|..];
    assert ReplaceFirst(s, pat, rep) == before + Substitute(rep, pat, before, after) + after;
    SubstituteLiteral(rep, pat, before, after);
  }

  /** A `$&` in the replacement re-inserts the matched text: the `$`
      patterns are live in this operation, so replacing the first
      occurrence by `$&` gives the string back. */
  lemma ReplaceFirstMatchedPattern(s: string, pat: string)
    requires Includes(s, pat)
    ensures ReplaceFirst(s, pat, "$&") == s
  {
    var k := IndexOf(s, pat, 0).value;
    var before, after := s[..k], s[k + |pat|..];
    assert ReplaceFirst(s, pat, "$&") == before + Substitute("$&", pat, before, after) + after;
    assert Substitute("$&", pat, before, after) == pat + Substitute("", pat, before, after);
    assert s[k..k + |pat|] == pat;
    assert s == before + s[k..k + |pat|] + after;
  }
}
