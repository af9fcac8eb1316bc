/**
 * FStaticMeshNamingRule: a mesh's name must match the configured wildcard
 * pattern (default "SM_*"), where * stands for any run of characters and ? for
 * one character. The pattern is turned into an anchored regular expression; the
 * fix renames the asset, in its own directory, to a suggested name.
 */
module Naming {
  import opened Wrappers
  import opened Text
  import opened Results
  import opened Profile
  import opened Mesh
  import opened Rule

  const RuleId := "SM_Naming"

  const DefaultPattern := "SM_*"

  // ---------------------------------------------------------------------------
  // Text replacement

  /** FString::Replace of a one-character text: every occurrence of x, left to right, becomes t. */
  function ReplaceChar(s: string, x: char, t: string): (r: string)
    ensures x !in s ==> r == s
  {
    if s == [] then [] else (if s[0] == x then t else [s[0]]) + ReplaceChar(s[1..], x, t)
  }

  /** Replacement works piecewise: the pieces of a concatenation are replaced separately. */
  lemma {:induction false} ReplaceCharConcat(a: string, b: string, x: char, t: string)
    ensures ReplaceChar(a + b, x, t) == ReplaceChar(a, x, t) + ReplaceChar(b, x, t)
  {
    if a == [] {
      assert a + b == b;
    } else {
      assert (a + b)[0] == a[0];
      assert (a + b)[1..] == a[1..] + b;
      ReplaceCharConcat(a[1..], b, x, t);
      var h := if a[0] == x then t else [a[0]];
      assert ReplaceChar(a + b, x, t) == h + (ReplaceChar(a[1..], x, t) + ReplaceChar(b, x, t));
    }
  }

  // ---------------------------------------------------------------------------
  // ConvertPatternToRegex

  /** The regular-expression metacharacters the conversion escapes with a backslash, in its order. */
  const EscapeChars := ".+^$()[]{}|"

  predicate Escaped(c: char)
  {
    c in EscapeChars
  }

  /** The escapes of ConvertPatternToRegex: each character of cs in turn is replaced by itself after a backslash. */
  function EscapeEach(s: string, cs: string): string
    decreases |cs|
  {
    if cs == [] then s else EscapeEach(ReplaceChar(s, cs[0], ['\\', cs[0]]), cs[1..])
  }

  /** The eleven escapes, applied in the source's order. */
  function EscapeAll(s: string): string
  {
    EscapeEach(s, EscapeChars)
  }

  /** The escapes, then * becomes .* and ? becomes . (those dots are left unescaped). */
  function WildcardsToRegex(s: string): string
  {
    ReplaceChar(ReplaceChar(EscapeAll(s), '*', ".*"), '?', ".")
  }

  /** ConvertPatternToRegex: the converted pattern between the anchors ^ and $. */
  function ConvertPatternToRegex(pattern: string): (r: string)
    ensures |r| >= 2 && r[0] == '^' && r[|r| - 1] == '$'
  {
    "^" + WildcardsToRegex(pattern) + "$"
  }

  /** What the conversion makes of one pattern character. */
  function TranslateChar(c: char): (t: string)
    ensures |t| >= 1 && t[0] != '*'
  {
    if Escaped(c) then ['\\', c]
    else if c == '*' then ".*"
    else if c == '?' then "."
    else [c]
  }

  /** The conversion character by character. */
  function Translate(p: string): (t: string)
    ensures p == [] <==> t == []
    ensures t != [] ==> t[0] != '*'
  {
    if p == [] then [] else TranslateChar(p[0]) + Translate(p[1..])
  }

  /** The escapes work piecewise. */
  lemma {:induction false} EscapeEachConcat(a: string, b: string, cs: string)
    ensures EscapeEach(a + b, cs) == EscapeEach(a, cs) + EscapeEach(b, cs)
    decreases |cs|
  {
    if cs != [] {
      var t := ['\\', cs[0]];
      ReplaceCharConcat(a, b, cs[0], t);
      EscapeEachConcat(ReplaceChar(a, cs[0], t), ReplaceChar(b, cs[0], t), cs[1..]);
    }
  }

  /** The chain of replacements works piecewise too. */
  lemma WildcardsToRegexConcat(a: string, b: string)
    ensures WildcardsToRegex(a + b) == WildcardsToRegex(a) + WildcardsToRegex(b)
  {
    EscapeEachConcat(a, b, EscapeChars);
    var a1, b1 := EscapeAll(a), EscapeAll(b);
    ReplaceCharConcat(a1, b1, '*', ".*");
    ReplaceCharConcat(ReplaceChar(a1, '*', ".*"), ReplaceChar(b1, '*', ".*"), '?', ".");
  }

  /** Text holding none of the characters is left alone by their escapes. */
  lemma {:induction false} EscapeEachAbsent(s: string, cs: string)
    requires forall i :: 0 <= i < |cs| ==> cs[i] !in s
    ensures EscapeEach(s, cs) == s
    decreases |cs|
  {
    if cs != [] {
      EscapeEachAbsent(s, cs[1..]);
    }
  }

  /** One character is escaped exactly when it is among the distinct, backslash-free cs. */
  lemma {:induction false} EscapeEachChar(c: char, cs: string)
    requires '\\' !in cs
    requires forall i, j :: 0 <= i < j < |cs| ==> cs[i] != cs[j]
    ensures EscapeEach([c], cs) == if c in cs then ['\\', c] else [c]
    decreases |cs|
  {
    if cs != [] {
      ReplaceOne(c, cs[0], ['\\', cs[0]]);
      if c == cs[0] {
        assert forall i :: 0 <= i < |cs[1..]| ==> cs[1..][i] != c && cs[1..][i] != '\\';
        EscapeEachAbsent(['\\', c], cs[1..]);
      } else {
        EscapeEachChar(c, cs[1..]);
      }
    }
  }

  /** A replacement of one character: the character itself or its replacement text. */
  lemma ReplaceOne(c: char, x: char, t: string)
    ensures ReplaceChar([c], x, t) == if c == x then t else [c]
  {
    assert [c][1..] == [];
  }

  /** The escaped characters are distinct and include neither the backslash nor a wildcard. */
  lemma EscapeCharsShape()
    ensures forall i, j :: 0 <= i < j < |EscapeChars| ==> EscapeChars[i] != EscapeChars[j]
    ensures '\\' !in EscapeChars && '*' !in EscapeChars && '?' !in EscapeChars
  {
  }

  /** One character passes through the chain exactly as TranslateChar says. */
  lemma WildcardsToRegexChar(c: char)
    ensures WildcardsToRegex([c]) == TranslateChar(c)
  {
    EscapeCharsShape();
    EscapeEachChar(c, EscapeChars);
    var e := EscapeAll([c]);
    if Escaped(c) {
      assert e == ['\\', c];
      assert '*' !in e && '?' !in e;
    } else {
      assert e == [c];
      ReplaceOne(c, '*', ".*");
      if c == '*' {
        assert '?' !in ".*";
      } else {
        ReplaceOne(c, '?', ".");
      }
    }
  }

  /**
   * The sequence of replacements equals the character-by-character translation:
   * no replacement disturbs the text an earlier one produced.
   */
  lemma {:induction false} WildcardsToRegexIsTranslate(p: string)
    ensures WildcardsToRegex(p) == Translate(p)
  {
    if p != [] {
      assert p == [p[0]] + p[1..];
      WildcardsToRegexConcat([p[0]], p[1..]);
      WildcardsToRegexChar(p[0]);
      WildcardsToRegexIsTranslate(p[1..]);
      assert Translate(p) == TranslateChar(p[0]) + Translate(p[1..]);
    }
  }

  // ---------------------------------------------------------------------------
  // Matching

  /**
   * The wildcard semantics the naming pattern documents: * matches any run of
   * characters, ? any one character, and every other character itself; the
   * whole name must match.
   */
  predicate WildcardMatch(p: string, s: string)
    decreases |p| + |s|
  {
    if p == [] then s == []
    else if p[0] == '*' then WildcardMatch(p[1..], s) || (s != [] && WildcardMatch(p, s[1..]))
    else s != [] && (p[0] == '?' || p[0] == s[0]) && WildcardMatch(p[1..], s[1..])
  }

  /** A metacharacter the regular expressions built here never leave bare. */
  predicate Meta(c: char)
  {
    Escaped(c) || c == '*' || c == '?' || c == '\\'
  }

  /**
   * Full-match semantics of the regular expressions the conversion produces:
   * a backslash escapes the next character, .* matches any run, . any one
   * character, a plain character itself. Any other use of a metacharacter is a
   * construct outside this fragment and matches nothing.
   */
  predicate RegexMatch(r: string, s: string)
    decreases |r| + |s|
  {
    if r == [] then s == []
    else if r[0] == '\\' then |r| >= 2 && s != [] && s[0] == r[1] && RegexMatch(r[2..], s[1..])
    else if r[0] == '.' && |r| >= 2 && r[1] == '*' then RegexMatch(r[2..], s) || (s != [] && RegexMatch(r, s[1..]))
    else if r[0] == '.' then s != [] && RegexMatch(r[1..], s[1..])
    else if Meta(r[0]) then false
    else s != [] && s[0] == r[0] && RegexMatch(r[1..], s[1..])
  }

  /**
   * DoesNameMatchPattern: FRegexMatcher::FindNext on the anchored expression. With
   * ^ at the front and $ at the end a match must span the whole name.
   */
  predicate DoesNameMatchPattern(name: string, pattern: string)
  {
    var r := ConvertPatternToRegex(pattern);
    RegexMatch(r[1..|r| - 1], name)
  }

  /** The translation of a pattern without backslashes matches exactly what the pattern matches. */
  lemma {:induction false} TranslateMatches(p: string, s: string)
    requires '\\' !in p
    ensures RegexMatch(Translate(p), s) <==> WildcardMatch(p, s)
    decreases |p| + |s|
  {
    if p != [] {
      var c := p[0];
      var rest := Translate(p[1..]);
      assert '\\' !in p[1..];
      assert Translate(p) == TranslateChar(c) + rest;
      if c == '*' {
        assert Translate(p) == ".*" + rest;
        assert (".*" + rest)[2..] == rest;
        TranslateMatches(p[1..], s);
        if s != [] {
          TranslateMatches(p, s[1..]);
        }
      } else if s != [] {
        TranslateMatches(p[1..], s[1..]);
        if Escaped(c) {
          assert (['\\', c] + rest)[2..] == rest;
        } else if c == '?' {
          assert ("." + rest)[1..] == rest;
        } else {
          assert ([c] + rest)[1..] == rest;
        }
      }
    }
  }

  /**
   * For a pattern without backslashes the rule's regular expression accepts a
   * name exactly when the name matches the wildcard pattern.
   */
  lemma MatchIsWildcard(name: string, pattern: string)
    requires '\\' !in pattern
    ensures DoesNameMatchPattern(name, pattern) <==> WildcardMatch(pattern, name)
  {
    var r := ConvertPatternToRegex(pattern);
    WildcardsToRegexIsTranslate(pattern);
    assert r[1..|r| - 1] == Translate(pattern);
    TranslateMatches(pattern, name);
  }

  // ---------------------------------------------------------------------------
  // GenerateSuggestedName

  /** FString::Find: the index of the first occurrence of c, if any. */
  function FirstIndex(s: string, c: char): (r: Option<nat>)
    ensures r.None? <==> c !in s
    ensures r.Some? ==> r.value < |s| && s[r.value] == c && c !in s[..r.value]
  {
    if s == [] then None
    else if s[0] == c then Some(0)
    else match FirstIndex(s[1..], c)
      case None => None
      case Some(i) => assert s[..i + 1] == [s[0]] + s[1..][..i]; Some(i + 1)
  }

  /** The text of a pattern before its first '*' (the whole pattern without one). */
  function Prefix(pattern: string): (p: string)
    ensures p <= pattern && '*' !in p
  {
    match FirstIndex(pattern, '*')
    case None => pattern
    case Some(i) => pattern[..i]
  }

  /**
   * GenerateSuggestedName: without a '*' the pattern itself; with one, the name
   * unchanged when it already starts (ignoring case) with the text before the first
   * '*', otherwise the pattern with every '*' replaced by the name.
   */
  function GenerateSuggestedName(name: string, pattern: string): (r: string)
    ensures '*' !in pattern ==> r == pattern
    ensures '*' in pattern && StartsWith(name, Prefix(pattern)) ==> r == name
    ensures '*' in pattern && !StartsWith(name, Prefix(pattern)) ==> r == ReplaceChar(pattern, '*', name)
  {
    if '*' in pattern then
      if StartsWith(name, Prefix(pattern)) then name else ReplaceChar(pattern, '*', name)
    else pattern
  }

  /** A '*' matches the text w it is followed by in the name. */
  lemma {:induction false} StarMatchesRun(rest: string, w: string, t: string)
    requires WildcardMatch(rest, t)
    ensures WildcardMatch("*" + rest, w + t)
    decreases |w|
  {
    var p := "*" + rest;
    assert p[1..] == rest;
    if w == [] {
      assert w + t == t;
    } else {
      StarMatchesRun(rest, w[1..], t);
      assert (w + t)[1..] == w[1..] + t;
    }
  }

  /** Replacing every '*' of a pattern by any text gives a name the pattern matches. */
  lemma {:induction false} ReplacedMatches(p: string, w: string)
    ensures WildcardMatch(p, ReplaceChar(p, '*', w))
  {
    if p != [] {
      var rest := ReplaceChar(p[1..], '*', w);
      ReplacedMatches(p[1..], w);
      if p[0] == '*' {
        assert ReplaceChar(p, '*', w) == w + rest;
        assert p == "*" + p[1..];
        StarMatchesRun(p[1..], w, rest);
      } else {
        assert ReplaceChar(p, '*', w) == [p[0]] + rest;
      }
    }
  }

  /**
   * A suggestion built by replacing the wildcards matches the pattern, and so does
   * a pattern without '*' that is its own suggestion. Only a name that already
   * starts with the prefix comes back unchanged, and it can still fail the pattern.
   */
  lemma SuggestionMatches(name: string, pattern: string)
    requires '*' !in pattern || !StartsWith(name, Prefix(pattern))
    ensures WildcardMatch(pattern, GenerateSuggestedName(name, pattern))
  {
    ReplacedMatches(pattern, name);
  }

  /** A name that differs from the prefix only in case is suggested unchanged, and still fails "SM_*". */
  lemma CaseOnlySuggestionFails()
    ensures GenerateSuggestedName("sm_Rock", DefaultPattern) == "sm_Rock"
    ensures !WildcardMatch(DefaultPattern, "sm_Rock")
  {
    assert Prefix(DefaultPattern) == "SM_" by {
      assert FirstIndex(DefaultPattern, '*') == Some(3);
    }
    assert Lower("SM_") == "sm_";
    assert Lower("sm_Rock") == "sm_rock";
  }

  // ---------------------------------------------------------------------------
  // Check and the rename

  function Description(name: string, pattern: string): string
  {
    "Static Mesh '" + name + "' does not follow the naming convention. Expected pattern: '" + pattern + "'"
  }

  /**
   * The outcome Check specifies: nothing without a mesh or profile or for a
   * disabled rule; otherwise a Warning with a rename fix exactly when the name
   * does not match the pattern.
   */
  function Evaluate(asset: Option<StaticMesh>, profile: Option<ProfileData>): Outcome
  {
    if asset.None? || profile.None? || !IsRuleEnabled(profile.value.rules, RuleId) then NoIssue
    else
      var m := asset.value;
      var pattern := GetRuleParameter(profile.value.rules, RuleId, "NamingPattern", DefaultPattern);
      if DoesNameMatchPattern(m.name, pattern) then NoIssue
      else
        var fix := Some(RenameAsset(GenerateSuggestedName(m.name, pattern)));
        Outcome(true, [MeshIssue(m, Warning, RuleId, Description(m.name, pattern), fix)])
  }

  /**
   * With the rule enabled and a pattern free of backslashes, Check reports exactly
   * the names the wildcard pattern rejects, with one Warning that always carries
   * the rename to the suggested name.
   */
  lemma EvaluateReports(m: StaticMesh, profile: ProfileData)
    requires IsRuleEnabled(profile.rules, RuleId)
    requires '\\' !in GetRuleParameter(profile.rules, RuleId, "NamingPattern", DefaultPattern)
    ensures var o := Evaluate(Some(m), Some(profile));
            var pattern := GetRuleParameter(profile.rules, RuleId, "NamingPattern", DefaultPattern);
            && (o.found <==> !WildcardMatch(pattern, m.name))
            && |o.results| == (if o.found then 1 else 0)
            && (o.found ==> o.results[0].severity == Warning && o.results[0].ruleId == RuleId
                            && o.results[0].asset == AssetOf(m)
                            && o.results[0].fix == Some(RenameAsset(GenerateSuggestedName(m.name, pattern))))
  {
    hide Description;
    MatchIsWildcard(m.name, GetRuleParameter(profile.rules, RuleId, "NamingPattern", DefaultPattern));
  }

  /** Nothing is reported without a mesh or profile or for a disabled rule. */
  lemma EvaluateQuiet(asset: Option<StaticMesh>, profile: Option<ProfileData>)
    requires asset.None? || profile.None? || !IsRuleEnabled(profile.value.rules, RuleId)
    ensures Evaluate(asset, profile) == NoIssue
  {
  }

  /** FixAssetNaming's target path: the package's directory, then the new name. */
  function RenameTarget(packageName: string, newName: string): (target: string)
    ensures LongPackagePath(packageName) <= target
  {
    LongPackagePath(packageName) + "/" + newName
  }

  /** A rename to a name without '/' stays in the asset's directory. */
  lemma RenameKeepsDirectory(packageName: string, newName: string)
    requires '/' !in newName
    ensures LongPackagePath(RenameTarget(packageName, newName)) == LongPackagePath(packageName)
  {
    var dir := LongPackagePath(packageName);
    var target := RenameTarget(packageName, newName);
    var d := LongPackagePath(target);
    assert target[|dir|] == '/';
    forall k | |dir| < k < |target|
      ensures target[k] != '/'
    {
      assert target[k] == newName[k - |dir| - 1];
    }
  }
}
