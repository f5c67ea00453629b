/** The pattern matcher `matchesPattern` of the worker: an address matches a
    configuration when it starts with the prefix, ends with the suffix and
    contains the substring, each test applying only when its field is set, and
    all of them after lower-casing unless matching is case-sensitive. */
module Matcher {
  import opened Types

  predicate IsUpper(c: char) {
    'A' <= c <= 'Z'
  }

  /** `toLowerCase` restricted to ASCII letters. */
  function LowerChar(c: char): char {
    if IsUpper(c) then (c as int + 32) as char else c
  }

  function ToLower(s: string): (r: string)
    ensures |r| == |s|
    ensures forall i :: 0 <= i < |r| ==> !IsUpper(r[i])
    ensures forall i :: 0 <= i < |r| ==> r[i] == s[i] || (IsUpper(s[i]) && r[i] as int == s[i] as int + 32)
  {
    seq(|s|, i requires 0 <= i < |s| => LowerChar(s[i]))
  }

  /** Lower-casing twice is lower-casing once. */
  lemma ToLowerIdempotent(s: string)
    ensures ToLower(ToLower(s)) == ToLower(s)
  {
  }

  /** `c` occurs in `s` starting at index `i`. */
  predicate OccursAt(s: string, c: string, i: int) {
    0 <= i && i + |c| <= |s| && s[i..i + |c|] == c
  }

  /** `String.prototype.startsWith`. */
  predicate StartsWith(s: string, p: string) {
    |p| <= |s| && s[..|p|] == p
  }

  /** `String.prototype.endsWith`. */
  predicate EndsWith(s: string, x: string) {
    |x| <= |s| && s[|s| - |x|..] == x
  }

  /** `String.prototype.includes`: try every starting position from the left. */
  predicate Includes(s: string, c: string)
    decreases |s|
  {
    StartsWith(s, c) || (s != [] && Includes(s[1..], c))
  }

  /** An occurrence at index `i` is found by the left-to-right search. */
  lemma {:induction false} OccurrenceIsIncluded(s: string, c: string, i: int)
    requires OccursAt(s, c, i)
    ensures Includes(s, c)
    decreases i
  {
    if i == 0 {
      assert s[..|c|] == s[0..|c|];
    } else {
      assert s[1..][i - 1..i - 1 + |c|] == s[i..i + |c|];
      OccurrenceIsIncluded(s[1..], c, i - 1);
    }
  }

  /** What the search finds is an occurrence. */
  lemma {:induction false} IncludedOccurs(s: string, c: string)
    requires Includes(s, c)
    ensures exists i :: OccursAt(s, c, i)
    decreases |s|
  {
    if StartsWith(s, c) {
      assert s[0..|c|] == s[..|c|];
      assert OccursAt(s, c, 0);
    } else {
      IncludedOccurs(s[1..], c);
      var i :| OccursAt(s[1..], c, i);
      assert s[1..][i..i + |c|] == s[i + 1..i + 1 + |c|];
      assert OccursAt(s, c, i + 1);
    }
  }

  /** `includes` holds exactly when the substring occurs at some index. */
  lemma IncludesIff(s: string, c: string)
    ensures Includes(s, c) <==> exists i :: OccursAt(s, c, i)
  {
    if Includes(s, c) {
      IncludedOccurs(s, c);
    } else if exists i :: OccursAt(s, c, i) {
      var i :| OccursAt(s, c, i);
      OccurrenceIsIncluded(s, c, i);
    }
  }

  /** A pattern field as the matcher compares it: lower-cased unless matching
      is case-sensitive (`config.prefix?.toLowerCase()` keeps an absent field
      absent). */
  function Normalized(field: Option<string>, cfg: VanityConfig): Option<string> {
    if IsCaseSensitive(cfg) || field.None? then field else Some(ToLower(field.value))
  }

  /** The address as the matcher compares it. */
  function Folded(address: string, cfg: VanityConfig): string {
    if IsCaseSensitive(cfg) then address else ToLower(address)
  }

  /** `matchesPattern(address)` with the module-level `config` passed in. */
  predicate MatchesPattern(address: string, cfg: VanityConfig) {
    var checkAddress := Folded(address, cfg);
    var prefix := Normalized(cfg.prefix, cfg);
    var suffix := Normalized(cfg.suffix, cfg);
    var contains := Normalized(cfg.contains, cfg);
    if TextSet(prefix) && !StartsWith(checkAddress, prefix.value) then false
    else if TextSet(suffix) && !EndsWith(checkAddress, suffix.value) then false
    else if TextSet(contains) && !Includes(checkAddress, contains.value) then false
    else true
  }

  /** Lower-casing keeps an empty field empty and a non-empty one non-empty, so
      case folding never turns a constraint on or off. */
  lemma NormalizedKeepsTruthiness(field: Option<string>, cfg: VanityConfig)
    ensures TextSet(Normalized(field, cfg)) <==> TextSet(field)
    ensures TextSet(field) ==> |Normalized(field, cfg).value| == |field.value|
  {
    if field.Some? && !IsCaseSensitive(cfg) {
      assert |ToLower(field.value)| == |field.value|;
    }
  }

  /** The matcher accepts exactly when every set field holds of the (folded)
      address: the prefix occurs at 0, the suffix occurs at the end, the
      substring occurs somewhere. */
  lemma MatchesPatternIff(address: string, cfg: VanityConfig)
    ensures MatchesPattern(address, cfg) <==>
      var a := Folded(address, cfg);
      (TextSet(cfg.prefix) ==> OccursAt(a, Normalized(cfg.prefix, cfg).value, 0)) &&
      (TextSet(cfg.suffix) ==> OccursAt(a, Normalized(cfg.suffix, cfg).value, |a| - |cfg.suffix.value|)) &&
      (TextSet(cfg.contains) ==> exists i :: OccursAt(a, Normalized(cfg.contains, cfg).value, i))
  {
    var a := Folded(address, cfg);
    NormalizedKeepsTruthiness(cfg.prefix, cfg);
    NormalizedKeepsTruthiness(cfg.suffix, cfg);
    NormalizedKeepsTruthiness(cfg.contains, cfg);
    if TextSet(cfg.contains) {
      IncludesIff(a, Normalized(cfg.contains, cfg).value);
    }
    if TextSet(cfg.prefix) {
      var p := Normalized(cfg.prefix, cfg).value;
      assert StartsWith(a, p) <==> OccursAt(a, p, 0) by {
        if |p| <= |a| { assert a[..|p|] == a[0..0 + |p|]; }
      }
    }
    if TextSet(cfg.suffix) {
      var x := Normalized(cfg.suffix, cfg).value;
      assert EndsWith(a, x) <==> OccursAt(a, x, |a| - |cfg.suffix.value|) by {
        if |x| <= |a| { assert a[|a| - |x|..] == a[|a| - |x|..|a| - |x| + |x|]; }
      }
    }
  }

  /** An unset or empty field imposes no constraint: dropping it never changes
      the verdict. */
  lemma UnsetFieldsImposeNoConstraint(address: string, cfg: VanityConfig)
    ensures !TextSet(cfg.prefix) ==> (MatchesPattern(address, cfg) <==> MatchesPattern(address, cfg.(prefix := None)))
    ensures !TextSet(cfg.suffix) ==> (MatchesPattern(address, cfg) <==> MatchesPattern(address, cfg.(suffix := None)))
    ensures !TextSet(cfg.contains) ==> (MatchesPattern(address, cfg) <==> MatchesPattern(address, cfg.(contains := None)))
  {
    NormalizedKeepsTruthiness(cfg.prefix, cfg);
    NormalizedKeepsTruthiness(cfg.suffix, cfg);
    NormalizedKeepsTruthiness(cfg.contains, cfg);
  }

  /** A configuration without any pattern accepts every address. */
  lemma NoPatternMatchesEverything(address: string, cfg: VanityConfig)
    requires !HasPattern(cfg)
    ensures MatchesPattern(address, cfg)
  {
    NormalizedKeepsTruthiness(cfg.prefix, cfg);
    NormalizedKeepsTruthiness(cfg.suffix, cfg);
    NormalizedKeepsTruthiness(cfg.contains, cfg);
  }

  /** Case-insensitive matching is verbatim matching of the lower-cased address
      against the lower-cased patterns. */
  lemma CaseInsensitiveIsLowercasedMatch(address: string, cfg: VanityConfig)
    requires !IsCaseSensitive(cfg)
    ensures MatchesPattern(address, cfg) <==>
      MatchesPattern(ToLower(address), cfg.(prefix := Normalized(cfg.prefix, cfg),
                                             suffix := Normalized(cfg.suffix, cfg),
                                             contains := Normalized(cfg.contains, cfg),
                                             caseSensitive := Some(true)))
  {
  }

  /** Without case sensitivity, two addresses that differ only in letter case
      get the same verdict. */
  lemma CaseInsensitiveIgnoresAddressCase(a: string, b: string, cfg: VanityConfig)
    requires !IsCaseSensitive(cfg)
    requires ToLower(a) == ToLower(b)
    ensures MatchesPattern(a, cfg) == MatchesPattern(b, cfg)
  {
  }

  /** "ABCxyz" matches prefix "abc" case-insensitively but not case-sensitively. */
  lemma CaseSensitivityExample()
    ensures MatchesPattern("ABCxyz", EmptyConfig.(prefix := Some("abc"), caseSensitive := Some(false)))
    ensures !MatchesPattern("ABCxyz", EmptyConfig.(prefix := Some("abc"), caseSensitive := Some(true)))
  {
    var lowered := ToLower("ABCxyz");
    assert lowered[..3] == "abc";
    assert ToLower("abc") == "abc";
    assert "ABCxyz"[..3] != "abc" by { assert "ABCxyz"[0] != "abc"[0]; }
  }

  /** All three constraints together: "SolDAOxyz" matches prefix "Sol", suffix
      "xyz" and substring "DAO", and fails once the suffix is "zzz". */
  lemma CombinedPatternExample()
    ensures MatchesPattern("SolDAOxyz", VanityConfig(Some("Sol"), Some("xyz"), Some("DAO"), Some(true), None))
    ensures !MatchesPattern("SolDAOxyz", VanityConfig(Some("Sol"), Some("zzz"), Some("DAO"), Some(true), None))
  {
    var a := "SolDAOxyz";
    assert a[..3] == "Sol";
    assert a[6..] == "xyz";
    assert a[6..] != "zzz" by { assert a[6] != "zzz"[0]; }
    assert OccursAt(a, "DAO", 3) by { assert a[3..6] == "DAO"; }
    IncludesIff(a, "DAO");
  }
}
