/**
 * The command-line validators of config/validator.go: the region pattern,
 * profile-name normalisation and list membership.
 */
module Validator {
  import opened Wrappers

  /** RE2's `\w`: an ASCII letter, digit or underscore. */
  predicate IsWordChar(c: char)
  {
    ('a' <= c <= 'z') || ('A' <= c <= 'Z') || ('0' <= c <= '9') || c == '_'
  }

  /** RE2's `\d`: an ASCII digit. */
  predicate IsDigit(c: char)
  {
    '0' <= c <= '9'
  }

  predicate AllWord(s: string)
  {
    forall i :: 0 <= i < |s| ==> IsWordChar(s[i])
  }

  predicate AllDigits(s: string)
  {
    forall i :: 0 <= i < |s| ==> IsDigit(s[i])
  }

  /** The alternation `(us|eu|ap|sa|ca)`. */
  predicate IsRegionPrefix(p: string)
  {
    p == "us" || p == "eu" || p == "ap" || p == "sa" || p == "ca"
  }

  /**
   * `^(us|eu|ap|sa|ca)\-\w+\-\d+$` read as a language: a two-letter prefix,
   * a dash, one or more word characters up to a dash at some k, then one or
   * more digits up to the end of the text.
   */
  ghost predicate MatchesRegionPattern(s: string)
  {
    |s| >= 3 && IsRegionPrefix(s[..2]) && s[2] == '-' &&
    exists k :: 3 < k < |s| - 1 && s[k] == '-' && AllWord(s[3..k]) && AllDigits(s[k + 1..])
  }

  /** The index of the first `c` in `s`, or |s| when there is none. */
  function IndexOf(s: string, c: char): (i: nat)
    ensures i <= |s|
    ensures i < |s| ==> s[i] == c
    ensures forall j :: 0 <= j < i ==> s[j] != c
  {
    if s == [] then 0
    else if s[0] == c then 0
    else 1 + IndexOf(s[1..], c)
  }

  /** Word characters contain no dash, so the middle part ends at the first dash. */
  lemma FirstDashEndsMiddle(s: string, k: int)
    requires 3 <= k < |s| && s[k] == '-' && AllWord(s[3..k])
    ensures 3 + IndexOf(s[3..], '-') == k
  {
    var t := s[3..];
    var i := IndexOf(t, '-');
    assert t[k - 3] == '-';
    assert forall j :: 0 <= j < k - 3 ==> t[j] == s[3..k][j];
  }

  /** IsValidRegion: a direct scan that decides the region pattern. */
  function IsValidRegion(s: string): (b: bool)
    ensures b <==> MatchesRegionPattern(s)
  {
    if |s| >= 3 && IsRegionPrefix(s[..2]) && s[2] == '-' then
      var k := 3 + IndexOf(s[3..], '-');
      var b := 3 < k < |s| - 1 && AllWord(s[3..k]) && AllDigits(s[k + 1..]);
      assert b ==> s[k] == s[3..][k - 3];
      assert MatchesRegionPattern(s) ==> b by {
        if MatchesRegionPattern(s) {
          var k' :| 3 < k' < |s| - 1 && s[k'] == '-' && AllWord(s[3..k']) && AllDigits(s[k' + 1..]);
          FirstDashEndsMiddle(s, k');
        }
      }
      b
    else
      false
  }

  /** The region the program is deployed to is accepted. */
  lemma DeployedRegionIsValid()
    ensures IsValidRegion("ap-northeast-1")
  {
    var s := "ap-northeast-1";
    assert s[..2] == "ap";
    assert s[12] == '-' && AllWord(s[3..12]) && AllDigits(s[13..]);
  }

  /** A middle part that itself contains a dash is rejected. */
  lemma GovCloudRegionIsInvalid()
    ensures !IsValidRegion("us-gov-west-1")
  {
    var s := "us-gov-west-1";
    var t := s[3..];
    assert t[0] == 'g' && t[1] == 'o' && t[2] == 'v' && t[3] == '-';
    assert IndexOf(t, '-') == 3;
    assert s[7..][0] == 'w';
  }

  /** ParseRegion: the input comes back unchanged, with an error iff it is not a region. */
  function ParseRegion(s: string): (r: (string, Option<Error>))
    ensures r.0 == s
    ensures r.1.Some? <==> !MatchesRegionPattern(s)
    ensures r.1.Some? ==> r.1.value == Message("not a valid region")
  {
    if !IsValidRegion(s) then (s, Some(Message("not a valid region"))) else (s, None)
  }

  /** stringInSlice: a scan that returns at the first equal element. */
  method StringInSlice(s: string, slice: seq<string>) returns (found: bool)
    ensures found <==> s in slice
  {
    var i := 0;
    while i < |slice|
      invariant 0 <= i <= |slice|
      invariant s !in slice[..i]
    {
      if slice[i] == s {
        return true;
      }
      i := i + 1;
    }
    assert slice[..i] == slice;
    return false;
  }

  /** unicode.IsSpace, the test strings.TrimSpace strips by. */
  predicate IsSpace(c: char)
  {
    c == '\t' || c == '\n' || c == '\U{B}' || c == '\U{C}' || c == '\r' || c == ' ' ||
    c == '\U{85}' || c == '\U{A0}' || c == '\U{1680}' || ('\U{2000}' <= c <= '\U{200A}') ||
    c == '\U{2028}' || c == '\U{2029}' || c == '\U{202F}' || c == '\U{205F}' || c == '\U{3000}'
  }

  predicate AllSpace(s: string)
  {
    forall i :: 0 <= i < |s| ==> IsSpace(s[i])
  }

  /** The number of white-space characters `s` starts with. */
  function LeadingSpace(s: string): (n: nat)
    ensures n <= |s|
    ensures forall i :: 0 <= i < n ==> IsSpace(s[i])
    ensures n < |s| ==> !IsSpace(s[n])
  {
    if s != [] && IsSpace(s[0]) then 1 + LeadingSpace(s[1..]) else 0
  }

  /** The number of white-space characters `s` ends with. */
  function TrailingSpace(s: string): (n: nat)
    ensures n <= |s|
    ensures forall i :: |s| - n <= i < |s| ==> IsSpace(s[i])
    ensures n < |s| ==> !IsSpace(s[|s| - n - 1])
  {
    if s != [] && IsSpace(s[|s| - 1]) then 1 + TrailingSpace(s[..|s| - 1]) else 0
  }

  /**
   * strings.TrimSpace: the part of `s` between its leading and its trailing
   * white space; everything removed is white space and what remains neither
   * starts nor ends with it.
   */
  function TrimSpace(s: string): (r: string)
    ensures LeadingSpace(s) + |r| <= |s|
    ensures forall i :: 0 <= i < |r| ==> r[i] == s[LeadingSpace(s) + i]
    ensures forall i :: LeadingSpace(s) + |r| <= i < |s| ==> IsSpace(s[i])
    ensures r != [] ==> !IsSpace(r[0]) && !IsSpace(r[|r| - 1])
  {
    var i := LeadingSpace(s);
    var t := s[i..];
    var n := TrailingSpace(t);
    assert forall j :: i + |t| - n <= j < |s| ==> s[j] == t[j - i];
    t[..|t| - n]
  }

  /** strings.TrimPrefix */
  function TrimPrefix(s: string, prefix: string): (r: string)
    ensures prefix <= s ==> r == s[|prefix|..]
    ensures !(prefix <= s) ==> r == s
  {
    if prefix <= s then s[|prefix|..] else s
  }

  /**
   * What ExistingProfiles keeps of one bracketed name: trimmed, one leading
   * "profile " removed, trimmed again, and dropped when nothing is left.
   */
  function NormalizeProfile(captured: string): (r: Option<string>)
    ensures r.Some? ==> r.value != [] && !IsSpace(r.value[0]) && !IsSpace(r.value[|r.value| - 1])
  {
    var p := TrimSpace(TrimPrefix(TrimSpace(captured), "profile "));
    if p != [] then Some(p) else None
  }

  /** A "profile " section header names the profile that follows it. */
  lemma NamedProfile()
    ensures NormalizeProfile(" profile dev ") == Some("dev")
  {
    var s := " profile dev ";
    assert LeadingSpace(s[1..]) == 0;
    assert LeadingSpace(s) == 1;
    assert TrailingSpace("profile dev ") == 1 by {
      assert "profile dev "[..11] == "profile dev";
      assert TrailingSpace("profile dev") == 0;
    }
    assert TrimSpace(s) == "profile dev";
    assert "profile " <= "profile dev";
    assert TrimPrefix("profile dev", "profile ") == "dev";
    assert LeadingSpace("dev") == 0;
    assert TrailingSpace("dev") == 0;
    assert "dev"[0..][..3] == "dev";
  }

  /** The names that survive normalisation, in order. */
  function Kept(names: seq<Option<string>>): seq<string>
  {
    if names == [] then []
    else
      var last := names[|names| - 1];
      Kept(names[..|names| - 1]) + (if last.Some? then [last.value] else [])
  }

  /** Each bracketed name of one file after normalisation by `norm`. */
  function Normalized(norm: string -> Option<string>, captured: seq<string>): (names: seq<Option<string>>)
    ensures |names| == |captured|
    ensures forall k :: 0 <= k < |captured| ==> names[k] == norm(captured[k])
  {
    seq(|captured|, k requires 0 <= k < |captured| => norm(captured[k]))
  }

  /** The names `norm` keeps of all files, in file order and, within a file, in match order. */
  function Collect(norm: string -> Option<string>, files: seq<seq<string>>): seq<string>
  {
    if files == [] then []
    else Collect(norm, files[..|files| - 1]) + Kept(Normalized(norm, files[|files| - 1]))
  }

  /** The profile names ExistingProfiles lists for these files. */
  function Profiles(files: seq<seq<string>>): seq<string>
  {
    Collect(NormalizeProfile, files)
  }

  /** The names of the first files come before those of the later ones. */
  lemma {:induction false} CollectAppend(norm: string -> Option<string>, a: seq<seq<string>>, b: seq<seq<string>>)
    ensures Collect(norm, a + b) == Collect(norm, a) + Collect(norm, b)
    decreases |b|
  {
    if b == [] {
      assert a + b == a;
    } else {
      var b' := b[..|b| - 1];
      assert (a + b)[..|a + b| - 1] == a + b';
      assert (a + b)[|a + b| - 1] == b[|b| - 1];
      CollectAppend(norm, a, b');
    }
  }

  /** A name is kept iff some entry carries it. */
  lemma {:induction false} KeptMembers(names: seq<Option<string>>, p: string)
    ensures p in Kept(names) <==> exists k :: 0 <= k < |names| && names[k] == Some(p)
    decreases |names|
  {
    if names != [] {
      var init := names[..|names| - 1];
      KeptMembers(init, p);
      if exists k :: 0 <= k < |names| && names[k] == Some(p) {
        var k :| 0 <= k < |names| && names[k] == Some(p);
        if k < |init| {
          assert init[k] == names[k];
        }
      }
      if exists k :: 0 <= k < |init| && init[k] == Some(p) {
        var k :| 0 <= k < |init| && init[k] == Some(p);
        assert names[k] == init[k];
      }
    }
  }

  /** A name is collected iff `norm` maps some captured name of some file to it. */
  lemma {:induction false} CollectMembers(norm: string -> Option<string>, files: seq<seq<string>>, p: string)
    ensures p in Collect(norm, files) <==>
      exists f, k :: 0 <= f < |files| && 0 <= k < |files[f]| && norm(files[f][k]) == Some(p)
    decreases |files|
  {
    if files != [] {
      var init := files[..|files| - 1];
      var last := files[|files| - 1];
      CollectMembers(norm, init, p);
      KeptMembers(Normalized(norm, last), p);
      if exists f, k :: 0 <= f < |files| && 0 <= k < |files[f]| && norm(files[f][k]) == Some(p) {
        var f, k :| 0 <= f < |files| && 0 <= k < |files[f]| && norm(files[f][k]) == Some(p);
        if f < |init| {
          assert init[f] == files[f];
        } else {
          assert Normalized(norm, last)[k] == Some(p);
        }
      }
      if exists f, k :: 0 <= f < |init| && 0 <= k < |init[f]| && norm(init[f][k]) == Some(p) {
        var f, k :| 0 <= f < |init| && 0 <= k < |init[f]| && norm(init[f][k]) == Some(p);
        assert files[f] == init[f];
      }
    }
  }

  /** The config file's names come before the credentials file's. */
  lemma ConfigBeforeCredentials(config: seq<string>, credentials: seq<string>)
    ensures Profiles([config, credentials]) == Profiles([config]) + Profiles([credentials])
  {
    CollectAppend(NormalizeProfile, [config], [credentials]);
    assert [config] + [credentials] == [config, credentials];
  }

  /** A name is listed iff some bracketed name of some file normalises to it, and then it is trimmed and non-empty. */
  lemma ProfilesMembers(files: seq<seq<string>>, p: string)
    ensures p in Profiles(files) <==>
      exists f, k :: 0 <= f < |files| && 0 <= k < |files[f]| && NormalizeProfile(files[f][k]) == Some(p)
    ensures p in Profiles(files) ==> p != [] && !IsSpace(p[0]) && !IsSpace(p[|p| - 1])
  {
    CollectMembers(NormalizeProfile, files, p);
    if p in Profiles(files) {
      var f, k :| 0 <= f < |files| && 0 <= k < |files[f]| && NormalizeProfile(files[f][k]) == Some(p);
    }
  }

  /** The inner loop of ExistingProfiles: the normalised names of one file, in match order. */
  method FileProfiles(matches: seq<string>) returns (kept: seq<string>)
    ensures kept == Kept(Normalized(NormalizeProfile, matches))
  {
    ghost var names := Normalized(NormalizeProfile, matches);
    kept := [];
    var m := 0;
    while m < |matches|
      invariant 0 <= m <= |matches|
      invariant kept == Kept(names[..m])
    {
      var profile := NormalizeProfile(matches[m]);
      assert names[..m + 1][..m] == names[..m];
      assert names[..m + 1][m] == profile;
      if profile.Some? {
        kept := kept + [profile.value];
      }
      m := m + 1;
    }
    assert names[..m] == names;
  }

  /**
   * ExistingProfiles over the bracketed names captured from each file that
   * could be read, config first and credentials second.
   */
  method ExistingProfiles(files: seq<seq<string>>) returns (profiles: seq<string>)
    ensures profiles == Profiles(files)
  {
    profiles := [];
    var f := 0;
    while f < |files|
      invariant 0 <= f <= |files|
      invariant profiles == Collect(NormalizeProfile, files[..f])
    {
      var kept := FileProfiles(files[f]);
      profiles := profiles + kept;
      assert files[..f + 1][..f] == files[..f];
      f := f + 1;
    }
    assert files[..f] == files;
  }

  /** IsValidProfile: the profile is one of the existing ones. */
  method IsValidProfile(profile: string, files: seq<seq<string>>) returns (valid: bool)
    ensures valid <==> profile in Profiles(files)
  {
    var existing := ExistingProfiles(files);
    valid := StringInSlice(profile, existing);
  }
}
