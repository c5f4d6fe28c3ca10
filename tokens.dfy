/** The `callback_data` tokens of the catalog navigation
    (src/handlers/file-search-handlers.js): how the handlers build them
    with template strings, and how they read them back with first-match
    regular expressions such as `/year_([^_]+)/`. */
module Tokens {
  import opened Js

  const BackToBranches: string := "back_to_branches"

  /** The Bot API limit on `callback_data`, in bytes. */
  const CallbackDataLimit: nat := 64

  function BranchToken(branchId: string): string { "branch_" + branchId }
  function YearToken(yearId: string, branchId: string): string { "year_" + yearId + "_branch_" + branchId }
  function SylToken(sylId: string, yearId: string): string { "syl_" + sylId + "_y_" + yearId }
  function SubToken(subId: string, sylId: string): string { "sub_" + subId + "_s_" + sylId }
  function BackYearToken(yearId: string): string { "back_year_" + yearId }
  function BackSylToken(sylId: string): string { "back_syl_" + sylId }

  // ---------------------------------------------------------------------
  // The regular expression /p([^_]+)/ applied with String.prototype.match
  // ---------------------------------------------------------------------

  /** The pattern `p([^_]+)` can start matching at `i`: `p` occurs there and
      at least one character other than `_` follows it. */
  predicate MatchAt(s: string, p: string, i: int)
  {
    0 <= i && i + |p| < |s| && s[i..i + |p|] == p && s[i + |p|] != '_'
  }

  /** The greedy `[^_]+` group: the longest prefix of `s` without `_`. */
  function Run(s: string): (r: string)
    ensures |r| <= |s| && r == s[..|r|]
    ensures NoUnderscore(r)
    ensures |r| < |s| ==> s[|r|] == '_'
  {
    if s == [] || s[0] == '_' then [] else [s[0]] + Run(s[1..])
  }

  /** The leftmost position at or after `from` where the pattern matches. */
  function FirstMatch(s: string, p: string, from: nat): (r: Option<nat>)
    decreases |s| - from
    ensures r.Some? ==> from <= r.value && MatchAt(s, p, r.value)
    ensures r.Some? ==> forall j :: from <= j < r.value ==> !MatchAt(s, p, j)
    ensures r.None? ==> forall j :: from <= j ==> !MatchAt(s, p, j)
  {
    if from + |p| >= |s| then None
    else if MatchAt(s, p, from) then Some(from)
    else FirstMatch(s, p, from + 1)
  }

  /** `s.match(/p([^_]+)/)?.[1]`, with `None` for a failed match. A capture is
      never empty and never contains `_`. */
  function Capture(p: string, s: string): (r: Option<string>)
    ensures r.Some? ==> r.value != [] && NoUnderscore(r.value)
    ensures r.Some? <==> exists i :: MatchAt(s, p, i)
  {
    match FirstMatch(s, p, 0)
    case None => None
    case Some(i) =>
      var c := Run(s[i + |p|..]);
      assert c != [];
      Some(c)
  }

  // ---------------------------------------------------------------------
  // Round trips
  // ---------------------------------------------------------------------

  lemma {:induction false} RunStopsAtDelimiter(x: string, rest: string)
    requires NoUnderscore(x)
    requires rest == [] || rest[0] == '_'
    ensures Run(x + rest) == x
  {
    if x != [] {
      assert (x + rest)[0] == x[0];
      assert (x + rest)[1..] == x[1..] + rest;
      RunStopsAtDelimiter(x[1..], rest);
    } else {
      assert x + rest == rest;
    }
  }

  /** The first match decides the capture. */
  lemma CaptureAt(s: string, p: string, i: nat)
    requires MatchAt(s, p, i)
    requires forall j :: 0 <= j < i ==> !MatchAt(s, p, j)
    ensures Capture(p, s) == Some(Run(s[i + |p|..]))
  {
  }

  /** A token prefix such as `year_`: it ends with its only `_`. */
  predicate Prefix(p: string)
  {
    |p| >= 1 && p[|p| - 1] == '_' && NoUnderscore(p[..|p| - 1])
  }

  /** Before the last character of `q`, the only `_` characters of
      `p + x + "_" + q + z` are the last character of `p` and the separator. */
  lemma UnderscorePositions(p: string, x: string, q: string, z: string, m: nat)
    requires Prefix(p) && Prefix(q) && NoUnderscore(x) && NoUnderscore(z)
    requires m < |p| + |x| + |q| && (p + x + "_" + q + z)[m] == '_'
    ensures m == |p| - 1 || m == |p| + |x|
  {
  }

  /** `/p([^_]+)/` on `p + x + rest` captures `x` when `rest` starts with `_`. */
  lemma {:induction false} LeadingIdDecodes(p: string, x: string, rest: string)
    requires x != [] && NoUnderscore(x)
    requires rest == [] || rest[0] == '_'
    ensures Capture(p, p + x + rest) == Some(x)
  {
    var t := p + x + rest;
    assert t[..|p|] == p;
    assert t[|p|] == x[0];
    assert t[|p|..] == x + rest;
    RunStopsAtDelimiter(x, rest);
    CaptureAt(t, p, 0);
  }

  /** No match of `/q([^_]+)/` starts before the separator's successor. */
  lemma NoEarlyMatch(p: string, x: string, q: string, z: string, j: nat)
    requires Prefix(p) && Prefix(q) && !EndsWith(p, q)
    requires NoUnderscore(x) && NoUnderscore(z)
    requires !EndsWith(x, q[..|q| - 1])
    requires j < |p| + |x| + 1
    ensures !MatchAt(p + x + "_" + q + z, q, j)
  {
    var t := p + x + "_" + q + z;
    var e := j + |q| - 1;
    if e == |p| - 1 {
      assert t[j..j + |q|] == p[|p| - |q|..];
    } else if e == |p| + |x| {
      if j < |p| {
        assert t[j..j + |q|][|p| - 1 - j] == t[|p| - 1] == '_';
        assert q[|p| - 1 - j] == q[..|q| - 1][|p| - 1 - j] != '_';
      } else {
        var a := j - |p|;
        assert t[..|p| + |x|] == p + x;
        assert t[j..j + |q| - 1] == (p + x)[j..|p| + |x|] == x[a..];
        assert x[a..] != q[..|q| - 1];
      }
    } else if t[e] == '_' {
      UnderscorePositions(p, x, q, z, e);
    }
  }

  /** Decoding a two-id token `p + x + "_" + q + z` with `/p([^_]+)/` and
      `/q([^_]+)/` gives back `x` and `z`, provided neither id contains `_`,
      `p` does not end with `q`, and `x` does not end with `q` minus its `_`. */
  lemma {:induction false} PairRoundTrip(p: string, x: string, q: string, z: string)
    requires Prefix(p) && Prefix(q) && !EndsWith(p, q)
    requires x != [] && z != [] && NoUnderscore(x) && NoUnderscore(z)
    requires !EndsWith(x, q[..|q| - 1])
    ensures Capture(p, p + x + "_" + q + z) == Some(x)
    ensures Capture(q, p + x + "_" + q + z) == Some(z)
  {
    var t := p + x + "_" + q + z;
    assert t == p + x + ("_" + q + z);
    LeadingIdDecodes(p, x, "_" + q + z);
    var k := |p| + |x| + 1;
    assert t == (p + x + "_") + q + z;
    assert t[k..k + |q|] == q;
    assert t[k + |q|] == z[0];
    assert MatchAt(t, q, k);
    assert t[k + |q|..] == z + [];
    RunStopsAtDelimiter(z, []);
    forall j | 0 <= j < k
      ensures !MatchAt(t, q, j)
    {
      NoEarlyMatch(p, x, q, z, j);
    }
    CaptureAt(t, q, k);
  }

  lemma YearTokenRoundTrip(yearId: string, branchId: string)
    requires yearId != [] && branchId != [] && NoUnderscore(yearId) && NoUnderscore(branchId)
    requires !EndsWith(yearId, "branch")
    ensures Capture("year_", YearToken(yearId, branchId)) == Some(yearId)
    ensures Capture("branch_", YearToken(yearId, branchId)) == Some(branchId)
  {
    var p, q := "year_", "branch_";
    assert Prefix(p) by { assert p[..4] == "year"; }
    assert Prefix(q) by { assert q[..6] == "branch"; }
    assert p + yearId + "_" + q + branchId == YearToken(yearId, branchId);
    PairRoundTrip(p, yearId, q, branchId);
  }

  lemma SylTokenRoundTrip(sylId: string, yearId: string)
    requires sylId != [] && yearId != [] && NoUnderscore(sylId) && NoUnderscore(yearId)
    requires !EndsWith(sylId, "y")
    ensures Capture("syl_", SylToken(sylId, yearId)) == Some(sylId)
    ensures Capture("y_", SylToken(sylId, yearId)) == Some(yearId)
  {
    var p, q := "syl_", "y_";
    assert Prefix(p) by { assert p[..3] == "syl"; }
    assert Prefix(q) by { assert q[..1] == "y"; }
    assert !EndsWith(p, q) by { assert p[2] == 'l'; }
    assert p + sylId + "_" + q + yearId == SylToken(sylId, yearId);
    PairRoundTrip(p, sylId, q, yearId);
  }

  lemma SubTokenRoundTrip(subId: string, sylId: string)
    requires subId != [] && sylId != [] && NoUnderscore(subId) && NoUnderscore(sylId)
    requires !EndsWith(subId, "s")
    ensures Capture("sub_", SubToken(subId, sylId)) == Some(subId)
    ensures Capture("s_", SubToken(subId, sylId)) == Some(sylId)
  {
    var p, q := "sub_", "s_";
    assert Prefix(p) by { assert p[..3] == "sub"; }
    assert Prefix(q) by { assert q[..1] == "s"; }
    assert !EndsWith(p, q) by { assert p[2] == 'b'; }
    assert p + subId + "_" + q + sylId == SubToken(subId, sylId);
    PairRoundTrip(p, subId, q, sylId);
  }

  /** The suffix side condition is needed: when the first id ends with `q`
      minus its `_`, `/q([^_]+)/` matches inside the first id and captures
      that suffix instead of the second id. */
  lemma {:induction false} SuffixCollision(p: string, w: string, q: string, z: string)
    requires Prefix(p) && Prefix(q) && |q| >= 2 && !EndsWith(p, q)
    requires NoUnderscore(w) && NoUnderscore(z)
    ensures Capture(q, p + (w + q[..|q| - 1]) + "_" + q + z) == Some(q[..|q| - 1])
  {
    var q' := q[..|q| - 1];
    var x := w + q';
    var t := p + x + "_" + q + z;
    var k := |p| + |w|;
    assert q' + "_" == q;
    assert t == (p + w) + q + (q' + ("_" + z));
    assert MatchAt(t, q, k) by {
      assert t[k..k + |q|] == q;
      assert t[k + |q|] == q'[0] == q[0];
    }
    forall j | 0 <= j < k
      ensures !MatchAt(t, q, j)
    {
      NoMatchInsideFirstId(p, x, q, z, j);
    }
    CaptureAt(t, q, k);
    assert t[k + |q|..] == q' + ("_" + z);
    RunStopsAtDelimiter(q', "_" + z);
  }

  lemma NoMatchInsideFirstId(p: string, x: string, q: string, z: string, j: nat)
    requires Prefix(p) && Prefix(q) && !EndsWith(p, q)
    requires NoUnderscore(x) && NoUnderscore(z)
    requires j + |q| - 1 < |p| + |x|
    ensures !MatchAt(p + x + "_" + q + z, q, j)
  {
    var t := p + x + "_" + q + z;
    var e := j + |q| - 1;
    if e == |p| - 1 {
      assert t[j..j + |q|] == p[|p| - |q|..];
    } else if t[e] == '_' {
      UnderscorePositions(p, x, q, z, e);
    }
  }

  /** A year id ending in `branch` is decoded with the wrong branch id. */
  lemma YearIdEndingInBranchMisdecodes(w: string, branchId: string)
    requires NoUnderscore(w) && NoUnderscore(branchId)
    ensures Capture("branch_", YearToken(w + "branch", branchId)) == Some("branch")
  {
    var p, q := "year_", "branch_";
    assert Prefix(p) by { assert p[..4] == "year"; }
    assert Prefix(q) by { assert q[..6] == "branch"; }
    assert q[..|q| - 1] == "branch";
    assert p + (w + "branch") + "_" + q + branchId == YearToken(w + "branch", branchId);
    SuffixCollision(p, w, q, branchId);
  }

  // ---------------------------------------------------------------------
  // Ids as the catalog issues them, and the 64-byte limit
  // ---------------------------------------------------------------------

  predicate IsHexDigit(c: char)
  {
    '0' <= c <= '9' || 'a' <= c <= 'f'
  }

  /** A MongoDB ObjectId in its 24-character lower-case hex form. All its
      characters are ASCII, so its length in bytes equals |id|. */
  predicate ObjectId(id: string)
  {
    |id| == 24 && forall i :: 0 <= i < |id| ==> IsHexDigit(id[i])
  }

  /** ObjectIds meet every side condition of the round trips. */
  lemma ObjectIdSideConditions(id: string)
    requires ObjectId(id)
    ensures id != [] && NoUnderscore(id)
    ensures !EndsWith(id, "branch") && !EndsWith(id, "y") && !EndsWith(id, "s")
  {
    assert IsHexDigit(id[23]);
  }

  /** With ObjectIds every token the handlers build fits the 64-byte limit;
      the longest is the year token at 61 bytes. */
  lemma TokensFit(a: string, b: string)
    requires ObjectId(a) && ObjectId(b)
    ensures |BranchToken(a)| == 31 && |BackYearToken(a)| == 34 && |BackSylToken(a)| == 33
    ensures |YearToken(a, b)| == 61 && |SylToken(a, b)| == 55 && |SubToken(a, b)| == 55
    ensures |BackToBranches| == 16
    ensures |YearToken(a, b)| <= CallbackDataLimit
  {
  }

  /** Both ids of every two-id token come back when they are ObjectIds. */
  lemma ObjectIdTokensRoundTrip(a: string, b: string)
    requires ObjectId(a) && ObjectId(b)
    ensures Capture("year_", YearToken(a, b)) == Some(a) && Capture("branch_", YearToken(a, b)) == Some(b)
    ensures Capture("syl_", SylToken(a, b)) == Some(a) && Capture("y_", SylToken(a, b)) == Some(b)
    ensures Capture("sub_", SubToken(a, b)) == Some(a) && Capture("s_", SubToken(a, b)) == Some(b)
  {
    ObjectIdSideConditions(a);
    ObjectIdSideConditions(b);
    YearTokenRoundTrip(a, b);
    SylTokenRoundTrip(a, b);
    SubTokenRoundTrip(a, b);
  }

  /** `data.replace(prefix, "")` recovers the id of a one-id token, whatever the id. */
  lemma StripPrefixRoundTrip(prefix: string, id: string)
    ensures ReplaceFirst(prefix + id, prefix, "") == id
  {
    assert StartsWith(prefix + id, prefix);
    assert (prefix + id)[|prefix|..] == id;
  }
}
