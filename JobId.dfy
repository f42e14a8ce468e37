/**
 * Job-ID extraction from a LinkedIn URL (backend/src/server.js, the
 * `/fetch-job` handler). The handler tries two regular expressions,
 * `/\/jobs\/view\/(\d+)/` and `/currentJobId=(\d+)/`, with `String.prototype.match`
 * and keeps the first group of the first one that matches. Both are a
 * literal followed by a greedy `(\d+)` and nothing else, so a match exists at
 * index i exactly when the literal occurs at i and a digit follows it, the
 * engine reports the smallest such i, and the group is the longest digit run
 * after the literal. This is plain substring search, not URL parsing: the
 * literal may sit anywhere in the string and has no word boundary.
 */
module JobId {
  import opened Wrappers
  import opened Decimal

  /** The literal part of `/\/jobs\/view\/(\d+)/`. */
  const ViewPrefix: string := "/jobs/view/"
  /** The literal part of `/currentJobId=(\d+)/`. */
  const QueryKey: string := "currentJobId="
  /** Scheme and host of the canonical job URL sent upstream. */
  const LinkedInHost: string := "https://www.linkedin.com"

  /** The regex `lit(\d+)` can start a match at index i of s. */
  predicate MatchesAt(s: string, lit: string, i: nat) {
    i + |lit| < |s| && s[i..i + |lit|] == lit && IsDigit(s[i + |lit|])
  }

  /**
   * Reference semantics of `lit(\d+)` with a greedy group: a match starts at
   * index i and its group is cap (at least one digit, and no digit follows it).
   */
  ghost predicate IsCapture(s: string, lit: string, i: nat, cap: string) {
    var k := i + |lit|;
    k + |cap| <= |s| && s[i..k] == lit
    && 0 < |cap| && AllDigits(cap) && s[k..k + |cap|] == cap
    && (k + |cap| == |s| || !IsDigit(s[k + |cap|]))
  }

  /** cap is the group of the leftmost match, the one `String.prototype.match` returns. */
  ghost predicate IsFirstCapture(s: string, lit: string, i: nat, cap: string) {
    IsCapture(s, lit, i, cap) && forall j: nat, c: string :: j < i ==> !IsCapture(s, lit, j, c)
  }

  /** The longest run of digits of s starting at index k. */
  function DigitRun(s: string, k: nat): (r: string)
    requires k <= |s|
    decreases |s| - k
    ensures k + |r| <= |s| && s[k..k + |r|] == r && AllDigits(r)
    ensures k + |r| == |s| || !IsDigit(s[k + |r|])
  {
    if k < |s| && IsDigit(s[k]) then
      var rest := DigitRun(s, k + 1);
      assert s[k..k + 1 + |rest|] == [s[k]] + s[k + 1..k + 1 + |rest|];
      [s[k]] + rest
    else
      []
  }

  /** The leftmost index at or after `from` where `lit(\d+)` matches, scanning as the regex engine does. */
  function FindMatch(s: string, lit: string, from: nat): (r: Option<nat>)
    decreases |s| - from
    ensures r.Some? ==> from <= r.value && MatchesAt(s, lit, r.value)
    ensures r.Some? ==> forall j: nat :: from <= j < r.value ==> !MatchesAt(s, lit, j)
    ensures r.None? ==> forall j: nat :: from <= j ==> !MatchesAt(s, lit, j)
  {
    if from + |lit| >= |s| then None
    else if MatchesAt(s, lit, from) then Some(from)
    else FindMatch(s, lit, from + 1)
  }

  /** `s.match(/lit(\d+)/)`, reduced to its first group: None when the result is null. */
  function Capture(s: string, lit: string): (r: Option<string>)
    ensures r.Some? ==> 0 < |r.value| && AllDigits(r.value)
    ensures r.None? <==> forall i: nat :: !MatchesAt(s, lit, i)
  {
    match FindMatch(s, lit, 0)
    case None => None
    case Some(i) => Some(DigitRun(s, i + |lit|))
  }

  lemma CaptureAtMatch(s: string, lit: string, i: nat, cap: string)
    requires IsCapture(s, lit, i, cap)
    ensures MatchesAt(s, lit, i) && cap == DigitRun(s, i + |lit|)
  {
    var k := i + |lit|;
    var r := DigitRun(s, k);
    assert cap[0] == s[k];
    assert |r| == |cap|;
  }

  lemma MatchAtCapture(s: string, lit: string, i: nat)
    requires MatchesAt(s, lit, i)
    ensures IsCapture(s, lit, i, DigitRun(s, i + |lit|))
  {
  }

  /** Capture agrees with the reference semantics: it returns cap exactly when cap is the group of the leftmost match. */
  lemma CaptureIsFirstMatch(s: string, lit: string, cap: string)
    ensures Capture(s, lit) == Some(cap) <==> exists i: nat :: IsFirstCapture(s, lit, i, cap)
  {
    var found := FindMatch(s, lit, 0);
    if Capture(s, lit) == Some(cap) {
      var i := found.value;
      MatchAtCapture(s, lit, i);
      forall j: nat, c: string | j < i
        ensures !IsCapture(s, lit, j, c)
      {
        if IsCapture(s, lit, j, c) {
          CaptureAtMatch(s, lit, j, c);
        }
      }
      assert IsFirstCapture(s, lit, i, cap);
    }
    if exists i: nat :: IsFirstCapture(s, lit, i, cap) {
      var i: nat :| IsFirstCapture(s, lit, i, cap);
      CaptureAtMatch(s, lit, i, cap);
      assert found.Some?;
      if found.value < i {
        MatchAtCapture(s, lit, found.value);
      }
    }
  }

  /** Capture finds nothing exactly when the reference semantics has no match anywhere. */
  lemma CaptureNoneIffNoMatch(s: string, lit: string)
    ensures Capture(s, lit).None? <==> forall i: nat, c: string :: !IsCapture(s, lit, i, c)
  {
    if Capture(s, lit).None? {
      forall i: nat, c: string ensures !IsCapture(s, lit, i, c) {
        if IsCapture(s, lit, i, c) {
          CaptureAtMatch(s, lit, i, c);
        }
      }
    } else {
      var i := FindMatch(s, lit, 0).value;
      MatchAtCapture(s, lit, i);
    }
  }

  /** The job ID of a URL: the `/jobs/view/` group if that pattern matches, else the `currentJobId=` group. */
  function ExtractJobId(url: string): (r: Option<string>)
    ensures r.Some? ==> 0 < |r.value| && AllDigits(r.value)
    ensures r.None? <==> (forall i: nat :: !MatchesAt(url, ViewPrefix, i)) && (forall i: nat :: !MatchesAt(url, QueryKey, i))
  {
    var viewMatch := Capture(url, ViewPrefix);
    var queryMatch := Capture(url, QueryKey);
    if viewMatch.Some? then viewMatch
    else if queryMatch.Some? then queryMatch
    else None
  }

  /**
   * The extracted ID is the `/jobs/view/` group when that pattern matches
   * anywhere (a `currentJobId=` value is then ignored), and otherwise the
   * `currentJobId=` group.
   */
  lemma ExtractJobIdIsFirstMatch(url: string, id: string)
    ensures ExtractJobId(url) == Some(id) <==>
      (exists i: nat :: IsFirstCapture(url, ViewPrefix, i, id))
      || ((forall i: nat, c: string :: !IsCapture(url, ViewPrefix, i, c))
          && exists i: nat :: IsFirstCapture(url, QueryKey, i, id))
  {
    CaptureIsFirstMatch(url, ViewPrefix, id);
    CaptureIsFirstMatch(url, QueryKey, id);
    CaptureNoneIffNoMatch(url, ViewPrefix);
  }

  /** The URL the handler sends upstream for a job ID. */
  function CanonicalUrl(jobId: string): (u: string)
    ensures |u| == |LinkedInHost| + |ViewPrefix| + |jobId|
    ensures u[..|LinkedInHost| + |ViewPrefix|] == "https://www.linkedin.com/jobs/view/"
    ensures u[|LinkedInHost| + |ViewPrefix|..] == jobId
  {
    LinkedInHost + ViewPrefix + jobId
  }

  /** Extracting the job ID from the canonical URL gives that ID back. */
  lemma {:induction false} CanonicalUrlRoundTrip(jobId: string)
    requires 0 < |jobId| && AllDigits(jobId)
    ensures ExtractJobId(CanonicalUrl(jobId)) == Some(jobId)
  {
    var u := CanonicalUrl(jobId);
    var i := |LinkedInHost|;
    assert u[i..i + |ViewPrefix|] == ViewPrefix;
    assert u[i + |ViewPrefix|..i + |ViewPrefix| + |jobId|] == jobId;
    assert IsCapture(u, ViewPrefix, i, jobId);
    forall j: nat, c: string | j < i
      ensures !IsCapture(u, ViewPrefix, j, c)
    {
      assert u[j] == LinkedInHost[j] && u[j + 1] == (LinkedInHost + "/")[j + 1];
      assert u[j] != '/' || u[j + 1] != 'j';
      assert u[j..j + |ViewPrefix|][0] == u[j] && u[j..j + |ViewPrefix|][1] == u[j + 1];
      assert u[j..j + |ViewPrefix|] != ViewPrefix;
    }
    assert IsFirstCapture(u, ViewPrefix, i, jobId);
    ExtractJobIdIsFirstMatch(u, jobId);
  }

  // Worked examples of the matching rules.

  /** `currentJobId=` has no word boundary: it also matches inside a longer name. */
  lemma NoWordBoundary()
    ensures ExtractJobId("xcurrentJobId=5") == Some("5")
  {
    var s := "xcurrentJobId=5";
    forall i: nat, c: string ensures !IsCapture(s, ViewPrefix, i, c) {
      if i + |ViewPrefix| <= |s| {
        assert s[i..i + |ViewPrefix|][0] == s[i] != '/';
      }
    }
    assert s[1..1 + |QueryKey|] == QueryKey;
    assert s[0..|QueryKey|][0] == 'x';
    assert IsFirstCapture(s, QueryKey, 1, "5");
    ExtractJobIdIsFirstMatch(s, "5");
  }

  /** The `/jobs/view/` pattern takes priority even over a `currentJobId=` that comes first in the string. */
  lemma ViewWinsOverEarlierQuery()
    ensures ExtractJobId("currentJobId=7/jobs/view/12") == Some("12")
  {
    var s := "currentJobId=7/jobs/view/12";
    assert s[14..14 + |ViewPrefix|] == ViewPrefix;
    forall j: nat, c: string | j < 14 ensures !IsCapture(s, ViewPrefix, j, c) {
      assert s[j..j + |ViewPrefix|][0] == s[j] != '/';
    }
    assert IsFirstCapture(s, ViewPrefix, 14, "12");
    ExtractJobIdIsFirstMatch(s, "12");
  }

  /** `/jobs/view/` not followed by a digit is no match, so the `currentJobId=` value is used. */
  lemma ViewWithoutDigitFallsBack()
    ensures ExtractJobId("/jobs/view/x?currentJobId=42") == Some("42")
  {
    var s := "/jobs/view/x?currentJobId=42";
    forall i: nat, c: string ensures !IsCapture(s, ViewPrefix, i, c) {
      if i + |ViewPrefix| < |s| {
        var w := s[i..i + |ViewPrefix|];
        assert w[0] == s[i] && w[1] == s[i + 1];
        assert i == 0 || s[i] != '/' || s[i + 1] != 'j';
        assert i == 0 ==> !IsDigit(s[i + |ViewPrefix|]);
      }
    }
    assert s[13..13 + |QueryKey|] == QueryKey;
    forall j: nat, c: string | j < 13 ensures !IsCapture(s, QueryKey, j, c) {
      assert s[j..j + |QueryKey|][0] == s[j] != 'c';
    }
    assert IsFirstCapture(s, QueryKey, 13, "42");
    ExtractJobIdIsFirstMatch(s, "42");
  }
}
