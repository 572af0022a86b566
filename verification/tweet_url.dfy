/**
 * Extraction of a post identifier from a post URL with the regular
 * expression `/status\/(\d+)/`: the leftmost "status/" that is followed by a
 * digit, and the longest run of digits after it.
 */
module TweetUrl {
  import opened Wrappers
  import opened Text

  const Marker: string := "status/"

  /** The regular expression matches at position `i`. */
  predicate MatchesAt(s: string, i: nat) {
    i + |Marker| < |s| && s[i..i + |Marker|] == Marker && IsDigit(s[i + |Marker|])
  }

  /** The leftmost match at or after `from`. */
  function FirstMatch(s: string, from: nat): (r: Option<nat>)
    decreases |s| - from
    ensures r.Some? ==> from <= r.value && MatchesAt(s, r.value)
    ensures r.Some? ==> forall j :: from <= j < r.value ==> !MatchesAt(s, j)
    ensures r.None? ==> forall j :: from <= j ==> !MatchesAt(s, j)
  {
    if from >= |s| then None
    else if MatchesAt(s, from) then Some(from)
    else FirstMatch(s, from + 1)
  }

  /** The number of digits in `s` starting at `i`. */
  function DigitRun(s: string, i: nat): (n: nat)
    requires i <= |s|
    decreases |s| - i
    ensures i + n <= |s|
    ensures forall k :: i <= k < i + n ==> IsDigit(s[k])
    ensures i + n == |s| || !IsDigit(s[i + n])
  {
    if i < |s| && IsDigit(s[i]) then 1 + DigitRun(s, i + 1) else 0
  }

  /** `url.match(/status\/(\d+)/)[1]`, or `None` when there is no match. */
  function TweetId(url: string): (r: Option<string>)
    ensures r.None? <==> forall j: nat :: !MatchesAt(url, j)
    ensures r.Some? ==>
      var i := FirstMatch(url, 0).value;
      var start := i + |Marker|;
      && (forall j: nat :: j < i ==> !MatchesAt(url, j))
      && url[i..start] == Marker
      && |r.value| > 0 && start + |r.value| <= |url|
      && url[start..start + |r.value|] == r.value
      && (forall k :: 0 <= k < |r.value| ==> IsDigit(r.value[k]))
      && (start + |r.value| == |url| || !IsDigit(url[start + |r.value|]))
  {
    match FirstMatch(url, 0)
    case None => None
    case Some(i) =>
      var start := i + |Marker|;
      Some(url[start..start + DigitRun(url, start)])
  }
}
