/**
 * Extraction of the base64 payload from the data URL a `FileReader`
 * produces (`reader.result.split(",")[1]`). A base64 data URL has the form
 * `data:<mediatype>;base64,<data>` (section 3 of RFC 2397).
 */
module DataUrl {
  import opened Wrappers

  /** The index of the first `c` in `s`, as `indexOf` finds it. */
  function IndexOf(s: string, c: char): (r: Option<nat>)
    ensures r.None? <==> c !in s
    ensures r.Some? ==> r.value < |s| && s[r.value] == c && c !in s[..r.value]
  {
    if s == [] then None
    else if s[0] == c then Some(0)
    else match IndexOf(s[1..], c)
      case None => None
      case Some(i) => assert s[..i + 1] == [s[0]] + s[1..][..i]; Some(i + 1)
  }

  /**
   * `s.split(",")[1]`: the text between the first comma and the second one
   * (or the end); `None` stands for `undefined` when `s` has no comma.
   */
  function SecondField(s: string): (r: Option<string>)
    ensures r.None? <==> ',' !in s
    ensures r.Some? ==> ',' !in r.value
    ensures r.Some? ==>
      var i := IndexOf(s, ',').value;
      && i + 1 + |r.value| <= |s|
      && s[i + 1..i + 1 + |r.value|] == r.value
      && (i + 1 + |r.value| == |s| || s[i + 1 + |r.value|] == ',')
  {
    match IndexOf(s, ',')
    case None => None
    case Some(i) =>
      var rest := s[i + 1..];
      match IndexOf(rest, ',')
      case None => Some(rest)
      case Some(j) => Some(rest[..j])
  }

  /** With a single comma the field is everything after it. */
  lemma SecondFieldOfSingleComma(s: string, i: nat)
    requires i < |s| && s[i] == ','
    requires ',' !in s[..i] && ',' !in s[i + 1..]
    ensures SecondField(s) == Some(s[i + 1..])
  {
    assert IndexOf(s, ',') == Some(i);
  }

  /** The base64 alphabet, with its padding character. */
  predicate IsBase64Char(c: char) {
    'A' <= c <= 'Z' || 'a' <= c <= 'z' || '0' <= c <= '9' || c == '+' || c == '/' || c == '='
  }

  /** The result of `readAsDataURL` on a blob of the given media type. */
  function Base64DataUrl(mediaType: string, data: string): string {
    "data:" + mediaType + ";base64," + data
  }

  /** The payload sent to the server is exactly the base64 data of the data URL. */
  lemma SecondFieldOfBase64DataUrl(mediaType: string, data: string)
    requires ',' !in mediaType
    requires forall k :: 0 <= k < |data| ==> IsBase64Char(data[k])
    ensures SecondField(Base64DataUrl(mediaType, data)) == Some(data)
  {
    var s := Base64DataUrl(mediaType, data);
    var i := |"data:" + mediaType + ";base64"|;
    assert s[..i] == "data:" + mediaType + ";base64";
    assert s[i + 1..] == data;
    SecondFieldOfSingleComma(s, i);
  }
}
