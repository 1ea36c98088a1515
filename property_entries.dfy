/** The `"qualifiedName:value"` entries of the property filter and how they
    are split. */
module PropertyEntries {
  import opened Wrappers

  /** Java's `String.lastIndexOf(char)`: the last position holding `c`, or -1. */
  function LastIndexOf(s: string, c: char): (i: int)
    ensures -1 <= i < |s|
    ensures i == -1 <==> c !in s
    ensures i != -1 ==> s[i] == c && c !in s[i + 1..]
  {
    if |s| == 0 then -1
    else if s[|s| - 1] == c then |s| - 1
    else
      var i := LastIndexOf(s[..|s| - 1], c);
      assert i != -1 ==> s[i + 1..] == s[..|s| - 1][i + 1..] + [s[|s| - 1]];
      assert s == s[..|s| - 1] + [s[|s| - 1]];
      i
  }

  /** Splits a configured entry on its last colon into a qualified name and
      a value. An entry without a colon, with nothing before its last colon,
      or with nothing after it is malformed and gives `None`. */
  function ParseEntry(entry: string): (r: Option<(string, string)>)
    ensures r.Some? ==> entry == r.value.0 + [':'] + r.value.1
    ensures r.Some? ==> r.value.0 != [] && r.value.1 != [] && ':' !in r.value.1
    ensures r.None? <==> |entry| == 0 || ':' !in entry[1..] || entry[|entry| - 1] == ':'
  {
    var pos := LastIndexOf(entry, ':');
    if pos != -1 && |entry| - 1 > pos then
      var qName := entry[..pos];
      var value := entry[pos + 1..];
      assert entry == qName + [':'] + value;
      if qName == [] || value == [] then None else Some((qName, value))
    else
      None
  }

  /** A qualified name (which may itself hold colons) joined by a colon to a
      colon-free value splits back into the same two parts. */
  lemma ParseRoundTrip(qName: string, value: string)
    requires qName != [] && value != [] && ':' !in value
    ensures ParseEntry(qName + [':'] + value) == Some((qName, value))
  {
    var entry := qName + [':'] + value;
    assert entry[|qName| + 1..] == value;
    LastIndexOfAt(entry, ':', |qName|);
    assert entry[..|qName|] == qName;
  }

  /** The position of the last occurrence is the one with none after it. */
  lemma LastIndexOfAt(s: string, c: char, k: nat)
    requires k < |s| && s[k] == c && c !in s[k + 1..]
    ensures LastIndexOf(s, c) == k
  {
    var i := LastIndexOf(s, c);
    assert s[k] in s;
    forall j | i < j < |s|
      ensures s[j] != c
    {
      assert s[j] == s[i + 1..][j - i - 1];
    }
    forall j | k < j < |s|
      ensures s[j] != c
    {
      assert s[j] == s[k + 1..][j - k - 1];
    }
  }
}
