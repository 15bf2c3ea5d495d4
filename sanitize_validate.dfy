/** Channel-name sanitising, table naming and timestamp normalisation. */
module SanitizeValidate {
  import opened PyValues
  import Config

  // ---------------------------------------------------------------------------
  // Character classes.

  predicate IsAsciiUpper(c: char) { 'A' <= c <= 'Z' }

  predicate IsAsciiLower(c: char) { 'a' <= c <= 'z' }

  /** `[a-zA-Z0-9_]`, the characters the sanitiser keeps. */
  predicate IsKept(c: char) { IsAsciiUpper(c) || IsAsciiLower(c) || IsDigit(c) || c == '_' }

  /** `[a-z0-9_]`, the characters of a sanitised name and of a table name. */
  predicate IsNameChar(c: char) { IsAsciiLower(c) || IsDigit(c) || c == '_' }

  predicate AllNameChars(s: string) { forall k :: 0 <= k < |s| ==> IsNameChar(s[k]) }

  /** The characters that Python's `str.strip()` removes (those for which `isspace()` holds). */
  predicate IsSpace(c: char) {
    c == ' ' || '\t' <= c <= '\r' || '\U{1C}' <= c <= '\U{1F}'
    || c == '\U{85}' || c == '\U{A0}' || c == '\U{1680}'
    || '\U{2000}' <= c <= '\U{200A}' || c == '\U{2028}' || c == '\U{2029}'
    || c == '\U{202F}' || c == '\U{205F}' || c == '\U{3000}'
  }

  predicate AllSpace(s: string) { forall k :: 0 <= k < |s| ==> IsSpace(s[k]) }

  // ---------------------------------------------------------------------------
  // The three steps of the sanitiser: lower-case, strip, replace.

  /** Lower-cases one ASCII letter; every other character is left as it is. */
  function AsciiLower(c: char): (d: char)
    ensures !IsAsciiUpper(d)
    ensures IsAsciiUpper(c) ==> d as int == c as int + 32
    ensures !IsAsciiUpper(c) ==> d == c
  {
    if IsAsciiUpper(c) then (c as int + 32) as char else c
  }

  /** Upper-cases one ASCII letter; every other character is left as it is. */
  function AsciiUpper(c: char): (d: char)
    ensures !IsAsciiLower(d)
    ensures AsciiLower(d) == AsciiLower(c)
  {
    if IsAsciiLower(c) then (c as int - 32) as char else c
  }

  /** `s.lower()` on the ASCII letters. */
  function Lower(s: string): (r: string)
    ensures |r| == |s|
  {
    seq(|s|, k requires 0 <= k < |s| => AsciiLower(s[k]))
  }

  function Upper(s: string): (r: string)
    ensures |r| == |s|
  {
    seq(|s|, k requires 0 <= k < |s| => AsciiUpper(s[k]))
  }

  /** The number of whitespace characters at the start of `s`. */
  function LeadingSpace(s: string): (n: nat)
    ensures n <= |s|
    ensures AllSpace(s[..n])
    ensures n < |s| ==> !IsSpace(s[n])
    decreases |s|
  {
    if s != [] && IsSpace(s[0]) then
      var n := 1 + LeadingSpace(s[1..]);
      assert s[..n] == [s[0]] + s[1..][..n - 1];
      n
    else 0
  }

  /** The number of whitespace characters at the end of `s`. */
  function TrailingSpace(s: string): (n: nat)
    ensures n <= |s|
    ensures AllSpace(s[|s| - n..])
    ensures n < |s| ==> !IsSpace(s[|s| - n - 1])
    decreases |s|
  {
    if s != [] && IsSpace(s[|s| - 1]) then
      var n := 1 + TrailingSpace(s[..|s| - 1]);
      assert s[|s| - n..] == s[..|s| - 1][|s| - n..] + [s[|s| - 1]];
      n
    else 0
  }

  /** Where the stripped text ends: before the trailing whitespace, or at the
      start when the text is all whitespace. */
  function StripEnd(s: string): (j: nat)
    ensures LeadingSpace(s) <= j <= |s|
    ensures AllSpace(s[j..])
    ensures LeadingSpace(s) < j ==> !IsSpace(s[j - 1])
  {
    var i := LeadingSpace(s);
    if i == |s| then i
    else
      var j := |s| - TrailingSpace(s);
      assert i < j;
      j
  }

  /** `s.strip()`. */
  function Strip(s: string): string {
    s[LeadingSpace(s)..StripEnd(s)]
  }

  /** `re.sub(r"[^a-zA-Z0-9_]", "_", s)`. */
  function ReplaceDisallowed(s: string): (r: string)
    ensures |r| == |s|
  {
    seq(|s|, k requires 0 <= k < |s| => if IsKept(s[k]) then s[k] else '_')
  }

  /** `sanitize_channel_name`. */
  function SanitizeChannelName(name: string): string {
    ReplaceDisallowed(Strip(Lower(name)))
  }

  /** `get_channel_table_name`. */
  function GetChannelTableName(channelName: string): string {
    Config.CHANNEL_TABLE_PREFIX + SanitizeChannelName(channelName)
  }

  // ---------------------------------------------------------------------------
  // What `strip` does: it removes a whitespace prefix and suffix and nothing else.

  lemma StripRemovesOnlyOuterSpace(s: string)
    ensures var i := LeadingSpace(s);
            var j := StripEnd(s);
            var r := Strip(s);
            i <= j <= |s| && r == s[i..j]
            && AllSpace(s[..i]) && AllSpace(s[j..])
            && (r != [] ==> !IsSpace(r[0]) && !IsSpace(r[|r| - 1]))
  {
  }

  /** The leading-whitespace count is the only split into a whitespace prefix
      and a rest that does not start with whitespace. */
  lemma {:induction false} LeadingSpaceUnique(s: string, n: nat)
    requires n <= |s| && AllSpace(s[..n]) && (n < |s| ==> !IsSpace(s[n]))
    ensures LeadingSpace(s) == n
    decreases n
  {
    if n > 0 {
      assert s[..n][0] == s[0];
      assert s[1..][..n - 1] == s[..n][1..];
      LeadingSpaceUnique(s[1..], n - 1);
    }
  }

  /** Likewise for the trailing-whitespace count. */
  lemma {:induction false} TrailingSpaceUnique(s: string, n: nat)
    requires n <= |s| && AllSpace(s[|s| - n..]) && (n < |s| ==> !IsSpace(s[|s| - n - 1]))
    ensures TrailingSpace(s) == n
    decreases n
  {
    if n > 0 {
      var p := s[..|s| - 1];
      assert s[|s| - n..][n - 1] == s[|s| - 1];
      assert p[|p| - (n - 1)..] == s[|s| - n..][..n - 1];
      TrailingSpaceUnique(p, n - 1);
    }
  }

  lemma LowerSlice(s: string, i: nat, j: nat)
    requires i <= j <= |s|
    ensures Lower(s)[i..j] == Lower(s[i..j])
  {
  }

  lemma AllSpaceLower(s: string)
    ensures AllSpace(Lower(s)) == AllSpace(s)
  {
    assert forall k :: 0 <= k < |s| ==> (IsSpace(Lower(s)[k]) <==> IsSpace(s[k]));
  }

  /** Text without outer whitespace is its own strip. */
  lemma StripOfTrimmed(s: string)
    requires s == [] || (!IsSpace(s[0]) && !IsSpace(s[|s| - 1]))
    ensures Strip(s) == s
  {
    if s != [] {
      LeadingSpaceUnique(s, 0);
      assert TrailingSpace(s) == 0;
    }
  }

  /** Lower-casing maps whitespace to whitespace and nothing else to whitespace,
      so the stripped part of a lower-cased name is the lower-cased stripped part. */
  lemma StripLowerCommute(s: string)
    ensures LeadingSpace(Lower(s)) == LeadingSpace(s) && StripEnd(Lower(s)) == StripEnd(s)
    ensures Strip(Lower(s)) == Lower(Strip(s))
  {
    var m := Lower(s);
    var i := LeadingSpace(s);
    LowerSlice(s, 0, i);
    AllSpaceLower(s[..i]);
    LeadingSpaceUnique(m, i);
    var t := TrailingSpace(s);
    LowerSlice(s, |s| - t, |s|);
    AllSpaceLower(s[|s| - t..]);
    TrailingSpaceUnique(m, t);
    LowerSlice(s, i, StripEnd(s));
  }

  // ---------------------------------------------------------------------------
  // Properties of the sanitiser.

  /** Every character of a sanitised name is in `[a-z0-9_]`. */
  lemma SanitizeCharClass(name: string)
    ensures AllNameChars(SanitizeChannelName(name))
  {
    var m := Lower(name);
    var i := LeadingSpace(m);
    var st := Strip(m);
    assert forall k :: 0 <= k < |st| ==> st[k] == m[i + k];
  }

  /** A name made of `[a-z0-9_]` is left unchanged. */
  lemma SanitizeFixesNameChars(s: string)
    requires AllNameChars(s)
    ensures SanitizeChannelName(s) == s
  {
    assert Lower(s) == s;
    StripOfTrimmed(s);
    assert ReplaceDisallowed(s) == s;
  }

  /** Sanitising twice is sanitising once. */
  lemma SanitizeIdempotent(name: string)
    ensures SanitizeChannelName(SanitizeChannelName(name)) == SanitizeChannelName(name)
  {
    SanitizeCharClass(name);
    SanitizeFixesNameChars(SanitizeChannelName(name));
  }

  /** Only the outer whitespace of the name is dropped; every other character
      is kept (lower-cased) or becomes exactly one '_', in place. */
  lemma SanitizeKeepsInterior(name: string)
    ensures var i := LeadingSpace(name);
            var j := StripEnd(name);
            var r := SanitizeChannelName(name);
            i <= j <= |name| && AllSpace(name[..i]) && AllSpace(name[j..])
            && |r| == j - i == |Strip(Lower(name))|
            && forall k :: 0 <= k < |r| ==>
                 r[k] == if IsKept(name[i + k]) then AsciiLower(name[i + k]) else '_'
  {
    StripLowerCommute(name);
    var i := LeadingSpace(name);
    var lowered := Lower(Strip(name));
    assert forall k :: 0 <= k < |lowered| ==> lowered[k] == AsciiLower(name[i + k]);
  }

  /** Names that differ only in ASCII letter case sanitise identically. */
  lemma SanitizeIgnoresCase(name: string)
    ensures SanitizeChannelName(Upper(name)) == SanitizeChannelName(name)
  {
    assert Lower(Upper(name)) == Lower(name);
  }

  /** Distinct names can share a sanitised name (and so a table). */
  lemma SanitizeCollision()
    ensures "xqc." != "xqc_" && SanitizeChannelName("xqc.") == SanitizeChannelName("xqc_") == "xqc_"
  {
    assert Lower("xqc.") == "xqc.";
    assert Lower("xqc_") == "xqc_";
    StripOfTrimmed("xqc.");
    StripOfTrimmed("xqc_");
    assert ReplaceDisallowed("xqc.") == "xqc_";
    assert ReplaceDisallowed("xqc_") == "xqc_";
  }

  // ---------------------------------------------------------------------------
  // Table names.

  /** The table prefix uses only `[a-z0-9_]`. */
  lemma TablePrefixNameChars()
    ensures AllNameChars(Config.CHANNEL_TABLE_PREFIX)
  {
  }

  /** A table name is the prefix followed by the sanitised name, and uses only
      `[a-z0-9_]`. */
  lemma TableNameShape(channelName: string)
    ensures var t := GetChannelTableName(channelName);
            t[..|Config.CHANNEL_TABLE_PREFIX|] == Config.CHANNEL_TABLE_PREFIX
            && t[|Config.CHANNEL_TABLE_PREFIX|..] == SanitizeChannelName(channelName)
            && AllNameChars(t)
  {
    SanitizeCharClass(channelName);
    var t := GetChannelTableName(channelName);
    var p := Config.CHANNEL_TABLE_PREFIX;
    assert forall k :: |p| <= k < |t| ==> t[k] == SanitizeChannelName(channelName)[k - |p|];
  }

  /** The table of a sanitised name is the table of the raw name. */
  lemma TableNameOfSanitized(channelName: string)
    ensures GetChannelTableName(SanitizeChannelName(channelName)) == GetChannelTableName(channelName)
  {
    SanitizeIdempotent(channelName);
  }

  // ---------------------------------------------------------------------------
  // Timestamps.

  /** A timestamp argument: a value decoded from a payload, or a `datetime`
      given by the text its `isoformat()` would return. */
  datatype Timestamp = JsonTimestamp(v: Json) | DateTimeValue(isoformat: string)

  /** `normalize_timestamp`. A `datetime` is always truthy; `bool` counts as `int`. */
  function NormalizeTimestamp(ts: Timestamp): (c: Cell)
    ensures c == NoneCell || c.UtcIso? || (c.Plain? && c.v.JStr? && c.v.s != [])
  {
    match ts
    case DateTimeValue(iso) => Plain(JStr(iso + "Z"))
    case JsonTimestamp(v) =>
      if !Truthy(v) then NoneCell
      else
        match v
        case JInt(i) => UtcIso(i)
        case JBool(_) => UtcIso(1)
        case JStr(s) => Plain(JStr(s))
        case _ => NoneCell
  }

  /** The three branches of the normaliser on decoded values: falsy gives None,
      a non-empty string comes back unchanged, an integer becomes a UTC time,
      and a value of any other type gives None. */
  lemma NormalizeTimestampBranches(v: Json)
    ensures !Truthy(v) ==> NormalizeTimestamp(JsonTimestamp(v)) == NoneCell
    ensures v.JStr? && v.s != [] ==> NormalizeTimestamp(JsonTimestamp(v)) == Plain(v)
    ensures v.JInt? && v.i != 0 ==> NormalizeTimestamp(JsonTimestamp(v)) == UtcIso(v.i)
    ensures v.JList? || v.JObj? || v.JNull? ==> NormalizeTimestamp(JsonTimestamp(v)) == NoneCell
  {
  }

  /** A normalised timestamp that is text normalises to itself. */
  lemma NormalizeTimestampIdempotentOnText(ts: Timestamp)
    ensures var c := NormalizeTimestamp(ts);
            c.Plain? && c.v.JStr? ==> NormalizeTimestamp(JsonTimestamp(c.v)) == c
  {
  }
}
