/**
 * The URL part of `parse_log_line`:
 * `re.search("(?:GET|POST|HEAD|OPTIONS|PUT)(.+?)HTTP", line)`, then
 * `group(1).strip()`, or `None` when nothing matches.
 */
module LogLines {

  import opened Wrappers
  import opened PyValue

  /** Length of the request-method keyword that starts at `p`, if any. */
  function KeywordAt(s: string, p: nat): (r: Option<nat>)
    requires p <= |s|
    ensures r.Some? ==> 3 <= r.value <= 7 && p + r.value <= |s|
  {
    if StartsWith(s[p..], "GET") then Some(3)
    else if StartsWith(s[p..], "POST") then Some(4)
    else if StartsWith(s[p..], "HEAD") then Some(4)
    else if StartsWith(s[p..], "OPTIONS") then Some(7)
    else if StartsWith(s[p..], "PUT") then Some(3)
    else None
  }

  /** "HTTP" occurs at `q`. */
  predicate HttpAt(s: string, q: nat) {
    q + 4 <= |s| && s[q..q + 4] == "HTTP"
  }

  /** No newline in `s[a..b]`: the regex's `.` does not match one. */
  predicate NoNewline(s: string, a: nat, b: nat)
    requires a <= b <= |s|
  {
    forall j :: a <= j < b ==> s[j] != '\n'
  }

  /**
   * The pattern matches at `p` with its group ending at `b`: a keyword at
   * `p`, at least one non-newline character, then "HTTP" at `b`.
   */
  predicate IsMatch(s: string, p: nat, b: nat) {
    && p <= |s|
    && KeywordAt(s, p).Some?
    && p + KeywordAt(s, p).value < b <= |s|
    && HttpAt(s, b)
    && NoNewline(s, p + KeywordAt(s, p).value, b)
  }

  /** The lazy `(.+?)HTTP` from group start `a`, trying ends `b`, `b + 1`, ... */
  function LazyEnd(s: string, a: nat, b: nat): (r: Option<nat>)
    requires a < b <= |s| + 1
    requires NoNewline(s, a, b - 1)
    ensures r.Some? ==> b <= r.value <= |s| && HttpAt(s, r.value) && NoNewline(s, a, r.value)
    ensures r.Some? ==> forall q :: b <= q < r.value ==> !(HttpAt(s, q) && NoNewline(s, a, q))
    ensures r.None? ==> forall q :: b <= q <= |s| ==> !(HttpAt(s, q) && NoNewline(s, a, q))
    decreases |s| + 1 - b
  {
    if b > |s| then None
    else if s[b - 1] == '\n' then None
    else if HttpAt(s, b) then Some(b)
    else LazyEnd(s, a, b + 1)
  }

  /** The match at `p`, as the end of its group. */
  function MatchAt(s: string, p: nat): (r: Option<nat>)
    requires p <= |s|
    ensures r.Some? ==> IsMatch(s, p, r.value)
    ensures r.Some? ==> forall q: nat :: q < r.value ==> !IsMatch(s, p, q)
    ensures r.None? ==> forall q :: !IsMatch(s, p, q)
  {
    match KeywordAt(s, p)
    case None => None
    case Some(k) =>
      if p + k + 1 > |s| + 1 then None
      else LazyEnd(s, p + k, p + k + 1)
  }

  /** `re.search` from position `p`: the leftmost start, then its match. */
  function Search(s: string, p: nat): (r: Option<(nat, nat)>)
    requires p <= |s|
    ensures r.Some? ==> p <= r.value.0 && IsMatch(s, r.value.0, r.value.1)
    ensures r.Some? ==> forall q: nat :: q < r.value.1 ==> !IsMatch(s, r.value.0, q)
    ensures r.Some? ==> forall p', q :: p <= p' < r.value.0 ==> !IsMatch(s, p', q)
    ensures r.None? ==> forall p', q :: p <= p' ==> !IsMatch(s, p', q)
    decreases |s| - p
  {
    match MatchAt(s, p)
    case Some(b) => Some((p, b))
    case None =>
      if p == |s| then None
      else Search(s, p + 1)
  }

  /** Python's `str.isspace` for one character. */
  predicate IsPySpace(c: char) {
    || c == ' ' || c == '\t' || c == '\n' || c == '\r' || c == '\U{000B}' || c == '\U{000C}'
    || ('\U{001C}' <= c <= '\U{001F}') || c == '\U{0085}' || c == '\U{00A0}' || c == '\U{1680}'
    || ('\U{2000}' <= c <= '\U{200A}') || c == '\U{2028}' || c == '\U{2029}' || c == '\U{202F}'
    || c == '\U{205F}' || c == '\U{3000}'
  }

  /** Number of leading whitespace characters. */
  function LeadingSpace(s: string): (k: nat)
    ensures k <= |s|
    ensures forall j :: 0 <= j < k ==> IsPySpace(s[j])
    ensures k < |s| ==> !IsPySpace(s[k])
  {
    if |s| == 0 || !IsPySpace(s[0]) then 0 else 1 + LeadingSpace(s[1..])
  }

  /** Length of `s` without its trailing whitespace. */
  function TrailingEnd(s: string): (e: nat)
    ensures e <= |s|
    ensures forall j :: e <= j < |s| ==> IsPySpace(s[j])
    ensures e > 0 ==> !IsPySpace(s[e - 1])
  {
    if |s| == 0 || !IsPySpace(s[|s| - 1]) then |s| else TrailingEnd(s[..|s| - 1])
  }

  /** `str.strip()`: the middle of `s` between its leading and trailing whitespace. */
  function Strip(s: string): (r: string)
    ensures |r| <= |s|
    ensures |r| > 0 ==> !IsPySpace(r[0]) && !IsPySpace(r[|r| - 1])
    ensures (forall j :: 0 <= j < |s| ==> IsPySpace(s[j])) ==> r == ""
  {
    var i := LeadingSpace(s);
    var e := TrailingEnd(s);
    if i >= e then "" else s[i..e]
  }

  /** The URL `parse_log_line` reports for a line. */
  function LineUrl(line: string): (r: Option<string>)
    ensures r.None? <==> forall p, q :: !IsMatch(line, p, q)
  {
    match Search(line, 0)
    case None => None
    case Some((p, b)) => Some(Strip(line[p + KeywordAt(line, p).value..b]))
  }
}
