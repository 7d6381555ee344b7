/**
 * The log-file choice of the log analyzer: the latest
 * `nginx-access-ui.log-*` name in a directory listing, and the report date
 * taken from the digits in that name.
 */
module LogNames {

  import opened Wrappers
  import opened PyValue
  import opened PyOrder
  import Dates

  const LogPrefix := "nginx-access-ui.log-"

  predicate IsLogName(name: string) {
    StartsWith(name, LogPrefix)
  }

  /**
   * The loop over `os.listdir`: keep the name if it is a log name and
   * above the best one so far, starting from "".
   */
  method LatestLogName(names: seq<string>) returns (best: string)
    ensures best == "" <==> forall k :: 0 <= k < |names| ==> !IsLogName(names[k])
    ensures best != "" ==> best in names && IsLogName(best)
    ensures forall k :: 0 <= k < |names| && IsLogName(names[k]) ==> !PyLess(best, names[k])
  {
    best := "";
    var i := 0;
    while i < |names|
      invariant 0 <= i <= |names|
      invariant best == "" <==> forall k :: 0 <= k < i ==> !IsLogName(names[k])
      invariant best != "" ==> best in names[..i] && IsLogName(best)
      invariant forall k :: 0 <= k < i && IsLogName(names[k]) ==> !PyLess(best, names[k])
    {
      var name := names[i];
      if IsLogName(name) && PyLess(best, name) {
        forall k | 0 <= k < i && IsLogName(names[k])
          ensures !PyLess(name, names[k])
        {
          if PyLess(name, names[k]) {
            PyLessTransitive(best, name, names[k]);
            assert false;
          }
        }
        PyLessIrreflexive(name);
        best := name;
      } else if IsLogName(name) {
        assert |name| > 0 by { assert |LogPrefix| > 0; }
      }
      i := i + 1;
    }
    assert names[..i] == names;
  }

  /** Index of the first digit of `s`, or `|s|`. */
  function FirstDigit(s: string): (k: nat)
    ensures k <= |s|
    ensures forall j :: 0 <= j < k ==> !Dates.IsDigit(s[j])
    ensures k < |s| ==> Dates.IsDigit(s[k])
  {
    if |s| == 0 then 0
    else if Dates.IsDigit(s[0]) then 0
    else 1 + FirstDigit(s[1..])
  }

  /** End of the run of digits that starts at `k`. */
  function RunEnd(s: string, k: nat): (e: nat)
    requires k <= |s|
    ensures k <= e <= |s|
    ensures forall j :: k <= j < e ==> Dates.IsDigit(s[j])
    ensures e < |s| ==> !Dates.IsDigit(s[e])
    decreases |s| - k
  {
    if k == |s| || !Dates.IsDigit(s[k]) then k
    else RunEnd(s, k + 1)
  }

  /**
   * `re.findall(r"\d+", s)[0]`: the first maximal run of digits; `None`
   * where the index raises.
   */
  function FirstNumber(s: string): (r: Option<string>)
    ensures r.None? <==> forall j :: 0 <= j < |s| ==> !Dates.IsDigit(s[j])
    ensures r.Some? ==> |r.value| > 0 && forall j :: 0 <= j < |r.value| ==> Dates.IsDigit(r.value[j])
    ensures r.Some? ==> var k := FirstDigit(s);
      && k + |r.value| <= |s|
      && s[k..k + |r.value|] == r.value
      && (k + |r.value| == |s| || !Dates.IsDigit(s[k + |r.value|]))
  {
    var k := FirstDigit(s);
    if k == |s| then None else Some(s[k..RunEnd(s, k)])
  }

  /** Python's `s[i:j]` for `0 <= i <= j`: the bounds are clamped to the length. */
  function Clamped(s: string, i: nat, j: nat): (r: string)
    requires i <= j
    ensures |r| == (if j <= |s| then j - i else if i <= |s| then |s| - i else 0)
    ensures forall t :: 0 <= t < |r| ==> r[t] == s[i + t]
  {
    if i >= |s| then "" else if j >= |s| then s[i..] else s[i..j]
  }

  /** `f"{d[:4]}.{d[4:6]}.{d[6:8]}"`. */
  function FormatDate(d: string): (r: string)
    ensures |d| == 8 ==> |r| == 10 && r[4] == '.' && r[7] == '.'
  {
    Clamped(d, 0, 4) + "." + Clamped(d, 4, 6) + "." + Clamped(d, 6, 8)
  }

  /** `s` with every '.' removed. */
  function Undot(s: string): (r: string)
    ensures |r| <= |s|
  {
    if |s| == 0 then ""
    else (if s[0] == '.' then "" else [s[0]]) + Undot(s[1..])
  }

  /** `names[k]` is a log name and no log name in `names` is above it. */
  predicate IsGreatestLog(names: seq<string>, k: nat)
    requires k < |names|
  {
    IsLogName(names[k]) && forall j :: 0 <= j < |names| && IsLogName(names[j]) ==> !PyLess(names[k], names[j])
  }

  /** Python's string order is total, so the greatest log name is the only one. */
  lemma GreatestLogUnique(names: seq<string>, best: string)
    requires best in names && IsLogName(best)
    requires forall j :: 0 <= j < |names| && IsLogName(names[j]) ==> !PyLess(best, names[j])
    ensures forall k :: 0 <= k < |names| && IsGreatestLog(names, k) ==> names[k] == best
  {
    forall k | 0 <= k < |names| && IsGreatestLog(names, k)
      ensures names[k] == best
    {
      var i :| 0 <= i < |names| && names[i] == best;
      assert !PyLess(names[k], names[i]);
      PyLessTotal(best, names[k]);
    }
  }

  /** What the choice finds: no log, or the latest log with its date text. */
  datatype LogPick = NotFound | Latest(name: string, date: string)

  /**
   * `get_log_file_and_date`, with the listing passed in (`None` when the
   * directory does not exist). `Failure` is the IndexError of a log name
   * without digits.
   */
  method LogFileAndDate(listing: Option<seq<string>>) returns (r: Result<LogPick>)
    ensures listing.None? ==> r == Success(NotFound)
    ensures listing.Some? ==>
      (r == Success(NotFound) <==> forall k :: 0 <= k < |listing.value| ==> !IsLogName(listing.value[k]))
    ensures r.Success? && r.value.Latest? ==>
      && listing.Some? && r.value.name in listing.value && IsLogName(r.value.name)
      && (forall k :: 0 <= k < |listing.value| && IsLogName(listing.value[k]) ==> !PyLess(r.value.name, listing.value[k]))
      && FirstNumber(r.value.name).Some?
      && r.value.date == FormatDate(FirstNumber(r.value.name).value)
    ensures r.Failure? ==> r.error == "IndexError"
    ensures r.Failure? <==> listing.Some? && exists k :: 0 <= k < |listing.value| && IsGreatestLog(listing.value, k) && FirstNumber(listing.value[k]).None?
  {
    if listing.None? {
      return Success(NotFound);
    }
    var name := LatestLogName(listing.value);
    if name == "" {
      return Success(NotFound);
    }
    GreatestLogUnique(listing.value, name);
    var digits := FirstNumber(name);
    if digits.None? {
      var k :| 0 <= k < |listing.value| && listing.value[k] == name;
      assert IsGreatestLog(listing.value, k);
      return Failure("IndexError");
    }
    r := Success(Latest(name, FormatDate(digits.value)));
  }
}
