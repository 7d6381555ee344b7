/**
 * The log analyzer's aggregation: `parse_logs` groups request times by
 * URL in file order, and `create_log_stats` ranks the URLs by total time.
 * A Python dict is an association list here, in insertion order.
 */
module LogStats {

  import opened Wrappers
  import opened LogLines

  /** A line's URL (`None` for a line the pattern misses) and its request time. */
  type Entry = (Option<string>, real)

  /** `parse_logs`' dict: URL to the times seen for it, in insertion order. */
  type Grouped = seq<(Option<string>, seq<real>)>

  function Keys(data: Grouped): (ks: seq<Option<string>>)
    ensures |ks| == |data|
    ensures forall k :: 0 <= k < |data| ==> ks[k] == data[k].0
  {
    seq(|data|, k requires 0 <= k < |data| => data[k].0)
  }

  predicate DistinctKeys(data: Grouped) {
    forall i, j :: 0 <= i < j < |data| ==> data[i].0 != data[j].0
  }

  /** The times of `u`'s lines, in file order. */
  function TimesOf(entries: seq<Entry>, u: Option<string>): seq<real> {
    if |entries| == 0 then []
    else
      var last := entries[|entries| - 1];
      TimesOf(entries[..|entries| - 1], u) + (if last.0 == u then [last.1] else [])
  }

  /** The URLs of the entries, each once, in order of first appearance. */
  function FirstSeen(entries: seq<Entry>): seq<Option<string>> {
    if |entries| == 0 then []
    else
      var seen := FirstSeen(entries[..|entries| - 1]);
      var u := entries[|entries| - 1].0;
      if u in seen then seen else seen + [u]
  }

  function TotalCount(data: Grouped): nat {
    if |data| == 0 then 0 else TotalCount(data[..|data| - 1]) + |data[|data| - 1].1|
  }

  /** Position of `u` among the keys, if present. */
  function Find(data: Grouped, u: Option<string>): (r: Option<nat>)
    ensures r.Some? ==> r.value < |data| && data[r.value].0 == u
    ensures r.None? ==> forall k :: 0 <= k < |data| ==> data[k].0 != u
  {
    if |data| == 0 then None
    else if data[|data| - 1].0 == u then Some(|data| - 1)
    else Find(data[..|data| - 1], u)
  }

  /** A URL that never appeared has no times. */
  lemma {:induction false} UnseenHasNoTimes(entries: seq<Entry>, u: Option<string>)
    requires u !in FirstSeen(entries)
    ensures TimesOf(entries, u) == []
  {
    if |entries| > 0 {
      var init := entries[..|entries| - 1];
      assert FirstSeen(init) <= FirstSeen(entries);
      UnseenHasNoTimes(init, u);
    }
  }

  /** Lengthening one group by one time adds one to the count. */
  lemma {:induction false} TotalCountAppend(data: Grouped, k: nat, t: real)
    requires k < |data|
    ensures TotalCount(data[k := (data[k].0, data[k].1 + [t])]) == TotalCount(data) + 1
    decreases |data|
  {
    var d' := data[k := (data[k].0, data[k].1 + [t])];
    if k == |data| - 1 {
      assert d'[..|d'| - 1] == data[..|data| - 1];
    } else {
      assert d'[..|d'| - 1] == data[..|data| - 1][k := (data[k].0, data[k].1 + [t])];
      TotalCountAppend(data[..|data| - 1], k, t);
    }
  }

  lemma TotalCountPush(data: Grouped, g: (Option<string>, seq<real>))
    ensures TotalCount(data + [g]) == TotalCount(data) + |g.1|
  {
    assert (data + [g])[..|data|] == data;
  }

  /** `data` is what the loop of `parse_logs` has built from `entries`. */
  predicate Represents(data: Grouped, entries: seq<Entry>) {
    && Keys(data) == FirstSeen(entries)
    && DistinctKeys(data)
    && (forall k :: 0 <= k < |data| ==> data[k].1 == TimesOf(entries, data[k].0))
    && TotalCount(data) == |entries|
  }

  /** One pass of the loop: a new list for a new URL, else an append. */
  function AddEntry(data: Grouped, e: Entry): Grouped {
    match Find(data, e.0)
    case None => data + [(e.0, [e.1])]
    case Some(k) => data[k := (e.0, data[k].1 + [e.1])]
  }

  lemma AddEntryRepresents(data: Grouped, entries: seq<Entry>, e: Entry)
    requires Represents(data, entries)
    ensures Represents(AddEntry(data, e), entries + [e])
  {
    var es := entries + [e];
    assert es[..|es| - 1] == entries;
    var (u, t) := e;
    assert forall v :: TimesOf(es, v) == TimesOf(entries, v) + (if v == u then [t] else []);
    var d' := AddEntry(data, e);
    match Find(data, u) {
      case None =>
        assert u !in Keys(data);
        UnseenHasNoTimes(entries, u);
        TotalCountPush(data, (u, [t]));
        assert Keys(d') == Keys(data) + [u];
      case Some(k) =>
        assert u in Keys(data) by { assert Keys(data)[k] == u; }
        TotalCountAppend(data, k, t);
        assert Keys(d') == Keys(data);
    }
  }

  /**
   * The loop of `parse_logs`: append each line's time to its URL's list,
   * creating the list at the URL's first line.
   */
  method GroupByUrl(entries: seq<Entry>) returns (data: Grouped)
    ensures Keys(data) == FirstSeen(entries)
    ensures DistinctKeys(data)
    ensures forall k :: 0 <= k < |data| ==> data[k].1 == TimesOf(entries, data[k].0)
    ensures TotalCount(data) == |entries|
  {
    data := [];
    var i := 0;
    while i < |entries|
      invariant 0 <= i <= |entries|
      invariant Represents(data, entries[..i])
    {
      assert entries[..i + 1] == entries[..i] + [entries[i]];
      AddEntryRepresents(data, entries[..i], entries[i]);
      data := AddEntry(data, entries[i]);
      i := i + 1;
    }
    assert entries[..i] == entries;
  }

  /** `parse_logs` on the lines of an opened file, each with its parsed request time. */
  method ParseLogs(lines: seq<string>, times: seq<real>) returns (data: Grouped)
    requires |times| == |lines|
    ensures DistinctKeys(data)
    ensures Keys(data) == FirstSeen(LineEntries(lines, times))
    ensures forall k :: 0 <= k < |data| ==> data[k].1 == TimesOf(LineEntries(lines, times), data[k].0)
    ensures TotalCount(data) == |lines|
  {
    data := GroupByUrl(LineEntries(lines, times));
  }

  function LineEntries(lines: seq<string>, times: seq<real>): (es: seq<Entry>)
    requires |times| == |lines|
    ensures |es| == |lines|
    ensures forall j :: 0 <= j < |lines| ==> es[j] == (LineUrl(lines[j]), times[j])
  {
    seq(|lines|, j requires 0 <= j < |lines| => (LineUrl(lines[j]), times[j]))
  }

  function Sum(ts: seq<real>): real {
    if |ts| == 0 then 0.0 else Sum(ts[..|ts| - 1]) + ts[|ts| - 1]
  }

  /** The sum of all times in the dict: `total_time`. */
  function TotalTime(data: Grouped): real {
    if |data| == 0 then 0.0 else TotalTime(data[..|data| - 1]) + Sum(data[|data| - 1].1)
  }

  /** A URL with its summed time, as in `url_count`. */
  type Ranked = (Option<string>, real)

  function Totals(data: Grouped): (r: seq<Ranked>)
    ensures |r| == |data|
    ensures forall k :: 0 <= k < |data| ==> r[k] == (data[k].0, Sum(data[k].1))
  {
    seq(|data|, k requires 0 <= k < |data| => (data[k].0, Sum(data[k].1)))
  }

  predicate SortedDesc(r: seq<Ranked>) {
    forall i, j :: 0 <= i < j < |r| ==> r[i].1 >= r[j].1
  }

  /** No URL is ranked twice. */
  predicate DistinctUrls(r: seq<Ranked>) {
    forall i, j :: 0 <= i < j < |r| ==> r[i].0 != r[j].0
  }

  /** Insert `x` before the first element with a smaller total. */
  function InsertDesc(x: Ranked, r: seq<Ranked>): (r': seq<Ranked>)
    requires SortedDesc(r)
    ensures |r'| == |r| + 1
    ensures r'[0] == x || (|r| > 0 && r'[0] == r[0])
    ensures SortedDesc(r')
    ensures multiset(r') == multiset(r) + multiset{x}
  {
    if |r| == 0 then [x]
    else if x.1 >= r[0].1 then [x] + r
    else
      var rest := InsertDesc(x, r[1..]);
      assert r == [r[0]] + r[1..];
      assert r[0].1 >= rest[0].1;
      [r[0]] + rest
  }

  /** `sorted(url_count, key=lambda x: x[1], reverse=True)`. */
  function SortDesc(r: seq<Ranked>): (r': seq<Ranked>)
    ensures SortedDesc(r')
    ensures multiset(r') == multiset(r)
  {
    if |r| == 0 then []
    else
      assert r == [r[0]] + r[1..];
      InsertDesc(r[0], SortDesc(r[1..]))
  }

  /** Sorting keeps exactly the elements it was given. */
  lemma SameElements(r: seq<Ranked>, r': seq<Ranked>)
    requires multiset(r') == multiset(r)
    ensures forall y :: y in r' <==> y in r
  {
    forall y
      ensures y in r' <==> y in r
    {
      assert y in r' <==> y in multiset(r');
      assert y in r <==> y in multiset(r);
    }
  }

  /** Inserting a URL not yet ranked keeps the URLs distinct. */
  lemma {:induction false} InsertDescDistinct(x: Ranked, r: seq<Ranked>)
    requires SortedDesc(r)
    requires DistinctUrls(r)
    requires forall i :: 0 <= i < |r| ==> r[i].0 != x.0
    ensures DistinctUrls(InsertDesc(x, r))
  {
    if |r| > 0 && x.1 < r[0].1 {
      var rest := InsertDesc(x, r[1..]);
      InsertDescDistinct(x, r[1..]);
      SameElements(r[1..] + [x], rest);
      assert multiset(rest) == multiset(r[1..] + [x]);
      forall i | 0 <= i < |rest|
        ensures rest[i].0 != r[0].0
      {
        assert rest[i] in r[1..] + [x];
      }
    }
  }

  /** Sorting keeps ranked URLs distinct. */
  lemma {:induction false} SortDescDistinct(r: seq<Ranked>)
    requires DistinctUrls(r)
    ensures DistinctUrls(SortDesc(r))
  {
    if |r| > 0 {
      var tail := SortDesc(r[1..]);
      SortDescDistinct(r[1..]);
      SameElements(r[1..], tail);
      forall i | 0 <= i < |tail|
        ensures tail[i].0 != r[0].0
      {
        assert tail[i] in r[1..];
      }
      InsertDescDistinct(r[0], tail);
    }
  }

  /** Length of Python's `xs[:n]` for a list of length `len`. */
  function PrefixLen(len: nat, n: int): (m: nat)
    ensures m <= len
    ensures n >= 0 ==> m == if n <= len then n else len
    ensures n < 0 ==> m == if len + n >= 0 then len + n else 0
  {
    if n >= 0 then (if n <= len then n else len)
    else if len + n >= 0 then len + n else 0
  }

  /** One report row, without its float formatting. */
  datatype Stat = Stat(url: Option<string>, count: nat, timeSum: real)

  /** The times of a URL known to be a key. */
  function TimesFor(data: Grouped, u: Option<string>): seq<real> {
    match Find(data, u)
    case None => []
    case Some(k) => data[k].1
  }

  /**
   * The report rows for the ranked URLs: `mean` of an empty list raises
   * StatisticsError, and a zero total time makes `time_perc` divide by zero.
   */
  function Rows(data: Grouped, ranked: seq<Ranked>): (r: Result<seq<Stat>>)
    ensures r.Success? ==> |r.value| == |ranked|
    ensures r.Success? ==> forall i :: 0 <= i < |ranked| ==>
      r.value[i] == Stat(ranked[i].0, |TimesFor(data, ranked[i].0)|, ranked[i].1)
    ensures r.Failure? <==> exists i :: 0 <= i < |ranked| && (|TimesFor(data, ranked[i].0)| == 0 || TotalTime(data) == 0.0)
  {
    if |ranked| == 0 then Success([])
    else
      var u := ranked[0].0;
      if |TimesFor(data, u)| == 0 then Failure("StatisticsError")
      else if TotalTime(data) == 0.0 then Failure("ZeroDivisionError")
      else
        match Rows(data, ranked[1..])
        case Failure(e) => Failure(e)
        case Success(rest) => Success([Stat(u, |TimesFor(data, u)|, ranked[0].1)] + rest)
  }

  /** A ranked pair taken from the totals names a key and carries that key's sum. */
  lemma RankedFromData(data: Grouped, x: Ranked)
    requires DistinctKeys(data)
    requires x in multiset(Totals(data))
    ensures x.0 in Keys(data)
    ensures x.1 == Sum(TimesFor(data, x.0))
  {
    var t := Totals(data);
    assert x in t;
    var k :| 0 <= k < |t| && t[k] == x;
    assert Keys(data)[k] == x.0;
    var f := Find(data, x.0);
    assert f.Some?;
    assert f.value == k;
  }

  /** Ranked pairs from the totals name keys, carry their sums, and have times when every key does. */
  lemma RankedRows(data: Grouped, top: seq<Ranked>)
    requires DistinctKeys(data)
    requires forall i :: 0 <= i < |top| ==> top[i] in multiset(Totals(data))
    ensures forall i :: 0 <= i < |top| ==> top[i].0 in Keys(data) && top[i].1 == Sum(TimesFor(data, top[i].0))
    ensures (forall k :: 0 <= k < |data| ==> |data[k].1| > 0) ==>
      forall i :: 0 <= i < |top| ==> |TimesFor(data, top[i].0)| > 0
  {
    forall i | 0 <= i < |top|
      ensures top[i].0 in Keys(data) && top[i].1 == Sum(TimesFor(data, top[i].0))
    {
      RankedFromData(data, top[i]);
    }
  }

  /**
   * Among URLs ranked in descending order, any URL left out of the first
   * `n` has a sum no greater than each of those `n`.
   */
  lemma ReportedAreLargest(data: Grouped, ranked: seq<Ranked>, n: nat)
    requires SortedDesc(ranked)
    requires forall y :: y in ranked <==> y in Totals(data)
    requires n <= |ranked|
    ensures forall k :: 0 <= k < |data| && (forall i :: 0 <= i < n ==> ranked[i].0 != data[k].0) ==>
      forall i :: 0 <= i < n ==> ranked[i].1 >= Sum(data[k].1)
  {
    forall k | 0 <= k < |data| && (forall i :: 0 <= i < n ==> ranked[i].0 != data[k].0)
      ensures forall i :: 0 <= i < n ==> ranked[i].1 >= Sum(data[k].1)
    {
      assert Totals(data)[k] in Totals(data);
      var p :| 0 <= p < |ranked| && ranked[p] == Totals(data)[k];
      assert ranked[p].0 == data[k].0;
    }
  }

  /** `url_count` sorted by time sum, descending: one pair per key, each key once. */
  function Ranking(data: Grouped): (r: seq<Ranked>)
    requires DistinctKeys(data)
    ensures |r| == |data|
    ensures SortedDesc(r)
    ensures DistinctUrls(r)
    ensures forall y :: y in r <==> y in Totals(data)
  {
    var r := SortDesc(Totals(data));
    assert |r| == |data| by {
      assert |multiset(r)| == |multiset(Totals(data))|;
    }
    SortDescDistinct(Totals(data));
    SameElements(Totals(data), r);
    r
  }

  /** The rows for the first `n` ranked URLs follow the ranking: descending and distinct. */
  lemma RowsFollowRanking(data: Grouped, ranked: seq<Ranked>, n: nat)
    requires SortedDesc(ranked) && DistinctUrls(ranked)
    requires n <= |ranked|
    ensures var r := Rows(data, ranked[..n]);
      r.Success? ==>
        && |r.value| == n
        && (forall i, j :: 0 <= i < j < |r.value| ==> r.value[i].timeSum >= r.value[j].timeSum)
        && (forall i, j :: 0 <= i < j < |r.value| ==> r.value[i].url != r.value[j].url)
  {
  }

  /** A key left out of the first `n` rows has a sum no greater than any of them. */
  lemma RowsAreLargest(data: Grouped, ranked: seq<Ranked>, n: nat)
    requires SortedDesc(ranked)
    requires forall y :: y in ranked <==> y in Totals(data)
    requires n <= |ranked|
    ensures var r := Rows(data, ranked[..n]);
      r.Success? ==>
        forall k :: 0 <= k < |data| && (forall i :: 0 <= i < |r.value| ==> r.value[i].url != data[k].0) ==>
          forall i :: 0 <= i < |r.value| ==> r.value[i].timeSum >= Sum(data[k].1)
  {
    var r := Rows(data, ranked[..n]);
    if r.Success? {
      assert forall i :: 0 <= i < n ==> r.value[i].url == ranked[i].0 && r.value[i].timeSum == ranked[i].1;
      ReportedAreLargest(data, ranked, n);
    }
  }

  /** Each of the first `n` rows names a key, with that key's count and sum. */
  lemma RowsContent(data: Grouped, ranked: seq<Ranked>, n: nat)
    requires DistinctKeys(data)
    requires forall y :: y in ranked <==> y in Totals(data)
    requires n <= |ranked|
    ensures var r := Rows(data, ranked[..n]);
      r.Success? ==> forall i :: 0 <= i < |r.value| ==>
        && r.value[i].url in Keys(data)
        && r.value[i].count == |TimesFor(data, r.value[i].url)|
        && r.value[i].timeSum == Sum(TimesFor(data, r.value[i].url))
    ensures (forall k :: 0 <= k < |data| ==> |data[k].1| > 0) && TotalTime(data) != 0.0 ==> Rows(data, ranked[..n]).Success?
  {
    var top := ranked[..n];
    forall i | 0 <= i < |top|
      ensures top[i] in multiset(Totals(data))
    {
      assert top[i] == ranked[i];
      assert ranked[i] in ranked;
    }
    RankedRows(data, top);
  }

  /** `create_log_stats`: rank the URLs by total time and report the first `reportSize`. */
  function CreateLogStats(data: Grouped, reportSize: int): (r: Result<seq<Stat>>)
    requires DistinctKeys(data)
    ensures |data| == 0 ==> r == Success([])
    ensures r.Success? ==> |r.value| == PrefixLen(|data|, reportSize)
    ensures r.Success? ==> forall i, j :: 0 <= i < j < |r.value| ==> r.value[i].timeSum >= r.value[j].timeSum
    ensures r.Success? ==> forall i, j :: 0 <= i < j < |r.value| ==> r.value[i].url != r.value[j].url
    ensures r.Success? ==> forall k :: 0 <= k < |data| && (forall i :: 0 <= i < |r.value| ==> r.value[i].url != data[k].0) ==>
      forall i :: 0 <= i < |r.value| ==> r.value[i].timeSum >= Sum(data[k].1)
    ensures r.Success? ==> forall i :: 0 <= i < |r.value| ==>
      && r.value[i].url in Keys(data)
      && r.value[i].count == |TimesFor(data, r.value[i].url)|
      && r.value[i].timeSum == Sum(TimesFor(data, r.value[i].url))
    ensures (forall k :: 0 <= k < |data| ==> |data[k].1| > 0) && TotalTime(data) != 0.0 ==> r.Success?
    ensures TotalTime(data) == 0.0 && PrefixLen(|data|, reportSize) > 0 ==> r.Failure?
  {
    if |data| == 0 then Success([])
    else
      var ranked := Ranking(data);
      RowsFollowRanking(data, ranked, PrefixLen(|ranked|, reportSize));
      RowsAreLargest(data, ranked, PrefixLen(|ranked|, reportSize));
      RowsContent(data, ranked, PrefixLen(|ranked|, reportSize));
      Rows(data, ranked[..PrefixLen(|ranked|, reportSize)])
  }
}
