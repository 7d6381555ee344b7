/** Properties of the log analyzer's pure parts. */
module LogFacts {

  import opened Wrappers
  import opened PyValue
  import opened LogNames
  import opened LogLines
  import opened LogStats
  import Dates

  lemma {:induction false} UndotConcat(a: string, b: string)
    ensures Undot(a + b) == Undot(a) + Undot(b)
  {
    if |a| > 0 {
      assert (a + b)[1..] == a[1..] + b;
      UndotConcat(a[1..], b);
    } else {
      assert a + b == b;
    }
  }

  lemma {:induction false} UndotDigits(d: string)
    requires forall j :: 0 <= j < |d| ==> Dates.IsDigit(d[j])
    ensures Undot(d) == d
  {
    if |d| > 0 {
      UndotDigits(d[1..]);
      assert d == [d[0]] + d[1..];
    }
  }

  lemma ClampedSplit(d: string)
    ensures Clamped(d, 0, 8) == Clamped(d, 0, 4) + Clamped(d, 4, 6) + Clamped(d, 6, 8)
  {
  }

  /**
   * The date text is the number's first eight digits with two dots put in:
   * taking the dots out gives those digits back.
   */
  lemma FormatDateRoundTrip(d: string)
    requires forall j :: 0 <= j < |d| ==> Dates.IsDigit(d[j])
    ensures Undot(FormatDate(d)) == Clamped(d, 0, 8)
    ensures |FormatDate(d)| == |Clamped(d, 0, 8)| + 2
  {
    var a, b, c := Clamped(d, 0, 4), Clamped(d, 4, 6), Clamped(d, 6, 8);
    UndotDigits(a);
    UndotDigits(b);
    UndotDigits(c);
    UndotConcat(a + "." + b + ".", c);
    UndotConcat(a + "." + b, ".");
    UndotConcat(a + ".", b);
    UndotConcat(a, ".");
    assert Undot(".") == "";
    ClampedSplit(d);
  }

  /** A URL appears among the keys exactly when some line has it. */
  lemma {:induction false} FirstSeenIff(entries: seq<Entry>, u: Option<string>)
    ensures u in FirstSeen(entries) <==> exists j :: 0 <= j < |entries| && entries[j].0 == u
  {
    if |entries| > 0 {
      var init := entries[..|entries| - 1];
      FirstSeenIff(init, u);
      if exists j :: 0 <= j < |init| && init[j].0 == u {
        var j :| 0 <= j < |init| && init[j].0 == u;
        assert entries[j].0 == u;
      }
      if exists j :: 0 <= j < |entries| && entries[j].0 == u {
        var j :| 0 <= j < |entries| && entries[j].0 == u;
        if j < |init| {
          assert init[j].0 == u;
        }
      }
    }
  }

  /** The times under a URL are exactly as many as its lines. */
  lemma {:induction false} TimesOfCount(entries: seq<Entry>, u: Option<string>)
    ensures |TimesOf(entries, u)| == |set j | 0 <= j < |entries| && entries[j].0 == u|
  {
    if |entries| > 0 {
      var n := |entries| - 1;
      var init := entries[..n];
      TimesOfCount(init, u);
      var before := set j | 0 <= j < n && init[j].0 == u;
      var after := set j | 0 <= j < |entries| && entries[j].0 == u;
      if entries[n].0 == u {
        assert after == before + {n};
      } else {
        assert after == before;
      }
    }
  }

  /**
   * `strip()` removes whitespace only, and only at the two ends: the result
   * sits in `s` at some offset `i` with nothing but whitespace around it.
   */
  lemma StripMiddle(s: string) returns (i: nat)
    ensures i + |Strip(s)| <= |s| && s[i..i + |Strip(s)|] == Strip(s)
    ensures forall j :: 0 <= j < i ==> IsPySpace(s[j])
    ensures forall j :: i + |Strip(s)| <= j < |s| ==> IsPySpace(s[j])
  {
    var e := TrailingEnd(s);
    i := LeadingSpace(s);
    if i >= e {
      i := 0;
    }
  }

  /** A line with no request-method keyword has no URL. */
  lemma NoKeywordNoUrl()
    ensures LineUrl("- - 200") == None
  {
    var s := "- - 200";
    forall p: nat | p <= |s|
      ensures KeywordAt(s, p).None?
    {
      if p < |s| {
        assert s[p..][0] == s[p];
        assert s[p] == '-' || s[p] == ' ' || s[p] == '2' || s[p] == '0';
      }
    }
  }

  const RequestLine := "GET /banner HTTP/1.1"

  lemma RequestLineMatch()
    ensures Search(RequestLine, 0) == Some((0, 12))
    ensures KeywordAt(RequestLine, 0) == Some(3)
  {
    var s := RequestLine;
    assert s[0..][..3] == "GET";
    assert IsMatch(s, 0, 12);
    forall q: nat | q < 12
      ensures !HttpAt(s, q)
    {
      assert s[q..q + 4][0] == s[q];
    }
  }

  lemma StripPadded()
    ensures Strip(RequestLine[3..12]) == "/banner"
  {
    var g := RequestLine[3..12];
    assert g == " /banner ";
    assert g[1..][0] == '/';
    assert LeadingSpace(g) == 1;
    assert g[..8][7] == 'r';
    assert TrailingEnd(g) == 8;
  }

  /** The URL of a short request line: the path between keyword and protocol, stripped. */
  lemma RequestLineUrl()
    ensures LineUrl(RequestLine) == Some("/banner")
  {
    RequestLineMatch();
    StripPadded();
  }
}
