/** Properties of the field validators, for all inputs and on the suite's sample values. */
module FieldFacts {

  import opened Wrappers
  import opened PyValue
  import opened Fields
  import Dates

  /**
   * The required/nullable policy in full: a field passes iff its key is
   * absent and it is optional, or its value is present, survives the
   * `len` test of a required field, and is `None` or passes the type check.
   */
  lemma CheckPassIff(f: FieldSpec, req: map<string, Value>, today: int)
    ensures Check(f, req, today) == Pass <==>
      if f.name !in req then !f.required
      else
        && (f.required ==> Len(req[f.name]).Some? && (Len(req[f.name]) != Some(0) || f.nullable))
        && (req[f.name].PyNone? || ValidateValue(f.kind, req[f.name], today) == Pass)
  {
  }

  lemma OptionalAbsentPasses(f: FieldSpec, today: int)
    requires !f.required
    ensures Check(f, map[], today) == Pass
  {
  }

  lemma PhoneSamples(today: int)
    ensures Check(FieldSpec("phone", PhoneKind, true, false), map["phone" := Str("79871234123")], today) == Pass
    ensures Check(FieldSpec("phone", PhoneKind, true, false), map["phone" := Str("19871234")], today)
            == Fail("Phone number length must be 11, but got 8")
    ensures PhoneCheck(Str("89175002040")).Fail?
    ensures PhoneCheck(Str("")) == Pass
  {
    assert IntToString(8) == "8";
  }

  /** An int phone is judged exactly as its decimal string. */
  lemma PhoneIntAsString(n: int)
    ensures PhoneCheck(Int(n)) == PhoneCheck(Str(IntToString(n)))
  {
  }

  /** There is no digit check: eleven characters starting with 7 suffice. */
  lemma PhoneAcceptsNonDigits()
    ensures PhoneCheck(Str("7abcdefghij")) == Pass
  {
  }

  lemma GenderSamples()
    ensures GenderCheck(Int(-1)).Fail? && GenderCheck(Int(3)).Fail? && GenderCheck(Str("1")).Fail?
    ensures GenderCheck(Int(0)) == Pass && GenderCheck(Int(2)) == Pass
    ensures GenderCheck(Bool(true)) == Pass
  {
  }

  lemma EmailSamples()
    ensures EmailCheck(Str("stupnikovotus.ru")).Fail?
    ensures EmailCheck(Str("stupnikov@otus.ru")) == Pass
  {
    assert "stupnikov@otus.ru"[9] == '@';
  }

  lemma ClientIdsEmptyFails(today: int)
    ensures Check(FieldSpec("client_ids", ClientIdsKind, true, false), map["client_ids" := List([])], today)
            == Fail("Field <client_ids> must not be empty")
  {
    var req := map["client_ids" := List([])];
    assert "client_ids" in req && Len(req["client_ids"]) == Some(0);
    assert "Field <" + "client_ids" + "> must not be empty" == "Field <client_ids> must not be empty";
  }

  lemma ClientIdsUnsizedRaises(today: int)
    ensures Check(FieldSpec("client_ids", ClientIdsKind, true, false), map["client_ids" := Int(1)], today).Raise?
  {
  }

  lemma ClientIdsSamples()
    ensures ClientIdsCheck(Dict(map["1" := Int(2)])).Fail?
    ensures ClientIdsCheck(List([Str("1"), Str("2")])).Fail?
    ensures ClientIdsCheck(List([Int(1), Int(2)])) == Pass
  {
    var xs := Elements(List([Int(1), Int(2)]));
    assert IsNumber(xs[0]) && IsNumber(xs[1]);
  }

  lemma DateSamples()
    ensures Dates.ParseYmd("XXX").None?
    ensures Dates.ParseYmd("01.01.2000").None?
    ensures Dates.ParseYmd("20000101") == Some(Dates.Date(2000, 1, 1))
  {
    assert !Dates.IsDigit("01.01.2000"[2]);
    var s := "20000101";
    assert s[..4] == "2000" && s[4..6] == "01" && s[6..8] == "01";
    assert Dates.DigitsValue("2000") == 2000 by {
      assert "2000"[..3] == "200" && "200"[..2] == "20" && "20"[..1] == "2" && "2"[..0] == "";
    }
    assert Dates.DigitsValue("01") == 1 by {
      assert "01"[..1] == "0" && "0"[..0] == "";
    }
  }

  /** 1890-01-01 is day 689944 of the proleptic calendar. */
  lemma Ordinal1890()
    ensures Dates.Ordinal(Dates.Date(1890, 1, 1)) == 689944
  {
  }

  /**
   * A birthday of 1890-01-01 is refused once 25568 days have passed since,
   * while a plain date field (no bound) accepts it.
   */
  lemma Birthday1890(today: int)
    requires today >= 689944 + 25568
    ensures DateCheck(Str("18900101"), true, today).Fail?
    ensures DateCheck(Str("18900101"), false, today) == Pass
  {
    var s := "18900101";
    assert s[..4] == "1890" && s[4..6] == "01" && s[6..8] == "01";
    assert Dates.DigitsValue("1890") == 1890 by {
      assert "1890"[..3] == "189" && "189"[..2] == "18" && "18"[..1] == "1" && "1"[..0] == "";
    }
    assert Dates.DigitsValue("01") == 1 by {
      assert "01"[..1] == "0" && "0"[..0] == "";
    }
    Ordinal1890();
  }

  /** The window only looks backwards: a birthday on or after today passes. */
  lemma FutureBirthdayPasses(s: string, today: int)
    requires Dates.ParseYmd(s).Some? && Dates.Ordinal(Dates.ParseYmd(s).value) >= today
    ensures DateCheck(Str(s), true, today) == Pass
  {
  }

  /** A non-string date makes `strptime` raise. */
  lemma DateNonStringRaises(v: Value, today: int)
    requires !v.Str? && !v.PyNone?
    ensures Check(FieldSpec("date", DateKind, false, true), map["date" := v], today).Raise?
  {
  }
}
