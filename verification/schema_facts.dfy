/** Properties of error aggregation and of the field tables. */
module SchemaFacts {

  import opened PyValue
  import opened Fields
  import opened Schemas
  import opened PyOrder

  /** Every failure leaves ", " behind, so the text is empty exactly when nothing failed. */
  lemma {:induction false} JoinFailuresEmptyIff(os: seq<Outcome>)
    ensures JoinFailures(os) == "" <==> !SomeFail(os)
  {
    if |os| > 0 {
      JoinFailuresEmptyIff(os[1..]);
      if os[0].Fail? {
        assert |os[0].msg + ", "| > 0;
      } else {
        assert forall k :: 1 <= k < |os| ==> os[k] == os[1..][k - 1];
      }
    }
  }

  /** A finished validation reports OK with no text, or INVALID_REQUEST with some. */
  lemma ReportShape(owner: Owner, fs: seq<FieldSpec>, req: map<string, Value>, st: State, today: int)
    requires ValidateFields(owner, fs, req, st, today).Done?
    ensures var rep := ValidateFields(owner, fs, req, st, today).value;
      && (rep.code == OK || rep.code == INVALID_REQUEST)
      && (rep.message == "" <==> rep.code == OK)
  {
    JoinFailuresEmptyIff(Outcomes(fs, req, today));
  }

  /** Validating one class's table touches no other class's field objects. */
  lemma OtherClassesUnchanged(owner: Owner, fs: seq<FieldSpec>, req: map<string, Value>, st: State, today: int, s: Slot)
    requires ValidateFields(owner, fs, req, st, today).Done?
    requires s.owner != owner
    ensures Stored(ValidateFields(owner, fs, req, st, today).state, s) == Stored(st, s)
  {
  }

  /** A field that passed now holds the request's value. */
  lemma PassedFieldsStored(owner: Owner, fs: seq<FieldSpec>, req: map<string, Value>, st: State, today: int, k: nat)
    requires ValidateFields(owner, fs, req, st, today).Done?
    requires k < |fs| && Check(fs[k], req, today) == Pass
    ensures Stored(ValidateFields(owner, fs, req, st, today).state, Slot(owner, fs[k].name)) == Lookup(req, fs[k].name)
  {
  }

  /** A field that did not pass keeps the value an earlier request left in it. */
  lemma FailedFieldKept(owner: Owner, fs: seq<FieldSpec>, req: map<string, Value>, st: State, today: int, k: nat)
    requires ValidateFields(owner, fs, req, st, today).Done?
    requires k < |fs| && Check(fs[k], req, today) != Pass
    requires forall j :: 0 <= j < |fs| && fs[j].name == fs[k].name ==> j == k
    ensures Stored(ValidateFields(owner, fs, req, st, today).state, Slot(owner, fs[k].name)) == Stored(st, Slot(owner, fs[k].name))
  {
  }

  /**
   * Validating the same request again from the state the first run left
   * gives the same report and changes no field object's value.
   */
  lemma ValidateFieldsIdempotent(owner: Owner, fs: seq<FieldSpec>, req: map<string, Value>, st: State, today: int)
    requires ValidateFields(owner, fs, req, st, today).Done?
    ensures var st1 := ValidateFields(owner, fs, req, st, today).state;
      && ValidateFields(owner, fs, req, st1, today).Done?
      && ValidateFields(owner, fs, req, st1, today).value == ValidateFields(owner, fs, req, st, today).value
      && forall s: Slot :: Stored(ValidateFields(owner, fs, req, st1, today).state, s) == Stored(st1, s)
  {
  }

  /** The tables list their fields in the order `inspect.getmembers` visits them. */
  lemma TablesAlphabetical()
    ensures forall k :: 0 <= k < |EnvelopeFields| - 1 ==> PyLess(EnvelopeFields[k].name, EnvelopeFields[k + 1].name)
    ensures forall k :: 0 <= k < |OnlineScoreFields| - 1 ==> PyLess(OnlineScoreFields[k].name, OnlineScoreFields[k + 1].name)
    ensures forall k :: 0 <= k < |ClientsInterestsFields| - 1 ==> PyLess(ClientsInterestsFields[k].name, ClientsInterestsFields[k + 1].name)
  {
  }

  /** Only key presence matters for the pair rule: two `None` values satisfy it and pass. */
  lemma PairOfNonesPasses(st: State, today: int)
    ensures ValidateOnlineScore(map["phone" := PyNone, "email" := PyNone], st, today).Done?
    ensures ValidateOnlineScore(map["phone" := PyNone, "email" := PyNone], st, today).value
            == Report("", OK)
  {
    var args := map["phone" := PyNone, "email" := PyNone];
    assert ScanPairs(Pairs, args) by { assert Pairs[0].0 in args && Pairs[0].1 in args; }
    var os := Outcomes(OnlineScoreFields, args, today);
    forall k | 0 <= k < |os|
      ensures os[k] == Pass
    {
      var f := OnlineScoreFields[k];
      assert !f.required;
      assert f.name !in args || args[f.name].PyNone?;
    }
    assert !SomeFail(os) && !SomeRaise(os);
    JoinFailuresEmptyIff(os);
  }

  /** Without a complete pair no field is validated and nothing is stored. */
  lemma PairRuleShortCircuits(args: map<string, Value>, st: State, today: int)
    requires forall k :: 0 <= k < |Pairs| ==> Pairs[k].0 !in args || Pairs[k].1 !in args
    ensures ValidateOnlineScore(args, st, today) == Done(Report(PairMessage, INVALID_REQUEST), st)
  {
  }

  /** The suite's `{}` and `{"phone": ...}` score requests break the pair rule. */
  lemma PairSamples(st: State, today: int)
    ensures ValidateOnlineScore(map[], st, today) == Done(Report(PairMessage, INVALID_REQUEST), st)
    ensures ValidateOnlineScore(map["phone" := Str("79175002040")], st, today)
            == Done(Report(PairMessage, INVALID_REQUEST), st)
  {
  }
}
