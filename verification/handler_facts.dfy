/** Properties of `method_handler`: when evaluation runs and what it returns. */
module HandlerFacts {

  import opened Wrappers
  import opened PyValue
  import opened Fields
  import opened Schemas
  import opened SchemaFacts
  import opened Api
  import opened ApiFacts

  /** Validating a method schema leaves every `MethodRequest` field object alone. */
  lemma ValidateMethodKeepsEnvelope(st: State, today: int)
    requires ValidateMethod(st, today).Done?
    ensures forall s: Slot :: s.owner == MethodRequestClass ==> Stored(ValidateMethod(st, today).state, s) == Stored(st, s)
  {
    var args := Arguments(st);
    var name := StoredText(st, "method");
    if !Stored(st, Env("method")).PyNone? && name.Some? && Bind(name.value).Some? && args.Some? {
      if Bind(name.value) == Some(OnlineScore) {
        assert ValidateMethod(st, today) == ValidateOnlineScore(args.value, st, today);
        if ScanPairs(Pairs, args.value) {
          forall s: Slot | s.owner == MethodRequestClass
            ensures Stored(ValidateMethod(st, today).state, s) == Stored(st, s)
          {
            OtherClassesUnchanged(OnlineScoreClass, OnlineScoreFields, args.value, st, today, s);
          }
        }
      } else {
        assert ValidateMethod(st, today) == ValidateFields(ClientsInterestsClass, ClientsInterestsFields, args.value, st, today);
        forall s: Slot | s.owner == MethodRequestClass
          ensures Stored(ValidateMethod(st, today).state, s) == Stored(st, s)
        {
          OtherClassesUnchanged(ClientsInterestsClass, ClientsInterestsFields, args.value, st, today, s);
        }
      }
    }
  }

  /** The schema verdict depends on the state only through the stored method name and arguments. */
  lemma ValidateMethodVerdictDependsOnEnvelope(st: State, st': State, today: int)
    requires Stored(st, Env("method")) == Stored(st', Env("method"))
    requires Stored(st, Env("arguments")) == Stored(st', Env("arguments"))
    ensures ValidateMethod(st, today).Done? <==> ValidateMethod(st', today).Done?
    ensures ValidateMethod(st, today).Done? ==> ValidateMethod(st, today).value == ValidateMethod(st', today).value
  {
  }

  /**
   * What an OK verdict from `validate_request` implies: every envelope
   * field passed, the token matched, the method schema passed, and the
   * envelope fields hold the body's values.
   */
  lemma ValidatedFacts(body: map<string, Value>, st: State, clock: Clock, digest: string -> string)
    requires ValidateRequest(body, st, clock, digest).Done?
    requires ValidateRequest(body, st, clock, digest).value.1 == OK
    ensures AllPass(EnvelopeFields, body, clock.today)
    ensures TokenValid(body, clock, digest)
    ensures ValidateRequest(body, st, clock, digest).value.0 == None
    ensures HoldsEnvelope(ValidateRequest(body, st, clock, digest).state, body)
  {
    var os := Outcomes(EnvelopeFields, body, clock.today);
    var e := ValidateFields(MethodRequestClass, EnvelopeFields, body, st, clock.today);
    assert e.Done?;
    MessageNoneIffOk(body, st, clock, digest);
    if SomeFail(os) {
      EnvelopeFailureIsInvalid(body, st, clock, digest);
      assert false;
    }
    NoFailureAllPass(body, clock.today);
    ForbiddenIff(body, st, clock, digest);
    EnvelopeStored(body, st, clock.today);
    AuthOnBody(body, e.state, clock, digest);
    assert ValidateRequest(body, st, clock, digest) == WithMethod(e.value, e.state, clock.today);
    ValidateMethodKeepsEnvelope(e.state, clock.today);
  }

  /**
   * Evaluation runs only after validation said OK: a reply other than text
   * means `validate_request` returned `(None, OK)` and the envelope and
   * token were good.
   */
  lemma OnlyValidatedRequestsEvaluate(
    body: map<string, Value>, st: State, ctx: Ctx, clock: Clock, digest: string -> string,
    scorer: map<string, Value> -> Option<Value>, interests: Value -> Option<seq<string>>)
    requires Handle(body, st, ctx, clock, digest, scorer, interests).Done?
    requires !Handle(body, st, ctx, clock, digest, scorer, interests).value.reply.Text?
    ensures ValidateRequest(body, st, clock, digest).Done?
    ensures ValidateRequest(body, st, clock, digest).value == (None, OK)
    ensures AllPass(EnvelopeFields, body, clock.today) && TokenValid(body, clock, digest)
    ensures Handle(body, st, ctx, clock, digest, scorer, interests).value.code == OK
  {
    var v := ValidateRequest(body, st, clock, digest);
    assert v.Done? && v.value.1 == OK;
    ValidatedFacts(body, st, clock, digest);
    assert Handle(body, st, ctx, clock, digest, scorer, interests)
        == Revalidate(v.state, ctx, clock.today, scorer, interests);
  }

  /**
   * The module-level `validate_request` runs `validate_method` a second
   * time; after an OK verdict that second run passes again and leaves every
   * field object's value as it was.
   */
  lemma SecondValidationAgrees(body: map<string, Value>, st: State, clock: Clock, digest: string -> string)
    requires ValidateRequest(body, st, clock, digest).Done?
    requires ValidateRequest(body, st, clock, digest).value.1 == OK
    ensures var st1 := ValidateRequest(body, st, clock, digest).state;
      && ValidateMethod(st1, clock.today).Done?
      && ValidateMethod(st1, clock.today).value == Report("", OK)
      && forall s: Slot :: Stored(ValidateMethod(st1, clock.today).state, s) == Stored(st1, s)
  {
    OkRequestRanMethod(body, st, clock, digest);
    var e := ValidateFields(MethodRequestClass, EnvelopeFields, body, st, clock.today);
    MethodReportShape(e.state, clock.today);
    ValidateMethodIdempotent(e.state, clock.today);
  }

  /** An OK verdict means the envelope passed and the method schema's first run passed too. */
  lemma OkRequestRanMethod(body: map<string, Value>, st: State, clock: Clock, digest: string -> string)
    requires ValidateRequest(body, st, clock, digest).Done?
    requires ValidateRequest(body, st, clock, digest).value.1 == OK
    ensures var e := ValidateFields(MethodRequestClass, EnvelopeFields, body, st, clock.today);
      && e.Done?
      && ValidateMethod(e.state, clock.today).Done?
      && ValidateMethod(e.state, clock.today).value.code == OK
      && ValidateRequest(body, st, clock, digest).state == ValidateMethod(e.state, clock.today).state
  {
    ValidatedFacts(body, st, clock, digest);
    var e := ValidateFields(MethodRequestClass, EnvelopeFields, body, st, clock.today);
    assert e.Done? && e.value.code == OK;
    assert ValidateRequest(body, st, clock, digest) == WithMethod(e.value, e.state, clock.today);
  }

  /**
   * Validating the same schema again from the state the first run left
   * gives the same verdict and changes no field object's value.
   */
  lemma ValidateMethodIdempotent(st: State, today: int)
    requires ValidateMethod(st, today).Done?
    ensures var st1 := ValidateMethod(st, today).state;
      && ValidateMethod(st1, today).Done?
      && ValidateMethod(st1, today).value == ValidateMethod(st, today).value
      && forall s: Slot :: Stored(ValidateMethod(st1, today).state, s) == Stored(st1, s)
  {
    var st1 := ValidateMethod(st, today).state;
    ValidateMethodKeepsEnvelope(st, today);
    ValidateMethodVerdictDependsOnEnvelope(st, st1, today);
    var args := Arguments(st);
    var name := StoredText(st, "method");
    if !Stored(st, Env("method")).PyNone? && name.Some? && Bind(name.value).Some? && args.Some? {
      assert Arguments(st1) == args && StoredText(st1, "method") == name;
      if Bind(name.value) == Some(OnlineScore) {
        if ScanPairs(Pairs, args.value) {
          ValidateFieldsIdempotent(OnlineScoreClass, OnlineScoreFields, args.value, st, today);
        }
      } else {
        ValidateFieldsIdempotent(ClientsInterestsClass, ClientsInterestsFields, args.value, st, today);
      }
    }
  }

  /** A validation verdict other than OK is the handler's answer, and nothing is evaluated. */
  lemma RejectedRequestsAnswerVerdict(
    body: map<string, Value>, st: State, ctx: Ctx, clock: Clock, digest: string -> string,
    scorer: map<string, Value> -> Option<Value>, interests: Value -> Option<seq<string>>)
    requires ValidateRequest(body, st, clock, digest).Done?
    requires ValidateRequest(body, st, clock, digest).value.1 != OK
    ensures var v := ValidateRequest(body, st, clock, digest);
      Handle(body, st, ctx, clock, digest, scorer, interests)
        == Done(Response(Text(v.value.0), v.value.1, ctx), v.state)
  {
  }

  /**
   * After an OK verdict the handler evaluates on a state whose envelope
   * fields hold the body's values.
   */
  lemma EvaluationState(
    body: map<string, Value>, st: State, ctx: Ctx, clock: Clock, digest: string -> string,
    scorer: map<string, Value> -> Option<Value>, interests: Value -> Option<seq<string>>)
    returns (s: State)
    requires Handle(body, st, ctx, clock, digest, scorer, interests).Done?
    requires !Handle(body, st, ctx, clock, digest, scorer, interests).value.reply.Text?
    ensures AllPass(EnvelopeFields, body, clock.today) && TokenValid(body, clock, digest)
    ensures HoldsEnvelope(s, body)
    ensures Handle(body, st, ctx, clock, digest, scorer, interests) == EvaluateMethod(s, ctx, scorer, interests)
  {
    OnlyValidatedRequestsEvaluate(body, st, ctx, clock, digest, scorer, interests);
    ValidatedFacts(body, st, clock, digest);
    var st1 := ValidateRequest(body, st, clock, digest).state;
    assert Handle(body, st, ctx, clock, digest, scorer, interests) == Revalidate(st1, ctx, clock.today, scorer, interests);
    var m := ValidateMethod(st1, clock.today);
    assert m.Done?;
    ValidateMethodKeepsEnvelope(st1, clock.today);
    s := m.state;
  }

  /**
   * A failing envelope skips the token check; with the method schema
   * failing too, the handler answers INVALID_REQUEST with both texts.
   */
  lemma FailedEnvelopeAnswer(
    body: map<string, Value>, st: State, ctx: Ctx, clock: Clock, digest: string -> string,
    scorer: map<string, Value> -> Option<Value>, interests: Value -> Option<seq<string>>,
    m: Report)
    requires !SomeRaise(Outcomes(EnvelopeFields, body, clock.today))
    requires SomeFail(Outcomes(EnvelopeFields, body, clock.today))
    requires m.code != OK
    requires ValidateMethod(ValidateFields(MethodRequestClass, EnvelopeFields, body, st, clock.today).state, clock.today).Done?
    requires ValidateMethod(ValidateFields(MethodRequestClass, EnvelopeFields, body, st, clock.today).state, clock.today).value == m
    ensures var r := Handle(body, st, ctx, clock, digest, scorer, interests);
      && r.Done?
      && r.value.code == INVALID_REQUEST
      && r.value.reply == Text(Some(JoinFailures(Outcomes(EnvelopeFields, body, clock.today)) + m.message + ", "))
  {
    var os := Outcomes(EnvelopeFields, body, clock.today);
    var e := ValidateFields(MethodRequestClass, EnvelopeFields, body, st, clock.today);
    var st2 := ValidateMethod(e.state, clock.today).state;
    FailedEnvelopeVerdict(body, st, clock, digest, m);
    RejectedRequestsAnswerVerdict(body, st, ctx, clock, digest, scorer, interests);
  }

  lemma FailedEnvelopeVerdict(body: map<string, Value>, st: State, clock: Clock, digest: string -> string, m: Report)
    requires !SomeRaise(Outcomes(EnvelopeFields, body, clock.today))
    requires SomeFail(Outcomes(EnvelopeFields, body, clock.today))
    requires m.code != OK
    requires ValidateMethod(ValidateFields(MethodRequestClass, EnvelopeFields, body, st, clock.today).state, clock.today).Done?
    requires ValidateMethod(ValidateFields(MethodRequestClass, EnvelopeFields, body, st, clock.today).state, clock.today).value == m
    ensures ValidateRequest(body, st, clock, digest)
         == Done((Some(JoinFailures(Outcomes(EnvelopeFields, body, clock.today)) + m.message + ", "), INVALID_REQUEST),
                 ValidateMethod(ValidateFields(MethodRequestClass, EnvelopeFields, body, st, clock.today).state, clock.today).state)
  {
    var e := ValidateFields(MethodRequestClass, EnvelopeFields, body, st, clock.today);
    assert e.Done?;
    assert ValidateRequest(body, st, clock, digest) == Authorize(e.value, e.state, clock, digest);
    AuthorizeAfterFailure(e.value, e.state, clock, digest, m);
  }

  /** After a failed envelope the token is not checked and a failed method schema is appended. */
  lemma AuthorizeAfterFailure(env: Report, st1: State, clock: Clock, digest: string -> string, m: Report)
    requires env.code == INVALID_REQUEST
    requires m.code != OK
    requires ValidateMethod(st1, clock.today).Done? && ValidateMethod(st1, clock.today).value == m
    ensures Authorize(env, st1, clock, digest)
         == Done((Some(env.message + m.message + ", "), INVALID_REQUEST), ValidateMethod(st1, clock.today).state)
  {
    var text := env.message + (m.message + ", ");
    assert text == env.message + m.message + ", ";
    assert |text| > 0;
  }

  /**
   * When the method field fails and its field object holds `None`, the
   * answer is INVALID_REQUEST: the envelope's failures followed by
   * "Invalid method".
   */
  lemma MissingMethodIsInvalid(
    body: map<string, Value>, st: State, ctx: Ctx, clock: Clock, digest: string -> string,
    scorer: map<string, Value> -> Option<Value>, interests: Value -> Option<seq<string>>)
    requires Stored(st, Env("method")) == PyNone
    requires !SomeRaise(Outcomes(EnvelopeFields, body, clock.today))
    requires Check(EnvelopeFields[3], body, clock.today).Fail?
    ensures var r := Handle(body, st, ctx, clock, digest, scorer, interests);
      && r.Done?
      && r.value.code == INVALID_REQUEST
      && r.value.reply == Text(Some(JoinFailures(Outcomes(EnvelopeFields, body, clock.today)) + InvalidMethod + ", "))
  {
    var os := Outcomes(EnvelopeFields, body, clock.today);
    assert os[3].Fail?;
    var e := ValidateFields(MethodRequestClass, EnvelopeFields, body, st, clock.today);
    EnvelopeFieldKept(body, st, clock.today, 3);
    NoMethodIsInvalid(e.state, clock.today);
    FailedEnvelopeAnswer(body, st, ctx, clock, digest, scorer, interests, Report(InvalidMethod, INVALID_REQUEST));
  }

  /** `validate_method` on a `None` method name. */
  lemma NoMethodIsInvalid(st: State, today: int)
    requires Stored(st, Env("method")) == PyNone
    ensures ValidateMethod(st, today) == Done(Report(InvalidMethod, INVALID_REQUEST), st)
  {
  }

  /** `validate_method` on a stored `online_score` with no arguments: the pair rule fails. */
  lemma StaleOnlineScoreVerdict(st: State, today: int)
    requires Stored(st, Env("method")) == Str("online_score")
    requires Stored(st, Env("arguments")) == PyNone
    ensures ValidateMethod(st, today) == Done(Report(PairMessage, INVALID_REQUEST), st)
  {
    assert Arguments(st) == Some(map[]);
    assert !ScanPairs(Pairs, map[]);
  }

  /** The five envelope fields have five different names, so each names its own slot. */
  lemma EnvelopeNamesDistinct(k: nat)
    requires k < |EnvelopeFields|
    ensures forall j :: 0 <= j < |EnvelopeFields| && EnvelopeFields[j].name == EnvelopeFields[k].name ==> j == k
  {
    forall j | 0 <= j < |EnvelopeFields| && j != k
      ensures EnvelopeFields[j].name != EnvelopeFields[k].name
    {
      var a, b := EnvelopeFields[j].name, EnvelopeFields[k].name;
      assert |a| != |b| || a[0] != b[0];
    }
  }

  /** An envelope field that did not pass keeps its earlier value. */
  lemma EnvelopeFieldKept(body: map<string, Value>, st: State, today: int, k: nat)
    requires !SomeRaise(Outcomes(EnvelopeFields, body, today))
    requires k < |EnvelopeFields| && Check(EnvelopeFields[k], body, today) != Pass
    ensures var n := Slot(MethodRequestClass, EnvelopeFields[k].name);
      Stored(ValidateFields(MethodRequestClass, EnvelopeFields, body, st, today).state, n) == Stored(st, n)
  {
    EnvelopeNamesDistinct(k);
    FailedFieldKept(MethodRequestClass, EnvelopeFields, body, st, today, k);
  }

  /** A first request that names the method and nothing else. */
  const MethodOnly: map<string, Value> := map["method" := Str("online_score")]

  /** Only `method` of the envelope passes; the others are missing. */
  lemma MethodOnlyEnvelope(today: int)
    ensures !SomeRaise(Outcomes(EnvelopeFields, MethodOnly, today))
    ensures SomeFail(Outcomes(EnvelopeFields, MethodOnly, today))
    ensures Check(EnvelopeFields[3], MethodOnly, today) == Pass
  {
    var body := MethodOnly;
    var os := Outcomes(EnvelopeFields, body, today);
    assert Check(EnvelopeFields[0], body, today).Fail?;
    assert Check(EnvelopeFields[1], body, today).Fail?;
    assert Check(EnvelopeFields[2], body, today).Fail?;
    assert Check(EnvelopeFields[3], body, today) == Pass;
    assert Check(EnvelopeFields[4], body, today).Fail?;
  }

  /** The passing method field stores "online_score" on fresh field objects. */
  lemma MethodOnlyStoresMethod(today: int)
    ensures var e := ValidateFields(MethodRequestClass, EnvelopeFields, MethodOnly, Fresh, today);
      e.Done? && Stored(e.state, Env("method")) == Str("online_score")
  {
    MethodOnlyEnvelope(today);
    PassedFieldsStored(MethodRequestClass, EnvelopeFields, MethodOnly, Fresh, today, 3);
  }

  /** The missing arguments field fails and stays unset on fresh field objects. */
  lemma MethodOnlyKeepsArguments(today: int)
    ensures var e := ValidateFields(MethodRequestClass, EnvelopeFields, MethodOnly, Fresh, today);
      e.Done? && Stored(e.state, Env("arguments")) == PyNone
  {
    MethodOnlyEnvelope(today);
    EnvelopeFieldKept(MethodOnly, Fresh, today, 1);
  }

  /**
   * The first request fails its envelope, but its `method` field passed and
   * keeps "online_score"; `arguments` is still unset.
   */
  lemma MethodOnlyLeavesName(
    ctx: Ctx, clock: Clock, digest: string -> string,
    scorer: map<string, Value> -> Option<Value>, interests: Value -> Option<seq<string>>)
    ensures var r := Handle(MethodOnly, Fresh, ctx, clock, digest, scorer, interests);
      && r.Done?
      && r.value.code == INVALID_REQUEST
      && Stored(r.state, Env("method")) == Str("online_score")
      && Stored(r.state, Env("arguments")) == PyNone
  {
    var body := MethodOnly;
    var today := clock.today;
    MethodOnlyEnvelope(today);
    MethodOnlyStoresMethod(today);
    MethodOnlyKeepsArguments(today);
    var e := ValidateFields(MethodRequestClass, EnvelopeFields, body, Fresh, today);
    StaleOnlineScoreVerdict(e.state, today);
    FailedEnvelopeVerdict(body, Fresh, clock, digest, Report(PairMessage, INVALID_REQUEST));
    RejectedRequestsAnswerVerdict(body, Fresh, ctx, clock, digest, scorer, interests);
  }

  /**
   * An empty body, validated against field objects whose `method` still
   * holds "online_score" and whose `arguments` is unset, is judged against
   * the OnlineScore schema: the answer names the pair rule.
   */
  lemma StaleMethodVerdict(
    st: State, ctx: Ctx, clock: Clock, digest: string -> string,
    scorer: map<string, Value> -> Option<Value>, interests: Value -> Option<seq<string>>)
    requires Stored(st, Env("method")) == Str("online_score")
    requires Stored(st, Env("arguments")) == PyNone
    ensures var r := Handle(map[], st, ctx, clock, digest, scorer, interests);
      && r.Done?
      && r.value.code == INVALID_REQUEST
      && r.value.reply == Text(Some(JoinFailures(Outcomes(EnvelopeFields, map[], clock.today)) + PairMessage + ", "))
  {
    var body: map<string, Value> := map[];
    EmptyBodyFails(clock.today);
    var e := ValidateFields(MethodRequestClass, EnvelopeFields, body, st, clock.today);
    EnvelopeFieldKept(body, st, clock.today, 3);
    EnvelopeFieldKept(body, st, clock.today, 1);
    StaleOnlineScoreVerdict(e.state, clock.today);
    FailedEnvelopeAnswer(body, st, ctx, clock, digest, scorer, interests, Report(PairMessage, INVALID_REQUEST));
  }

  /**
   * The field objects are class attributes, so their values outlive the
   * request. After `{"method": "online_score"}`, an empty body is answered
   * with the pair rule, where the same body on fresh fields is answered
   * with "Invalid method".
   */
  lemma StaleMethodLeaks(
    ctx: Ctx, clock: Clock, digest: string -> string,
    scorer: map<string, Value> -> Option<Value>, interests: Value -> Option<seq<string>>)
    ensures Handle(map[], Fresh, ctx, clock, digest, scorer, interests).Done?
    ensures var r1 := Handle(MethodOnly, Fresh, ctx, clock, digest, scorer, interests);
      var r2 := Handle(map[], r1.state, ctx, clock, digest, scorer, interests);
      && r1.Done?
      && r2.Done?
      && r2.value.reply == Text(Some(JoinFailures(Outcomes(EnvelopeFields, map[], clock.today)) + PairMessage + ", "))
      && r2.value.reply != Handle(map[], Fresh, ctx, clock, digest, scorer, interests).value.reply
  {
    MethodOnlyLeavesName(ctx, clock, digest, scorer, interests);
    var r1 := Handle(MethodOnly, Fresh, ctx, clock, digest, scorer, interests);
    StaleMethodVerdict(r1.state, ctx, clock, digest, scorer, interests);
    EmptyBodyFails(clock.today);
    MissingMethodIsInvalid(map[], Fresh, ctx, clock, digest, scorer, interests);
    assert |PairMessage| != |InvalidMethod|;
  }

  /** Every envelope field is required, so an empty body fails each of them. */
  lemma EmptyBodyFails(today: int)
    ensures forall k :: 0 <= k < |EnvelopeFields| ==> Check(EnvelopeFields[k], map[], today).Fail?
  {
    forall k | 0 <= k < |EnvelopeFields|
      ensures Check(EnvelopeFields[k], map[], today).Fail?
    {
      assert EnvelopeFields[k].required;
    }
  }
}
