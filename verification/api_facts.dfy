/** Properties of `validate_request`: status precedence and the token check. */
module ApiFacts {

  import opened Wrappers
  import opened PyValue
  import opened Fields
  import opened Schemas
  import opened SchemaFacts
  import opened FieldFacts
  import opened Api

  predicate AllPass(fs: seq<FieldSpec>, req: map<string, Value>, today: int) {
    forall k :: 0 <= k < |fs| ==> Check(fs[k], req, today) == Pass
  }

  /** The token `check_auth` accepts, stated on the request body. */
  predicate TokenValid(body: map<string, Value>, clock: Clock, digest: string -> string) {
    if Lookup(body, "login") == Str(ADMIN_LOGIN) then
      Lookup(body, "token") == Str(digest(clock.hourStamp + ADMIN_SALT))
    else
      match (Lookup(body, "account"), Lookup(body, "login"))
      case (Str(a), Str(l)) => Lookup(body, "token") == Str(digest(a + l + SALT))
      case _ => false
  }

  /** Every `MethodRequest` field object holds the body's value. */
  predicate HoldsEnvelope(s: State, body: map<string, Value>) {
    && Stored(s, Env("account")) == Lookup(body, "account")
    && Stored(s, Env("arguments")) == Lookup(body, "arguments")
    && Stored(s, Env("login")) == Lookup(body, "login")
    && Stored(s, Env("method")) == Lookup(body, "method")
    && Stored(s, Env("token")) == Lookup(body, "token")
  }

  /** With no field failing or raising, every envelope field passed. */
  lemma NoFailureAllPass(body: map<string, Value>, today: int)
    requires !SomeRaise(Outcomes(EnvelopeFields, body, today))
    requires !SomeFail(Outcomes(EnvelopeFields, body, today))
    ensures AllPass(EnvelopeFields, body, today)
  {
    var os := Outcomes(EnvelopeFields, body, today);
    forall k | 0 <= k < |EnvelopeFields|
      ensures Check(EnvelopeFields[k], body, today) == Pass
    {
      assert os[k] == Check(EnvelopeFields[k], body, today);
    }
  }

  /** A passing envelope has string credentials, a non-empty method name and a mapping of arguments. */
  lemma EnvelopePassShapes(body: map<string, Value>, today: int)
    requires AllPass(EnvelopeFields, body, today)
    ensures "account" in body && body["account"].Str?
    ensures "arguments" in body && body["arguments"].Dict?
    ensures "login" in body && body["login"].Str?
    ensures "method" in body && body["method"].Str? && |body["method"].s| > 0
    ensures "token" in body && body["token"].Str?
  {
    forall k | 0 <= k < |EnvelopeFields| {
      CheckPassIff(EnvelopeFields[k], body, today);
    }
    assert Check(EnvelopeFields[0], body, today) == Pass;
    assert Check(EnvelopeFields[1], body, today) == Pass;
    assert Check(EnvelopeFields[2], body, today) == Pass;
    assert Check(EnvelopeFields[3], body, today) == Pass;
    assert Check(EnvelopeFields[4], body, today) == Pass;
  }

  /** After a passing envelope every envelope field holds the body's value. */
  lemma EnvelopeStored(body: map<string, Value>, st: State, today: int)
    requires AllPass(EnvelopeFields, body, today)
    ensures ValidateFields(MethodRequestClass, EnvelopeFields, body, st, today).Done?
    ensures ValidateFields(MethodRequestClass, EnvelopeFields, body, st, today).value.code == OK
    ensures HoldsEnvelope(ValidateFields(MethodRequestClass, EnvelopeFields, body, st, today).state, body)
  {
    var os := Outcomes(EnvelopeFields, body, today);
    assert !SomeRaise(os) && !SomeFail(os);
    PassedFieldsStored(MethodRequestClass, EnvelopeFields, body, st, today, 0);
    PassedFieldsStored(MethodRequestClass, EnvelopeFields, body, st, today, 1);
    PassedFieldsStored(MethodRequestClass, EnvelopeFields, body, st, today, 2);
    PassedFieldsStored(MethodRequestClass, EnvelopeFields, body, st, today, 3);
    PassedFieldsStored(MethodRequestClass, EnvelopeFields, body, st, today, 4);
  }

  /** On a state that holds the envelope, `check_auth` decides exactly `TokenValid`. */
  lemma AuthOnBody(body: map<string, Value>, s: State, clock: Clock, digest: string -> string)
    requires AllPass(EnvelopeFields, body, clock.today)
    requires HoldsEnvelope(s, body)
    ensures CheckAuth(s, clock, digest) == Some(TokenValid(body, clock, digest))
  {
    EnvelopePassShapes(body, clock.today);
  }

  /**
   * FORBIDDEN is returned exactly when the envelope passed and the token is
   * wrong; it comes before the method schema is looked at, so no schema
   * class's field object changes.
   */
  lemma ForbiddenIff(body: map<string, Value>, st: State, clock: Clock, digest: string -> string)
    requires !SomeRaise(Outcomes(EnvelopeFields, body, clock.today))
    ensures var r := ValidateRequest(body, st, clock, digest);
      (r.Done? && r.value.1 == FORBIDDEN)
      <==> (!SomeFail(Outcomes(EnvelopeFields, body, clock.today)) && !TokenValid(body, clock, digest))
    ensures var r := ValidateRequest(body, st, clock, digest);
      r.Done? && r.value.1 == FORBIDDEN ==>
        && r.value.0 == Some("Forbidden")
        && forall s: Slot :: s.owner != MethodRequestClass ==> Stored(r.state, s) == Stored(st, s)
  {
    var os := Outcomes(EnvelopeFields, body, clock.today);
    var e := ValidateFields(MethodRequestClass, EnvelopeFields, body, st, clock.today);
    assert e.Done?;
    assert ValidateRequest(body, st, clock, digest) == Authorize(e.value, e.state, clock, digest);
    ReportShape(MethodRequestClass, EnvelopeFields, body, st, clock.today);
    AuthorizeForbiddenIff(e.value, e.state, clock, digest);
    EnvelopeKeepsOthers(body, st, clock.today);
    if !SomeFail(os) {
      NoFailureAllPass(body, clock.today);
      EnvelopeStored(body, st, clock.today);
      AuthOnBody(body, e.state, clock, digest);
    }
  }

  /** The envelope stage writes only `MethodRequest` field objects. */
  lemma EnvelopeKeepsOthers(body: map<string, Value>, st: State, today: int)
    requires ValidateFields(MethodRequestClass, EnvelopeFields, body, st, today).Done?
    ensures forall s: Slot :: s.owner != MethodRequestClass ==>
      Stored(ValidateFields(MethodRequestClass, EnvelopeFields, body, st, today).state, s) == Stored(st, s)
  {
    forall s: Slot | s.owner != MethodRequestClass
      ensures Stored(ValidateFields(MethodRequestClass, EnvelopeFields, body, st, today).state, s) == Stored(st, s)
    {
      OtherClassesUnchanged(MethodRequestClass, EnvelopeFields, body, st, today, s);
    }
  }

  /**
   * After a well-shaped envelope report, the stage answers FORBIDDEN exactly
   * when the envelope passed and `check_auth` said no, and then it writes nothing.
   */
  lemma AuthorizeForbiddenIff(env: Report, st1: State, clock: Clock, digest: string -> string)
    requires WellShaped(env)
    ensures var r := Authorize(env, st1, clock, digest);
      (r.Done? && r.value.1 == FORBIDDEN) <==> (env.code == OK && CheckAuth(st1, clock, digest) == Some(false))
    ensures var r := Authorize(env, st1, clock, digest);
      r.Done? && r.value.1 == FORBIDDEN ==> r.value.0 == Some("Forbidden") && r.state == st1
  {
    WithMethodNotForbidden(env, st1, clock.today);
  }

  predicate WellShaped(rep: Report) {
    && (rep.code == OK || rep.code == INVALID_REQUEST)
    && (rep.message == "" <==> rep.code == OK)
  }

  lemma OnlineScoreShape(args: map<string, Value>, st: State, today: int)
    requires ValidateOnlineScore(args, st, today).Done?
    ensures WellShaped(ValidateOnlineScore(args, st, today).value)
  {
    if ScanPairs(Pairs, args) {
      ReportShape(OnlineScoreClass, OnlineScoreFields, args, st, today);
    } else {
      assert |PairMessage| > 0;
    }
  }

  /** Whatever ValidateMethod finishes with is OK with no text or INVALID_REQUEST with some. */
  lemma MethodReportShape(st: State, today: int)
    requires ValidateMethod(st, today).Done?
    ensures WellShaped(ValidateMethod(st, today).value)
  {
    var args := Arguments(st);
    var name := StoredText(st, "method");
    if !Stored(st, Env("method")).PyNone? && name.Some? && Bind(name.value).Some? && args.Some? {
      if Bind(name.value) == Some(OnlineScore) {
        assert ValidateMethod(st, today) == ValidateOnlineScore(args.value, st, today);
        OnlineScoreShape(args.value, st, today);
      } else {
        assert ValidateMethod(st, today) == ValidateClientsInterests(args.value, st, today);
        ReportShape(ClientsInterestsClass, ClientsInterestsFields, args.value, st, today);
      }
    }
  }

  /** The method stage merges to OK or INVALID_REQUEST, never FORBIDDEN. */
  lemma WithMethodNotForbidden(env: Report, st1: State, today: int)
    requires WellShaped(env)
    ensures var r := WithMethod(env, st1, today);
      r.Done? ==> r.value.1 == env.code || r.value.1 == INVALID_REQUEST
  {
  }

  /**
   * A failing envelope skips the token check: the status is INVALID_REQUEST
   * and the text starts with the envelope's own failures.
   */
  lemma EnvelopeFailureIsInvalid(body: map<string, Value>, st: State, clock: Clock, digest: string -> string)
    requires SomeFail(Outcomes(EnvelopeFields, body, clock.today))
    ensures var r := ValidateRequest(body, st, clock, digest);
      r.Done? ==>
        && r.value.1 == INVALID_REQUEST
        && r.value.0.Some?
        && StartsWith(r.value.0.value, JoinFailures(Outcomes(EnvelopeFields, body, clock.today)))
  {
    var os := Outcomes(EnvelopeFields, body, clock.today);
    var e := ValidateFields(MethodRequestClass, EnvelopeFields, body, st, clock.today);
    if e.Done? {
      JoinFailuresEmptyIff(os);
      assert e.value.code == INVALID_REQUEST && e.value.message == JoinFailures(os) != "";
      assert ValidateRequest(body, st, clock, digest) == WithMethod(e.value, e.state, clock.today);
      WithMethodKeepsFailure(e.value, e.state, clock.today);
    }
  }

  /** A failed envelope report survives the method stage as status and as text prefix. */
  lemma WithMethodKeepsFailure(env: Report, st1: State, today: int)
    requires env.code == INVALID_REQUEST && env.message != ""
    ensures var r := WithMethod(env, st1, today);
      r.Done? ==> r.value.1 == INVALID_REQUEST && r.value.0.Some? && StartsWith(r.value.0.value, env.message)
  {
    var m := ValidateMethod(st1, today);
    if m.Done? {
      var text := env.message + (if m.value.code != OK then m.value.message + ", " else "");
      assert text[..|env.message|] == env.message;
    }
  }

  /**
   * Every finished validation ends in OK, FORBIDDEN or INVALID_REQUEST, and
   * the text is `None` exactly when the status is OK.
   */
  lemma MessageNoneIffOk(body: map<string, Value>, st: State, clock: Clock, digest: string -> string)
    requires ValidateRequest(body, st, clock, digest).Done?
    ensures var v := ValidateRequest(body, st, clock, digest).value;
      && (v.1 == OK || v.1 == FORBIDDEN || v.1 == INVALID_REQUEST)
      && (v.0.None? <==> v.1 == OK)
  {
    var e := ValidateFields(MethodRequestClass, EnvelopeFields, body, st, clock.today);
    assert e.Done?;
    ReportShape(MethodRequestClass, EnvelopeFields, body, st, clock.today);
    var auth := if e.value.code == OK then CheckAuth(e.state, clock, digest) else Some(true);
    if auth == Some(true) {
      var m := ValidateMethod(e.state, clock.today);
      assert m.Done?;
      assert ValidateRequest(body, st, clock, digest) == Done(Merge(e.value, m.value), m.state);
      MethodReportShape(e.state, clock.today);
    }
  }
}
