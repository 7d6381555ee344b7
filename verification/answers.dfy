/**
 * The converse of the handler facts: a body whose envelope, token and
 * method schema all pass is answered by evaluating its method, whatever
 * the field objects held before.
 */
module Answers {

  import opened Wrappers
  import opened PyValue
  import opened PyDict
  import opened Fields
  import opened Schemas
  import opened SchemaFacts
  import opened Api
  import opened ApiFacts
  import opened HandlerFacts

  /** The schema the method name picks passes on these arguments. */
  predicate SchemaPasses(name: Value, args: map<string, Value>, today: int) {
    if name == Str("online_score") then ScanPairs(Pairs, args) && AllPass(OnlineScoreFields, args, today)
    else name == Str("clients_interests") && AllPass(ClientsInterestsFields, args, today)
  }

  /** Everything `validate_request` demands of a body, stated on the body. */
  predicate Acceptable(body: map<string, Value>, clock: Clock, digest: string -> string) {
    && AllPass(EnvelopeFields, body, clock.today)
    && TokenValid(body, clock, digest)
    && Lookup(body, "arguments").Dict?
    && SchemaPasses(Lookup(body, "method"), Lookup(body, "arguments").entries, clock.today)
  }

  /** A field loop finishes OK with no text exactly when every field passes. */
  lemma ValidateFieldsOkIff(owner: Owner, fs: seq<FieldSpec>, req: map<string, Value>, st: State, today: int)
    ensures var r := ValidateFields(owner, fs, req, st, today);
      (r.Done? && r.value.code == OK) <==> AllPass(fs, req, today)
    ensures AllPass(fs, req, today) ==> ValidateFields(owner, fs, req, st, today).value == Report("", OK)
  {
    var os := Outcomes(fs, req, today);
    var r := ValidateFields(owner, fs, req, st, today);
    if AllPass(fs, req, today) {
      assert !SomeRaise(os) && !SomeFail(os);
      ReportShape(owner, fs, req, st, today);
    }
    if r.Done? && r.value.code == OK {
      forall k | 0 <= k < |fs|
        ensures Check(fs[k], req, today) == Pass
      {
        assert os[k] == Check(fs[k], req, today);
      }
    }
  }

  /** `validate_method` says OK exactly when the stored name picks a schema that passes. */
  lemma {:induction false} ValidateMethodOkIff(st: State, today: int)
    ensures (ValidateMethod(st, today).Done? && ValidateMethod(st, today).value.code == OK)
        <==> Arguments(st).Some? && SchemaPasses(Stored(st, Env("method")), Arguments(st).value, today)
    ensures ValidateMethod(st, today).Done? && ValidateMethod(st, today).value.code == OK
        ==> ValidateMethod(st, today).value.message == ""
  {
    var args := Arguments(st);
    var name := StoredText(st, "method");
    if !Stored(st, Env("method")).PyNone? && name.Some? && Bind(name.value).Some? && args.Some? {
      if Bind(name.value) == Some(OnlineScore) {
        assert Stored(st, Env("method")) == Str("online_score");
        if ScanPairs(Pairs, args.value) {
          ValidateFieldsOkIff(OnlineScoreClass, OnlineScoreFields, args.value, st, today);
        }
      } else {
        assert Stored(st, Env("method")) == Str("clients_interests");
        ValidateFieldsOkIff(ClientsInterestsClass, ClientsInterestsFields, args.value, st, today);
      }
    }
  }

  /** A dict body's arguments read back from the field objects as its entries. */
  lemma StoredArguments(s: State, body: map<string, Value>)
    requires HoldsEnvelope(s, body) && Lookup(body, "arguments").Dict?
    ensures Arguments(s) == Some(Lookup(body, "arguments").entries)
    ensures Stored(s, Env("method")) == Lookup(body, "method")
  {
  }

  /** An acceptable body gets `(None, OK)` from `validate_request`, with its envelope stored. */
  lemma AcceptedBody(body: map<string, Value>, st: State, clock: Clock, digest: string -> string)
    requires Acceptable(body, clock, digest)
    ensures var v := ValidateRequest(body, st, clock, digest);
      v.Done? && v.value == (None, OK) && HoldsEnvelope(v.state, body)
  {
    var e := ValidateFields(MethodRequestClass, EnvelopeFields, body, st, clock.today);
    EnvelopeStored(body, st, clock.today);
    ValidateFieldsOkIff(MethodRequestClass, EnvelopeFields, body, st, clock.today);
    AuthOnBody(body, e.state, clock, digest);
    StoredArguments(e.state, body);
    ValidateMethodOkIff(e.state, clock.today);
    ValidateMethodKeepsEnvelope(e.state, clock.today);
    var m := ValidateMethod(e.state, clock.today);
    assert ValidateRequest(body, st, clock, digest) == Done(Merge(e.value, m.value), m.state);
  }

  /** An OK verdict from `validate_request` means the body was acceptable. */
  lemma OkBodyAcceptable(body: map<string, Value>, st: State, clock: Clock, digest: string -> string)
    requires ValidateRequest(body, st, clock, digest).Done?
    requires ValidateRequest(body, st, clock, digest).value.1 == OK
    ensures Acceptable(body, clock, digest)
  {
    ValidatedFacts(body, st, clock, digest);
    OkRequestRanMethod(body, st, clock, digest);
    var e := ValidateFields(MethodRequestClass, EnvelopeFields, body, st, clock.today);
    EnvelopeStored(body, st, clock.today);
    EnvelopePassShapes(body, clock.today);
    StoredArguments(e.state, body);
    ValidateMethodOkIff(e.state, clock.today);
  }

  /**
   * `validate_request` returns `(None, OK)` exactly for acceptable bodies:
   * every envelope field passes, the token matches, the arguments are a
   * mapping and the schema the method names passes on them.
   */
  lemma ValidRequestIff(body: map<string, Value>, st: State, clock: Clock, digest: string -> string)
    ensures var v := ValidateRequest(body, st, clock, digest);
      (v.Done? && v.value == (None, OK)) <==> Acceptable(body, clock, digest)
  {
    if Acceptable(body, clock, digest) {
      AcceptedBody(body, st, clock, digest);
    }
    var v := ValidateRequest(body, st, clock, digest);
    if v.Done? && v.value == (None, OK) {
      OkBodyAcceptable(body, st, clock, digest);
    }
  }

  /**
   * An acceptable body reaches evaluation: the second `validate_method`
   * passes too, and the method runs on field objects holding the body.
   */
  lemma AcceptedEvaluates(
    body: map<string, Value>, st: State, ctx: Ctx, clock: Clock, digest: string -> string,
    scorer: map<string, Value> -> Option<Value>, interests: Value -> Option<seq<string>>)
    returns (s: State)
    requires Acceptable(body, clock, digest)
    ensures HoldsEnvelope(s, body)
    ensures Handle(body, st, ctx, clock, digest, scorer, interests) == EvaluateMethod(s, ctx, scorer, interests)
  {
    AcceptedBody(body, st, clock, digest);
    var s1 := ValidateRequest(body, st, clock, digest).state;
    assert Handle(body, st, ctx, clock, digest, scorer, interests) == Revalidate(s1, ctx, clock.today, scorer, interests);
    StoredArguments(s1, body);
    ValidateMethodOkIff(s1, clock.today);
    ValidateMethodKeepsEnvelope(s1, clock.today);
    s := ValidateMethod(s1, clock.today).state;
  }

  /**
   * An acceptable `online_score` body is answered OK with a score: 42 for
   * the admin login, the scorer's value otherwise (when it returns one),
   * and `ctx["has"]` set to the argument names.
   */
  lemma AcceptedScoreAnswered(
    body: map<string, Value>, st: State, ctx: Ctx, clock: Clock, digest: string -> string,
    scorer: map<string, Value> -> Option<Value>, interests: Value -> Option<seq<string>>)
    requires Acceptable(body, clock, digest)
    requires Lookup(body, "method") == Str("online_score")
    requires Lookup(body, "login") == Str(ADMIN_LOGIN) || scorer(Lookup(body, "arguments").entries).Some?
    ensures var args := Lookup(body, "arguments").entries;
      var r := Handle(body, st, ctx, clock, digest, scorer, interests);
      && r.Done?
      && r.value == Response(
           ScoreReply(if Lookup(body, "login") == Str(ADMIN_LOGIN) then Int(42) else scorer(args).value),
           OK, ctx.(has := Some(args.Keys)))
  {
    var s := AcceptedEvaluates(body, st, ctx, clock, digest, scorer, interests);
    StoredArguments(s, body);
    assert StoredText(s, "method") == Some("online_score");
  }

  /**
   * An acceptable `clients_interests` body whose ids all have interests is
   * answered OK with the comprehension of the ids to their interests, and
   * `ctx["nclients"]` set to the number of ids.
   */
  lemma AcceptedInterestsAnswered(
    body: map<string, Value>, st: State, ctx: Ctx, clock: Clock, digest: string -> string,
    scorer: map<string, Value> -> Option<Value>, interests: Value -> Option<seq<string>>)
    requires Acceptable(body, clock, digest)
    requires Lookup(body, "method") == Str("clients_interests")
    requires var v := Lookup(Lookup(body, "arguments").entries, "client_ids");
      IsSequence(v) && forall k :: 0 <= k < |Elements(v)| ==> interests(Elements(v)[k]).Some?
    ensures var ids := Elements(Lookup(Lookup(body, "arguments").entries, "client_ids"));
      var r := Handle(body, st, ctx, clock, digest, scorer, interests);
      && r.Done?
      && r.value == Response(InterestsReply(InterestsOf(ids, interests)), OK, ctx.(nclients := Some(|ids|)))
  {
    var args := Lookup(body, "arguments").entries;
    var s := AcceptedEvaluates(body, st, ctx, clock, digest, scorer, interests);
    StoredArguments(s, body);
    assert StoredText(s, "method") == Some("clients_interests");
    ClientIdsPresent(args, clock.today);
    var ids := Elements(args["client_ids"]);
    assert FirstRaising(ids, interests) == |ids|;
  }

  /** A passing `ClientsInterestsRequest` has a sequence of client ids. */
  lemma ClientIdsPresent(args: map<string, Value>, today: int)
    requires AllPass(ClientsInterestsFields, args, today)
    ensures "client_ids" in args && IsSequence(args["client_ids"])
  {
    assert Check(ClientsInterestsFields[0], args, today) == Pass;
  }
}
