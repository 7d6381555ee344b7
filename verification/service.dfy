/**
 * `method_handler` as its callers rely on it: every request judged on its
 * own, from field objects that hold nothing yet, and what a successful
 * answer says about the request body.
 */
module Service {

  import opened Wrappers
  import opened PyValue
  import opened PyDict
  import opened Fields
  import opened Schemas
  import opened Api
  import opened ApiFacts
  import opened HandlerFacts
  import opened Answers

  /** `method_handler` with per-request field objects. */
  function HandleRequest(
    body: map<string, Value>, ctx: Ctx, clock: Clock, digest: string -> string,
    scorer: map<string, Value> -> Option<Value>, interests: Value -> Option<seq<string>>
  ): Step<Response>
  {
    Handle(body, Fresh, ctx, clock, digest, scorer, interests)
  }

  /** A body whose method field fails is answered "Invalid method", whatever came before it. */
  lemma FailedMethodIsInvalid(
    body: map<string, Value>, ctx: Ctx, clock: Clock, digest: string -> string,
    scorer: map<string, Value> -> Option<Value>, interests: Value -> Option<seq<string>>)
    requires !SomeRaise(Outcomes(EnvelopeFields, body, clock.today))
    requires Check(EnvelopeFields[3], body, clock.today).Fail?
    ensures var r := HandleRequest(body, ctx, clock, digest, scorer, interests);
      && r.Done?
      && r.value.code == INVALID_REQUEST
      && r.value.reply == Text(Some(JoinFailures(Outcomes(EnvelopeFields, body, clock.today)) + InvalidMethod + ", "))
  {
    MissingMethodIsInvalid(body, Fresh, ctx, clock, digest, scorer, interests);
  }

  /** An acceptable `online_score` body gets its score (see `Answers.AcceptedScoreAnswered`). */
  lemma ScoreRequestAnswered(
    body: map<string, Value>, ctx: Ctx, clock: Clock, digest: string -> string,
    scorer: map<string, Value> -> Option<Value>, interests: Value -> Option<seq<string>>)
    requires Acceptable(body, clock, digest)
    requires Lookup(body, "method") == Str("online_score")
    requires Lookup(body, "login") == Str(ADMIN_LOGIN) || scorer(Lookup(body, "arguments").entries).Some?
    ensures var args := Lookup(body, "arguments").entries;
      HandleRequest(body, ctx, clock, digest, scorer, interests)
        == Done(Response(
             ScoreReply(if Lookup(body, "login") == Str(ADMIN_LOGIN) then Int(42) else scorer(args).value),
             OK, ctx.(has := Some(args.Keys))),
           HandleRequest(body, ctx, clock, digest, scorer, interests).state)
  {
    AcceptedScoreAnswered(body, Fresh, ctx, clock, digest, scorer, interests);
  }

  /** An acceptable `clients_interests` body gets its interests (see `Answers.AcceptedInterestsAnswered`). */
  lemma InterestsRequestAnswered(
    body: map<string, Value>, ctx: Ctx, clock: Clock, digest: string -> string,
    scorer: map<string, Value> -> Option<Value>, interests: Value -> Option<seq<string>>)
    requires Acceptable(body, clock, digest)
    requires Lookup(body, "method") == Str("clients_interests")
    requires var v := Lookup(Lookup(body, "arguments").entries, "client_ids");
      IsSequence(v) && forall k :: 0 <= k < |Elements(v)| ==> interests(Elements(v)[k]).Some?
    ensures var ids := Elements(Lookup(Lookup(body, "arguments").entries, "client_ids"));
      HandleRequest(body, ctx, clock, digest, scorer, interests)
        == Done(Response(InterestsReply(InterestsOf(ids, interests)), OK, ctx.(nclients := Some(|ids|))),
           HandleRequest(body, ctx, clock, digest, scorer, interests).state)
  {
    AcceptedInterestsAnswered(body, Fresh, ctx, clock, digest, scorer, interests);
  }

  /** A falsy mapping reads back as `{}`, a truthy one as itself. */
  lemma ArgumentsOfMapping(st: State)
    requires Stored(st, Env("arguments")).Dict?
    ensures Arguments(st) == Some(Stored(st, Env("arguments")).entries)
  {
  }

  /**
   * A score comes from `online_score`: the admin gets 42, everyone else the
   * scorer's value on the arguments, and `ctx["has"]` lists the argument names.
   */
  lemma ScoreEvaluation(
    st: State, ctx: Ctx,
    scorer: map<string, Value> -> Option<Value>, interests: Value -> Option<seq<string>>)
    requires EvaluateMethod(st, ctx, scorer, interests).Done?
    requires EvaluateMethod(st, ctx, scorer, interests).value.reply.ScoreReply?
    ensures StoredText(st, "method") == Some("online_score")
    ensures Arguments(st).Some?
    ensures var r := EvaluateMethod(st, ctx, scorer, interests).value;
      && r.ctx == ctx.(has := Some(Arguments(st).value.Keys))
      && r.reply.score == (if IsAdmin(st) then Int(42) else scorer(Arguments(st).value).value)
  {
  }

  /**
   * Interests come from `clients_interests`: every id was looked up, the
   * answer is the dict comprehension over the ids (one entry per class of
   * equal ids), and `ctx["nclients"]` counts the ids with repeats.
   */
  lemma InterestsEvaluation(
    st: State, ctx: Ctx,
    scorer: map<string, Value> -> Option<Value>, interests: Value -> Option<seq<string>>)
    requires EvaluateMethod(st, ctx, scorer, interests).Done?
    requires EvaluateMethod(st, ctx, scorer, interests).value.reply.InterestsReply?
    ensures StoredText(st, "method") == Some("clients_interests")
    ensures Arguments(st).Some? && "client_ids" in Arguments(st).value
    ensures IsSequence(Arguments(st).value["client_ids"])
    ensures var ids := Elements(Arguments(st).value["client_ids"]);
      var r := EvaluateMethod(st, ctx, scorer, interests).value;
      && (forall k :: 0 <= k < |ids| ==> interests(ids[k]).Some?)
      && Describes(r.reply.interests, ids, Lookups(ids, interests))
      && r.ctx == ctx.(nclients := Some(|ids|))
  {
    InterestsBranch(st, ctx, scorer, interests);
    InterestsOfDescribes(Elements(Arguments(st).value["client_ids"]), interests);
  }

  /** The branch of `evaluate_method` an interests answer comes from. */
  lemma InterestsBranch(
    st: State, ctx: Ctx,
    scorer: map<string, Value> -> Option<Value>, interests: Value -> Option<seq<string>>)
    requires EvaluateMethod(st, ctx, scorer, interests).Done?
    requires EvaluateMethod(st, ctx, scorer, interests).value.reply.InterestsReply?
    ensures StoredText(st, "method") == Some("clients_interests")
    ensures Arguments(st).Some? && "client_ids" in Arguments(st).value
    ensures IsSequence(Arguments(st).value["client_ids"])
    ensures var ids := Elements(Arguments(st).value["client_ids"]);
      && FirstRaising(ids, interests) == |ids|
      && EvaluateMethod(st, ctx, scorer, interests)
         == Done(Response(InterestsReply(InterestsOf(ids, interests)), OK, ctx.(nclients := Some(|ids|))), st)
  {
  }

  /**
   * A score answer means the body asked for `online_score` with a mapping
   * of arguments and a good token; the admin login scores 42, and
   * `ctx["has"]` is the set of argument names.
   */
  lemma ScoreAnswer(
    body: map<string, Value>, ctx: Ctx, clock: Clock, digest: string -> string,
    scorer: map<string, Value> -> Option<Value>, interests: Value -> Option<seq<string>>)
    requires HandleRequest(body, ctx, clock, digest, scorer, interests).Done?
    requires HandleRequest(body, ctx, clock, digest, scorer, interests).value.reply.ScoreReply?
    ensures Acceptable(body, clock, digest)
    ensures "method" in body && body["method"] == Str("online_score")
    ensures "arguments" in body && body["arguments"].Dict?
    ensures "login" in body && TokenValid(body, clock, digest)
    ensures var r := HandleRequest(body, ctx, clock, digest, scorer, interests).value;
      && r.code == OK
      && r.ctx == ctx.(has := Some(body["arguments"].entries.Keys))
      && (body["login"] == Str(ADMIN_LOGIN) ==> r.reply.score == Int(42))
      && (body["login"] != Str(ADMIN_LOGIN) ==> scorer(body["arguments"].entries) == Some(r.reply.score))
  {
    var s := EvaluationState(body, Fresh, ctx, clock, digest, scorer, interests);
    OnlyValidatedRequestsEvaluate(body, Fresh, ctx, clock, digest, scorer, interests);
    OkBodyAcceptable(body, Fresh, clock, digest);
    EnvelopePassShapes(body, clock.today);
    ArgumentsOfMapping(s);
    ScoreEvaluation(s, ctx, scorer, interests);
  }

  /**
   * An interests answer means the body asked for `clients_interests`; the
   * answer is the dict comprehension of each client id to its interests, and
   * `ctx["nclients"]` is the number of ids sent.
   */
  lemma InterestsAnswer(
    body: map<string, Value>, ctx: Ctx, clock: Clock, digest: string -> string,
    scorer: map<string, Value> -> Option<Value>, interests: Value -> Option<seq<string>>)
    requires HandleRequest(body, ctx, clock, digest, scorer, interests).Done?
    requires HandleRequest(body, ctx, clock, digest, scorer, interests).value.reply.InterestsReply?
    ensures Acceptable(body, clock, digest)
    ensures "method" in body && body["method"] == Str("clients_interests")
    ensures TokenValid(body, clock, digest)
    ensures "arguments" in body && body["arguments"].Dict?
    ensures "client_ids" in body["arguments"].entries && IsSequence(body["arguments"].entries["client_ids"])
    ensures var ids := Elements(body["arguments"].entries["client_ids"]);
      var r := HandleRequest(body, ctx, clock, digest, scorer, interests).value;
      && r.code == OK
      && (forall k :: 0 <= k < |ids| ==> interests(ids[k]).Some?)
      && Describes(r.reply.interests, ids, Lookups(ids, interests))
      && r.ctx == ctx.(nclients := Some(|ids|))
  {
    var s := EvaluationState(body, Fresh, ctx, clock, digest, scorer, interests);
    OnlyValidatedRequestsEvaluate(body, Fresh, ctx, clock, digest, scorer, interests);
    OkBodyAcceptable(body, Fresh, clock, digest);
    EnvelopePassShapes(body, clock.today);
    ArgumentsOfMapping(s);
    InterestsEvaluation(s, ctx, scorer, interests);
  }
}
