/**
 * `MethodRequest` and `method_handler`: envelope validation, token check,
 * method-schema validation and evaluation, threading the class-level field
 * state from one request to the next.
 */
module Api {

  import opened Wrappers
  import opened PyValue
  import opened PyDict
  import opened Fields
  import opened Schemas

  const SALT: string := "Otus"
  const ADMIN_LOGIN: string := "admin"
  const ADMIN_SALT: string := "42"

  /** `datetime.now()` as the two readings the core takes of it. */
  datatype Clock = Clock(hourStamp: string, today: int)

  /** The metrics `evaluate` writes into the caller's `ctx`. */
  datatype Ctx = Ctx(has: Option<set<string>>, nclients: Option<nat>)

  /** What `method_handler` hands back as its response. */
  datatype Reply =
    | Text(text: Option<string>)
    | ScoreReply(score: Value)
    | InterestsReply(interests: Items<seq<string>>)

  datatype Response = Response(reply: Reply, code: int, ctx: Ctx)

  /** The entries of `_method_binder`. */
  datatype MethodKind = OnlineScore | ClientsInterests

  /** `_method_binder[name]`; `None` is the `KeyError`. */
  function Bind(name: string): (k: Option<MethodKind>)
    ensures k == Some(OnlineScore) <==> name == "online_score"
    ensures k == Some(ClientsInterests) <==> name == "clients_interests"
  {
    if name == "online_score" then Some(OnlineScore)
    else if name == "clients_interests" then Some(ClientsInterests)
    else None
  }

  /** A `MethodRequest` field object. */
  function Env(name: string): Slot {
    Slot(MethodRequestClass, name)
  }

  /** `str(field)` for a `CharField`: its stored string; `None` where `__str__` would return a non-string. */
  function StoredText(st: State, name: string): Option<string> {
    match Stored(st, Env(name))
    case Str(s) => Some(s)
    case _ => None
  }

  /** `MethodRequest.is_admin`. */
  predicate IsAdmin(st: State) {
    Stored(st, Env("login")) == Str(ADMIN_LOGIN)
  }

  /**
   * `ArgumentsField.get_value()`: the stored mapping, `{}` when the stored
   * value is falsy; `None` when it is a truthy non-mapping (the callers'
   * `.get` would raise).
   */
  function Arguments(st: State): Option<map<string, Value>> {
    var v := Stored(st, Env("arguments"));
    if !Truthy(v) then Some(map[])
    else if v.Dict? then Some(v.entries)
    else None
  }

  /** The token `check_auth` expects from the stored login and account. */
  function ExpectedToken(st: State, clock: Clock, digest: string -> string): Option<string> {
    if IsAdmin(st) then Some(digest(clock.hourStamp + ADMIN_SALT))
    else
      match (StoredText(st, "account"), StoredText(st, "login"))
      case (Some(a), Some(l)) => Some(digest(a + l + SALT))
      case _ => None
  }

  /** `check_auth`; `None` where building the digest input raises. */
  function CheckAuth(st: State, clock: Clock, digest: string -> string): Option<bool> {
    match ExpectedToken(st, clock, digest)
    case None => None
    case Some(t) => Some(Stored(st, Env("token")) == Str(t))
  }

  const InvalidMethod := "Invalid method"

  /**
   * `MethodRequest.validate_method`: dispatch on the stored method name and
   * validate that schema against the stored arguments.
   */
  function ValidateMethod(st: State, today: int): Step<Report> {
    if Stored(st, Env("method")).PyNone? then Done(Report(InvalidMethod, INVALID_REQUEST), st)
    else
      match StoredText(st, "method")
      case None => Crash("TypeError", st)
      case Some(name) =>
        match Bind(name)
        case None => Crash("KeyError", st)
        case Some(kind) =>
          match Arguments(st)
          case None => Crash("AttributeError", st)
          case Some(args) =>
            match kind
            case OnlineScore => ValidateOnlineScore(args, st, today)
            case ClientsInterests => ValidateClientsInterests(args, st, today)
  }

  /**
   * `MethodRequest.validate_request`: the envelope, then the token (only if
   * the envelope passed), then the method schema, whose failure is appended.
   */
  function ValidateRequest(body: map<string, Value>, st: State, clock: Clock, digest: string -> string)
    : Step<(Option<string>, int)>
  {
    match ValidateFields(MethodRequestClass, EnvelopeFields, body, st, clock.today)
    case Crash(e, s) => Crash(e, s)
    case Done(env, st1) => Authorize(env, st1, clock, digest)
  }

  /** The token check, reached only when the envelope passed. */
  function Authorize(env: Report, st1: State, clock: Clock, digest: string -> string)
    : Step<(Option<string>, int)>
  {
    var auth := if env.code == OK then CheckAuth(st1, clock, digest) else Some(true);
    match auth
    case None => Crash("TypeError", st1)
    case Some(false) => Done((Some("Forbidden"), FORBIDDEN), st1)
    case Some(true) => WithMethod(env, st1, clock.today)
  }

  /** The method schema's verdict merged into the envelope's. */
  function WithMethod(env: Report, st1: State, today: int): Step<(Option<string>, int)> {
    match ValidateMethod(st1, today)
    case Crash(e, s) => Crash(e, s)
    case Done(m, st2) => Done(Merge(env, m), st2)
  }

  /** The tail of `validate_request`: append a failed method schema, then `None` for empty text. */
  function Merge(env: Report, m: Report): (Option<string>, int) {
    var text := env.message + (if m.code != OK then m.message + ", " else "");
    var code := if m.code != OK then INVALID_REQUEST else env.code;
    (if text == "" then None else Some(text), code)
  }

  /** Index of the first id whose interests lookup raises, or `|ids|`. */
  function FirstRaising(ids: seq<Value>, interests: Value -> Option<seq<string>>): (k: nat)
    ensures k <= |ids|
    ensures forall j :: 0 <= j < k ==> interests(ids[j]).Some?
    ensures k < |ids| ==> interests(ids[k]).None?
  {
    if |ids| == 0 then 0
    else if interests(ids[0]).None? then 0
    else 1 + FirstRaising(ids[1..], interests)
  }

  /** Each id's interests, in the order of the ids. */
  function Lookups(ids: seq<Value>, interests: Value -> Option<seq<string>>): (vs: seq<seq<string>>)
    requires forall k :: 0 <= k < |ids| ==> interests(ids[k]).Some?
    ensures |vs| == |ids|
    ensures forall k :: 0 <= k < |ids| ==> interests(ids[k]) == Some(vs[k])
  {
    seq(|ids|, k requires 0 <= k < |ids| => interests(ids[k]).value)
  }

  /**
   * The dict comprehension of `ClientsInterestsRequest.evaluate`, with
   * Python's key equality: ids that compare equal (`1`, `True`, `1.0`) make
   * one entry, spelled as the first of them and holding the interests
   * looked up for the last.
   */
  function InterestsOf(ids: seq<Value>, interests: Value -> Option<seq<string>>): Items<seq<string>>
    requires forall k :: 0 <= k < |ids| ==> interests(ids[k]).Some?
  {
    Comprehension(ids, Lookups(ids, interests))
  }

  /** The interests answer is the dict the comprehension describes. */
  lemma InterestsOfDescribes(ids: seq<Value>, interests: Value -> Option<seq<string>>)
    requires forall k :: 0 <= k < |ids| ==> interests(ids[k]).Some?
    ensures Describes(InterestsOf(ids, interests), ids, Lookups(ids, interests))
  {
    ComprehensionDescribes(ids, Lookups(ids, interests));
  }

  /**
   * `MethodRequest.evaluate_method` with the schemas' `evaluate`. The
   * scoring functions are parameters; `None` from them is an exception.
   */
  function EvaluateMethod(
    st: State, ctx: Ctx,
    scorer: map<string, Value> -> Option<Value>,
    interests: Value -> Option<seq<string>>
  ): (r: Step<Response>)
    ensures r.state == st
    ensures r.Done? ==> r.value.code == OK && !r.value.reply.Text?
  {
    match StoredText(st, "method")
    case None => Crash("TypeError", st)
    case Some(name) =>
      match (Bind(name), Arguments(st))
      case (None, _) => Crash("KeyError", st)
      case (_, None) => Crash("AttributeError", st)
      case (Some(OnlineScore), Some(args)) =>
        var score := if IsAdmin(st) then Some(Int(42)) else scorer(args);
        if score.None? then Crash("scoring", st)
        else Done(Response(ScoreReply(score.value), OK, ctx.(has := Some(args.Keys))), st)
      case (Some(ClientsInterests), Some(args)) =>
        if "client_ids" !in args then Crash("KeyError", st)
        else if !IsSequence(args["client_ids"]) then Crash("TypeError", st)
        else
          var ids := Elements(args["client_ids"]);
          if FirstRaising(ids, interests) < |ids| then Crash("scoring", st)
          else
            Done(Response(InterestsReply(InterestsOf(ids, interests)), OK, ctx.(nclients := Some(|ids|))), st)
  }

  /**
   * `method_handler`: validate (the module-level `validate_request`, which
   * runs the method schema a second time), then evaluate on success.
   */
  function Handle(
    body: map<string, Value>, st: State, ctx: Ctx, clock: Clock,
    digest: string -> string,
    scorer: map<string, Value> -> Option<Value>,
    interests: Value -> Option<seq<string>>
  ): Step<Response>
  {
    match ValidateRequest(body, st, clock, digest)
    case Crash(e, s) => Crash(e, s)
    case Done((text, code), st1) =>
      if code != OK then Done(Response(Text(text), code, ctx), st1)
      else Revalidate(st1, ctx, clock.today, scorer, interests)
  }

  /** The second `validate_method` of the module-level `validate_request`, then evaluation. */
  function Revalidate(
    st1: State, ctx: Ctx, today: int,
    scorer: map<string, Value> -> Option<Value>,
    interests: Value -> Option<seq<string>>
  ): (r: Step<Response>)
    ensures r.Done? && !r.value.reply.Text? ==> r.value.code == OK
  {
    match ValidateMethod(st1, today)
    case Crash(e, s) => Crash(e, s)
    case Done(m, st2) =>
      if m.code != OK then Done(Response(Text(Some(m.message)), m.code, ctx), st2)
      else EvaluateMethod(st2, ctx, scorer, interests)
  }
}
