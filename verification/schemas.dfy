/**
 * The request classes as static field tables, visited in the alphabetical
 * order `inspect.getmembers` yields, and the error aggregation of
 * `CommonRequest.validate` and `OnlineScoreRequest.validate`.
 */
module Schemas {

  import opened PyValue
  import opened Fields

  /** `MethodRequest`'s envelope fields. */
  const EnvelopeFields: seq<FieldSpec> := [
    FieldSpec("account", CharKind, true, true),
    FieldSpec("arguments", ArgumentsKind, true, true),
    FieldSpec("login", CharKind, true, true),
    FieldSpec("method", CharKind, true, false),
    FieldSpec("token", CharKind, true, true)
  ]

  /** `OnlineScoreRequest`'s fields. */
  const OnlineScoreFields: seq<FieldSpec> := [
    FieldSpec("birthday", BirthdayKind, false, true),
    FieldSpec("email", EmailKind, false, true),
    FieldSpec("first_name", CharKind, false, true),
    FieldSpec("gender", GenderKind, false, true),
    FieldSpec("last_name", CharKind, false, true),
    FieldSpec("phone", PhoneKind, false, true)
  ]

  /** `ClientsInterestsRequest`'s fields. */
  const ClientsInterestsFields: seq<FieldSpec> := [
    FieldSpec("client_ids", ClientIdsKind, true, false),
    FieldSpec("date", DateKind, false, true)
  ]

  /** A validation verdict: the joined error text and the status code. */
  datatype Report = Report(message: string, code: int)

  /** Each field's own verdict on the input, in visiting order. */
  function Outcomes(fs: seq<FieldSpec>, req: map<string, Value>, today: int): (os: seq<Outcome>)
    ensures |os| == |fs|
    ensures forall k :: 0 <= k < |fs| ==> os[k] == Check(fs[k], req, today)
  {
    seq(|fs|, k requires 0 <= k < |fs| => Check(fs[k], req, today))
  }

  /** The failing fields' messages, each followed by ", ", in order. */
  function JoinFailures(os: seq<Outcome>): string {
    if |os| == 0 then ""
    else (if os[0].Fail? then os[0].msg + ", " else "") + JoinFailures(os[1..])
  }

  predicate SomeRaise(os: seq<Outcome>) {
    exists k :: 0 <= k < |os| && os[k].Raise?
  }

  predicate SomeFail(os: seq<Outcome>) {
    exists k :: 0 <= k < |os| && os[k].Fail?
  }

  /**
   * The value each slot holds after validating `fs` of class `owner` from
   * `st`: the request's value if a field of that name passed, the old one
   * otherwise; other classes' slots are untouched.
   */
  ghost predicate StateAfter(st: State, st': State, owner: Owner, fs: seq<FieldSpec>, req: map<string, Value>, today: int) {
    forall s :: Stored(st', s) ==
      if s.owner == owner && exists k :: 0 <= k < |fs| && fs[k].name == s.name && Check(fs[k], req, today) == Pass
      then Lookup(req, s.name) else Stored(st, s)
  }

  lemma OutcomesTail(fs: seq<FieldSpec>, req: map<string, Value>, today: int)
    requires |fs| > 0
    ensures Outcomes(fs, req, today)[1..] == Outcomes(fs[1..], req, today)
    ensures SomeRaise(Outcomes(fs, req, today)) <==> Check(fs[0], req, today).Raise? || SomeRaise(Outcomes(fs[1..], req, today))
    ensures SomeFail(Outcomes(fs, req, today)) <==> Check(fs[0], req, today).Fail? || SomeFail(Outcomes(fs[1..], req, today))
  {
    var os, tl := Outcomes(fs, req, today), Outcomes(fs[1..], req, today);
    assert forall k :: 0 <= k < |tl| ==> tl[k] == os[k + 1];
  }

  /** One field's commit followed by the rest of the loop. */
  lemma StateAfterCons(st: State, st1: State, st': State, owner: Owner, fs: seq<FieldSpec>, req: map<string, Value>, today: int)
    requires |fs| > 0
    requires st1 == Commit(st, owner, fs[0], req, Check(fs[0], req, today))
    requires StateAfter(st1, st', owner, fs[1..], req, today)
    ensures StateAfter(st, st', owner, fs, req, today)
  {
    forall s: Slot
      ensures Stored(st', s) ==
        if s.owner == owner && exists k :: 0 <= k < |fs| && fs[k].name == s.name && Check(fs[k], req, today) == Pass
        then Lookup(req, s.name) else Stored(st, s)
    {
      var tail := exists k :: 0 <= k < |fs[1..]| && fs[1..][k].name == s.name && Check(fs[1..][k], req, today) == Pass;
      var all := exists k :: 0 <= k < |fs| && fs[k].name == s.name && Check(fs[k], req, today) == Pass;
      if tail {
        var k :| 0 <= k < |fs[1..]| && fs[1..][k].name == s.name && Check(fs[1..][k], req, today) == Pass;
        assert fs[k + 1] == fs[1..][k];
      }
      if all && !(fs[0].name == s.name && Check(fs[0], req, today) == Pass) {
        var k :| 0 <= k < |fs| && fs[k].name == s.name && Check(fs[k], req, today) == Pass;
        assert fs[1..][k - 1] == fs[k];
      }
    }
  }

  /**
   * The loop of `CommonRequest.validate`: validate every field, collect the
   * failures. An exception from a field propagates and leaves the values
   * stored by the fields before it.
   */
  function ValidateFields(owner: Owner, fs: seq<FieldSpec>, req: map<string, Value>, st: State, today: int): (r: Step<Report>)
    ensures r.Crash? <==> SomeRaise(Outcomes(fs, req, today))
    ensures r.Done? ==> r.value.message == JoinFailures(Outcomes(fs, req, today))
    ensures r.Done? ==> r.value.code == (if SomeFail(Outcomes(fs, req, today)) then INVALID_REQUEST else OK)
    ensures r.Done? ==> StateAfter(st, r.state, owner, fs, req, today)
    decreases |fs|
  {
    if |fs| == 0 then Done(Report("", OK), st)
    else
      var o := Check(fs[0], req, today);
      OutcomesTail(fs, req, today);
      if o.Raise? then Crash(o.error, st)
      else
        var st1 := Commit(st, owner, fs[0], req, o);
        match ValidateFields(owner, fs[1..], req, st1, today)
        case Crash(e, s) => Crash(e, s)
        case Done(rep, s) =>
          StateAfterCons(st, st1, s, owner, fs, req, today);
          Done(Report((if o.Fail? then o.msg + ", " else "") + rep.message,
                      if o.Fail? then INVALID_REQUEST else rep.code), s)
  }

  /** `pairs` of `OnlineScoreRequest.validate`. */
  const Pairs: seq<(string, string)> := [("phone", "email"), ("first_name", "last_name"), ("gender", "birthday")]

  const PairMessage: string :=
    "No pair [('phone', 'email'), ('first_name', 'last_name'), ('gender', 'birthday')] "
    + "is in provided arguments, but should be at least one"

  /** The pair scan with its early `break`: is some pair fully present among the keys? */
  function ScanPairs(ps: seq<(string, string)>, args: map<string, Value>): (found: bool)
    ensures found <==> exists k :: 0 <= k < |ps| && ps[k].0 in args && ps[k].1 in args
  {
    if |ps| == 0 then false
    else if ps[0].0 in args && ps[0].1 in args then true
    else ScanPairs(ps[1..], args)
  }

  /**
   * `OnlineScoreRequest.validate`: without a complete pair the request fails
   * before any field is looked at; otherwise the fields are aggregated.
   */
  function ValidateOnlineScore(args: map<string, Value>, st: State, today: int): (r: Step<Report>)
    ensures !ScanPairs(Pairs, args) ==> r == Done(Report(PairMessage, INVALID_REQUEST), st)
    ensures ScanPairs(Pairs, args) ==> r == ValidateFields(OnlineScoreClass, OnlineScoreFields, args, st, today)
  {
    if !ScanPairs(Pairs, args) then Done(Report(PairMessage, INVALID_REQUEST), st)
    else ValidateFields(OnlineScoreClass, OnlineScoreFields, args, st, today)
  }

  /** `ClientsInterestsRequest.validate`, which is `CommonRequest.validate`. */
  function ValidateClientsInterests(args: map<string, Value>, st: State, today: int): Step<Report> {
    ValidateFields(ClientsInterestsClass, ClientsInterestsFields, args, st, today)
  }
}
