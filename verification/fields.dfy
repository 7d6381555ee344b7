/**
 * The field validators of the request API: the required/nullable policy
 * shared by every field and the per-kind `validate_value` rules, plus the
 * class-level value each field object keeps between requests.
 */
module Fields {

  import opened Wrappers
  import opened PyValue
  import Dates

  const OK: int := 200
  const BAD_REQUEST: int := 400
  const FORBIDDEN: int := 403
  const NOT_FOUND: int := 404
  const INVALID_REQUEST: int := 422
  const INTERNAL_ERROR: int := 500

  /** The validator classes. */
  datatype Kind =
    | CharKind
    | ArgumentsKind
    | EmailKind
    | PhoneKind
    | DateKind
    | BirthdayKind
    | GenderKind
    | ClientIdsKind

  /** A field object as declared on a request class. */
  datatype FieldSpec = FieldSpec(name: string, kind: Kind, required: bool, nullable: bool)

  /** What one `validate` call yields: `(None, OK)`, `(msg, INVALID_REQUEST)`, or an uncaught exception. */
  datatype Outcome = Pass | Fail(msg: string) | Raise(error: string)

  /** The request classes that own field objects. */
  datatype Owner = MethodRequestClass | OnlineScoreClass | ClientsInterestsClass

  /** One class-level field object: the class it belongs to and its attribute name. */
  datatype Slot = Slot(owner: Owner, name: string)

  /**
   * The stored `_value` of every class-level field object. A slot with no
   * entry still holds the initial `None`.
   */
  type State = map<Slot, Value>

  const Fresh: State := map[]

  function Stored(st: State, s: Slot): Value {
    if s in st then st[s] else PyNone
  }

  /** A computation that either finishes or raises, threading the field state. */
  datatype Step<T> = Done(value: T, state: State) | Crash(error: string, state: State)

  /** `request.get(name, None)`. */
  function Lookup(req: map<string, Value>, name: string): Value {
    if name in req then req[name] else PyNone
  }

  function CharCheck(v: Value): (o: Outcome)
    ensures o == Pass <==> (v.Str? || v.PyNone?)
    ensures o != Pass ==> o.Fail?
  {
    if v.PyNone? || v.Str? then Pass
    else Fail("Wrong field type: expected <str>, received <" + TypeRepr(v) + ">")
  }

  function ArgumentsCheck(v: Value): (o: Outcome)
    ensures o == Pass <==> v.Dict?
    ensures o != Pass ==> o.Fail?
  {
    if v.Dict? then Pass
    else Fail("Invalid arguments type: expected <dict>, received " + TypeRepr(v))
  }

  /** `"@" in value`: substring for str, element for list/tuple, key for dict; other types raise. */
  function EmailCheck(v: Value): (o: Outcome)
    ensures v.Str? ==> (o == Pass <==> ContainsChar(v.s, '@'))
    ensures (v.List? || v.Tuple?) ==> (o == Pass <==> Str("@") in v.items)
    ensures v.Dict? ==> (o == Pass <==> "@" in v.entries)
    ensures (v.Int? || v.Bool? || v.Float? || v.PyNone?) <==> o.Raise?
  {
    var found :=
      match v
      case Str(s) => Some(ContainsChar(s, '@'))
      case List(xs) => Some(Str("@") in xs)
      case Tuple(xs) => Some(Str("@") in xs)
      case Dict(m) => Some("@" in m)
      case _ => None;
    match found
    case None => Raise("TypeError")
    case Some(true) => Pass
    case Some(false) => Fail("Invalid email: email must contain <@>")
  }

  /** The text of a phone value after `str()`. */
  function PhoneText(v: Value): string
    requires v.Str? || IsInt(v)
  {
    if v.Str? then v.s else IntRepr(v)
  }

  function PhoneCheck(v: Value): (o: Outcome)
    ensures !o.Raise?
    ensures o == Pass <==>
              && (v.Str? || IsInt(v))
              && (|PhoneText(v)| == 0 || (|PhoneText(v)| == 11 && PhoneText(v)[0] == '7'))
  {
    if !IsInt(v) && !v.Str? then
      Fail("Unsupported value for phone number: expect <str | int>, got " + TypeRepr(v))
    else
      var text := PhoneText(v);
      if |text| == 0 then Pass
      else if |text| != 11 then
        Fail("Phone number length must be 11, but got " + IntToString(|text|))
      else if !StartsWith(text, "7") then
        Fail("Phone number must start with 7, but starts with " + [text[0]])
      else Pass
  }

  /**
   * `DateField.validate_value` (with `bounded` for `BirthDayField`): a
   * non-string makes `strptime` raise, a string must parse as `%Y%m%d`.
   */
  function DateCheck(v: Value, bounded: bool, today: int): (o: Outcome)
    ensures o.Raise? <==> !(v.Str? || v.PyNone?)
    ensures v.Str? ==>
              (o == Pass <==>
                 && Dates.ParseYmd(v.s).Some?
                 && (bounded ==> !Dates.TooFarInPast(today, Dates.ParseYmd(v.s).value)))
  {
    match v
    case PyNone => Pass
    case Str(s) =>
      (match Dates.ParseYmd(s)
       case None => Fail("Invalid date: time data '" + s + "' does not match format '%Y%m%d'")
       case Some(d) =>
         if bounded && Dates.TooFarInPast(today, d) then
           Fail("The date is too far in the past: expected max diff 25567.5 days")
         else Pass)
    case _ => Raise("TypeError")
  }

  function GenderCheck(v: Value): (o: Outcome)
    ensures !o.Raise?
    ensures o == Pass <==> v.PyNone? || (IsInt(v) && 0 <= IntValue(v) <= 2)
  {
    if v.PyNone? then Pass
    else if !IsInt(v) then Fail("Gender field must be int")
    else if IntValue(v) < 0 || IntValue(v) > 2 then Fail("Gender field must be 0, 1 or 2")
    else Pass
  }

  /** Index of the first element that is not a number, or `|xs|`. */
  function FirstNonNumber(xs: seq<Value>): (k: nat)
    ensures k <= |xs|
    ensures forall j :: 0 <= j < k ==> IsNumber(xs[j])
    ensures k < |xs| ==> !IsNumber(xs[k])
  {
    if |xs| == 0 then 0
    else if !IsNumber(xs[0]) then 0
    else 1 + FirstNonNumber(xs[1..])
  }

  function ClientIdsCheck(v: Value): (o: Outcome)
    ensures !o.Raise?
    ensures o == Pass <==>
              && IsSequence(v)
              && |Elements(v)| > 0
              && forall j :: 0 <= j < |Elements(v)| ==> IsNumber(Elements(v)[j])
  {
    if !IsSequence(v) || |Elements(v)| == 0 then
      Fail("CliendIDsField type is incorrect: expect <array of numbers>, got " + TypeRepr(v))
    else
      var xs := Elements(v);
      var k := FirstNonNumber(xs);
      if k < |xs| then
        Fail("CliendIDsField type is incorrect: expect <array of numbers>, got "
             + TypeRepr(xs[k]) + " for one of them")
      else Pass
  }

  /** `validate_value` of each field class, given today's day number for the birthday bound. */
  function ValidateValue(kind: Kind, v: Value, today: int): Outcome {
    match kind
    case CharKind => CharCheck(v)
    case ArgumentsKind => ArgumentsCheck(v)
    case EmailKind => EmailCheck(v)
    case PhoneKind => PhoneCheck(v)
    case DateKind => DateCheck(v, false, today)
    case BirthdayKind => DateCheck(v, true, today)
    case GenderKind => GenderCheck(v)
    case ClientIdsKind => ClientIdsCheck(v)
  }

  /**
   * `RequiredNullable.validate` without its side effect: the policy check,
   * then the type check on a present non-None value. Python evaluates
   * `len(value)` before looking at `nullable`, so an unsized value of a
   * required field raises even when the field is nullable.
   */
  function Check(f: FieldSpec, req: map<string, Value>, today: int): (o: Outcome)
    ensures !f.required && f.name !in req ==> o == Pass
    ensures f.required && f.name !in req ==> o == Fail("Field <" + f.name + "> is not available")
    ensures f.required && f.name in req && Len(req[f.name]).None? ==> o.Raise?
    ensures f.required && f.name in req && Len(req[f.name]) == Some(0) && !f.nullable
            ==> o == Fail("Field <" + f.name + "> must not be empty")
    ensures !f.required && f.name in req && req[f.name].PyNone? ==> o == Pass
  {
    if f.required && f.name !in req then
      Fail("Field <" + f.name + "> is not available")
    else if f.required && Len(req[f.name]).None? then
      Raise("TypeError")
    else if f.required && Len(req[f.name]) == Some(0) && !f.nullable then
      Fail("Field <" + f.name + "> must not be empty")
    else if Lookup(req, f.name).PyNone? then
      Pass
    else
      ValidateValue(f.kind, Lookup(req, f.name), today)
  }

  /** The `_value` a field of class `owner` keeps after `validate`: written only on success. */
  function Commit(st: State, owner: Owner, f: FieldSpec, req: map<string, Value>, o: Outcome): (st': State)
    ensures o.Pass? ==> Stored(st', Slot(owner, f.name)) == Lookup(req, f.name)
    ensures !o.Pass? ==> st' == st
    ensures forall s :: s != Slot(owner, f.name) ==> Stored(st', s) == Stored(st, s)
  {
    if o.Pass? then st[Slot(owner, f.name) := Lookup(req, f.name)] else st
  }
}
