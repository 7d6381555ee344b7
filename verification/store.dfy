/**
 * `Store` from the scoring service: reads and writes retried against a
 * cache client. The client is an oracle — the `get` answers it will give,
 * in order, and the result of its one `set` — and every call the store
 * makes is recorded.
 */
module Store {

  import opened Wrappers
  import opened PyValue

  /** A call the store makes on its client. */
  datatype Call = Get(key: string) | Set(key: string, value: Value, time: int)

  /**
   * What the client will answer: `answers[i]` is the `i`-th `get`'s reply
   * (`PyNone` for a miss or a connection error; reads past the end are
   * `PyNone` too), `setResult` is what `set`
   * returns (0 on a connection error).
   */
  datatype Client = Client(answers: seq<Value>, setResult: Value)

  function ReadAt(c: Client, i: nat): Value {
    if i < |c.answers| then c.answers[i] else PyNone
  }

  /** `value is None`: the only reply the store's loops treat as a miss. */
  predicate Miss(v: Value) {
    v.PyNone?
  }

  /** The number of passes of `for _ in range(n)`: none for a negative `n`. */
  function Passes(n: int): nat {
    if n < 0 then 0 else n
  }

  /**
   * Python's `result == 0`: only a number compares equal to 0 (`False`
   * included, as `bool` is an `int`), and only when its value is zero.
   */
  function EqualsZero(v: Value): (eq: bool)
    ensures eq <==> IsNumber(v) && (if v.Float? then v.x == 0.0 else IntValue(v) == 0)
  {
    v == Int(0) || v == Bool(false) || v == Float(0.0)
  }

  /** Index of the first read that is not `None` among the first `n`, or `n`. */
  function FirstHit(c: Client, n: nat): (k: nat)
    ensures k <= n
    ensures forall j :: 0 <= j < k ==> Miss(ReadAt(c, j))
    ensures k < n ==> !Miss(ReadAt(c, k))
  {
    if n == 0 then 0
    else if FirstHit(c, n - 1) < n - 1 then FirstHit(c, n - 1)
    else if !Miss(ReadAt(c, n - 1)) then n - 1
    else n
  }

  predicate AllGets(calls: seq<Call>, key: string) {
    forall j :: 0 <= j < |calls| ==> calls[j] == Get(key)
  }

  /**
   * `_get_helper`: one read, then up to `retry` more while the reads miss.
   * The reads stop at the first hit, whose value is returned.
   */
  method GetHelper(c: Client, retry: int, key: string) returns (value: Value, calls: seq<Call>)
    ensures var n := 1 + Passes(retry); var k := FirstHit(c, n);
      && value == (if k < n then ReadAt(c, k) else PyNone)
      && |calls| == (if k < n then k + 1 else n)
    ensures 1 <= |calls| <= 1 + Passes(retry)
    ensures Miss(value) <==> forall j :: 0 <= j < 1 + Passes(retry) ==> Miss(ReadAt(c, j))
    ensures AllGets(calls, key)
  {
    value := ReadAt(c, 0);
    calls := [Get(key)];
    if Miss(value) {
      var i := 0;
      while i < Passes(retry)
        invariant 0 <= i <= Passes(retry)
        invariant |calls| == i + 1
        invariant AllGets(calls, key)
        invariant value == ReadAt(c, i) && Miss(value)
        invariant forall j :: 0 <= j <= i ==> Miss(ReadAt(c, j))
      {
        value := ReadAt(c, i + 1);
        calls := calls + [Get(key)];
        i := i + 1;
        if !Miss(value) {
          break;
        }
      }
    }
  }

  /** `Store.get`: the helper's value, or OSError when every read missed. */
  method GetValue(c: Client, retry: int, key: string) returns (r: Result<Value>, calls: seq<Call>)
    ensures r.Failure? <==> forall j :: 0 <= j < 1 + Passes(retry) ==> Miss(ReadAt(c, j))
    ensures r.Failure? ==> r.error == "OSError" && |calls| == 1 + Passes(retry)
    ensures r.Success? ==> var k := FirstHit(c, 1 + Passes(retry)); r.value == ReadAt(c, k) && !Miss(r.value) && |calls| == k + 1
    ensures AllGets(calls, key)
  {
    var value;
    value, calls := GetHelper(c, retry, key);
    if Miss(value) {
      r := Failure("OSError");
    } else {
      r := Success(value);
    }
  }

  /** `Store.cache_get`: the helper's value, a miss included; it never raises. */
  method CacheGet(c: Client, retry: int, key: string) returns (value: Value, calls: seq<Call>)
    ensures var n := 1 + Passes(retry); var k := FirstHit(c, n);
      && value == (if k < n then ReadAt(c, k) else PyNone)
      && |calls| == (if k < n then k + 1 else n)
    ensures AllGets(calls, key)
  {
    value, calls := GetHelper(c, retry, key);
  }

  /**
   * A `None` reply is a miss however it arrives: after a `None` the helper
   * reads again and finds "v", and `get` on a lone `None` raises.
   */
  method NoneReplyIsMiss() returns (value: Value, calls: seq<Call>, r: Result<Value>)
    ensures value == Str("v") && |calls| == 2
    ensures r == Failure("OSError")
  {
    value, calls := GetHelper(Client([PyNone, Str("v")], Int(1)), 1, "k");
    var calls2;
    r, calls2 := GetValue(Client([PyNone], Int(1)), 0, "k");
  }

  /**
   * `Store.cache_set`: one `set`; when it returns 0 the retry loop reads the
   * key once and returns from its first pass, `True` if the read is truthy
   * and `0` otherwise. With no passes at all the result is `True`.
   */
  method CacheSet(c: Client, retry: int, key: string, value: Value, time: int) returns (r: Value, calls: seq<Call>)
    ensures !EqualsZero(c.setResult) ==> r == Bool(true) && calls == [Set(key, value, time)]
    ensures EqualsZero(c.setResult) && Passes(retry) == 0 ==> r == Bool(true) && calls == [Set(key, value, time)]
    ensures EqualsZero(c.setResult) && Passes(retry) > 0 ==>
      && calls == [Set(key, value, time), Get(key)]
      && r == (if TruthyRead(c, 0) then Bool(true) else Int(0))
  {
    calls := [Set(key, value, time)];
    var result := c.setResult;
    if EqualsZero(result) && Passes(retry) > 0 {
      // Both branches of the loop body return, so only its first pass runs.
      var read := ReadAt(c, 0);
      calls := calls + [Get(key)];
      if Truthy(read) {
        return Bool(true), calls;
      } else {
        return Int(0), calls;
      }
    }
    r := Bool(true);
  }

  /** The `j`-th read finds a truthy value. */
  predicate TruthyRead(c: Client, j: nat) {
    Truthy(ReadAt(c, j))
  }

  /**
   * A failed `set` with no retries left is reported as success: the retry
   * loop does not run and the method falls through to `return True`.
   */
  method FailedSetReportedAsSuccess() returns (r: Value, calls: seq<Call>)
    ensures calls == [Set("k", Str("v"), 60)] && r == Bool(true)
  {
    r, calls := CacheSet(Client([], Int(0)), 0, "k", Str("v"), 60);
  }

  /**
   * A truthy value on the one verification read gives `True`, but a miss
   * ends the retries at once: a later read that would find the key is never made.
   */
  method OneVerificationRead() returns (r: Value, calls: seq<Call>)
    ensures calls == [Set("k", Str("v"), 60), Get("k")] && r == Int(0)
  {
    r, calls := CacheSet(Client([PyNone, Str("v")], Int(0)), 4, "k", Str("v"), 60);
  }

  /**
   * `cache_set` as its retry loop is evidently meant: after a failed `set`,
   * read the key up to `retry` times and report success only if some read
   * finds it; otherwise return 0.
   */
  method CacheSetVerified(c: Client, retry: int, key: string, value: Value, time: int) returns (r: Value, calls: seq<Call>)
    ensures r == Bool(true) || r == Int(0)
    ensures r == Bool(true) <==> !EqualsZero(c.setResult) || exists j :: 0 <= j < Passes(retry) && TruthyRead(c, j)
    ensures |calls| >= 1 && calls[0] == Set(key, value, time) && AllGets(calls[1..], key)
    ensures !EqualsZero(c.setResult) ==> |calls| == 1
    ensures r == Int(0) ==> |calls| == 1 + Passes(retry)
  {
    calls := [Set(key, value, time)];
    if !EqualsZero(c.setResult) {
      return Bool(true), calls;
    }
    var i := 0;
    while i < Passes(retry)
      invariant 0 <= i <= Passes(retry)
      invariant |calls| == 1 + i && calls[0] == Set(key, value, time) && AllGets(calls[1..], key)
      invariant forall j :: 0 <= j < i ==> !TruthyRead(c, j)
    {
      var read := ReadAt(c, i);
      calls := calls + [Get(key)];
      if Truthy(read) {
        assert TruthyRead(c, i);
        return Bool(true), calls;
      }
      i := i + 1;
    }
    r := Int(0);
  }

  /** The corrected loop on the same two inputs: 0 for the failed set, True once the second read finds the key. */
  method VerifiedOnSameInputs() returns (r1: Value, r2: Value)
    ensures r1 == Int(0)
    ensures r2 == Bool(true)
  {
    var c1, c2;
    r1, c1 := CacheSetVerified(Client([], Int(0)), 0, "k", Str("v"), 60);
    r2, c2 := CacheSetVerified(Client([PyNone, Str("v")], Int(0)), 4, "k", Str("v"), 60);
    assert TruthyRead(Client([PyNone, Str("v")], Int(0)), 1);
  }
}
