/**
 * A Python dict whose keys are request values, as its items in insertion
 * order, with Python's key equality: `1`, `True` and `1.0` are one key.
 */
module PyDict {

  import opened Wrappers
  import opened PyValue

  type Items<V> = seq<(Value, V)>

  /**
   * The number a value stands for as a dict key: `True` is 1, `False` is 0
   * and an integral float is its integer. Other values stand for themselves.
   */
  function KeyForm(v: Value): (r: Value)
    ensures IsNumber(v) ==> IsNumber(r)
    ensures v.Bool? ==> r == Int(if v.b then 1 else 0)
    ensures v.Float? && v.x == v.x.Floor as real ==> r == Int(v.x.Floor)
  {
    match v
    case Bool(b) => Int(if b then 1 else 0)
    case Float(x) => if x == x.Floor as real then Int(x.Floor) else v
    case _ => v
  }

  /** `a == b` for two values used as keys. */
  predicate SameKey(a: Value, b: Value) {
    KeyForm(a) == KeyForm(b)
  }

  /** Position of the item whose key equals `k`, if there is one. */
  function FindKey<V>(d: Items<V>, k: Value): (r: Option<nat>)
    ensures r.Some? ==> r.value < |d| && SameKey(d[r.value].0, k)
    ensures r.None? ==> forall i :: 0 <= i < |d| ==> !SameKey(d[i].0, k)
  {
    if |d| == 0 then None
    else if SameKey(d[|d| - 1].0, k) then Some(|d| - 1)
    else FindKey(d[..|d| - 1], k)
  }

  /**
   * `d[k] = v`: an existing equal key keeps its place and its first
   * spelling and takes the new value; a new key goes last.
   */
  function SetItem<V>(d: Items<V>, k: Value, v: V): Items<V> {
    match FindKey(d, k)
    case None => d + [(k, v)]
    case Some(i) => d[i := (d[i].0, v)]
  }

  /** Index of the first key in `ks` equal to `k`, or `|ks|`. */
  function FirstIndex(ks: seq<Value>, k: Value): (f: nat)
    ensures f <= |ks|
    ensures forall j :: 0 <= j < f ==> !SameKey(ks[j], k)
    ensures f < |ks| ==> SameKey(ks[f], k)
  {
    if |ks| == 0 then 0
    else
      var f := FirstIndex(ks[..|ks| - 1], k);
      if f < |ks| - 1 then f
      else if SameKey(ks[|ks| - 1], k) then |ks| - 1
      else |ks|
  }

  /** Index of the last key in `ks` equal to `k`, or `|ks|`. */
  function LastIndex(ks: seq<Value>, k: Value): (l: nat)
    ensures l <= |ks|
    ensures l < |ks| ==> SameKey(ks[l], k) && forall j :: l < j < |ks| ==> !SameKey(ks[j], k)
    ensures l == |ks| ==> forall j :: 0 <= j < |ks| ==> !SameKey(ks[j], k)
  {
    if |ks| == 0 then 0
    else if SameKey(ks[|ks| - 1], k) then |ks| - 1
    else
      var l := LastIndex(ks[..|ks| - 1], k);
      if l < |ks| - 1 then l else |ks|
  }

  /** No two items have equal keys. */
  predicate KeysApart<V>(d: Items<V>) {
    forall i, j :: 0 <= i < j < |d| ==> !SameKey(d[i].0, d[j].0)
  }

  /** Items come in order of their key's first appearance in `ks`. */
  predicate FirstOrder<V>(d: Items<V>, ks: seq<Value>) {
    forall i, j :: 0 <= i < j < |d| ==> FirstIndex(ks, d[i].0) < FirstIndex(ks, d[j].0)
  }

  /** Each item's key is spelled as its first occurrence in `ks`. */
  predicate FirstSpelling<V>(d: Items<V>, ks: seq<Value>) {
    forall i :: 0 <= i < |d| ==> FirstIndex(ks, d[i].0) < |ks| && d[i].0 == ks[FirstIndex(ks, d[i].0)]
  }

  /** Each item holds the value paired with the last occurrence of its key. */
  predicate LastValues<V(==)>(d: Items<V>, ks: seq<Value>, vs: seq<V>)
    requires |vs| == |ks|
  {
    forall i :: 0 <= i < |d| ==> LastIndex(ks, d[i].0) < |ks| && d[i].1 == vs[LastIndex(ks, d[i].0)]
  }

  /** Every key of `ks` has an item. */
  predicate Covers<V>(d: Items<V>, ks: seq<Value>) {
    forall j :: 0 <= j < |ks| ==> FindKey(d, ks[j]).Some?
  }

  /**
   * `d` is `{ks[j]: vs[j] for j in range(len(ks))}`, described without the
   * loop: one item per class of equal keys, in order of first appearance,
   * each spelled as its first occurrence and holding the value of its last.
   */
  predicate Describes<V(==)>(d: Items<V>, ks: seq<Value>, vs: seq<V>)
    requires |vs| == |ks|
  {
    KeysApart(d) && FirstOrder(d, ks) && FirstSpelling(d, ks) && LastValues(d, ks, vs) && Covers(d, ks)
  }

  /** The dict comprehension, one `d[k] = v` per pair in order. */
  function Comprehension<V>(ks: seq<Value>, vs: seq<V>): (d: Items<V>)
    requires |vs| == |ks|
    ensures |d| <= |ks|
  {
    if |ks| == 0 then []
    else
      var n := |ks| - 1;
      SetItem(Comprehension(ks[..n], vs[..n]), ks[n], vs[n])
  }

  /** The comprehension builds the dict its description promises. */
  lemma {:induction false} ComprehensionDescribes<V>(ks: seq<Value>, vs: seq<V>)
    requires |vs| == |ks|
    ensures Describes(Comprehension(ks, vs), ks, vs)
  {
    if |ks| > 0 {
      var n := |ks| - 1;
      ComprehensionDescribes(ks[..n], vs[..n]);
      SetItemStep(Comprehension(ks[..n], vs[..n]), ks, vs);
    }
  }

  /** Extending the keys leaves the first occurrence of an earlier key where it was. */
  lemma FirstIndexExtend(ks: seq<Value>, k: Value)
    requires |ks| > 0
    ensures var n := |ks| - 1;
      FirstIndex(ks[..n], k) < n ==> FirstIndex(ks, k) == FirstIndex(ks[..n], k)
    ensures var n := |ks| - 1;
      FirstIndex(ks[..n], k) == n && SameKey(ks[n], k) ==> FirstIndex(ks, k) == n
  {
  }

  /** A last key unequal to `k` leaves the last occurrence of `k` where it was. */
  lemma LastIndexExtend(ks: seq<Value>, k: Value)
    requires |ks| > 0
    ensures var n := |ks| - 1;
      !SameKey(ks[n], k) && LastIndex(ks[..n], k) < n ==> LastIndex(ks, k) == LastIndex(ks[..n], k)
    ensures SameKey(ks[|ks| - 1], k) ==> LastIndex(ks, k) == |ks| - 1
  {
  }

  /** One pass of the comprehension keeps the description. */
  lemma SetItemStep<V>(d: Items<V>, ks: seq<Value>, vs: seq<V>)
    requires |ks| > 0 && |vs| == |ks|
    requires Describes(d, ks[..|ks| - 1], vs[..|ks| - 1])
    ensures Describes(SetItem(d, ks[|ks| - 1], vs[|ks| - 1]), ks, vs)
  {
    var n := |ks| - 1;
    SetItemFirst(d, ks, vs[n]);
    SetItemCovers(d, ks, vs[n]);
    SetItemLast(d, ks, vs);
  }

  lemma SetItemLast<V>(d: Items<V>, ks: seq<Value>, vs: seq<V>)
    requires |ks| > 0 && |vs| == |ks|
    requires KeysApart(d) && LastValues(d, ks[..|ks| - 1], vs[..|ks| - 1])
    ensures LastValues(SetItem(d, ks[|ks| - 1], vs[|ks| - 1]), ks, vs)
  {
    if FindKey(d, ks[|ks| - 1]).Some? {
      SetItemExistingLast(d, ks, vs);
    } else {
      SetItemNewLast(d, ks, vs);
    }
  }

  /** Earlier keys keep their first occurrence when the keys are extended. */
  lemma EarlierFirst<V>(d: Items<V>, ks: seq<Value>)
    requires |ks| > 0
    requires FirstSpelling(d, ks[..|ks| - 1])
    ensures forall t :: 0 <= t < |d| ==> FirstIndex(ks, d[t].0) == FirstIndex(ks[..|ks| - 1], d[t].0) < |ks| - 1
  {
    forall t | 0 <= t < |d|
      ensures FirstIndex(ks, d[t].0) == FirstIndex(ks[..|ks| - 1], d[t].0) < |ks| - 1
    {
      FirstIndexExtend(ks, d[t].0);
    }
  }

  /** The key facts that do not depend on the values. */
  lemma SetItemFirst<V>(d: Items<V>, ks: seq<Value>, v: V)
    requires |ks| > 0
    requires KeysApart(d) && FirstOrder(d, ks[..|ks| - 1]) && FirstSpelling(d, ks[..|ks| - 1]) && Covers(d, ks[..|ks| - 1])
    ensures var d' := SetItem(d, ks[|ks| - 1], v);
      KeysApart(d') && FirstOrder(d', ks) && FirstSpelling(d', ks)
  {
    EarlierFirst(d, ks);
    EarlierSpelling(d, ks);
    if FindKey(d, ks[|ks| - 1]).Some? {
      SetItemFirstExisting(d, ks, v);
    } else {
      NewKeyFirstHere(d, ks);
      SetItemFirstNew(d, ks, v);
    }
  }

  lemma EarlierSpelling<V>(d: Items<V>, ks: seq<Value>)
    requires |ks| > 0
    requires FirstSpelling(d, ks[..|ks| - 1])
    requires forall t :: 0 <= t < |d| ==> FirstIndex(ks, d[t].0) == FirstIndex(ks[..|ks| - 1], d[t].0) < |ks| - 1
    ensures FirstSpelling(d, ks)
  {
    var p := ks[..|ks| - 1];
    forall t | 0 <= t < |d|
      ensures d[t].0 == ks[FirstIndex(ks, d[t].0)]
    {
      assert p[FirstIndex(p, d[t].0)] == ks[FirstIndex(p, d[t].0)];
    }
  }

  lemma SetItemFirstExisting<V>(d: Items<V>, ks: seq<Value>, v: V)
    requires |ks| > 0
    requires KeysApart(d) && FirstOrder(d, ks[..|ks| - 1]) && FirstSpelling(d, ks)
    requires forall t :: 0 <= t < |d| ==> FirstIndex(ks, d[t].0) == FirstIndex(ks[..|ks| - 1], d[t].0) < |ks| - 1
    requires FindKey(d, ks[|ks| - 1]).Some?
    ensures var d' := SetItem(d, ks[|ks| - 1], v);
      KeysApart(d') && FirstOrder(d', ks) && FirstSpelling(d', ks)
  {
    var i := FindKey(d, ks[|ks| - 1]).value;
    var d' := d[i := (d[i].0, v)];
    assert SetItem(d, ks[|ks| - 1], v) == d';
    assert forall t :: 0 <= t < |d| ==> d'[t].0 == d[t].0;
  }

  lemma SetItemFirstNew<V>(d: Items<V>, ks: seq<Value>, v: V)
    requires |ks| > 0
    requires KeysApart(d) && FirstOrder(d, ks[..|ks| - 1]) && FirstSpelling(d, ks)
    requires forall t :: 0 <= t < |d| ==> FirstIndex(ks, d[t].0) == FirstIndex(ks[..|ks| - 1], d[t].0) < |ks| - 1
    requires FindKey(d, ks[|ks| - 1]).None? && FirstIndex(ks, ks[|ks| - 1]) == |ks| - 1
    ensures var d' := SetItem(d, ks[|ks| - 1], v);
      KeysApart(d') && FirstOrder(d', ks) && FirstSpelling(d', ks)
  {
    var n := |ks| - 1;
    var p := ks[..n];
    var d' := d + [(ks[n], v)];
    assert SetItem(d, ks[n], v) == d';
    assert FirstIndex(ks, d'[|d|].0) == n;
    forall i, j | 0 <= i < j < |d'|
      ensures !SameKey(d'[i].0, d'[j].0) && FirstIndex(ks, d'[i].0) < FirstIndex(ks, d'[j].0)
    {
      assert d'[i] == d[i];
      if j < |d| {
        assert d'[j] == d[j];
      }
    }
    forall t | 0 <= t < |d|
      ensures FirstIndex(ks, d'[t].0) < |ks| && d'[t].0 == ks[FirstIndex(ks, d'[t].0)]
    {
      assert d'[t] == d[t];
    }
  }

  /** A key with no item yet first occurs at the end of the keys. */
  lemma NewKeyFirstHere<V>(d: Items<V>, ks: seq<Value>)
    requires |ks| > 0
    requires Covers(d, ks[..|ks| - 1]) && FindKey(d, ks[|ks| - 1]).None?
    ensures FirstIndex(ks, ks[|ks| - 1]) == |ks| - 1
  {
    var n := |ks| - 1;
    var p := ks[..n];
    if FirstIndex(p, ks[n]) < n {
      var j := FirstIndex(p, ks[n]);
      var t := FindKey(d, p[j]).value;
      assert SameKey(d[t].0, ks[n]);
    }
    FirstIndexExtend(ks, ks[n]);
  }

  /** After `d[k] = v` every key seen so far has an item. */
  lemma SetItemCovers<V>(d: Items<V>, ks: seq<Value>, v: V)
    requires |ks| > 0
    requires Covers(d, ks[..|ks| - 1])
    ensures Covers(SetItem(d, ks[|ks| - 1], v), ks)
  {
    var n := |ks| - 1;
    var p := ks[..n];
    var d' := SetItem(d, ks[n], v);
    forall j | 0 <= j < |ks|
      ensures FindKey(d', ks[j]).Some?
    {
      if j < n {
        assert p[j] == ks[j];
        var t := FindKey(d, ks[j]).value;
        assert SameKey(d'[t].0, ks[j]);
      } else if FindKey(d, ks[n]).Some? {
        var i := FindKey(d, ks[n]).value;
        assert SameKey(d'[i].0, ks[j]);
      } else {
        assert SameKey(d'[|d|].0, ks[j]);
      }
    }
  }

  /** An item whose key is not the new one keeps the value of its last occurrence. */
  lemma OtherLast<V>(d: Items<V>, ks: seq<Value>, vs: seq<V>, t: nat)
    requires |ks| > 0 && |vs| == |ks|
    requires LastValues(d, ks[..|ks| - 1], vs[..|ks| - 1])
    requires t < |d| && !SameKey(ks[|ks| - 1], d[t].0)
    ensures LastIndex(ks, d[t].0) < |ks| && d[t].1 == vs[LastIndex(ks, d[t].0)]
  {
    var n := |ks| - 1;
    LastIndexExtend(ks, d[t].0);
    assert vs[..n][LastIndex(ks[..n], d[t].0)] == vs[LastIndex(ks[..n], d[t].0)];
  }

  lemma SetItemExistingLast<V>(d: Items<V>, ks: seq<Value>, vs: seq<V>)
    requires |ks| > 0 && |vs| == |ks|
    requires KeysApart(d) && LastValues(d, ks[..|ks| - 1], vs[..|ks| - 1])
    requires FindKey(d, ks[|ks| - 1]).Some?
    ensures LastValues(SetItem(d, ks[|ks| - 1], vs[|ks| - 1]), ks, vs)
  {
    var n := |ks| - 1;
    var i := FindKey(d, ks[n]).value;
    var d' := d[i := (d[i].0, vs[n])];
    assert SetItem(d, ks[n], vs[n]) == d';
    forall t | 0 <= t < |d'|
      ensures LastIndex(ks, d'[t].0) < |ks| && d'[t].1 == vs[LastIndex(ks, d'[t].0)]
    {
      if t != i {
        assert !SameKey(ks[n], d[t].0) by {
          if i < t {
            assert !SameKey(d[i].0, d[t].0);
          } else {
            assert !SameKey(d[t].0, d[i].0);
          }
        }
        OtherLast(d, ks, vs, t);
      } else {
        LastIndexExtend(ks, d[t].0);
      }
    }
  }

  lemma SetItemNewLast<V>(d: Items<V>, ks: seq<Value>, vs: seq<V>)
    requires |ks| > 0 && |vs| == |ks|
    requires LastValues(d, ks[..|ks| - 1], vs[..|ks| - 1])
    requires FindKey(d, ks[|ks| - 1]).None?
    ensures LastValues(SetItem(d, ks[|ks| - 1], vs[|ks| - 1]), ks, vs)
  {
    var n := |ks| - 1;
    var d' := d + [(ks[n], vs[n])];
    assert SetItem(d, ks[n], vs[n]) == d';
    forall t | 0 <= t < |d'|
      ensures LastIndex(ks, d'[t].0) < |ks| && d'[t].1 == vs[LastIndex(ks, d'[t].0)]
    {
      if t < |d| {
        OtherLast(d, ks, vs, t);
      } else {
        LastIndexExtend(ks, ks[n]);
      }
    }
  }

  /** The comprehension's last pass, as a statement to use on given keys. */
  lemma ComprehensionLast<V>(ks: seq<Value>, vs: seq<V>, d: Items<V>)
    requires |ks| > 0 && |vs| == |ks|
    requires Comprehension(ks[..|ks| - 1], vs[..|ks| - 1]) == d
    ensures Comprehension(ks, vs) == SetItem(d, ks[|ks| - 1], vs[|ks| - 1])
  {
  }

  /**
   * `{k: v for k, v in zip([1, True, 1.0, 2], "abcd")}` is `{1: "c", 2: "d"}`:
   * three equal keys keep the first spelling and the last value.
   */
  lemma EqualKeysMerge()
    ensures Comprehension([Int(1), Bool(true), Float(1.0), Int(2)], ["a", "b", "c", "d"])
         == [(Int(1), "c"), (Int(2), "d")]
  {
    var ks := [Int(1), Bool(true), Float(1.0), Int(2)];
    var vs := ["a", "b", "c", "d"];
    MergeThree();
    assert ks[..3] == [Int(1), Bool(true), Float(1.0)] && vs[..3] == ["a", "b", "c"];
    assert FindKey([(Int(1), "c")], Int(2)).None?;
    ComprehensionLast(ks, vs, [(Int(1), "c")]);
  }

  lemma MergeThree()
    ensures Comprehension([Int(1), Bool(true), Float(1.0)], ["a", "b", "c"]) == [(Int(1), "c")]
  {
    var ks := [Int(1), Bool(true), Float(1.0)];
    var vs := ["a", "b", "c"];
    MergeTwo();
    assert ks[..2] == [Int(1), Bool(true)] && vs[..2] == ["a", "b"];
    assert FindKey([(Int(1), "b")], Float(1.0)) == Some(0);
    ComprehensionLast(ks, vs, [(Int(1), "b")]);
  }

  lemma MergeTwo()
    ensures Comprehension([Int(1), Bool(true)], ["a", "b"]) == [(Int(1), "b")]
  {
    var ks := [Int(1), Bool(true)];
    var vs := ["a", "b"];
    MergeOne();
    assert ks[..1] == [Int(1)] && vs[..1] == ["a"];
    assert FindKey([(Int(1), "a")], Bool(true)) == Some(0);
    ComprehensionLast(ks, vs, [(Int(1), "a")]);
  }

  lemma MergeOne()
    ensures Comprehension([Int(1)], ["a"]) == [(Int(1), "a")]
  {
    assert Comprehension<string>([], []) == [];
    assert FindKey<string>([], Int(1)).None?;
    ComprehensionLast([Int(1)], ["a"], []);
  }
}
