/**
 * The story payload as JavaScript sees it after `JSON.parse`: an untyped value.
 * Numbers are integers or non-finite; `Absent` is `undefined` (a missing key).
 * The filters here are the `typeof` tests both sanitisers apply.
 */
module Payload {
  import opened Prelude
  import opened JsText

  /** A JavaScript number: finite (modelled as an integer) or NaN / an infinity. */
  datatype Number = Finite(n: int) | NonFinite(isNaN: bool)

  datatype Value =
    | Absent
    | Null
    | Bool(b: bool)
    | Num(x: Number)
    | Str(s: string)
    | Arr(items: seq<Value>)
    | Obj(fields: map<string, Value>)

  /** `Boolean(v)`: JavaScript truthiness. */
  predicate Truthy(v: Value)
  {
    match v
    case Absent => false
    case Null => false
    case Bool(b) => b
    case Num(x) => (x.Finite? && x.n != 0) || (x.NonFinite? && !x.isNaN)
    case Str(s) => s != ""
    case Arr(_) => true
    case Obj(_) => true
  }

  /** `v.key` on a value that is neither `null` nor `undefined`. */
  function Field(v: Value, key: string): Value
  {
    if v.Obj? && key in v.fields then v.fields[key] else Absent
  }

  /** `typeof v === "number" && Number.isFinite(v)` */
  predicate IsFiniteNumber(v: Value)
  {
    v.Num? && v.x.Finite?
  }

  /** `typeof c === "string" && c.trim().length > 0` */
  predicate IsChoice(c: Value)
  {
    c.Str? && !IsBlank(c.s)
  }

  /** `items.filter(c => typeof c === "string" && c.trim().length > 0)` */
  function FilterChoices(items: seq<Value>): (r: seq<string>)
    ensures |r| <= |items|
    ensures forall s :: s in r <==> Str(s) in items && !IsBlank(s)
  {
    if items == [] then []
    else
      var rest := FilterChoices(items[..|items| - 1]);
      var last := items[|items| - 1];
      assert items == items[..|items| - 1] + [last];
      if IsChoice(last) then rest + [last.s] else rest
  }

  /** Filtering one more entry appends what that entry gives. */
  lemma FilterChoicesSnoc(items: seq<Value>, x: Value)
    ensures FilterChoices(items + [x]) == FilterChoices(items) + (if IsChoice(x) then [x.s] else [])
  {
    var r := items + [x];
    assert r[..|r| - 1] == items && r[|r| - 1] == x;
  }

  /**
   * The filter keeps order and repeats: filtering a concatenation concatenates
   * the results.
   */
  lemma {:induction false} FilterChoicesAppend(a: seq<Value>, b: seq<Value>)
    ensures FilterChoices(a + b) == FilterChoices(a) + FilterChoices(b)
    decreases |b|
  {
    if b == [] {
      assert a + b == a;
    } else {
      var init, x := b[..|b| - 1], b[|b| - 1];
      var kept := if IsChoice(x) then [x.s] else [];
      assert a + b == (a + init) + [x] && b == init + [x];
      calc {
        FilterChoices(a + b);
        { FilterChoicesSnoc(a + init, x); }
        FilterChoices(a + init) + kept;
        { FilterChoicesAppend(a, init); }
        (FilterChoices(a) + FilterChoices(init)) + kept;
        FilterChoices(a) + (FilterChoices(init) + kept);
        { FilterChoicesSnoc(init, x); }
        FilterChoices(a) + FilterChoices(b);
      }
    }
  }

  /** A single item gives its string when it is a non-blank string, and nothing otherwise. */
  lemma FilterChoicesOne(v: Value)
    ensures FilterChoices([v]) == if IsChoice(v) then [v.s] else []
  {
    assert [v][..0] == [];
  }

  /** A buff entry that passed `!!b && typeof b.target === "string" && typeof b.amount === "number"`. */
  datatype RawBuff = RawBuff(target: string, amount: Number)

  /** The buff test: only an object can have a string `target` and a numeric `amount`. */
  function AsBuff(v: Value): (r: Option<RawBuff>)
    ensures r.Some? <==> v.Obj? && Field(v, "target").Str? && Field(v, "amount").Num?
    ensures r.Some? ==> r.value == RawBuff(Field(v, "target").s, Field(v, "amount").x)
  {
    if v.Obj? then
      var t := Field(v, "target");
      var a := Field(v, "amount");
      if t.Str? && a.Num? then Some(RawBuff(t.s, a.x)) else None
    else None
  }

  /** `items.filter(isBuff)`: the well-typed entries, in their original order. */
  function FilterBuffs(items: seq<Value>): (r: seq<RawBuff>)
    ensures |r| <= |items|
    ensures forall b :: b in r <==> exists v :: v in items && AsBuff(v) == Some(b)
  {
    if items == [] then []
    else
      var rest := FilterBuffs(items[..|items| - 1]);
      var last := items[|items| - 1];
      assert items == items[..|items| - 1] + [last];
      match AsBuff(last)
      case Some(b) => rest + [b]
      case None => rest
  }

  /** Filtering one more entry appends what that entry gives. */
  lemma FilterBuffsSnoc(items: seq<Value>, x: Value)
    ensures FilterBuffs(items + [x]) == FilterBuffs(items) + (if AsBuff(x).Some? then [AsBuff(x).value] else [])
  {
    var r := items + [x];
    assert r[..|r| - 1] == items && r[|r| - 1] == x;
  }

  /**
   * The filter keeps order and repeats: filtering a concatenation concatenates
   * the results.
   */
  lemma {:induction false} FilterBuffsAppend(a: seq<Value>, b: seq<Value>)
    ensures FilterBuffs(a + b) == FilterBuffs(a) + FilterBuffs(b)
    decreases |b|
  {
    if b == [] {
      assert a + b == a;
    } else {
      var init, x := b[..|b| - 1], b[|b| - 1];
      var kept := if AsBuff(x).Some? then [AsBuff(x).value] else [];
      assert a + b == (a + init) + [x] && b == init + [x];
      calc {
        FilterBuffs(a + b);
        { FilterBuffsSnoc(a + init, x); }
        FilterBuffs(a + init) + kept;
        { FilterBuffsAppend(a, init); }
        (FilterBuffs(a) + FilterBuffs(init)) + kept;
        FilterBuffs(a) + (FilterBuffs(init) + kept);
        { FilterBuffsSnoc(init, x); }
        FilterBuffs(a) + FilterBuffs(b);
      }
    }
  }

  /** A single item gives its buff when `AsBuff` accepts it, and nothing otherwise. */
  lemma FilterBuffsOne(v: Value)
    ensures FilterBuffs([v]) == if AsBuff(v).Some? then [AsBuff(v).value] else []
  {
    assert [v][..0] == [];
  }
}
