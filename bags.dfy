/** The untyped property bags every constructor consumes: what
    `ConvertFrom-Json` hands the object model as a `PSObject`, together with the
    lookup `Object.Properties[key]` and the casts the constructors apply to a
    property's `Value`. */
module Bags {
  import opened Wrappers
  import Text

  type int32 = x: int | -0x8000_0000 <= x < 0x8000_0000
  type int64 = x: int | -0x8000_0000_0000_0000 <= x < 0x8000_0000_0000_0000

  /** A dynamically typed JSON value as PowerShell boxes it. Integers that fit
      32 bits arrive as `Int32`, larger ones as `Int64`; `is int` accepts only
      the former. */
  datatype Value =
    | VNull
    | VBool(b: bool)
    | VInt(i: int32)
    | VLong(l: int64)
    | VStr(s: string)
    | VArr(elems: seq<Value>)
    | VObj(props: seq<Prop>)

  datatype Prop = Prop(key: string, val: Value)

  /** What a constructor's `PSObject Object` parameter can be: null or an object. */
  type Bag = v: Value | v.VNull? || v.VObj? witness VNull

  /** A .NET string reference: `None` is null. */
  type NString = Option<string>

  /** The exceptions a constructor can raise, by cause. */
  datatype DecodeError =
    | Malformed(key: string)             // a cast or dereference of a property whose value has the wrong shape
    | PopularityOutOfRange(value: int)   // the Popularity setter's ArgumentException
    | UnknownItemType                    // Enum.Parse of a name that is not an ItemType
    | BadDate(key: string)               // Int32.Parse or the DateTime constructor rejected a date part
    | ItemCast(expected: string)         // Cast<T>() met a paging item of another kind
    | TimeOutOfRange(key: string)        // a DateTime computed from `key` left 0001-01-01..9999-12-31

  type Decoded<T> = Result<T, DecodeError>

  // ---------------------------------------------------------------- lookup

  /** `Properties[key]` matches names without regard to case; keys the model
      looks up are written in lower case. */
  predicate Names(p: Prop, key: string) {
    Text.Lower(p.key) == key
  }

  /** The position of the first property called `key`; `FindFirst` says so. */
  function Find(ps: seq<Prop>, key: string): (r: Option<nat>)
    ensures r.Some? ==> r.value < |ps|
  {
    if |ps| == 0 then None
    else if Names(ps[0], key) then Some(0)
    else
      match Find(ps[1..], key)
      case None => None
      case Some(i) => Some(i + 1)
  }

  /** `Find` returns the first property called `key`, and nothing exactly when
      no property is. */
  lemma {:induction false} FindFirst(ps: seq<Prop>, key: string)
    ensures Find(ps, key).Some? ==> Names(ps[Find(ps, key).value], key)
    ensures Find(ps, key).Some? ==> forall j :: 0 <= j < Find(ps, key).value ==> !Names(ps[j], key)
    ensures Find(ps, key).None? <==> forall j :: 0 <= j < |ps| ==> !Names(ps[j], key)
  {
    if |ps| > 0 && !Names(ps[0], key) {
      FindFirst(ps[1..], key);
      assert forall j :: 1 <= j < |ps| ==> ps[j] == ps[1..][j - 1];
    }
  }

  /** `Object.Properties[key]`: `None` when the bag is null or has no such
      property (the indexer returns null); otherwise the property's value, which
      may itself be the JSON null. */
  function Get(b: Bag, key: string): (r: Option<Value>)
    ensures r.Some? <==> b.VObj? && Find(b.props, key).Some?
    ensures r.Some? ==> r.value == b.props[Find(b.props, key).value].val
  {
    if b.VNull? then None
    else
      match Find(b.props, key)
      case None => None
      case Some(i) => Some(b.props[i].val)
  }

  /** `Object.Properties[key] != null`. */
  predicate Has(b: Bag, key: string) {
    Get(b, key).Some?
  }

  /** Properties other than `key` do not affect its lookup, wherever they stand. */
  lemma {:induction false} FindIgnoresOthers(ps: seq<Prop>, p: Prop, qs: seq<Prop>, key: string)
    requires !Names(p, key)
    ensures Find(ps + [p] + qs, key).Some? <==> Find(ps + qs, key).Some?
    ensures Find(ps + qs, key).Some? ==>
      (ps + [p] + qs)[Find(ps + [p] + qs, key).value] == (ps + qs)[Find(ps + qs, key).value]
  {
    var xs, ys := ps + [p] + qs, ps + qs;
    if |ps| > 0 {
      assert xs[0] == ys[0] == ps[0];
      if !Names(ps[0], key) {
        assert xs[1..] == ps[1..] + [p] + qs;
        assert ys[1..] == ps[1..] + qs;
        FindIgnoresOthers(ps[1..], p, qs, key);
        if Find(ys, key).Some? {
          var m, n := Find(xs[1..], key).value, Find(ys[1..], key).value;
          assert xs[m + 1] == xs[1..][m] && ys[n + 1] == ys[1..][n];
        }
      }
    } else {
      assert xs == [p] + qs && ys == qs;
      assert xs[1..] == qs;
      if Find(qs, key).Some? {
        assert xs[Find(qs, key).value + 1] == qs[Find(qs, key).value];
      }
    }
  }

  /** Inserting a property with another name anywhere leaves every lookup of
      `key` unchanged. */
  lemma GetIgnoresOthers(ps: seq<Prop>, p: Prop, qs: seq<Prop>, key: string)
    requires !Names(p, key)
    ensures Get(VObj(ps + [p] + qs), key) == Get(VObj(ps + qs), key)
  {
    FindIgnoresOthers(ps, p, qs, key);
  }

  /** The same for every key the inserted property is not called. */
  lemma GetIgnoresProp(ps: seq<Prop>, p: Prop, qs: seq<Prop>)
    ensures forall key :: !Names(p, key) ==> Get(VObj(ps + [p] + qs), key) == Get(VObj(ps + qs), key)
  {
    forall key | !Names(p, key)
      ensures Get(VObj(ps + [p] + qs), key) == Get(VObj(ps + qs), key)
    {
      GetIgnoresOthers(ps, p, qs, key);
    }
  }

  /** Bags that agree on every key but `t` agree on `key`, when it is not `t`. */
  lemma AgreeExcept(b: Bag, b': Bag, t: string, key: string)
    requires forall k :: k != t ==> Get(b, k) == Get(b', k)
    requires key != t
    ensures Get(b, key) == Get(b', key)
  {
  }

  // ---------------------------------------------------------------- casts

  /** `(string)value`: null stays null, anything but a string throws. */
  function CastString(key: string, v: Value): (r: Decoded<NString>)
    ensures r.Ok? <==> v.VNull? || v.VStr?
    ensures r.Ok? ==> r.value == (if v.VStr? then Some(v.s) else None)
  {
    match v
    case VNull => Ok(None)
    case VStr(s) => Ok(Some(s))
    case _ => Err(Malformed(key))
  }

  /** `(PSObject)value`: null stays null, anything but an object throws. */
  function CastBag(key: string, v: Value): (r: Decoded<Bag>)
    ensures r.Ok? <==> v.VNull? || v.VObj?
    ensures r.Ok? ==> r.value == v
  {
    if v.VNull? || v.VObj? then Ok(v) else Err(Malformed(key))
  }

  /** The text `Object.ToString()` gives for a boxed `object[]`: its type name. */
  const ArrayText: string := "System.Object[]"

  /** Stands for the text PowerShell renders a nested property bag as, which
      this model does not compute. */
  const BagText: string := "@{}"

  /** `i.ToString()` on an element of a list of names: strings as they are,
      numbers in decimal, booleans as `True`/`False`, an array as its type
      name and a nested bag as `BagText`; only a null element throws. */
  function Render(key: string, v: Value): (r: Decoded<string>)
    ensures r.Err? <==> v.VNull?
    ensures r.Err? ==> r.error == Malformed(key)
    ensures v.VStr? ==> r == Ok(v.s)
    ensures v.VInt? ==> r == Ok(Text.DecimalString(v.i))
    ensures v.VLong? ==> r == Ok(Text.DecimalString(v.l))
    ensures v.VBool? ==> r == Ok(if v.b then "True" else "False")
    ensures v.VArr? ==> r == Ok(ArrayText)
    ensures v.VObj? ==> r == Ok(BagText)
  {
    match v
    case VStr(s) => Ok(s)
    case VInt(n) => Ok(Text.DecimalString(n))
    case VLong(n) => Ok(Text.DecimalString(n))
    case VBool(b) => Ok(if b then "True" else "False")
    case VArr(_) => Ok(ArrayText)
    case VObj(_) => Ok(BagText)
    case VNull => Err(Malformed(key))
  }

  // ---------------------------------------------------------------- field rules

  /** `Properties[key] != null ? (string)Properties[key].Value : dflt`. */
  function StringOr(b: Bag, key: string, dflt: NString): (r: Decoded<NString>)
    ensures !Has(b, key) ==> r == Ok(dflt)
    ensures Get(b, key) == Some(VNull) ==> r == Ok(None)
    ensures Has(b, key) && Get(b, key).value.VStr? ==> r == Ok(Some(Get(b, key).value.s))
    ensures r.Err? <==> Has(b, key) && !(Get(b, key).value.VNull? || Get(b, key).value.VStr?)
  {
    match Get(b, key)
    case None => Ok(dflt)
    case Some(v) => CastString(key, v)
  }

  /** `Properties[key] != null ? (bool)Properties[key].Value : dflt`; unboxing
      a null or a non-boolean throws. */
  function BoolOr(b: Bag, key: string, dflt: bool): (r: Decoded<bool>)
    ensures !Has(b, key) ==> r == Ok(dflt)
    ensures Has(b, key) && Get(b, key).value.VBool? ==> r == Ok(Get(b, key).value.b)
    ensures r.Err? <==> Has(b, key) && !Get(b, key).value.VBool?
  {
    match Get(b, key)
    case None => Ok(dflt)
    case Some(VBool(x)) => Ok(x)
    case Some(_) => Err(Malformed(key))
  }

  /** `(Properties[key] != null && Properties[key].Value is int) ? (int)... : 0`:
      the one tolerant rule, which never fails. */
  function IntOrZero(b: Bag, key: string): (n: int32)
    ensures Has(b, key) && Get(b, key).value.VInt? ==> n == Get(b, key).value.i
    ensures !(Has(b, key) && Get(b, key).value.VInt?) ==> n == 0
  {
    match Get(b, key)
    case Some(VInt(x)) => x
    case _ => 0
  }

  /** `TimeSpan.TicksPerMillisecond` */
  const TicksPerMillisecond: int := 10_000

  /** `Properties[key] != null ? new TimeSpan(TicksPerMillisecond * (int)Value) : new TimeSpan(0)`,
      in ticks; only a boxed Int32 unboxes. */
  function TicksOr0(b: Bag, key: string): (r: Decoded<int>)
    ensures !Has(b, key) ==> r == Ok(0)
    ensures Has(b, key) && Get(b, key).value.VInt? ==> r == Ok(Get(b, key).value.i * TicksPerMillisecond)
    ensures r.Err? <==> Has(b, key) && !Get(b, key).value.VInt?
  {
    match Get(b, key)
    case None => Ok(0)
    case Some(VInt(ms)) => Ok(TicksPerMillisecond * ms)
    case Some(_) => Err(Malformed(key))
  }

  /** `Properties[key] != null ? (object[])Properties[key].Value : empty`; a
      null or non-array value makes the following `Select` throw. The elements
      are part of the bag (this is what lets decoders recurse into them). */
  function ArrayOr(b: Bag, key: string): (r: Decoded<seq<Value>>)
    ensures !Has(b, key) ==> r == Ok([])
    ensures Has(b, key) && Get(b, key).value.VArr? ==> r == Ok(Get(b, key).value.elems)
    ensures r.Err? <==> Has(b, key) && !Get(b, key).value.VArr?
    ensures r.Ok? && Has(b, key) ==> exists i :: 0 <= i < |b.props| && b.props[i].val == VArr(r.value)
  {
    match Get(b, key)
    case None => Ok([])
    case Some(VArr(xs)) => Ok(xs)
    case Some(_) => Err(Malformed(key))
  }

  /** `Properties[key] != null ? (PSObject)Properties[key].Value : null`; the
      nested bag is part of the outer one. */
  function BagOf(b: Bag, key: string): (r: Decoded<Bag>)
    ensures !Has(b, key) ==> r == Ok(VNull)
    ensures Has(b, key) ==> r == CastBag(key, Get(b, key).value)
    ensures r.Ok? && r.value.VObj? ==> exists i :: 0 <= i < |b.props| && b.props[i].val == r.value
  {
    match Get(b, key)
    case None => Ok(VNull)
    case Some(v) => CastBag(key, v)
  }

  /** Every field rule reads the bag only through the lookup of its key. */
  lemma FieldRulesAgree(b: Bag, b': Bag, key: string)
    requires Get(b, key) == Get(b', key)
    ensures forall dflt :: StringOr(b, key, dflt) == StringOr(b', key, dflt)
    ensures forall dflt :: BoolOr(b, key, dflt) == BoolOr(b', key, dflt)
    ensures IntOrZero(b, key) == IntOrZero(b', key)
    ensures TicksOr0(b, key) == TicksOr0(b', key)
    ensures ArrayOr(b, key) == ArrayOr(b', key)
    ensures BagOf(b, key) == BagOf(b', key)
  {
  }

  /** `.Select(i => i.ToString()).ToList()` over a list of names. */
  function StringList(key: string, xs: seq<Value>): (r: Decoded<seq<string>>)
    ensures r.Ok? ==> |r.value| == |xs|
    ensures r.Ok? ==> forall j :: 0 <= j < |xs| ==> Ok(r.value[j]) == Render(key, xs[j])
    ensures r.Ok? <==> forall j :: 0 <= j < |xs| ==> Render(key, xs[j]).Ok?
  {
    Collect(seq(|xs|, j requires 0 <= j < |xs| => Render(key, xs[j])))
  }
}
