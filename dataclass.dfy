/** Model of ttgen/dataclass_.py: the recursive record coercer
    `dataclass_from_dict`, which turns nested dictionaries and lists into
    dataclass instances by following the declared field types, and the
    PosType, RgbType and Point3D records. */
module Dataclass {
  import opened Wrappers

  /** A Python value as the coercer sees it. A dictionary is its keys in
      insertion order together with the value of each key (the keys are
      strings, each listed once); an instance maps every declared field of
      its class to that field's value. */
  datatype Value =
    | Str(s: string)
    | Int(i: int)
    | Float(f: real)
    | Bool(b: bool)
    | NoneValue
    | List(items: seq<Value>)
    | Dict(order: seq<string>, vals: map<string, Value>)
    | Instance(cls: string, attrs: map<string, Value>)

  /** A field's declared type, as far as the coercer inspects it: a
      dataclass, `List[T]`, `Dict[K, V]`, or anything else. */
  datatype TypeDesc =
    | Scalar
    | ListOf(elem: TypeDesc)
    | MapOf(key: TypeDesc, val: TypeDesc)
    | Record(rec: RecordType)

  /** A dataclass: its name and, for each field name, the declared type and
      default. */
  datatype RecordType = RecordType(name: string, fields: map<string, Field>)

  datatype Field = Field(ty: TypeDesc, default: Value)

  /** The exceptions `_dataclass_from_dict` can raise. */
  datatype CoerceError =
    | UnknownField(record: string, key: string)  // KeyError at `fieldtypes[i]`
    | NotIterable(value: Value)                  // TypeError from `for i in d`
    | NoItems(value: Value)                      // AttributeError from `d.items()`

  // ---------------------------------------------------------------------
  // Dictionaries and instances

  /** `d[k]` for a key `k` listed in the dictionary `d`. */
  function Item(d: Value, k: string): Value
    requires d.Dict?
  {
    if k in d.vals then d.vals[k] else NoneValue
  }

  /** The values of `d.items()`, in the dictionary's order. */
  function DictValues(d: Value): (xs: seq<Value>)
    requires d.Dict?
    ensures |xs| == |d.order|
    ensures forall i :: 0 <= i < |d.order| ==> xs[i] == Item(d, d.order[i])
  {
    seq(|d.order|, i requires 0 <= i < |d.order| => Item(d, d.order[i]))
  }

  /** `klass(**kw)`: a new instance whose every field holds the supplied
      value, or else the field's default. */
  function Instantiate(rt: RecordType, kw: map<string, Value>): (r: Value)
    requires kw.Keys <= rt.fields.Keys
    ensures r.Instance? && r.cls == rt.name && r.attrs.Keys == rt.fields.Keys
    ensures forall f :: f in kw ==> r.attrs[f] == kw[f]
    ensures forall f :: f in rt.fields && f !in kw ==> r.attrs[f] == rt.fields[f].default
  {
    Instance(rt.name, map f | f in rt.fields :: if f in kw then kw[f] else rt.fields[f].default)
  }

  /** `klass()`: the instance made of the defaults alone. */
  function Default(rt: RecordType): Value {
    Instantiate(rt, map[])
  }

  /** `getattr(v, name)` on an instance. */
  function Attr(v: Value, name: string): Option<Value> {
    if v.Instance? && name in v.attrs then Some(v.attrs[name]) else None
  }

  // ---------------------------------------------------------------------
  // Python iteration

  /** `for i in v`: a list yields its items, a dictionary its keys and a
      string its characters; other values are not iterable. */
  function Iterate(v: Value): (r: Option<seq<Value>>)
    ensures v.List? ==> r == Some(v.items)
    ensures v.Dict? ==> r.Some? && |r.value| == |v.order| &&
                        forall k :: 0 <= k < |v.order| ==> r.value[k] == Str(v.order[k])
    ensures v.Str? ==> r.Some? && |r.value| == |v.s| &&
                       forall k :: 0 <= k < |v.s| ==> r.value[k] == Str([v.s[k]])
    ensures !(v.List? || v.Dict? || v.Str?) ==> r.None?
  {
    match v
    case List(xs) => Some(xs)
    case Dict(ks, _) => Some(seq(|ks|, k requires 0 <= k < |ks| => Str(ks[k])))
    case Str(s) => Some(seq(|s|, k requires 0 <= k < |s| => Str([s[k]])))
    case _ => None
  }

  // ---------------------------------------------------------------------
  // The coercer

  /** `_dataclass_from_dict(klass, v)`. */
  function Coerce(ty: TypeDesc, v: Value): Result<Value, CoerceError>
    decreases ty, 1, 0
  {
    if v.Instance? then Success(v)
    else
      match ty
      case Scalar => Success(v)
      case Record(rt) =>
        if !v.Dict? then Failure(NoItems(v))
        else if forall k :: k in v.order ==> FieldCoerces(rt, k, Item(v, k)) then
          Success(Instantiate(rt, map k | k in v.order :: Coerce(rt.fields[k].ty, Item(v, k)).value))
        else Failure(FieldsError(rt, v, v.order))
      case ListOf(elem) =>
        (match Iterate(v)
         case None => Failure(NotIterable(v))
         case Some(xs) =>
           if forall x :: x in xs ==> Coerce(elem, x).Success? then
             Success(List(seq(|xs|, k requires 0 <= k < |xs| => Coerce(elem, xs[k]).value)))
           else Failure(FirstError(elem, xs)))
      case MapOf(_, val) =>
        if !v.Dict? then Failure(NoItems(v))
        else if forall k :: k in v.order ==> Coerce(val, Item(v, k)).Success? then
          Success(Dict(v.order, map k | k in v.order :: Coerce(val, Item(v, k)).value))
        else
          assert exists k :: k in v.order && Coerce(val, Item(v, k)).Failure?;
          Failure(FirstError(val, DictValues(v)))
  }

  /** Key `k` names a field of `rt` and the value `x` coerces to that
      field's declared type. */
  predicate FieldCoerces(rt: RecordType, k: string, x: Value)
    decreases Record(rt), 0, 0
  {
    k in rt.fields && Coerce(rt.fields[k].ty, x).Success?
  }

  /** The error of the first element of `xs` that does not coerce to `ty`:
      a comprehension raises the first exception in iteration order. */
  function FirstError(ty: TypeDesc, xs: seq<Value>): CoerceError
    requires exists x :: x in xs && Coerce(ty, x).Failure?
    decreases ty, 2, |xs|
  {
    match Coerce(ty, xs[0])
    case Failure(e) => e
    case Success(_) =>
      assert xs == [xs[0]] + xs[1..];
      FirstError(ty, xs[1..])
  }

  /** The error raised by the keyword comprehension of a dataclass: for the
      first key of `ks` that is not a field, `KeyError`; for the first value
      that does not coerce, its error. */
  function FieldsError(rt: RecordType, d: Value, ks: seq<string>): CoerceError
    requires d.Dict?
    requires exists k :: k in ks && !FieldCoerces(rt, k, Item(d, k))
    decreases Record(rt), 0, |ks|
  {
    var k := ks[0];
    if k !in rt.fields then UnknownField(rt.name, k)
    else
      match Coerce(rt.fields[k].ty, Item(d, k))
      case Failure(e) => e
      case Success(_) =>
        assert ks == [k] + ks[1..];
        FieldsError(rt, d, ks[1..])
  }

  /** `dataclass_from_dict(class_, **d)`: the keyword arguments are always
      read as the field map of `class_`, so the result is an instance of
      `class_` exactly when every keyword names a field whose value
      coerces, and then each field holds its coerced argument or its
      default. */
  function DataclassFromDict(rt: RecordType, d: Value): (r: Result<Value, CoerceError>)
    requires d.Dict?
    ensures r.Success? <==> forall k :: k in d.order ==> FieldCoerces(rt, k, Item(d, k))
    ensures r.Success? ==>
              r.value.Instance? && r.value.cls == rt.name && r.value.attrs.Keys == rt.fields.Keys &&
              forall f :: f in rt.fields ==>
                r.value.attrs[f] == if f in d.order then Coerce(rt.fields[f].ty, Item(d, f)).value
                                    else rt.fields[f].default
  {
    Coerce(Record(rt), d)
  }

  // ---------------------------------------------------------------------
  // What the coercer promises

  /** A value that already is a dataclass instance is returned as it is,
      whatever type is expected. */
  lemma CoerceInstance(ty: TypeDesc, v: Value)
    requires v.Instance?
    ensures Coerce(ty, v) == Success(v)
  {
  }

  /** For a type that is neither a dataclass nor `List`/`Dict` the value is
      returned unchanged. */
  lemma CoerceScalar(v: Value)
    ensures Coerce(Scalar, v) == Success(v)
  {
  }

  /** A dataclass type over a dictionary builds an instance of that class
      whose supplied fields are each coerced with their declared type and
      whose other fields keep their defaults; it fails exactly when some
      key is not a field or some value does not coerce. */
  lemma CoerceRecord(rt: RecordType, d: Value)
    requires d.Dict?
    ensures Coerce(Record(rt), d).Success? <==> forall k :: k in d.order ==> FieldCoerces(rt, k, Item(d, k))
    ensures Coerce(Record(rt), d).Success? ==>
              var r := Coerce(Record(rt), d).value;
              r.Instance? && r.cls == rt.name && r.attrs.Keys == rt.fields.Keys &&
              forall f :: f in rt.fields ==>
                r.attrs[f] == if f in d.order then Coerce(rt.fields[f].ty, Item(d, f)).value
                              else rt.fields[f].default
  {
  }

  /** `List[T]` over any iterable: a list of the same length and order,
      each element coerced with `T`; it fails exactly when some element
      does. */
  lemma CoerceList(elem: TypeDesc, v: Value)
    requires !v.Instance? && Iterate(v).Some?
    ensures var xs := Iterate(v).value;
            Coerce(ListOf(elem), v).Success? <==> forall k :: 0 <= k < |xs| ==> Coerce(elem, xs[k]).Success?
    ensures var xs := Iterate(v).value;
            Coerce(ListOf(elem), v).Success? ==>
              var r := Coerce(ListOf(elem), v).value;
              r.List? && |r.items| == |xs| &&
              forall k :: 0 <= k < |xs| ==> Coerce(elem, xs[k]) == Success(r.items[k])
  {
  }

  /** `Dict[K, V]` over a dictionary: the same keys in the same order, each
      value coerced with `V`; the key type plays no part. */
  lemma CoerceMap(key: TypeDesc, val: TypeDesc, d: Value)
    requires d.Dict?
    ensures Coerce(MapOf(key, val), d) == Coerce(MapOf(Scalar, val), d)
    ensures Coerce(MapOf(key, val), d).Success? <==>
            forall k :: k in d.order ==> Coerce(val, Item(d, k)).Success?
    ensures Coerce(MapOf(key, val), d).Success? ==>
              var r := Coerce(MapOf(key, val), d).value;
              r.Dict? && r.order == d.order &&
              (forall k :: k in r.vals <==> k in d.order) &&
              forall k :: k in d.order ==> Coerce(val, Item(d, k)) == Success(r.vals[k])
  {
  }

  /** A value the coercer cannot walk is an error: a dataclass or `Dict`
      type needs a dictionary, a `List` type an iterable. */
  lemma CoerceShapeErrors(ty: TypeDesc, v: Value)
    requires !v.Instance?
    ensures (ty.Record? || ty.MapOf?) && !v.Dict? ==> Coerce(ty, v) == Failure(NoItems(v))
    ensures ty.ListOf? && Iterate(v).None? ==> Coerce(ty, v) == Failure(NotIterable(v))
  {
  }

  /** The error a list comprehension raises is that of its first failing
      element. */
  lemma {:induction false} FirstErrorAt(ty: TypeDesc, xs: seq<Value>, k: nat)
    requires k < |xs| && Coerce(ty, xs[k]).Failure?
    requires forall i :: 0 <= i < k ==> Coerce(ty, xs[i]).Success?
    ensures FirstError(ty, xs) == Coerce(ty, xs[k]).error
    decreases k
  {
    if k > 0 {
      assert xs[1..][k - 1] == xs[k];
      FirstErrorAt(ty, xs[1..], k - 1);
    }
  }

  lemma {:induction false} FieldsErrorAt(rt: RecordType, d: Value, ks: seq<string>, k: nat)
    requires d.Dict? && k < |ks|
    requires forall i :: 0 <= i < k ==> FieldCoerces(rt, ks[i], Item(d, ks[i]))
    requires !FieldCoerces(rt, ks[k], Item(d, ks[k]))
    ensures FieldsError(rt, d, ks) ==
            if ks[k] !in rt.fields then UnknownField(rt.name, ks[k]) else Coerce(rt.fields[ks[k]].ty, Item(d, ks[k])).error
    decreases k
  {
    if k > 0 {
      assert ks[1..][k - 1] == ks[k];
      FieldsErrorAt(rt, d, ks[1..], k - 1);
    }
  }

  /** A supplied key that is not a field of the record raises `KeyError`
      for that key, once the entries before it have coerced. */
  lemma CoerceUnknownField(rt: RecordType, d: Value, k: nat)
    requires d.Dict? && k < |d.order| && d.order[k] !in rt.fields
    requires forall i :: 0 <= i < k ==> FieldCoerces(rt, d.order[i], Item(d, d.order[i]))
    ensures Coerce(Record(rt), d) == Failure(UnknownField(rt.name, d.order[k]))
  {
    assert !FieldCoerces(rt, d.order[k], Item(d, d.order[k]));
    FieldsErrorAt(rt, d, d.order, k);
  }

  /** A supplied value that does not coerce to its field's type raises that
      value's error, once the entries before it have coerced. */
  lemma CoerceFieldFails(rt: RecordType, d: Value, k: nat)
    requires d.Dict? && k < |d.order| && d.order[k] in rt.fields
    requires Coerce(rt.fields[d.order[k]].ty, Item(d, d.order[k])).Failure?
    requires forall i :: 0 <= i < k ==> FieldCoerces(rt, d.order[i], Item(d, d.order[i]))
    ensures Coerce(Record(rt), d) == Failure(Coerce(rt.fields[d.order[k]].ty, Item(d, d.order[k])).error)
  {
    assert !FieldCoerces(rt, d.order[k], Item(d, d.order[k]));
    FieldsErrorAt(rt, d, d.order, k);
  }

  /** Coercing again what a coercion produced changes nothing. */
  lemma {:induction false} CoerceIdempotent(ty: TypeDesc, v: Value)
    requires Coerce(ty, v).Success?
    ensures Coerce(ty, Coerce(ty, v).value) == Coerce(ty, v)
    decreases ty
  {
    if !v.Instance? {
      match ty
      case Record(_) =>
      case Scalar =>
      case ListOf(elem) =>
        var xs := Iterate(v).value;
        var ys := Coerce(ty, v).value.items;
        forall k | 0 <= k < |ys|
          ensures Coerce(elem, ys[k]) == Success(ys[k])
        {
          CoerceIdempotent(elem, xs[k]);
        }
        assert forall y :: y in ys ==> Coerce(elem, y).Success?;
        assert Coerce(ty, List(ys)).value.items == ys;
      case MapOf(_, val) =>
        var r := Coerce(ty, v).value;
        forall k | k in v.order
          ensures Coerce(val, Item(r, k)) == Success(Item(r, k))
        {
          CoerceIdempotent(val, Item(v, k));
        }
        assert Coerce(ty, r).value.vals == r.vals;
    }
  }

  // ---------------------------------------------------------------------
  // Keyword arguments

  /** Keyword arguments `name=value, ...` (or the entries of a dictionary
      display) in the order written. */
  type Kwargs = seq<(string, Value)>

  /** The argument names, in order. */
  function Names(kw: Kwargs): (ns: seq<string>)
    ensures |ns| == |kw|
  {
    if kw == [] then [] else Names(kw[..|kw| - 1]) + [kw[|kw| - 1].0]
  }

  lemma {:induction false} NamesAt(kw: Kwargs)
    ensures forall i :: 0 <= i < |kw| ==> Names(kw)[i] == kw[i].0
    decreases |kw|
  {
    if kw != [] {
      NamesAt(kw[..|kw| - 1]);
    }
  }

  /** The arguments as a mapping; a later entry for a name replaces an
      earlier one, as in a dictionary display. */
  function KwMap(kw: Kwargs): (m: map<string, Value>)
  {
    if kw == [] then map[] else KwMap(kw[..|kw| - 1])[kw[|kw| - 1].0 := kw[|kw| - 1].1]
  }

  /** The mapping has exactly the names of the arguments as keys. */
  lemma {:induction false} KwMapKeys(kw: Kwargs)
    ensures forall k :: k in KwMap(kw) <==> k in Names(kw)
    decreases |kw|
  {
    if kw != [] {
      KwMapKeys(kw[..|kw| - 1]);
    }
  }

  /** An argument that no later argument names again keeps its value in
      the mapping. */
  lemma {:induction false} KwMapAt(kw: Kwargs, i: nat)
    requires i < |kw|
    requires forall j :: i < j < |kw| ==> kw[j].0 != kw[i].0
    ensures kw[i].0 in KwMap(kw) && KwMap(kw)[kw[i].0] == kw[i].1
    decreases |kw|
  {
    if i < |kw| - 1 {
      var init := kw[..|kw| - 1];
      assert forall j :: i < j < |init| ==> init[j] == kw[j];
      KwMapAt(init, i);
    }
  }

  lemma KwMapPair(a: (string, Value), b: (string, Value))
    ensures KwMap([a, b]) == map[a.0 := a.1][b.0 := b.1]
  {
    assert [a, b][..1] == [a];
    assert [a][..0] == [];
    assert KwMap([a]) == map[a.0 := a.1];
  }

  lemma KwMapTriple(a: (string, Value), b: (string, Value), c: (string, Value))
    ensures KwMap([a, b, c]) == map[a.0 := a.1][b.0 := b.1][c.0 := c.1]
  {
    assert [a, b, c][..2] == [a, b];
    KwMapPair(a, b);
  }

  lemma KwMapFive(a: (string, Value), b: (string, Value), c: (string, Value), d: (string, Value), e: (string, Value))
    ensures KwMap([a, b, c, d, e]) == map[a.0 := a.1][b.0 := b.1][c.0 := c.1][d.0 := d.1][e.0 := e.1]
  {
    assert [a, b, c, d, e][..4] == [a, b, c, d];
    assert [a, b, c, d][..3] == [a, b, c];
    KwMapTriple(a, b, c);
  }

  lemma KwMapSeven(a: (string, Value), b: (string, Value), c: (string, Value), d: (string, Value),
                   e: (string, Value), f: (string, Value), g: (string, Value))
    ensures KwMap([a, b, c, d, e, f, g]) ==
            map[a.0 := a.1][b.0 := b.1][c.0 := c.1][d.0 := d.1][e.0 := e.1][f.0 := f.1][g.0 := g.1]
  {
    assert [a, b, c, d, e, f, g][..6] == [a, b, c, d, e, f];
    assert [a, b, c, d, e, f][..5] == [a, b, c, d, e];
    KwMapFive(a, b, c, d, e);
  }

  /** The dictionary `{name: value, ...}`. */
  function DictOf(kw: Kwargs): (d: Value)
    ensures d.Dict? && d.order == Names(kw) && d.vals == KwMap(kw)
  {
    Dict(Names(kw), KwMap(kw))
  }

  /** The argument `a` names a field of `rt`, and its value coerces with that
      field's declared type to the value of `o`, an argument of the same
      name. */
  predicate ArgCoerces(rt: RecordType, a: (string, Value), o: (string, Value)) {
    a.0 == o.0 && a.0 in rt.fields && Coerce(rt.fields[a.0].ty, a.1) == Success(o.1)
  }

  /** Argument by argument, `args` coerces to `outs`. */
  predicate CoercesPairs(rt: RecordType, args: Kwargs, outs: Kwargs) {
    |args| == |outs| && forall i :: 0 <= i < |args| ==> ArgCoerces(rt, args[i], outs[i])
  }

  lemma {:induction false} CoercesPairsEach(rt: RecordType, args: Kwargs, outs: Kwargs)
    requires CoercesPairs(rt, args, outs)
    ensures Names(args) == Names(outs)
    ensures forall k :: k in KwMap(args) ==>
              k in rt.fields && k in KwMap(outs) &&
              Coerce(rt.fields[k].ty, KwMap(args)[k]) == Success(KwMap(outs)[k])
    decreases |args|
  {
    if args != [] {
      CoercesPairsEach(rt, args[..|args| - 1], outs[..|outs| - 1]);
    }
  }

  /** A dictionary whose every key names a field and whose every value
      coerces, to the value `kw` holds for that key, becomes `rt(**kw)`. */
  lemma CoerceRecordTo(rt: RecordType, order: seq<string>, vals: map<string, Value>, kw: map<string, Value>)
    requires forall k :: k in order ==> k in rt.fields && Coerce(rt.fields[k].ty, Item(Dict(order, vals), k)).Success?
    requires (map k | k in order :: Coerce(rt.fields[k].ty, Item(Dict(order, vals), k)).value) == kw
    ensures kw.Keys <= rt.fields.Keys
    ensures Coerce(Record(rt), Dict(order, vals)) == Success(Instantiate(rt, kw))
  {
    var d := Dict(order, vals);
    assert forall k :: k in d.order ==> FieldCoerces(rt, k, Item(d, k));
    var m := map k | k in d.order :: Coerce(rt.fields[k].ty, Item(d, k)).value;
    assert Coerce(Record(rt), d) == Success(Instantiate(rt, m));
    assert m == kw;
  }

  /** The keyword map the coercer builds from `args` is `outs`. */
  lemma CoercedKwargs(rt: RecordType, args: Kwargs, outs: Kwargs)
    requires CoercesPairs(rt, args, outs)
    ensures forall k :: k in Names(args) ==>
              k in rt.fields && Coerce(rt.fields[k].ty, Item(DictOf(args), k)).Success?
    ensures (map k | k in Names(args) :: Coerce(rt.fields[k].ty, Item(DictOf(args), k)).value) == KwMap(outs)
  {
    CoercesPairsEach(rt, args, outs);
    KwMapKeys(args);
    KwMapKeys(outs);
  }

  /** A dictionary whose every key names a field and whose every value
      coerces to the corresponding value of `outs` becomes the instance
      `rt(**outs)`. */
  lemma CoerceKwargs(rt: RecordType, args: Kwargs, outs: Kwargs)
    requires CoercesPairs(rt, args, outs)
    ensures KwMap(outs).Keys <= rt.fields.Keys
    ensures Coerce(Record(rt), DictOf(args)) == Success(Instantiate(rt, KwMap(outs)))
  {
    CoercedKwargs(rt, args, outs);
    CoerceRecordTo(rt, Names(args), KwMap(args), KwMap(outs));
  }

  /** The same for a call with three keyword arguments, given one by one. */
  lemma CoerceKwargs3(rt: RecordType, a0: (string, Value), a1: (string, Value), a2: (string, Value),
                      o0: (string, Value), o1: (string, Value), o2: (string, Value))
    requires ArgCoerces(rt, a0, o0) && ArgCoerces(rt, a1, o1) && ArgCoerces(rt, a2, o2)
    ensures KwMap([o0, o1, o2]).Keys <= rt.fields.Keys
    ensures Coerce(Record(rt), DictOf([a0, a1, a2])) == Success(Instantiate(rt, KwMap([o0, o1, o2])))
  {
    CoerceKwargs(rt, [a0, a1, a2], [o0, o1, o2]);
  }

  /** The same for a call with five keyword arguments, given one by one. */
  lemma CoerceKwargs5(rt: RecordType, a0: (string, Value), a1: (string, Value), a2: (string, Value),
                      a3: (string, Value), a4: (string, Value), o0: (string, Value), o1: (string, Value),
                      o2: (string, Value), o3: (string, Value), o4: (string, Value))
    requires ArgCoerces(rt, a0, o0) && ArgCoerces(rt, a1, o1) && ArgCoerces(rt, a2, o2)
    requires ArgCoerces(rt, a3, o3) && ArgCoerces(rt, a4, o4)
    ensures KwMap([o0, o1, o2, o3, o4]).Keys <= rt.fields.Keys
    ensures Coerce(Record(rt), DictOf([a0, a1, a2, a3, a4])) == Success(Instantiate(rt, KwMap([o0, o1, o2, o3, o4])))
  {
    CoerceKwargs(rt, [a0, a1, a2, a3, a4], [o0, o1, o2, o3, o4]);
  }

  /** Keyword arguments that all name fields of `rt` may be passed to
      `rt(...)`. */
  lemma KwargsDeclared(rt: RecordType, kw: Kwargs)
    requires forall i :: 0 <= i < |kw| ==> kw[i].0 in rt.fields
    ensures KwMap(kw).Keys <= rt.fields.Keys
  {
    KwMapKeys(kw);
    NamesAt(kw);
  }

  /** Every argument names a field declared without a dataclass, list or
      dict type. */
  predicate ScalarPairs(rt: RecordType, args: Kwargs) {
    forall i :: 0 <= i < |args| ==> args[i].0 in rt.fields && rt.fields[args[i].0].ty == Scalar
  }

  /** Keyword arguments that all name fields declared without a dataclass,
      list or dict type are taken as they are: `rt.from_dict(**kw)` is
      `rt(**kw)`. */
  lemma CoerceScalarKwargs(rt: RecordType, args: Kwargs)
    requires ScalarPairs(rt, args)
    ensures KwMap(args).Keys <= rt.fields.Keys
    ensures Coerce(Record(rt), DictOf(args)) == Success(Instantiate(rt, KwMap(args)))
  {
    CoerceKwargs(rt, args, args);
  }

  /** A keyword argument holding a dictionary of plain values, passed for a
      field declared with record type `inner`, becomes `inner(**kw)`. */
  lemma NestedArgCoerces(rt: RecordType, name: string, inner: RecordType, kw: Kwargs)
    requires name in rt.fields && rt.fields[name].ty == Record(inner)
    requires ScalarPairs(inner, kw)
    ensures KwMap(kw).Keys <= inner.fields.Keys
    ensures ArgCoerces(rt, (name, DictOf(kw)), (name, Instantiate(inner, KwMap(kw))))
  {
    CoerceScalarKwargs(inner, kw);
  }

  /** A list whose every element coerces with `elem` to the element of `ys`
      at the same place becomes the list `ys`. */
  lemma CoerceListTo(elem: TypeDesc, xs: seq<Value>, ys: seq<Value>)
    requires |xs| == |ys| && forall i :: 0 <= i < |xs| ==> Coerce(elem, xs[i]) == Success(ys[i])
    ensures Coerce(ListOf(elem), List(xs)) == Success(List(ys))
  {
    assert forall x :: x in xs ==> Coerce(elem, x).Success?;
    assert Coerce(ListOf(elem), List(xs)).value.items == ys;
  }

  /** Entry by entry, the values of `args` coerce with `val` to those of
      `outs`, under the same keys. */
  predicate ValuesCoerce(val: TypeDesc, args: Kwargs, outs: Kwargs) {
    |args| == |outs| &&
    forall i :: 0 <= i < |args| ==> args[i].0 == outs[i].0 && Coerce(val, args[i].1) == Success(outs[i].1)
  }

  lemma {:induction false} ValuesCoerceEach(val: TypeDesc, args: Kwargs, outs: Kwargs)
    requires ValuesCoerce(val, args, outs)
    ensures Names(args) == Names(outs)
    ensures forall k :: k in KwMap(args) ==> k in KwMap(outs) && Coerce(val, KwMap(args)[k]) == Success(KwMap(outs)[k])
    decreases |args|
  {
    if args != [] {
      ValuesCoerceEach(val, args[..|args| - 1], outs[..|outs| - 1]);
    }
  }

  /** A dictionary whose every value coerces with `V`, to the value `m`
      holds under the same key, becomes a dictionary with the same keys and
      the values of `m`. */
  lemma CoerceMapTo(key: TypeDesc, val: TypeDesc, order: seq<string>, vals: map<string, Value>, m: map<string, Value>)
    requires forall k :: k in order ==> Coerce(val, Item(Dict(order, vals), k)).Success?
    requires (map k | k in order :: Coerce(val, Item(Dict(order, vals), k)).value) == m
    ensures Coerce(MapOf(key, val), Dict(order, vals)) == Success(Dict(order, m))
  {
    var d := Dict(order, vals);
    var m' := map k | k in d.order :: Coerce(val, Item(d, k)).value;
    assert Coerce(MapOf(key, val), d) == Success(Dict(d.order, m'));
    assert m' == m;
  }

  lemma CoercedValues(val: TypeDesc, args: Kwargs, outs: Kwargs)
    requires ValuesCoerce(val, args, outs)
    ensures Names(args) == Names(outs)
    ensures forall k :: k in Names(args) ==> Coerce(val, Item(DictOf(args), k)).Success?
    ensures (map k | k in Names(args) :: Coerce(val, Item(DictOf(args), k)).value) == KwMap(outs)
  {
    ValuesCoerceEach(val, args, outs);
    KwMapKeys(args);
    KwMapKeys(outs);
  }

  /** A `Dict[K, V]` display whose values coerce with `V` to those of `outs`
      becomes the dictionary `outs`, its keys untouched. */
  lemma CoerceDictTo(key: TypeDesc, val: TypeDesc, args: Kwargs, outs: Kwargs)
    requires ValuesCoerce(val, args, outs)
    ensures Coerce(MapOf(key, val), DictOf(args)) == Success(DictOf(outs))
  {
    CoercedValues(val, args, outs);
    CoerceMapTo(key, val, Names(args), KwMap(args), KwMap(outs));
  }

  /** `PosType`, the position of every generator component. */
  datatype PosType = PosType(x: real, y: real, z: real)

  const DefaultPos := PosType(0.0, 0.0, 0.0)

  /** `RgbType`, a colour with three float channels defaulting to 0.0. */
  const RgbTypeRecord := RecordType("RgbType", map[
    "r" := Field(Scalar, Float(0.0)),
    "g" := Field(Scalar, Float(0.0)),
    "b" := Field(Scalar, Float(0.0))
  ])

  /** `Point3D`, which the save schema imports from this file; the file does
      not define it, so it is modelled on the same x/y/z shape as PosType. */
  const Point3DRecord := RecordType("Point3D", map[
    "x" := Field(Scalar, Float(0.0)),
    "y" := Field(Scalar, Float(0.0)),
    "z" := Field(Scalar, Float(0.0))
  ])

  /** The instance `RgbType(r, g, b)`, with channels of any numeric kind. */
  function RgbOf(r: Value, g: Value, b: Value): Value {
    Instance("RgbType", map["r" := r, "g" := g, "b" := b])
  }

  /** The instance `RgbType(r, g, b)` with float channels. */
  function Rgb(r: real, g: real, b: real): Value {
    RgbOf(Float(r), Float(g), Float(b))
  }

  /** The instance `Point3D(x=x, y=y, z=z)`. */
  function Point3D(x: real, y: real, z: real): Value {
    Instance("Point3D", map["x" := Float(x), "y" := Float(y), "z" := Float(z)])
  }

  /** An instance built literally is the one `Instantiate` builds when it
      has the record's name, exactly the record's fields, the supplied value
      under every keyword and the default under every other field. */
  lemma InstanceAgrees(rt: RecordType, kw: map<string, Value>, attrs: map<string, Value>)
    requires kw.Keys <= rt.fields.Keys
    requires attrs.Keys == rt.fields.Keys
    requires forall f :: f in kw ==> attrs[f] == kw[f]
    requires forall f :: f in rt.fields && f !in kw ==> attrs[f] == rt.fields[f].default
    ensures Instantiate(rt, kw) == Instance(rt.name, attrs)
  {
  }

  /** `RgbType(r, g, b)` builds what `RgbOf` writes out; called without
      arguments, the class gives the all-zero colour. */
  lemma RgbConstructor(r: Value, g: Value, b: Value)
    ensures RgbOf(r, g, b) == Instantiate(RgbTypeRecord, map["r" := r, "g" := g, "b" := b])
    ensures Rgb(0.0, 0.0, 0.0) == Default(RgbTypeRecord)
  {
    InstanceAgrees(RgbTypeRecord, map["r" := r, "g" := g, "b" := b], RgbOf(r, g, b).attrs);
    InstanceAgrees(RgbTypeRecord, map[], Rgb(0.0, 0.0, 0.0).attrs);
  }

  /** `Point3D(x=x, y=y, z=z)` builds what `Point3D` writes out; called
      without arguments, the class gives the origin. */
  lemma Point3DConstructor(x: real, y: real, z: real)
    ensures Point3D(x, y, z) == Instantiate(Point3DRecord, map["x" := Float(x), "y" := Float(y), "z" := Float(z)])
    ensures Point3D(0.0, 0.0, 0.0) == Default(Point3DRecord)
  {
    InstanceAgrees(Point3DRecord, map["x" := Float(x), "y" := Float(y), "z" := Float(z)], Point3D(x, y, z).attrs);
    InstanceAgrees(Point3DRecord, map[], Point3D(0.0, 0.0, 0.0).attrs);
  }
}
