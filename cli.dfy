/** Model of ttgen/cli.py: `TabletopGenerator`, which reads a scene
    description, turns each of its component and layout entries into an
    object of the class the entry's `__class__` tag names, and starts the
    save file of the compiled scene. The loaded YAML document is given as
    a `Document`; a module's classes are given as a namespace that maps
    each class name to the class's `schema().load`. */
module Cli {
  import opened Wrappers
  import opened Dataclass
  import opened Simulator

  /** The exceptions loading can raise. */
  datatype LoadError =
    | KeyError(key: string)          // `pop` of a key the entry does not have
    | AttributeError(name: string)   // `pop` on a scalar entry, which has none
    | TypeError(message: string)     // `pop` on a list, or `getattr` with an unknown or non-string name
    | LoaderError(message: string)   // raised by `schema().load`

  /** `class_.schema().load`: builds an object from the entry's remaining
      fields, or fails with a message. */
  type Loader<T> = Value -> Result<T, string>

  /** A module's attributes, as far as the loader uses them: each name `getattr`
      finds, with the loader of the class it names. */
  type Namespace<T> = map<string, Loader<T>>

  /** The parts of the YAML document the generator reads: `name`, the
      `components` mapping in document order, and the `layout` list. */
  datatype Document = Document(name: string, components: seq<(string, Value)>, layout: seq<Value>)

  /** The tag every entry names its class with. */
  const ClassKey := "__class__"

  // ---------------------------------------------------------------------
  // One entry

  /** The keys of `ks` other than `key`, in their order. */
  function Without(ks: seq<string>, key: string): (r: seq<string>)
    ensures forall k :: k in r <==> k in ks && k != key
    ensures |r| <= |ks|
    ensures key !in ks ==> r == ks
  {
    if ks == [] then []
    else if ks[0] == key then Without(ks[1..], key)
    else [ks[0]] + Without(ks[1..], key)
  }

  /** The message of `list.pop` given a string where it expects an index. */
  const ListPopIndex := "'str' object cannot be interpreted as an integer"

  /** `d.pop(key)`: the value under `key`, and the mapping left without it.
      A missing key is a `KeyError` (the call gives no default). A list's
      `pop` takes an index, so a string key is a `TypeError`; any other
      value (a scalar, which the YAML loader reads as a string) has no
      `pop`. */
  function Pop(d: Value, key: string): (r: Result<(Value, Value), LoadError>)
    ensures r.Success? <==> d.Dict? && key in d.order
    ensures d.List? ==> r == Failure(TypeError(ListPopIndex))
    ensures !d.Dict? && !d.List? ==> r == Failure(AttributeError("pop"))
    ensures d.Dict? && key !in d.order ==> r == Failure(KeyError(key))
    ensures r.Success? ==>
              d.Dict? && key in d.order && r.value.0 == Item(d, key) &&
              r.value.1.Dict? && key !in r.value.1.order &&
              (forall k :: k in r.value.1.order <==> k in d.order && k != key) &&
              forall k :: k in r.value.1.order ==> Item(r.value.1, k) == Item(d, k)
  {
    if d.List? then Failure(TypeError(ListPopIndex))
    else if !d.Dict? then Failure(AttributeError("pop"))
    else if key !in d.order then Failure(KeyError(key))
    else Success((Item(d, key), Dict(Without(d.order, key), d.vals - {key})))
  }

  /** `getattr(module, name)` as the generator uses it: a name the module
      does not have becomes the `TypeError` "Invalid <what> class: <name>.";
      a name that is not a string is a `TypeError` of `getattr` itself. */
  function Resolve<T>(ns: Namespace<T>, name: Value, what: string): (r: Result<Loader<T>, LoadError>)
    ensures r.Success? <==> name.Str? && name.s in ns
    ensures r.Success? ==> r.value == ns[name.s]
    ensures name.Str? && name.s !in ns ==> r == Failure(TypeError("Invalid " + what + " class: " + name.s + "."))
  {
    if !name.Str? then Failure(TypeError("attribute name must be string"))
    else if name.s !in ns then Failure(TypeError("Invalid " + what + " class: " + name.s + "."))
    else Success(ns[name.s])
  }

  /** One entry: pop its `__class__`, resolve the class, load the rest. */
  function LoadEntry<T>(entry: Value, ns: Namespace<T>, what: string): Result<T, LoadError> {
    match Pop(entry, ClassKey)
    case Failure(e) => Failure(e)
    case Success((cls, rest)) =>
      match Resolve(ns, cls, what)
      case Failure(e) => Failure(e)
      case Success(load) =>
        match load(rest)
        case Success(c) => Success(c)
        case Failure(m) => Failure(LoaderError(m))
  }

  /** The entry without its tag is what the loader of the tagged class
      receives, and its result is the entry's: a loaded object is the
      entry's object, a loader's message its `LoaderError`. A list entry,
      a missing tag and an unknown class name are the errors above. */
  lemma LoadEntryOutcome<T>(entry: Value, ns: Namespace<T>, what: string)
    ensures entry.List? ==> LoadEntry(entry, ns, what) == Failure(TypeError(ListPopIndex))
    ensures entry.Dict? && ClassKey in entry.order && Item(entry, ClassKey).Str? && Item(entry, ClassKey).s in ns ==>
              match ns[Item(entry, ClassKey).s](Pop(entry, ClassKey).value.1)
              case Success(c) => LoadEntry(entry, ns, what) == Success(c)
              case Failure(m) => LoadEntry(entry, ns, what) == Failure(LoaderError(m))
    ensures entry.Dict? && ClassKey !in entry.order ==> LoadEntry(entry, ns, what) == Failure(KeyError("__class__"))
    ensures entry.Dict? && ClassKey in entry.order && Item(entry, ClassKey).Str? && Item(entry, ClassKey).s !in ns ==>
              LoadEntry(entry, ns, what) == Failure(TypeError("Invalid " + what + " class: " + Item(entry, ClassKey).s + "."))
    ensures LoadEntry(entry, ns, what).Success? ==>
              entry.Dict? && ClassKey in entry.order && Item(entry, ClassKey).Str? && Item(entry, ClassKey).s in ns &&
              var rest := Pop(entry, ClassKey).value.1;
              ClassKey !in rest.order &&
              ns[Item(entry, ClassKey).s](rest) == Success(LoadEntry(entry, ns, what).value)
  {
  }

  // ---------------------------------------------------------------------
  // The component registry and the layout list

  /** The names of an ordered mapping, in order. */
  function Keys<T>(od: seq<(string, T)>): (ks: seq<string>)
    ensures |ks| == |od| && forall i :: 0 <= i < |od| ==> ks[i] == od[i].0
  {
    seq(|od|, i requires 0 <= i < |od| => od[i].0)
  }

  /** `od[k] = v` on an `OrderedDict`: a name already present keeps its
      place and takes the new value, a new name goes last. */
  function Put<T>(od: seq<(string, T)>, k: string, v: T): seq<(string, T)> {
    if od == [] then [(k, v)]
    else if od[0].0 == k then [(k, v)] + od[1..]
    else [od[0]] + Put(od[1..], k, v)
  }

  lemma {:induction false} PutNew<T>(od: seq<(string, T)>, k: string, v: T)
    requires k !in Keys(od)
    ensures Put(od, k, v) == od + [(k, v)]
  {
    if od != [] {
      assert Keys(od[1..]) == Keys(od)[1..];
      PutNew(od[1..], k, v);
    }
  }

  /** No name occurs twice, as in the mapping YAML loads. */
  predicate DistinctNames(entries: seq<(string, Value)>) {
    forall i, j :: 0 <= i < j < |entries| ==> entries[i].0 != entries[j].0
  }

  /** `self.components` after the first loop: each entry loaded in order
      and stored under its name, or the first error. */
  function Registry<C>(entries: seq<(string, Value)>, ns: Namespace<C>): Result<seq<(string, C)>, LoadError>
    decreases |entries|
  {
    if entries == [] then Success([])
    else
      match Registry(entries[..|entries| - 1], ns)
      case Failure(e) => Failure(e)
      case Success(acc) =>
        match LoadEntry(entries[|entries| - 1].1, ns, "component")
        case Failure(e) => Failure(e)
        case Success(c) => Success(Put(acc, entries[|entries| - 1].0, c))
  }

  /** `self.layout` after the second loop: each entry loaded in order, or
      the first error. */
  function LayoutList<L>(entries: seq<Value>, ns: Namespace<L>): Result<seq<L>, LoadError>
    decreases |entries|
  {
    if entries == [] then Success([])
    else
      match LayoutList(entries[..|entries| - 1], ns)
      case Failure(e) => Failure(e)
      case Success(acc) =>
        match LoadEntry(entries[|entries| - 1], ns, "layout")
        case Failure(e) => Failure(e)
        case Success(c) => Success(acc + [c])
  }

  /** The registry is built exactly when every entry loads. */
  lemma {:induction false} RegistrySucceeds<C>(entries: seq<(string, Value)>, ns: Namespace<C>)
    ensures Registry(entries, ns).Success? <==>
            forall i :: 0 <= i < |entries| ==> LoadEntry(entries[i].1, ns, "component").Success?
    decreases |entries|
  {
    if entries != [] {
      var init := entries[..|entries| - 1];
      RegistrySucceeds(init, ns);
      assert forall i :: 0 <= i < |init| ==> init[i] == entries[i];
    }
  }

  /** With distinct names the registry holds every entry's name, in
      document order, with the object loaded from that entry. */
  lemma {:induction false} RegistryContents<C>(entries: seq<(string, Value)>, ns: Namespace<C>)
    requires DistinctNames(entries) && Registry(entries, ns).Success?
    ensures var r := Registry(entries, ns).value;
            |r| == |entries| &&
            forall i :: 0 <= i < |entries| ==>
              r[i].0 == entries[i].0 && Success(r[i].1) == LoadEntry(entries[i].1, ns, "component")
    decreases |entries|
  {
    if entries != [] {
      var n := |entries| - 1;
      var init := entries[..n];
      assert forall i :: 0 <= i < n ==> init[i] == entries[i];
      RegistryContents(init, ns);
      var acc := Registry(init, ns).value;
      assert entries[n].0 !in Keys(acc) by {
        forall i | 0 <= i < n
          ensures Keys(acc)[i] != entries[n].0
        {
        }
      }
      var c := LoadEntry(entries[n].1, ns, "component").value;
      PutNew(acc, entries[n].0, c);
      var r := Registry(entries, ns).value;
      assert r == acc + [(entries[n].0, c)];
      forall i | 0 <= i < |entries|
        ensures r[i].0 == entries[i].0 && Success(r[i].1) == LoadEntry(entries[i].1, ns, "component")
      {
        if i < n {
          assert r[i] == acc[i];
        }
      }
    }
  }

  /** A failed registry stays failed whatever entries follow. */
  lemma {:induction false} RegistryFailurePersists<C>(entries: seq<(string, Value)>, n: nat, ns: Namespace<C>)
    requires n <= |entries| && Registry(entries[..n], ns).Failure?
    ensures Registry(entries, ns) == Registry(entries[..n], ns)
    decreases |entries| - n
  {
    if n < |entries| {
      var init := entries[..|entries| - 1];
      assert init[..n] == entries[..n];
      RegistryFailurePersists(init, n, ns);
    } else {
      assert entries[..n] == entries;
    }
  }

  /** The error is that of the first entry that does not load. */
  lemma RegistryFirstError<C>(entries: seq<(string, Value)>, k: nat, ns: Namespace<C>)
    requires k < |entries| && LoadEntry(entries[k].1, ns, "component").Failure?
    requires forall i :: 0 <= i < k ==> LoadEntry(entries[i].1, ns, "component").Success?
    ensures Registry(entries, ns) == Failure(LoadEntry(entries[k].1, ns, "component").error)
  {
    var init := entries[..k];
    assert forall i :: 0 <= i < k ==> init[i] == entries[i];
    RegistrySucceeds(init, ns);
    var upto := entries[..k + 1];
    assert upto[..k] == init && upto[k] == entries[k];
    assert Registry(upto, ns) == Failure(LoadEntry(entries[k].1, ns, "component").error);
    RegistryFailurePersists(entries, k + 1, ns);
  }

  /** The layout list is built exactly when every entry loads. */
  lemma {:induction false} LayoutSucceeds<L>(entries: seq<Value>, ns: Namespace<L>)
    ensures LayoutList(entries, ns).Success? <==>
            forall i :: 0 <= i < |entries| ==> LoadEntry(entries[i], ns, "layout").Success?
    decreases |entries|
  {
    if entries != [] {
      var init := entries[..|entries| - 1];
      LayoutSucceeds(init, ns);
      assert forall i :: 0 <= i < |init| ==> init[i] == entries[i];
    }
  }

  /** A built layout list holds one object per entry, in document order. */
  lemma {:induction false} LayoutContents<L>(entries: seq<Value>, ns: Namespace<L>)
    requires LayoutList(entries, ns).Success?
    ensures var r := LayoutList(entries, ns).value;
            |r| == |entries| && forall i :: 0 <= i < |entries| ==> Success(r[i]) == LoadEntry(entries[i], ns, "layout")
    decreases |entries|
  {
    if entries != [] {
      var n := |entries| - 1;
      var init := entries[..n];
      LayoutContents(init, ns);
      var acc := LayoutList(init, ns).value;
      var r := LayoutList(entries, ns).value;
      assert r == acc + [LoadEntry(entries[n], ns, "layout").value];
      forall i | 0 <= i < |entries|
        ensures Success(r[i]) == LoadEntry(entries[i], ns, "layout")
      {
        if i < n {
          assert r[i] == acc[i] && init[i] == entries[i];
        }
      }
    }
  }

  lemma {:induction false} LayoutFailurePersists<L>(entries: seq<Value>, n: nat, ns: Namespace<L>)
    requires n <= |entries| && LayoutList(entries[..n], ns).Failure?
    ensures LayoutList(entries, ns) == LayoutList(entries[..n], ns)
    decreases |entries| - n
  {
    if n < |entries| {
      var init := entries[..|entries| - 1];
      assert init[..n] == entries[..n];
      LayoutFailurePersists(init, n, ns);
    } else {
      assert entries[..n] == entries;
    }
  }

  /** The error is that of the first layout entry that does not load. */
  lemma LayoutFirstError<L>(entries: seq<Value>, k: nat, ns: Namespace<L>)
    requires k < |entries| && LoadEntry(entries[k], ns, "layout").Failure?
    requires forall i :: 0 <= i < k ==> LoadEntry(entries[i], ns, "layout").Success?
    ensures LayoutList(entries, ns) == Failure(LoadEntry(entries[k], ns, "layout").error)
  {
    var init := entries[..k];
    assert forall i :: 0 <= i < k ==> init[i] == entries[i];
    LayoutSucceeds(init, ns);
    var upto := entries[..k + 1];
    assert upto[..k] == init && upto[k] == entries[k];
    assert LayoutList(upto, ns) == Failure(LoadEntry(entries[k], ns, "layout").error);
    LayoutFailurePersists(entries, k + 1, ns);
  }

  /** The first loop of `__init__`. */
  method LoadComponents<C>(entries: seq<(string, Value)>, ns: Namespace<C>) returns (r: Result<seq<(string, C)>, LoadError>)
    ensures r == Registry(entries, ns)
  {
    var components: seq<(string, C)> := [];
    var i := 0;
    while i < |entries|
      invariant 0 <= i <= |entries|
      invariant Registry(entries[..i], ns) == Success(components)
    {
      assert entries[..i + 1][..i] == entries[..i];
      var c := LoadEntry(entries[i].1, ns, "component");
      if c.Failure? {
        RegistryFailurePersists(entries, i + 1, ns);
        return Failure(c.error);
      }
      components := Put(components, entries[i].0, c.value);
      i := i + 1;
    }
    assert entries[..i] == entries;
    r := Success(components);
  }

  /** The second loop of `__init__`. */
  method LoadLayout<L>(entries: seq<Value>, ns: Namespace<L>) returns (r: Result<seq<L>, LoadError>)
    ensures r == LayoutList(entries, ns)
  {
    var layout: seq<L> := [];
    var i := 0;
    while i < |entries|
      invariant 0 <= i <= |entries|
      invariant LayoutList(entries[..i], ns) == Success(layout)
    {
      assert entries[..i + 1][..i] == entries[..i];
      var c := LoadEntry(entries[i], ns, "layout");
      if c.Failure? {
        LayoutFailurePersists(entries, i + 1, ns);
        return Failure(c.error);
      }
      layout := layout + [c.value];
      i := i + 1;
    }
    assert entries[..i] == entries;
    r := Success(layout);
  }

  // ---------------------------------------------------------------------
  // The generator

  /** `Instance.attr = x` on a save record. */
  function SetAttr(v: Value, name: string, x: Value): (r: Value)
    requires v.Instance?
    ensures r.Instance? && r.cls == v.cls && r.attrs.Keys == v.attrs.Keys + {name}
    ensures r.attrs[name] == x && forall f :: f in v.attrs && f != name ==> r.attrs[f] == v.attrs[f]
  {
    Instance(v.cls, v.attrs[name := x])
  }

  class TabletopGenerator<C, L> {
    var name: string
    var components: seq<(string, C)>
    var layout: seq<L>

    constructor(name: string, components: seq<(string, C)>, layout: seq<L>)
      ensures this.name == name && this.components == components && this.layout == layout
    {
      this.name := name;
      this.components := components;
      this.layout := layout;
    }

    /** The start of `compile`: a new save whose `SaveName` and `GameMode`
        are the scene's name, every other field at its default. */
    method Compile() returns (ttsim: Value)
      ensures ttsim.Instance? && ttsim.cls == Default(TabletopSimulator).cls
      ensures ttsim.attrs == Default(TabletopSimulator).attrs["SaveName" := Str(name)]["GameMode" := Str(name)]
    {
      ttsim := Default(TabletopSimulator);
      ttsim := SetAttr(ttsim, "SaveName", Str(name));
      ttsim := SetAttr(ttsim, "GameMode", Str(name));
    }

    /** `calculate_layout`: its body is `pass`, so neither the generator nor
        the save it is given changes. */
    method CalculateLayout(ttsim: Value) returns (after: Value)
      ensures after == ttsim
      ensures unchanged(this)
    {
      after := ttsim;
    }
  }

  /** `TabletopGenerator(filename)` on the loaded document: the
      components first, then the layout; the first error ends it. */
  method Load<C, L>(doc: Document, componentNs: Namespace<C>, layoutNs: Namespace<L>)
    returns (r: Result<TabletopGenerator<C, L>, LoadError>)
    ensures Registry(doc.components, componentNs).Failure? ==>
              r == Failure(Registry(doc.components, componentNs).error)
    ensures Registry(doc.components, componentNs).Success? && LayoutList(doc.layout, layoutNs).Failure? ==>
              r == Failure(LayoutList(doc.layout, layoutNs).error)
    ensures r.Success? ==>
              Registry(doc.components, componentNs).Success? && LayoutList(doc.layout, layoutNs).Success? &&
              fresh(r.value) && r.value.name == doc.name &&
              r.value.components == Registry(doc.components, componentNs).value &&
              r.value.layout == LayoutList(doc.layout, layoutNs).value
    ensures Registry(doc.components, componentNs).Success? && LayoutList(doc.layout, layoutNs).Success? ==>
              r.Success?
  {
    var components := LoadComponents(doc.components, componentNs);
    if components.Failure? {
      return Failure(components.error);
    }
    var layout := LoadLayout(doc.layout, layoutNs);
    if layout.Failure? {
      return Failure(layout.error);
    }
    var g := new TabletopGenerator(doc.name, components.value, layout.value);
    r := Success(g);
  }
}
