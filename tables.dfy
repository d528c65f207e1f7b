/** Model of `FlexTable` and `HardwoodTable` in
    ttgen/tabletop_generator/components.py: tables assembled from locked
    asset bundles. A flexible table stretches the legs and sides of an
    18 by 18 table to the requested size. */
module Tables {
  import opened Wrappers
  import opened Dataclass
  import opened Simulator
  import opened Components
  import opened Sequences

  // ---------------------------------------------------------------------
  // Asset bundles

  /** The keyword arguments of one locked asset bundle. */
  function BundleArgs(transform: Kwargs, bundle: Kwargs, guid: string): Kwargs {
    [("Locked", Bool(true)),
     ("Transform", DictOf(transform)),
     ("CustomAssetbundle", DictOf(bundle)),
     ("GUID", Str(guid))]
  }

  function BundleOuts(transform: Kwargs, bundle: Kwargs, guid: string): Kwargs
    requires ScalarPairs(TabletopTransform, transform) && ScalarPairs(CustomAssetBundleField, bundle)
  {
    KwargsDeclared(TabletopTransform, transform);
    KwargsDeclared(CustomAssetBundleField, bundle);
    [("Locked", Bool(true)),
     ("Transform", Instantiate(TabletopTransform, KwMap(transform))),
     ("CustomAssetbundle", Instantiate(CustomAssetBundleField, KwMap(bundle))),
     ("GUID", Str(guid))]
  }

  lemma BundleFieldTypes()
    ensures "Locked" in TabletopCustomAssetBundle.fields && TabletopCustomAssetBundle.fields["Locked"].ty == Scalar
    ensures "Transform" in TabletopCustomAssetBundle.fields &&
            TabletopCustomAssetBundle.fields["Transform"].ty == Record(TabletopTransform)
  {
  }

  lemma BundleFieldTypesB()
    ensures "CustomAssetbundle" in TabletopCustomAssetBundle.fields &&
            TabletopCustomAssetBundle.fields["CustomAssetbundle"].ty == Record(CustomAssetBundleField)
    ensures "GUID" in TabletopCustomAssetBundle.fields && TabletopCustomAssetBundle.fields["GUID"].ty == Scalar
  {
  }

  lemma BundleOutsDeclared(transform: Kwargs, bundle: Kwargs, guid: string)
    requires ScalarPairs(TabletopTransform, transform) && ScalarPairs(CustomAssetBundleField, bundle)
    ensures KwMap(BundleOuts(transform, bundle, guid)).Keys <= TabletopCustomAssetBundle.fields.Keys
  {
    var outs := BundleOuts(transform, bundle, guid);
    forall i | 0 <= i < |outs| ensures outs[i].0 in TabletopCustomAssetBundle.fields {
      if i < 2 {
        BundleFieldTypes();
      } else {
        BundleFieldTypesB();
      }
    }
    KwargsDeclared(TabletopCustomAssetBundle, outs);
  }

  /** `TabletopCustomAssetBundle(Locked=True, Transform=..., CustomAssetbundle=...,
      GUID=guid)`. */
  function BundleObject(transform: Kwargs, bundle: Kwargs, guid: string): Value
    requires ScalarPairs(TabletopTransform, transform) && ScalarPairs(CustomAssetBundleField, bundle)
  {
    BundleOutsDeclared(transform, bundle, guid);
    Instantiate(TabletopCustomAssetBundle, KwMap(BundleOuts(transform, bundle, guid)))
  }

  lemma BundleArgsCoerce(transform: Kwargs, bundle: Kwargs, guid: string)
    requires ScalarPairs(TabletopTransform, transform) && ScalarPairs(CustomAssetBundleField, bundle)
    ensures FromDict(TabletopCustomAssetBundle, DictOf(BundleArgs(transform, bundle, guid))) ==
            Success(BundleObject(transform, bundle, guid))
  {
    var args := BundleArgs(transform, bundle, guid);
    var outs := BundleOuts(transform, bundle, guid);
    forall i | 0 <= i < |args| ensures ArgCoerces(TabletopCustomAssetBundle, args[i], outs[i]) {
      if i < 2 {
        BundleFieldTypes();
        if i == 1 {
          CoerceScalarKwargs(TabletopTransform, transform);
        }
      } else {
        BundleFieldTypesB();
        if i == 2 {
          CoerceScalarKwargs(CustomAssetBundleField, bundle);
        }
      }
    }
    CoerceKwargs(TabletopCustomAssetBundle, args, outs);
  }

  /** `TabletopCustomAssetBundle.from_dict(Locked=True, Transform=transform,
      CustomAssetbundle=bundle, GUID=guid)`: transforms and bundle settings
      made of plain numbers and strings always coerce. */
  function BundleFromDict(transform: Kwargs, bundle: Kwargs, guid: string): (r: Result<Value, CoerceError>)
    requires ScalarPairs(TabletopTransform, transform) && ScalarPairs(CustomAssetBundleField, bundle)
    ensures r == Success(BundleObject(transform, bundle, guid))
  {
    BundleArgsCoerce(transform, bundle, guid);
    FromDict(TabletopCustomAssetBundle, DictOf(BundleArgs(transform, bundle, guid)))
  }

  /** The settings of the bundle an object loads, from its URL and its
      material. */
  function BundleSettings(url: string, material: int): Kwargs {
    [("AssetbundleURL", Str(url)), ("AssetbundleSecondaryURL", Str("")),
     ("MaterialIndex", Int(material)), ("TypeIndex", Int(4)), ("LoopingEffectIndex", Int(0))]
  }

  lemma BundleSettingsScalar(url: string, material: int)
    ensures ScalarPairs(CustomAssetBundleField, BundleSettings(url, material))
  {
  }

  // ---------------------------------------------------------------------
  // FlexTable

  /** `FlexTable.DEFAULT_SIZE`. */
  const DefaultSize: real := 18.0

  const LegUrl := "http://cloud-3.steamusercontent.com/ugc/879750610978795929/723C50F43FAB3DE3DC12CB8460536E8CB34B60A3/"
  const SideUrl := "http://cloud-3.steamusercontent.com/ugc/879750610978796471/14ED0DBD593370733A0309B0950004F33EB9FACA/"
  const TopMeshUrl := "http://cloud-3.steamusercontent.com/ugc/879750610978796176/4A5A65543B98BCFBF57E910D06EC984208223D38/"
  const TopDiffuseUrl := "https://i.imgur.com/N0O6aqj.jpg"

  /** A generator `FlexTable`; its `generate` changes nothing on the
      component. */
  datatype FlexTable = FlexTable(position: PosType, tableWidth: real, tableHeight: real)
  {
    function WidthScale(): real {
      tableWidth / DefaultSize
    }

    function DepthScale(): real {
      tableHeight / DefaultSize
    }

    function WidthPos(): real {
      (WidthScale() - 1.0) * DefaultSize
    }

    function DepthPos(): real {
      (DepthScale() - 1.0) * DefaultSize
    }

    /** `transform_legs`: one leg per corner, each turned a further quarter. */
    function LegTransforms(): (ts: seq<Kwargs>)
      ensures |ts| == 4
    {
      var w := WidthPos();
      var d := DepthPos();
      [[("posY", F(-9.0)), ("rotY", F(0.0)), ("posX", F(-w)), ("posZ", F(-d))],
       [("posY", F(-9.0)), ("rotY", F(90.0)), ("posX", F(-w)), ("posZ", F(d))],
       [("posY", F(-9.0)), ("rotY", F(180.0)), ("posX", F(w)), ("posZ", F(d))],
       [("posY", F(-9.0)), ("rotY", F(270.0)), ("posX", F(w)), ("posZ", F(-d))]]
    }

    /** `transform_sides`: one side per edge, stretched along it. */
    function SideTransforms(): (ts: seq<Kwargs>)
      ensures |ts| == 4
    {
      var w := WidthPos();
      var d := DepthPos();
      [[("posY", F(-9.0)), ("rotY", F(0.0)), ("posZ", F(-d)), ("scaleX", F(WidthScale()))],
       [("posY", F(-9.0)), ("rotY", F(90.0)), ("posX", F(-w)), ("scaleX", F(DepthScale()))],
       [("posY", F(-9.0)), ("rotY", F(180.0)), ("posZ", F(d)), ("scaleX", F(WidthScale()))],
       [("posY", F(-9.0)), ("rotY", F(270.0)), ("posX", F(w)), ("scaleX", F(DepthScale()))]]
    }

    /** `generate`: the four legs and four sides, each locked and with its
        own fresh GUID, and then the table top. */
    method Generate(name: string, dest: string, g: Globals) returns (r: Result<seq<Value>, CoerceError>)
      modifies g
      ensures g.guidsDrawn == old(g.guidsDrawn) + 8 && g.deckId == old(g.deckId)
      ensures AllScalar(LegTransforms()) && AllScalar(SideTransforms())
      ensures r.Success? && |r.value| == 9 && r.value[8] == TopObject(WidthScale(), DepthScale())
      ensures r.value[..8] == Expected(LegTransforms(), SideTransforms(), g.uuid4, old(g.guidsDrawn))
    {
      var legs := LegTransforms();
      var sides := SideTransforms();
      TransformsScalar(this);
      var result := MakePieces(legs, sides, g);
      var top := TopFromDict(WidthScale(), DepthScale()).value;
      assert (result + [top])[..8] == result;
      result := result + [top];
      r := Success(result);
    }
  }

  /** `FlexTable()`: the default 18 by 18 table at the origin. */
  const DefaultFlexTable := FlexTable(DefaultPos, 18.0, 18.0)

  /** The scales are the table's size in default sizes, and the offsets how
      far each side lies beyond the default table's. */
  lemma FlexTableGeometry(t: FlexTable)
    ensures t.WidthScale() * DefaultSize == t.tableWidth && t.DepthScale() * DefaultSize == t.tableHeight
    ensures t.WidthPos() == t.tableWidth - 18.0 && t.DepthPos() == t.tableHeight - 18.0
  {
  }

  /** The default table is unscaled and its legs and sides sit at no
      offset. */
  lemma DefaultFlexTableGeometry()
    ensures DefaultFlexTable.WidthScale() == 1.0 && DefaultFlexTable.DepthScale() == 1.0
    ensures DefaultFlexTable.WidthPos() == 0.0 && DefaultFlexTable.DepthPos() == 0.0
  {
  }

  /** Every transform in `ts` is made of plain numbers. */
  predicate AllScalar(ts: seq<Kwargs>) {
    forall k :: 0 <= k < |ts| ==> ScalarPairs(TabletopTransform, ts[k])
  }

  lemma TransformsScalar(t: FlexTable)
    ensures AllScalar(t.LegTransforms()) && AllScalar(t.SideTransforms())
  {
  }

  /** The `j`-th object the loop emits: leg `j / 2` at even places, side
      `j / 2` at odd ones, each locked and with its own GUID. */
  function PieceOf(legs: seq<Kwargs>, sides: seq<Kwargs>, j: nat, guid: string): Value
    requires |legs| == 4 && |sides| == 4 && AllScalar(legs) && AllScalar(sides)
    requires j < 8
  {
    PieceParts(legs, sides, j);
    BundleObject(PieceTransform(legs, sides, j), PieceSettings(j), guid)
  }

  /** The transform of the `j`-th object. */
  function PieceTransform(legs: seq<Kwargs>, sides: seq<Kwargs>, j: nat): Kwargs
    requires |legs| == 4 && |sides| == 4 && j < 8
  {
    if j % 2 == 0 then legs[j / 2] else sides[j / 2]
  }

  /** The bundle settings of the `j`-th object: legs and sides load
      different bundles with different materials. */
  function PieceSettings(j: nat): Kwargs {
    if j % 2 == 0 then BundleSettings(LegUrl, 2) else BundleSettings(SideUrl, 1)
  }

  lemma PieceParts(legs: seq<Kwargs>, sides: seq<Kwargs>, j: nat)
    requires |legs| == 4 && |sides| == 4 && AllScalar(legs) && AllScalar(sides)
    requires j < 8
    ensures ScalarPairs(TabletopTransform, PieceTransform(legs, sides, j))
    ensures ScalarPairs(CustomAssetBundleField, PieceSettings(j))
  {
    BundleSettingsScalar(LegUrl, 2);
    BundleSettingsScalar(SideUrl, 1);
  }

  /** `TabletopCustomAssetBundle.from_dict` of the `j`-th object: it always
      coerces. */
  method LoadPiece(legs: seq<Kwargs>, sides: seq<Kwargs>, j: nat, guid: string) returns (r: Result<Value, CoerceError>)
    requires |legs| == 4 && |sides| == 4 && AllScalar(legs) && AllScalar(sides)
    requires j < 8
    ensures r == Success(PieceOf(legs, sides, j, guid))
  {
    PieceParts(legs, sides, j);
    r := BundleFromDict(PieceTransform(legs, sides, j), PieceSettings(j), guid);
  }

  /** The eight objects the loop emits, in order, the first GUID being the
      `start`-th drawn. */
  function Expected(legs: seq<Kwargs>, sides: seq<Kwargs>, uuid4: nat -> string, start: nat): (want: seq<Value>)
    requires |legs| == 4 && |sides| == 4 && AllScalar(legs) && AllScalar(sides)
    ensures |want| == 8
  {
    seq(8, j requires 0 <= j < 8 => PieceOf(legs, sides, j, Guid(uuid4, start + j)))
  }

  lemma ExpectedAt(legs: seq<Kwargs>, sides: seq<Kwargs>, uuid4: nat -> string, start: nat, m: nat, n: nat)
    requires |legs| == 4 && |sides| == 4 && AllScalar(legs) && AllScalar(sides) && m < 8
    requires n == start + m
    ensures Expected(legs, sides, uuid4, start)[m] == PieceOf(legs, sides, m, Guid(uuid4, n))
  {
  }

  /** The loop of `generate`: leg `i` and then side `i` for each turn `i`,
      each with a fresh GUID. */
  method MakePieces(legs: seq<Kwargs>, sides: seq<Kwargs>, g: Globals) returns (ps: seq<Value>)
    requires |legs| == 4 && |sides| == 4 && AllScalar(legs) && AllScalar(sides)
    modifies g
    ensures g.guidsDrawn == old(g.guidsDrawn) + 8 && g.deckId == old(g.deckId)
    ensures ps == Expected(legs, sides, g.uuid4, old(g.guidsDrawn))
  {
    var start := g.guidsDrawn;
    ghost var want := Expected(legs, sides, g.uuid4, start);
    ps := [];
    for i := 0 to 4
      invariant g.guidsDrawn == start + 2 * i && g.deckId == old(g.deckId)
      invariant |ps| == 2 * i && PrefixOf(ps, want, 2 * i)
    {
      ghost var n := g.guidsDrawn;
      var guid := g.GenGuid();
      var leg := LoadPiece(legs, sides, 2 * i, guid);
      ExpectedAt(legs, sides, g.uuid4, start, 2 * i, n);
      PrefixSnoc(ps, leg.value, want, 2 * i);
      ps := ps + [leg.value];
      n := g.guidsDrawn;
      guid := g.GenGuid();
      var side := LoadPiece(legs, sides, 2 * i + 1, guid);
      ExpectedAt(legs, sides, g.uuid4, start, 2 * i + 1, n);
      PrefixSnoc(ps, side.value, want, 2 * i + 1);
      ps := ps + [side.value];
    }
    PrefixWhole(ps, want);
  }

  /** Turn `k` of the loop emits leg `k` with the leg bundle (material 2)
      and then side `k` with the side bundle (material 1). */
  lemma PieceOrder(legs: seq<Kwargs>, sides: seq<Kwargs>, k: nat)
    requires |legs| == 4 && |sides| == 4 && k < 4
    ensures PieceTransform(legs, sides, 2 * k) == legs[k] && PieceSettings(2 * k) == BundleSettings(LegUrl, 2)
    ensures PieceTransform(legs, sides, 2 * k + 1) == sides[k] && PieceSettings(2 * k + 1) == BundleSettings(SideUrl, 1)
  {
    assert (2 * k) / 2 == k && (2 * k) % 2 == 0;
    assert (2 * k + 1) / 2 == k && (2 * k + 1) % 2 == 1;
  }

  // ---------------------------------------------------------------------
  // The table top

  function TopTransformArgs(ws: real, ds: real): Kwargs {
    [("posY", F(-9.0)), ("scaleX", F(ws)), ("scaleZ", F(ds))]
  }

  function TopMeshArgs(): Kwargs {
    [("MeshURL", Str(TopMeshUrl)), ("DiffuseURL", Str(TopDiffuseUrl))]
  }

  function TopArgs(ws: real, ds: real): Kwargs {
    [("Transform", DictOf(TopTransformArgs(ws, ds))),
     ("Locked", Bool(true)),
     ("CustomMesh", DictOf(TopMeshArgs()))]
  }

  lemma TopScalar(ws: real, ds: real)
    ensures ScalarPairs(TabletopTransform, TopTransformArgs(ws, ds))
    ensures ScalarPairs(CustomMeshField, TopMeshArgs())
  {
  }

  function TopOuts(ws: real, ds: real): Kwargs {
    TopScalar(ws, ds);
    KwargsDeclared(TabletopTransform, TopTransformArgs(ws, ds));
    KwargsDeclared(CustomMeshField, TopMeshArgs());
    [("Transform", Instantiate(TabletopTransform, KwMap(TopTransformArgs(ws, ds)))),
     ("Locked", Bool(true)),
     ("CustomMesh", Instantiate(CustomMeshField, KwMap(TopMeshArgs())))]
  }

  lemma TopTransformType()
    ensures "Transform" in TabletopCustomModel.fields && TabletopCustomModel.fields["Transform"].ty == Record(TabletopTransform)
  {
  }

  lemma TopLockedType()
    ensures "Locked" in TabletopCustomModel.fields && TabletopCustomModel.fields["Locked"].ty == Scalar
  {
    LockedType();
  }

  lemma LockedType()
    ensures "Locked" in ObjectStateFields && ObjectStateFields["Locked"].ty == Scalar
  {
  }

  lemma TopMeshType()
    ensures "CustomMesh" in TabletopCustomModel.fields && TabletopCustomModel.fields["CustomMesh"].ty == Record(CustomMeshField)
  {
  }

  lemma TopOutsDeclared(ws: real, ds: real)
    ensures KwMap(TopOuts(ws, ds)).Keys <= TabletopCustomModel.fields.Keys
  {
    var outs := TopOuts(ws, ds);
    forall i | 0 <= i < |outs| ensures outs[i].0 in TabletopCustomModel.fields {
      if i == 0 {
        TopTransformType();
      } else if i == 1 {
        TopLockedType();
      } else {
        TopMeshType();
      }
    }
    KwargsDeclared(TabletopCustomModel, outs);
  }

  /** The locked table top, scaled to the table; it has no GUID of its own. */
  function TopObject(ws: real, ds: real): Value {
    TopOutsDeclared(ws, ds);
    Instantiate(TabletopCustomModel, KwMap(TopOuts(ws, ds)))
  }

  lemma TopTransformArg(ws: real, ds: real)
    ensures ArgCoerces(TabletopCustomModel, TopArgs(ws, ds)[0], TopOuts(ws, ds)[0])
  {
    TopTransformType();
    TopScalar(ws, ds);
    CoerceScalarKwargs(TabletopTransform, TopTransformArgs(ws, ds));
  }

  lemma TopLockedArg(ws: real, ds: real)
    ensures ArgCoerces(TabletopCustomModel, TopArgs(ws, ds)[1], TopOuts(ws, ds)[1])
  {
    TopLockedType();
  }

  lemma TopMeshArg(ws: real, ds: real)
    ensures ArgCoerces(TabletopCustomModel, TopArgs(ws, ds)[2], TopOuts(ws, ds)[2])
  {
    TopMeshType();
    TopScalar(ws, ds);
    CoerceScalarKwargs(CustomMeshField, TopMeshArgs());
  }

  lemma TopArgsCoerce(ws: real, ds: real)
    ensures FromDict(TabletopCustomModel, DictOf(TopArgs(ws, ds))) == Success(TopObject(ws, ds))
  {
    var args := TopArgs(ws, ds);
    var outs := TopOuts(ws, ds);
    forall i | 0 <= i < |args| ensures ArgCoerces(TabletopCustomModel, args[i], outs[i]) {
      if i == 0 {
        TopTransformArg(ws, ds);
      } else if i == 1 {
        TopLockedArg(ws, ds);
      } else {
        TopMeshArg(ws, ds);
      }
    }
    CoerceKwargs(TabletopCustomModel, args, outs);
  }

  function TopFromDict(ws: real, ds: real): (r: Result<Value, CoerceError>)
    ensures r == Success(TopObject(ws, ds))
  {
    TopArgsCoerce(ws, ds);
    FromDict(TabletopCustomModel, DictOf(TopArgs(ws, ds)))
  }

  // ---------------------------------------------------------------------
  // HardwoodTable

  /** A generator `HardwoodTable`: a fixed table, wherever the component is
      placed. */
  datatype HardwoodTable = HardwoodTable(position: PosType)
  {
    /** `generate`: one locked hardwood table with a fresh GUID. */
    method Generate(name: string, dest: string, g: Globals) returns (r: Result<seq<Value>, CoerceError>)
      modifies g
      ensures g.guidsDrawn == old(g.guidsDrawn) + 1 && g.deckId == old(g.deckId)
      ensures r == Success([HardwoodObject(Guid(g.uuid4, old(g.guidsDrawn)))])
    {
      var guid := g.GenGuid();
      r := HardwoodResult(guid);
    }
  }

  function HardwoodTransformArgs(): Kwargs {
    [("posX", F(0.0)), ("posY", F(-1.9)), ("posZ", F(0.0)), ("rotY", F(90.0)),
     ("scaleX", F(7.5)), ("scaleY", F(6.75)), ("scaleZ", F(7.0))]
  }

  function HardwoodColourArgs(): Kwargs {
    [("r", F(0.6103)), ("g", F(0.4045)), ("b", F(0.3860))]
  }

  const HardwoodUrl := "chry.me/tts/3droom/hardwood_table.unity3d"

  function HardwoodArgs(guid: string): Kwargs {
    [("Locked", Bool(true)),
     ("Transform", DictOf(HardwoodTransformArgs())),
     ("ColorDiffuse", DictOf(HardwoodColourArgs())),
     ("CustomAssetbundle", DictOf(BundleSettings(HardwoodUrl, 1))),
     ("GUID", Str(guid))]
  }

  lemma HardwoodTransformScalar()
    ensures ScalarPairs(TabletopTransform, HardwoodTransformArgs())
  {
  }

  lemma HardwoodColourScalar()
    ensures ScalarPairs(RgbTypeRecord, HardwoodColourArgs())
  {
  }

  function HardwoodOuts(guid: string): Kwargs {
    HardwoodTransformScalar();
    HardwoodColourScalar();
    BundleSettingsScalar(HardwoodUrl, 1);
    KwargsDeclared(TabletopTransform, HardwoodTransformArgs());
    KwargsDeclared(RgbTypeRecord, HardwoodColourArgs());
    KwargsDeclared(CustomAssetBundleField, BundleSettings(HardwoodUrl, 1));
    [("Locked", Bool(true)),
     ("Transform", Instantiate(TabletopTransform, KwMap(HardwoodTransformArgs()))),
     ("ColorDiffuse", Instantiate(RgbTypeRecord, KwMap(HardwoodColourArgs()))),
     ("CustomAssetbundle", Instantiate(CustomAssetBundleField, KwMap(BundleSettings(HardwoodUrl, 1)))),
     ("GUID", Str(guid))]
  }

  lemma HardwoodColourType()
    ensures "ColorDiffuse" in TabletopCustomAssetBundle.fields &&
            TabletopCustomAssetBundle.fields["ColorDiffuse"].ty == Record(RgbTypeRecord)
  {
  }

  lemma HardwoodOutsDeclared(guid: string)
    ensures KwMap(HardwoodOuts(guid)).Keys <= TabletopCustomAssetBundle.fields.Keys
  {
    var outs := HardwoodOuts(guid);
    HardwoodKeysDeclared(outs[0].1, outs[1].1, outs[2].1, outs[3].1, outs[4].1);
  }

  /** The keys of the hardwood table's arguments, whatever their values. */
  lemma HardwoodKeysDeclared(locked: Value, transform: Value, colour: Value, bundle: Value, guid: Value)
    ensures KwMap([("Locked", locked), ("Transform", transform), ("ColorDiffuse", colour),
                   ("CustomAssetbundle", bundle), ("GUID", guid)]).Keys <= TabletopCustomAssetBundle.fields.Keys
  {
    var outs := [("Locked", locked), ("Transform", transform), ("ColorDiffuse", colour),
                 ("CustomAssetbundle", bundle), ("GUID", guid)];
    forall i | 0 <= i < |outs| ensures outs[i].0 in TabletopCustomAssetBundle.fields {
      if i < 2 {
        BundleFieldTypes();
      } else if i == 2 {
        HardwoodColourType();
      } else {
        BundleFieldTypesB();
      }
    }
    KwargsDeclared(TabletopCustomAssetBundle, outs);
  }

  /** The hardwood table: locked, turned a quarter, sunk 1.9 below the table
      plane, tinted with its wood colour. */
  function HardwoodObject(guid: string): Value {
    HardwoodOutsDeclared(guid);
    Instantiate(TabletopCustomAssetBundle, KwMap(HardwoodOuts(guid)))
  }

  lemma HardwoodLockedArg(guid: string)
    ensures ArgCoerces(TabletopCustomAssetBundle, HardwoodArgs(guid)[0], HardwoodOuts(guid)[0])
  {
    BundleFieldTypes();
  }

  lemma HardwoodTransformArg(guid: string)
    ensures ArgCoerces(TabletopCustomAssetBundle, HardwoodArgs(guid)[1], HardwoodOuts(guid)[1])
  {
    BundleFieldTypes();
    HardwoodTransformScalar();
    CoerceScalarKwargs(TabletopTransform, HardwoodTransformArgs());
  }

  lemma HardwoodColourArg(guid: string)
    ensures ArgCoerces(TabletopCustomAssetBundle, HardwoodArgs(guid)[2], HardwoodOuts(guid)[2])
  {
    HardwoodColourType();
    HardwoodColourScalar();
    CoerceScalarKwargs(RgbTypeRecord, HardwoodColourArgs());
  }

  lemma HardwoodBundleArg(guid: string)
    ensures ArgCoerces(TabletopCustomAssetBundle, HardwoodArgs(guid)[3], HardwoodOuts(guid)[3])
  {
    BundleFieldTypesB();
    BundleSettingsScalar(HardwoodUrl, 1);
    CoerceScalarKwargs(CustomAssetBundleField, BundleSettings(HardwoodUrl, 1));
  }

  lemma HardwoodGuidArg(guid: string)
    ensures ArgCoerces(TabletopCustomAssetBundle, HardwoodArgs(guid)[4], HardwoodOuts(guid)[4])
  {
    BundleFieldTypesB();
  }

  lemma HardwoodArgsCoerce(guid: string)
    ensures FromDict(TabletopCustomAssetBundle, DictOf(HardwoodArgs(guid))) == Success(HardwoodObject(guid))
  {
    var args := HardwoodArgs(guid);
    var outs := HardwoodOuts(guid);
    forall i | 0 <= i < |args| ensures ArgCoerces(TabletopCustomAssetBundle, args[i], outs[i]) {
      if i == 0 {
        HardwoodLockedArg(guid);
      } else if i == 1 {
        HardwoodTransformArg(guid);
      } else if i == 2 {
        HardwoodColourArg(guid);
      } else if i == 3 {
        HardwoodBundleArg(guid);
      } else {
        HardwoodGuidArg(guid);
      }
    }
    CoerceKwargs(TabletopCustomAssetBundle, args, outs);
  }

  /** The `return` of `generate`: the table's `from_dict`, as a one-element
      list; the coercion always succeeds. */
  function HardwoodResult(guid: string): (r: Result<seq<Value>, CoerceError>)
    ensures r == Success([HardwoodObject(guid)])
  {
    HardwoodArgsCoerce(guid);
    var obj := FromDict(TabletopCustomAssetBundle, DictOf(HardwoodArgs(guid)));
    match obj
    case Success(v) => Success([v])
    case Failure(e) => Failure(e)
  }

  /** The wood colour is the RGB record (0.6103, 0.4045, 0.3860). */
  lemma HardwoodColour()
    ensures KwMap(HardwoodColourArgs()).Keys <= RgbTypeRecord.fields.Keys
    ensures Instantiate(RgbTypeRecord, KwMap(HardwoodColourArgs())) == Rgb(0.6103, 0.4045, 0.3860)
  {
    KwargsDeclared(RgbTypeRecord, HardwoodColourArgs());
    RgbConstructor(F(0.6103), F(0.4045), F(0.3860));
    KwMapTriple(("r", F(0.6103)), ("g", F(0.4045)), ("b", F(0.3860)));
  }
}
