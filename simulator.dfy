/** Model of ttgen/tabletop_simulator/__init__.py: the records of a
    Tabletop Simulator save file with their default values, the default
    table of notebook tabs, and `from_dict`. Each dataclass is a record
    descriptor for the coercer. A subclass's fields are its base's field
    map updated with each of its own declarations (`base[name := field]`):
    every inherited field is kept and a name declared again takes the
    subclass's type and default, as Python's dataclasses do. */
module Simulator {
  import opened Wrappers
  import opened Dataclass
  import Text

  /** `_TabletopBase.from_dict(cls, **d)`: exactly `dataclass_from_dict`
      applied to the class. */
  function FromDict(cls: RecordType, d: Value): (r: Result<Value, CoerceError>)
    requires d.Dict?
    ensures r == DataclassFromDict(cls, d)
  {
    DataclassFromDict(cls, d)
  }

  // ---------------------------------------------------------------------
  // Records

  const TabletopGrid := RecordType("TabletopGrid", map[
    "Type" := Field(Scalar, Int(0)),
    "Lines" := Field(Scalar, Bool(false)),
    "Color" := Field(Record(RgbTypeRecord), Rgb(0.0, 0.0, 0.0)),
    "Opacity" := Field(Scalar, Float(0.75)),
    "ThickLines" := Field(Scalar, Bool(false)),
    "Snapping" := Field(Scalar, Bool(false)),
    "Offset" := Field(Scalar, Bool(false)),
    "BothSnapping" := Field(Scalar, Bool(false)),
    "xSize" := Field(Scalar, Float(2.0)),
    "ySize" := Field(Scalar, Float(2.0)),
    "PosOffset" := Field(Record(Point3DRecord), Point3D(0.0, 1.0, 0.0))
  ])

  const TabletopLighting := RecordType("TabletopLighting", map[
    "LightIntensity" := Field(Scalar, Float(0.54)),
    "LightColor" := Field(Record(RgbTypeRecord), Rgb(1.0, 0.9804, 0.8902)),
    "AmbientIntensity" := Field(Scalar, Float(1.3)),
    "AmbientType" := Field(Scalar, Int(0)),
    "AmbientSkyColor" := Field(Record(RgbTypeRecord), Rgb(0.5, 0.5, 0.5)),
    "AmbientEquatorColor" := Field(Record(RgbTypeRecord), Rgb(0.5, 0.5, 0.5)),
    "AmbientGroundColor" := Field(Record(RgbTypeRecord), Rgb(0.5, 0.5, 0.5)),
    "ReflectionIntensity" := Field(Scalar, Float(1.0)),
    "LutIndex" := Field(Scalar, Int(0)),
    "LutContribution" := Field(Scalar, Float(1.0))
  ])

  const TabletopTransform := RecordType("TabletopTransform", map[
    "posX" := Field(Scalar, Float(0.0)),
    "posY" := Field(Scalar, Float(0.0)),
    "posZ" := Field(Scalar, Float(0.0)),
    "rotX" := Field(Scalar, Float(0.0)),
    "rotY" := Field(Scalar, Float(0.0)),
    "rotZ" := Field(Scalar, Float(0.0)),
    "scaleX" := Field(Scalar, Float(1.0)),
    "scaleY" := Field(Scalar, Float(1.0)),
    "scaleZ" := Field(Scalar, Float(1.0))
  ])

  const TabletopHandTransform := RecordType("TabletopHandTransform", map[
    "Color" := Field(Scalar, Str("")),
    "Transform" := Field(ListOf(Record(TabletopTransform)), List([]))
  ])

  const TabletopHands := RecordType("TabletopHands", map[
    "Enable" := Field(Scalar, Bool(true)),
    "DisableUnused" := Field(Scalar, Bool(false)),
    "Hiding" := Field(Scalar, Int(0)),
    "HandTransforms" := Field(ListOf(Record(TabletopHandTransform)), List([]))
  ])

  const TabletopTurns := RecordType("TabletopTurns", map[
    "Enable" := Field(Scalar, Bool(false)),
    "Type" := Field(Scalar, Int(0)),
    "TurnOrder" := Field(Scalar, List([])),
    "Reverse" := Field(Scalar, Bool(false)),
    "SkipEmpty" := Field(Scalar, Bool(false)),
    "DisableInteractions" := Field(Scalar, Bool(false)),
    "PassTurns" := Field(Scalar, Bool(true))
  ])

  const AttachedSnapPoint := RecordType("AttachedSnapPoint", map[
    "Position" := Field(Record(Point3DRecord), Point3D(0.0, 0.0, 0.0))
  ])

  /** The default of `points3` is a single `Point3D()` (its default factory
      is the class itself), not a list. */
  const AttachedVectorLine := RecordType("AttachedVectorLine", map[
    "points3" := Field(ListOf(Record(Point3DRecord)), Point3D(0.0, 0.0, 0.0)),
    "color" := Field(Record(RgbTypeRecord), Rgb(0.0, 0.0, 0.0)),
    "thickness" := Field(Scalar, Float(0.1)),
    "loop" := Field(Scalar, Bool(true))
  ])

  /** The fields every saved object has; `Name` defaults to the integer 0
      although it is declared `str`. */
  const ObjectStateFields := map[
    "Name" := Field(Scalar, Int(0)),
    "Transform" := Field(Record(TabletopTransform), Default(TabletopTransform)),
    "Nickname" := Field(Scalar, Str("")),
    "Description" := Field(Scalar, Str("")),
    "ColorDiffuse" := Field(Record(RgbTypeRecord), Rgb(1.0, 1.0, 1.0)),
    "Locked" := Field(Scalar, Bool(false)),
    "Grid" := Field(Scalar, Bool(true)),
    "Snap" := Field(Scalar, Bool(true)),
    "IgnoreFoW" := Field(Scalar, Bool(false)),
    "Autoraise" := Field(Scalar, Bool(true)),
    "Sticky" := Field(Scalar, Bool(true)),
    "Tooltip" := Field(Scalar, Bool(true)),
    "GridProjection" := Field(Scalar, Bool(false)),
    "Hands" := Field(Scalar, Bool(false)),
    "XmlUI" := Field(Scalar, Str("")),
    "LuaScript" := Field(Scalar, Str("")),
    "LuaScriptState" := Field(Scalar, Str("")),
    "GUID" := Field(Scalar, Str("")),
    "AttachedSnapPoints" := Field(ListOf(Record(AttachedSnapPoint)), List([])),
    "AttachedVectorLines" := Field(ListOf(Record(AttachedVectorLine)), List([]))
  ]

  const TabletopObjectState := RecordType("TabletopObjectState", ObjectStateFields)

  const ObjectStateContainerFields := ObjectStateFields
    ["ContainedObjects" := Field(ListOf(Record(TabletopObjectState)), List([]))]

  const TabletopObjectStateContainer := RecordType("TabletopObjectStateContainer", ObjectStateContainerFields)

  const CustomAssetBundleField := RecordType("CustomAssetBundleField", map[
    "AssetbundleURL" := Field(Scalar, Str("")),
    "AssetbundleSecondaryURL" := Field(Scalar, Str("")),
    "MaterialIndex" := Field(Scalar, Int(0)),
    "TypeIndex" := Field(Scalar, Int(0)),
    "LoopingEffectIndex" := Field(Scalar, Int(0))
  ])

  const TabletopCustomAssetBundle := RecordType("TabletopCustomAssetBundle", ObjectStateFields
    ["Name" := Field(Scalar, Str("Custom_Assetbundle"))]
    ["CustomAssetbundle" := Field(Record(CustomAssetBundleField), Default(CustomAssetBundleField))])

  /** `RgbType(1, 1, 1)`: integer channels. */
  const CustomShaderField := RecordType("CustomShaderField", map[
    "SpecularColor" := Field(Record(RgbTypeRecord), RgbOf(Int(1), Int(1), Int(1))),
    "SpecularIntensity" := Field(Scalar, Float(0.0)),
    "SpecularSharpness" := Field(Scalar, Float(2.0)),
    "FresnelStrength" := Field(Scalar, Float(0.0))
  ])

  const CustomMeshField := RecordType("CustomMeshField", map[
    "MeshURL" := Field(Scalar, Str("")),
    "DiffuseURL" := Field(Scalar, Str("")),
    "NormalURL" := Field(Scalar, Str("")),
    "ColliderURL" := Field(Scalar, Str("")),
    "Convex" := Field(Scalar, Bool(true)),
    "MaterialIndex" := Field(Scalar, Int(0)),
    "TypeIndex" := Field(Scalar, Int(0)),
    "CustomShader" := Field(Record(CustomShaderField), Default(CustomShaderField)),
    "CastShadows" := Field(Scalar, Bool(true))
  ])

  const TabletopCustomModel := RecordType("TabletopCustomModel", ObjectStateFields
    ["Name" := Field(Scalar, Str("Custom_Model"))]
    ["CustomMesh" := Field(Record(CustomMeshField), Default(CustomMeshField))])

  /** Declared inside `TabletopCustomImage` but not one of its fields. */
  const CustomToken := RecordType("CustomToken", map[
    "Thickness" := Field(Scalar, Float(0.1)),
    "MergeDistancePixels" := Field(Scalar, Float(15.0)),
    "Stackable" := Field(Scalar, Bool(true))
  ])

  const TabletopCustomImage := RecordType("TabletopCustomImage", map[
    "ImageURL" := Field(Scalar, Str("")),
    "ImageSecondaryURL" := Field(Scalar, Str("")),
    "WidthScale" := Field(Scalar, Float(1.58566439))
  ])

  const TabletopCustomTokenStack := RecordType("TabletopCustomTokenStack", ObjectStateFields
    ["Name" := Field(Scalar, Str("Custom_Token_Stack"))]
    ["MaterialIndex" := Field(Scalar, Int(-1))]
    ["MeshIndex" := Field(Scalar, Int(1))]
    ["Number" := Field(Scalar, Int(6))]
    ["CustomImage" := Field(Record(TabletopCustomImage), Default(TabletopCustomImage))])

  const TabletopCard := RecordType("TabletopCard", ObjectStateFields
    ["Name" := Field(Scalar, Str("Card"))]
    ["CardID" := Field(Scalar, Int(0))]
    ["SidewaysCard" := Field(Scalar, Bool(false))])

  const TabletopCustomDeck := RecordType("TabletopCustomDeck", map[
    "FaceURL" := Field(Scalar, Str("")),
    "BackURL" := Field(Scalar, Str("")),
    "NumWidth" := Field(Scalar, Int(10)),
    "NumHeight" := Field(Scalar, Int(7)),
    "BackIsHidden" := Field(Scalar, Bool(false)),
    "UniqueBack" := Field(Scalar, Bool(false))
  ])

  const TabletopDeckCustom := RecordType("TabletopDeckCustom", ObjectStateContainerFields
    ["Name" := Field(Scalar, Str("DeckCustom"))]
    ["HideWhenFaceDown" := Field(Scalar, Bool(false))]
    ["DeckIDs" := Field(ListOf(Scalar), List([]))]
    ["CustomDeck" := Field(MapOf(Scalar, Record(TabletopCustomDeck)), Dict([], map[]))])

  /** `TabletopTransform(posY=2.0, rotY=180.0)`. */
  const BoardTransform := Instantiate(TabletopTransform, map["posY" := Float(2.0), "rotY" := Float(180.0)])

  const TabletopCustomBoard := RecordType("TabletopCustomBoard", ObjectStateFields
    ["Name" := Field(Scalar, Str("Custom_Board"))]
    ["Locked" := Field(Scalar, Bool(false))]
    ["Transform" := Field(Record(TabletopTransform), BoardTransform)]
    ["ColorDiffuse" := Field(Record(RgbTypeRecord), Rgb(0.7867647, 0.7867647, 0.7867647))]
    ["HideWhenFaceDown" := Field(Scalar, Bool(false))]
    ["CustomImage" := Field(Record(TabletopCustomImage), Default(TabletopCustomImage))])

  const TabletopTabState := RecordType("TabletopTabState", map[
    "title" := Field(Scalar, Str("")),
    "body" := Field(Scalar, Str("")),
    "color" := Field(Scalar, Str("Black")),
    "visibleColor" := Field(Record(RgbTypeRecord), Rgb(0.0, 0.0, 0.0)),
    "id" := Field(Scalar, Int(0))
  ])

  /** `TabletopTabState(title=..., color=..., visibleColor=..., id=...)`;
      `body` keeps its default "". */
  function TabState(title: string, color: string, visible: Value, id: int): Value {
    Instance("TabletopTabState", map["title" := Str(title), "body" := Str(""),
      "color" := Str(color), "visibleColor" := visible, "id" := Int(id)])
  }

  /** One entry of the default tab table: title, colour name, the channels
      of its visible colour and its id. */
  datatype TabRow = TabRow(title: string, color: string, r: real, g: real, b: real, id: int)

  /** The default tab table's entries, in the order of its keys. */
  const TabRows := [
    TabRow("Rules", "Grey", 0.5, 0.5, 0.5, 0),
    TabRow("White", "White", 1.0, 1.0, 1.0, 1),
    TabRow("Brown", "Brown", 0.443, 0.231, 0.09, 2),
    TabRow("Red", "Red", 0.856, 0.1, 0.094, 3),
    TabRow("Orange", "Orange", 0.956, 0.392, 0.113, 4),
    TabRow("Yellow", "Yellow", 0.905, 0.898, 0.172, 5),
    TabRow("Green", "Green", 0.192, 0.701, 0.168, 6),
    TabRow("Blue", "Blue", 0.118, 0.53, 1.0, 7),
    TabRow("Teal", "Teal", 0.129, 0.694, 0.607, 8),
    TabRow("Purple", "Purple", 0.627, 0.125, 0.941, 9),
    TabRow("Pink", "Pink", 0.96, 0.439, 0.807, 10),
    TabRow("Black", "Black", 0.25, 0.25, 0.25, 11)
  ]

  /** The keys "0" to "11" of the tab table, in order. */
  const TabKeys := ["0", "1", "2", "3", "4", "5", "6", "7", "8", "9", "10", "11"]

  /** The tab table's keys are `str(0)` to `str(11)`. */
  lemma TabKeysDecimal()
    ensures |TabKeys| == |TabRows| == 12
    ensures forall k :: 0 <= k < 12 ==> TabKeys[k] == Text.NatToDecimal(k)
  {
    assert Text.NatToDecimal(10) == "10" && Text.NatToDecimal(11) == "11";
    assert forall k :: 0 <= k < 10 ==> Text.NatToDecimal(k) == [Text.Digit(k)];
  }

  lemma TabKeysDistinct()
    ensures forall i, j :: 0 <= i < 12 && 0 <= j < 12 && TabKeys[i] == TabKeys[j] ==> i == j
  {
    TabKeysDecimal();
    forall i, j | 0 <= i < 12 && 0 <= j < 12 && TabKeys[i] == TabKeys[j]
      ensures i == j
    {
      Text.DecimalInjective(i, j);
    }
  }

  /** The tab state a row describes. */
  function TabEntry(row: TabRow): Value {
    TabState(row.title, row.color, Rgb(row.r, row.g, row.b), row.id)
  }

  /** `TabletopTabState.default_container()`: the tab states of the rows,
      each under its key. */
  function DefaultContainer(): Value {
    TabKeysDistinct();
    Dict(TabKeys, map i | 0 <= i < 12 :: TabKeys[i] := TabEntry(TabRows[i]))
  }

  const TabletopSimulator := RecordType("TabletopSimulator", map[
    "SaveName" := Field(Scalar, Str("Tabletop Generator")),
    "GameMode" := Field(Scalar, Str("Tabletop Generator")),
    "Gravity" := Field(Scalar, Float(0.5)),
    "PlayArea" := Field(Scalar, Float(0.5)),
    "Date" := Field(Scalar, Str("2019-05-06T00:00:00")),
    "Table" := Field(Scalar, Str("Table_None")),
    "TableURL" := Field(Scalar, Str("http://i.imgur.com/NGDZtRM.jpg")),
    "Sky" := Field(Scalar, Str("Sky_Museum")),
    "SkyUrl" := Field(Scalar, Str("http://cloud-3.steamusercontent.com/ugc/931557769819239972/B4E92C79E65DB06185978CE7F0E1D2A36EF55476/")),
    "Note" := Field(Scalar, Str("")),
    "Rules" := Field(Scalar, Str("")),
    "XmlUI" := Field(Scalar, Str("")),
    "LuaScript" := Field(Scalar, Str("")),
    "LuaScriptState" := Field(Scalar, Str("")),
    "Grid" := Field(Record(TabletopGrid), Default(TabletopGrid)),
    "Lighting" := Field(Record(TabletopLighting), Default(TabletopLighting)),
    "Hands" := Field(Record(TabletopHands), Default(TabletopHands)),
    "Turns" := Field(Record(TabletopTurns), Default(TabletopTurns)),
    "ObjectStates" := Field(ListOf(Record(TabletopObjectState)), List([])),
    "DecalPallet" := Field(ListOf(Scalar), List([])),
    "TabStates" := Field(MapOf(Scalar, Record(TabletopTabState)), DefaultContainer()),
    "VersionNumber" := Field(Scalar, Str("v12.0.1"))
  ])

  // ---------------------------------------------------------------------
  // What the schema promises

  /** A transform left at its defaults sits at the origin, unrotated, at
      scale 1 on every axis. */
  lemma TransformDefaults()
    ensures Default(TabletopTransform).attrs.Keys == TabletopTransform.fields.Keys
    ensures Default(TabletopTransform).attrs["posX"] == Float(0.0)
    ensures Default(TabletopTransform).attrs["posY"] == Float(0.0)
    ensures Default(TabletopTransform).attrs["posZ"] == Float(0.0)
    ensures Default(TabletopTransform).attrs["rotX"] == Float(0.0)
    ensures Default(TabletopTransform).attrs["rotY"] == Float(0.0)
    ensures Default(TabletopTransform).attrs["rotZ"] == Float(0.0)
    ensures Default(TabletopTransform).attrs["scaleX"] == Float(1.0)
    ensures Default(TabletopTransform).attrs["scaleY"] == Float(1.0)
    ensures Default(TabletopTransform).attrs["scaleZ"] == Float(1.0)
  {
    TransformPositionDefaults();
    TransformRotationDefaults();
    TransformScaleDefaults();
  }

  lemma TransformPositionDefaults()
    ensures Default(TabletopTransform).attrs["posX"] == Float(0.0)
    ensures Default(TabletopTransform).attrs["posY"] == Float(0.0)
    ensures Default(TabletopTransform).attrs["posZ"] == Float(0.0)
  {
  }

  lemma TransformRotationDefaults()
    ensures Default(TabletopTransform).attrs["rotX"] == Float(0.0)
    ensures Default(TabletopTransform).attrs["rotY"] == Float(0.0)
    ensures Default(TabletopTransform).attrs["rotZ"] == Float(0.0)
  {
  }

  lemma TransformScaleDefaults()
    ensures Default(TabletopTransform).attrs["scaleX"] == Float(1.0)
    ensures Default(TabletopTransform).attrs["scaleY"] == Float(1.0)
    ensures Default(TabletopTransform).attrs["scaleZ"] == Float(1.0)
  {
  }

  /** A board's `Transform` field holds a transform. */
  lemma BoardTransformField()
    ensures "Transform" in TabletopCustomBoard.fields
    ensures TabletopCustomBoard.fields["Transform"] == Field(Record(TabletopTransform), BoardTransform)
  {
  }

  /** A board, unless told otherwise, is raised to posY 2.0 and turned to
      rotY 180.0, and keeps the other transform defaults. */
  lemma BoardTransformDefault()
    ensures BoardTransform.attrs.Keys == TabletopTransform.fields.Keys
    ensures BoardTransform.attrs["posY"] == Float(2.0)
    ensures BoardTransform.attrs["rotY"] == Float(180.0)
    ensures forall f :: f in TabletopTransform.fields && f != "posY" && f != "rotY" ==>
              BoardTransform.attrs[f] == Default(TabletopTransform).attrs[f]
  {
  }

  /** `TabState` builds what `TabletopTabState(...)` builds from the four
      keywords the tab table passes, `body` left at "". */
  lemma TabStateConstructor(title: string, color: string, visible: Value, id: int)
    ensures TabState(title, color, visible, id) ==
            Instantiate(TabletopTabState, map["title" := Str(title), "color" := Str(color),
                                              "visibleColor" := visible, "id" := Int(id)])
  {
    InstanceAgrees(TabletopTabState,
                   map["title" := Str(title), "color" := Str(color), "visibleColor" := visible, "id" := Int(id)],
                   TabState(title, color, visible, id).attrs);
  }

  /** The tab table has exactly twelve entries, keyed `str(0)` to
      `str(11)` in that order. */
  lemma DefaultContainerKeys()
    ensures DefaultContainer().order == Text.DecimalKeys(12)
  {
    TabKeysDecimal();
  }

  /** The tab table holds an entry under each of its keys and under no
      other. */
  lemma DefaultContainerDomain()
    ensures forall key :: key in DefaultContainer().vals <==> key in DefaultContainer().order
  {
    var d := DefaultContainer();
    forall key | key in d.order
      ensures key in d.vals
    {
      var i :| 0 <= i < |TabKeys| && TabKeys[i] == key;
    }
  }

  /** The entry under `str(k)` is a tab state whose `id` is `k`; tabs 1 to
      11 are titled with their colour name, tab 0 is the grey "Rules"
      tab. */
  lemma DefaultContainerEntries()
    ensures forall k :: 0 <= k < 12 ==>
              var key := Text.NatToDecimal(k);
              key in DefaultContainer().vals &&
              DefaultContainer().vals[key].Instance? &&
              DefaultContainer().vals[key].cls == "TabletopTabState" &&
              "id" in DefaultContainer().vals[key].attrs &&
              DefaultContainer().vals[key].attrs["id"] == Int(k)
    ensures forall k :: 1 <= k < 12 ==>
              var key := Text.NatToDecimal(k);
              key in DefaultContainer().vals &&
              DefaultContainer().vals[key] == TabState(TabRows[k].title, TabRows[k].title,
                                                       Rgb(TabRows[k].r, TabRows[k].g, TabRows[k].b), k)
    ensures "0" in DefaultContainer().vals &&
            DefaultContainer().vals["0"] == TabState("Rules", "Grey", Rgb(0.5, 0.5, 0.5), 0)
  {
    TabKeysDecimal();
    assert forall k :: 0 <= k < 12 ==> TabRows[k].id == k;
    assert forall k :: 1 <= k < 12 ==> TabRows[k].title == TabRows[k].color;
    forall k | 0 <= k < 12
      ensures Text.NatToDecimal(k) in DefaultContainer().vals &&
              DefaultContainer().vals[Text.NatToDecimal(k)] == TabEntry(TabRows[k])
    {
      DefaultContainerAt(k);
    }
    DefaultContainerAt(0);
    assert TabKeys[0] == "0";
  }

  lemma DefaultContainerAt(k: nat)
    requires k < 12
    ensures TabKeys[k] in DefaultContainer().vals && DefaultContainer().vals[TabKeys[k]] == TabEntry(TabRows[k])
  {
    TabKeysDistinct();
  }

  /** A new save's `TabStates` is the default tab table, typed as a
      dictionary of tab states. */
  lemma SimulatorTabStates()
    ensures TabletopSimulator.fields["TabStates"].ty == MapOf(Scalar, Record(TabletopTabState))
    ensures Default(TabletopSimulator).attrs["TabStates"] == DefaultContainer()
  {
  }

  /** A save has the two fields `compile` names the scene by. */
  lemma SimulatorNameFields()
    ensures "SaveName" in TabletopSimulator.fields && "GameMode" in TabletopSimulator.fields
  {
  }
}
