/** Model of ttgen/tabletop_generator/components.py: the generator
    components that turn a scene description into Tabletop Simulator save
    objects. The process-wide deck counter and the two probes of the
    outside world (a fresh uuid, an image file on disk) live in `Globals`;
    each component's `generate` builds the keyword arguments of its save
    record and runs them through `from_dict`. */
module Components {
  import opened Wrappers
  import opened Dataclass
  import opened Simulator
  import Text

  // ---------------------------------------------------------------------
  // Globals

  /** `s[:n]` on a string. */
  function Prefix(s: string, n: nat): (p: string)
    ensures |p| == if |s| < n then |s| else n
    ensures p <= s
  {
    if |s| < n then s else s[..n]
  }

  /** The class-level state of `Globals`: the deck counter `DECK_ID`, and
      the outside world the class consults. `uuid4(n)` is the text of the
      n-th uuid the process draws; `imageUrl(base, kind, name)` is the URL
      `gen_image_url` finds on disk for an image. */
  class Globals {
    var deckId: nat
    var guidsDrawn: nat
    const uuid4: nat -> string
    const imageUrl: (string, string, string) -> string

    constructor(uuid4: nat -> string, imageUrl: (string, string, string) -> string)
      ensures deckId == 0 && guidsDrawn == 0
      ensures this.uuid4 == uuid4 && this.imageUrl == imageUrl
    {
      deckId := 0;
      guidsDrawn := 0;
      this.uuid4 := uuid4;
      this.imageUrl := imageUrl;
    }

    /** The GUID the next `gen_guid` call returns. */
    function NextGuid(): string
      reads this
    {
      Guid(uuid4, guidsDrawn)
    }

    /** `get_deck_id`: increments the counter and returns its new value, so
        the first deck is numbered 1 and each later one gets the next
        number. */
    method GetDeckId() returns (id: nat)
      modifies this
      ensures deckId == old(deckId) + 1 && id == deckId
      ensures guidsDrawn == old(guidsDrawn)
    {
      deckId := deckId + 1;
      id := deckId;
    }

    /** `gen_guid`: the first six characters of a fresh uuid. */
    method GenGuid() returns (g: string)
      modifies this
      ensures g == Guid(uuid4, old(guidsDrawn)) && guidsDrawn == old(guidsDrawn) + 1
      ensures deckId == old(deckId)
    {
      g := Prefix(uuid4(guidsDrawn), 6);
      guidsDrawn := guidsDrawn + 1;
    }
  }

  /** The GUID made from the n-th uuid drawn: its first six characters. */
  function Guid(uuid4: nat -> string, n: nat): (g: string)
    ensures |g| == (if |uuid4(n)| < 6 then |uuid4(n)| else 6) && g <= uuid4(n)
  {
    Prefix(uuid4(n), 6)
  }

  /** Successive decks get successive numbers, the first one 1. */
  method TwoDecks(g: Globals) returns (first: nat, second: nat)
    requires g.deckId == 0
    modifies g
    ensures first == 1 && second == 2 && first < second
  {
    first := g.GetDeckId();
    second := g.GetDeckId();
  }

  // ---------------------------------------------------------------------
  // Keyword arguments shared by the components

  /** `position.x` and friends as save values. */
  function F(x: real): Value {
    Float(x)
  }

  /** `dict(posX=x, posZ=z)`: a component placed on the table plane. */
  function PlaneArgs(x: real, z: real): Kwargs {
    [("posX", F(x)), ("posZ", F(z))]
  }

  lemma PlaneScalar(x: real, z: real)
    ensures ScalarPairs(TabletopTransform, PlaneArgs(x, z))
  {
  }

  /** The transform `TabletopTransform.from_dict` builds from `PlaneArgs`. */
  function PlaneTransform(x: real, z: real): Value {
    KwargsDeclared(TabletopTransform, PlaneArgs(x, z));
    Instantiate(TabletopTransform, KwMap(PlaneArgs(x, z)))
  }

  lemma PlaneCoerce(x: real, z: real)
    ensures Coerce(Record(TabletopTransform), DictOf(PlaneArgs(x, z))) == Success(PlaneTransform(x, z))
  {
    PlaneScalar(x, z);
    CoerceScalarKwargs(TabletopTransform, PlaneArgs(x, z));
  }

  lemma PlaneKwargs(x: real, z: real)
    ensures KwMap(PlaneArgs(x, z)) == map["posX" := F(x), "posZ" := F(z)]
  {
    KwMapPair(("posX", F(x)), ("posZ", F(z)));
  }

  /** A plane transform moves the object to (x, z) on the table and leaves
      every other transform field at its default. */
  lemma PlaneTransformFields(x: real, z: real)
    ensures var t := PlaneTransform(x, z);
            t.cls == "TabletopTransform" && t.attrs.Keys == TabletopTransform.fields.Keys &&
            t.attrs["posX"] == Float(x) && t.attrs["posZ"] == Float(z) &&
            forall f :: f in t.attrs && f != "posX" && f != "posZ" ==> t.attrs[f] == TabletopTransform.fields[f].default
  {
    PlaneKwargs(x, z);
  }

  // ---------------------------------------------------------------------
  // Model

  /** A generator `Model`: a mesh with its texture and collider. Its
      `generate` changes nothing on the component itself. */
  datatype Model = Model(position: PosType, meshUrl: string, diffuseUrl: string, collideUrl: string)
  {
    /** The keyword arguments `generate` passes to `from_dict`. */
    function Args(guid: string): Kwargs {
      [("Transform", DictOf(PlaneArgs(position.x, position.y))),
       ("CustomMesh", DictOf(MeshArgs(meshUrl, diffuseUrl, collideUrl))),
       ("GUID", Str(guid))]
    }

    /** `generate`: one custom model placed at the component's x and y
        (posX and posZ), carrying the three URLs and a fresh GUID. */
    method Generate(name: string, dest: string, g: Globals) returns (r: Result<seq<Value>, CoerceError>)
      modifies g
      ensures g.guidsDrawn == old(g.guidsDrawn) + 1 && g.deckId == old(g.deckId)
      ensures r == Success([ModelObject(this, Guid(g.uuid4, old(g.guidsDrawn)))])
    {
      var guid := g.GenGuid();
      ModelArgsCoerce(this, guid);
      r := Success([FromDict(TabletopCustomModel, DictOf(Args(guid))).value]);
    }
  }

  /** `Model()`: placed at the origin, with no URLs. */
  function DefaultModel(): (m: Model)
    ensures m.position == DefaultPos && m.meshUrl == "" && m.diffuseUrl == "" && m.collideUrl == ""
  {
    Model(DefaultPos, "", "", "")
  }

  function MeshArgs(mesh: string, diffuse: string, collide: string): Kwargs {
    [("MeshURL", Str(mesh)), ("DiffuseURL", Str(diffuse)), ("ColliderURL", Str(collide))]
  }

  /** `TabletopCustomModel(Transform=TabletopTransform(posX=x, posZ=y),
      CustomMesh=CustomMeshField(MeshURL=..., DiffuseURL=...,
      ColliderURL=...), GUID=guid)`. */
  function ModelObject(m: Model, guid: string): Value {
    KwargsDeclared(TabletopCustomModel, ModelOuts(m, guid));
    Instantiate(TabletopCustomModel, KwMap(ModelOuts(m, guid)))
  }

  function ModelOuts(m: Model, guid: string): Kwargs {
    KwargsDeclared(CustomMeshField, MeshArgs(m.meshUrl, m.diffuseUrl, m.collideUrl));
    [("Transform", PlaneTransform(m.position.x, m.position.y)),
     ("CustomMesh", Instantiate(CustomMeshField, KwMap(MeshArgs(m.meshUrl, m.diffuseUrl, m.collideUrl)))),
     ("GUID", Str(guid))]
  }

  lemma ModelFieldTypes()
    ensures "Transform" in TabletopCustomModel.fields && TabletopCustomModel.fields["Transform"].ty == Record(TabletopTransform)
    ensures "CustomMesh" in TabletopCustomModel.fields && TabletopCustomModel.fields["CustomMesh"].ty == Record(CustomMeshField)
    ensures "GUID" in TabletopCustomModel.fields && TabletopCustomModel.fields["GUID"].ty == Scalar
  {
  }

  lemma MeshScalar(mesh: string, diffuse: string, collide: string)
    ensures ScalarPairs(CustomMeshField, MeshArgs(mesh, diffuse, collide))
  {
  }

  /** The model's keyword arguments coerce: the transform and the mesh
      become records, the GUID stays a string. */
  lemma ModelArgsCoerce(m: Model, guid: string)
    ensures FromDict(TabletopCustomModel, DictOf(m.Args(guid))) == Success(ModelObject(m, guid))
  {
    var args := m.Args(guid);
    var outs := ModelOuts(m, guid);
    forall i | 0 <= i < |args| ensures ArgCoerces(TabletopCustomModel, args[i], outs[i]) {
      ModelFieldTypes();
      if i == 0 {
        PlaneCoerce(m.position.x, m.position.y);
      } else if i == 1 {
        MeshScalar(m.meshUrl, m.diffuseUrl, m.collideUrl);
        CoerceScalarKwargs(CustomMeshField, MeshArgs(m.meshUrl, m.diffuseUrl, m.collideUrl));
      }
    }
    CoerceKwargs(TabletopCustomModel, args, outs);
  }

  // ---------------------------------------------------------------------
  // TokenStack

  /** `f"{dest_directory}\\token_stack\\{name}.png"`. */
  function TokenStackUrl(dest: string, name: string): (u: string)
    ensures |u| == |dest| + |name| + 17
    ensures u[..|dest|] == dest && u[|u| - 4..] == ".png"
    ensures u[|dest|..|dest| + 13] == "\\token_stack\\" && u[|dest| + 13..|u| - 4] == name
  {
    dest + "\\token_stack\\" + name + ".png"
  }

  /** A generator `TokenStack`; `generate` fills in its image URL when it is
      empty. */
  class TokenStack {
    var position: PosType
    var imageUrl: string

    constructor(position: PosType, imageUrl: string)
      ensures this.position == position && this.imageUrl == imageUrl
    {
      this.position := position;
      this.imageUrl := imageUrl;
    }

    /** `TokenStack()`. */
    constructor Default()
      ensures position == DefaultPos && imageUrl == ""
    {
      position := DefaultPos;
      imageUrl := "";
    }

    /** `generate`: the URL is defaulted once, and one token stack is made
        with that image at zero width scale. */
    method Generate(name: string, dest: string, g: Globals) returns (r: Result<seq<Value>, CoerceError>)
      modifies this, g
      ensures position == old(position)
      ensures imageUrl == if old(imageUrl) == "" then TokenStackUrl(dest, name) else old(imageUrl)
      ensures imageUrl != ""
      ensures g.guidsDrawn == old(g.guidsDrawn) + 1 && g.deckId == old(g.deckId)
      ensures r == Success([TokenStackObject(position, imageUrl, Guid(g.uuid4, old(g.guidsDrawn)))])
    {
      if imageUrl == "" {
        imageUrl := TokenStackUrl(dest, name);
      }
      var guid := g.GenGuid();
      TokenStackArgsCoerce(position, imageUrl, guid);
      r := Success([FromDict(TabletopCustomTokenStack, DictOf(TokenStackArgs(position, imageUrl, guid))).value]);
    }
  }

  function TokenImageArgs(url: string): Kwargs {
    [("ImageURL", Str(url)), ("WidthScale", F(0.0))]
  }

  function TokenStackArgs(position: PosType, url: string, guid: string): Kwargs {
    [("Transform", DictOf(PlaneArgs(position.x, position.y))),
     ("CustomImage", DictOf(TokenImageArgs(url))),
     ("GUID", Str(guid))]
  }

  function TokenStackOuts(position: PosType, url: string, guid: string): Kwargs {
    KwargsDeclared(TabletopCustomImage, TokenImageArgs(url));
    [("Transform", PlaneTransform(position.x, position.y)),
     ("CustomImage", Instantiate(TabletopCustomImage, KwMap(TokenImageArgs(url)))),
     ("GUID", Str(guid))]
  }

  /** `TabletopCustomTokenStack(Transform=..., CustomImage=
      TabletopCustomImage(ImageURL=url, WidthScale=0.0), GUID=guid)`. */
  function TokenStackObject(position: PosType, url: string, guid: string): Value {
    KwargsDeclared(TabletopCustomTokenStack, TokenStackOuts(position, url, guid));
    Instantiate(TabletopCustomTokenStack, KwMap(TokenStackOuts(position, url, guid)))
  }

  lemma TokenImageScalar(url: string)
    ensures ScalarPairs(TabletopCustomImage, TokenImageArgs(url))
  {
  }

  lemma TokenStackFieldTypes()
    ensures "Transform" in TabletopCustomTokenStack.fields && TabletopCustomTokenStack.fields["Transform"].ty == Record(TabletopTransform)
    ensures "CustomImage" in TabletopCustomTokenStack.fields && TabletopCustomTokenStack.fields["CustomImage"].ty == Record(TabletopCustomImage)
    ensures "GUID" in TabletopCustomTokenStack.fields && TabletopCustomTokenStack.fields["GUID"].ty == Scalar
  {
  }

  lemma TokenStackArgsCoerce(position: PosType, url: string, guid: string)
    ensures FromDict(TabletopCustomTokenStack, DictOf(TokenStackArgs(position, url, guid))) ==
            Success(TokenStackObject(position, url, guid))
  {
    var args := TokenStackArgs(position, url, guid);
    var outs := TokenStackOuts(position, url, guid);
    forall i | 0 <= i < |args| ensures ArgCoerces(TabletopCustomTokenStack, args[i], outs[i]) {
      TokenStackFieldTypes();
      if i == 0 {
        PlaneCoerce(position.x, position.y);
      } else if i == 1 {
        TokenImageScalar(url);
        CoerceScalarKwargs(TabletopCustomImage, TokenImageArgs(url));
      }
    }
    CoerceKwargs(TabletopCustomTokenStack, args, outs);
  }

  // ---------------------------------------------------------------------
  // Board

  /** A generator `Board`; `generate` fills in its image URL when it is
      empty. The snap points are loaded but never read. */
  class Board {
    var position: PosType
    var imageUrl: string
    var snapPoints: seq<int>

    constructor(position: PosType, imageUrl: string, snapPoints: seq<int>)
      ensures this.position == position && this.imageUrl == imageUrl && this.snapPoints == snapPoints
    {
      this.position := position;
      this.imageUrl := imageUrl;
      this.snapPoints := snapPoints;
    }

    /** `Board()`. */
    constructor Default()
      ensures position == DefaultPos && imageUrl == "" && snapPoints == []
    {
      position := DefaultPos;
      imageUrl := "";
      snapPoints := [];
    }

    /** `generate` as written: the URL is defaulted and a GUID drawn, but the
        transform is passed under the key `TabletopTransform`, which is no
        field of `TabletopCustomBoard`, so `from_dict` raises `KeyError`. */
    method Generate(name: string, dest: string, g: Globals) returns (r: Result<seq<Value>, CoerceError>)
      modifies this, g
      ensures position == old(position) && snapPoints == old(snapPoints)
      ensures imageUrl == if old(imageUrl) == "" then g.imageUrl(dest, "boards", name) else old(imageUrl)
      ensures g.guidsDrawn == old(g.guidsDrawn) + 1 && g.deckId == old(g.deckId)
      ensures r == Failure(UnknownField("TabletopCustomBoard", "TabletopTransform"))
    {
      if imageUrl == "" {
        imageUrl := g.imageUrl(dest, "boards", name);
      }
      var guid := g.GenGuid();
      BoardArgsFail(position, imageUrl, guid);
      var obj := FromDict(TabletopCustomBoard, DictOf(BoardArgs(position, imageUrl, guid)));
      r := Failure(obj.error);
    }

    /** `generate` with the transform passed as `Transform`: one custom board
        at the component's x and z, showing the image. */
    method GenerateIntended(name: string, dest: string, g: Globals) returns (r: Result<seq<Value>, CoerceError>)
      modifies this, g
      ensures position == old(position) && snapPoints == old(snapPoints)
      ensures imageUrl == if old(imageUrl) == "" then g.imageUrl(dest, "boards", name) else old(imageUrl)
      ensures g.guidsDrawn == old(g.guidsDrawn) + 1 && g.deckId == old(g.deckId)
      ensures r == Success([BoardObject(position, imageUrl, Guid(g.uuid4, old(g.guidsDrawn)))])
    {
      if imageUrl == "" {
        imageUrl := g.imageUrl(dest, "boards", name);
      }
      var guid := g.GenGuid();
      IntendedBoardArgsCoerce(position, imageUrl, guid);
      r := Success([FromDict(TabletopCustomBoard, DictOf(IntendedBoardArgs(position, imageUrl, guid))).value]);
    }
  }

  function BoardImageArgs(url: string): Kwargs {
    [("ImageURL", Str(url))]
  }

  /** The keyword arguments `Board.generate` passes, keys as written. */
  function BoardArgs(position: PosType, url: string, guid: string): Kwargs {
    [("TabletopTransform", DictOf(PlaneArgs(position.x, position.z))),
     ("CustomImage", DictOf(BoardImageArgs(url))),
     ("GUID", Str(guid))]
  }

  /** The same arguments with the transform under its field name. */
  function IntendedBoardArgs(position: PosType, url: string, guid: string): Kwargs {
    [("Transform", DictOf(PlaneArgs(position.x, position.z))),
     ("CustomImage", DictOf(BoardImageArgs(url))),
     ("GUID", Str(guid))]
  }

  function BoardOuts(position: PosType, url: string, guid: string): Kwargs {
    KwargsDeclared(TabletopCustomImage, BoardImageArgs(url));
    [("Transform", PlaneTransform(position.x, position.z)),
     ("CustomImage", Instantiate(TabletopCustomImage, KwMap(BoardImageArgs(url)))),
     ("GUID", Str(guid))]
  }

  /** `TabletopCustomBoard(Transform=TabletopTransform(posX=x, posZ=z),
      CustomImage=TabletopCustomImage(ImageURL=url), GUID=guid)`. */
  function BoardObject(position: PosType, url: string, guid: string): Value {
    KwargsDeclared(TabletopCustomBoard, BoardOuts(position, url, guid));
    Instantiate(TabletopCustomBoard, KwMap(BoardOuts(position, url, guid)))
  }

  lemma NotABoardField()
    ensures "TabletopTransform" !in TabletopCustomBoard.fields
  {
  }

  /** The arguments as written fail on their first key. */
  lemma BoardArgsFail(position: PosType, url: string, guid: string)
    ensures FromDict(TabletopCustomBoard, DictOf(BoardArgs(position, url, guid))) ==
            Failure(UnknownField("TabletopCustomBoard", "TabletopTransform"))
  {
    NotABoardField();
    NamesAt(BoardArgs(position, url, guid));
    CoerceUnknownField(TabletopCustomBoard, DictOf(BoardArgs(position, url, guid)), 0);
  }

  lemma BoardImageScalar(url: string)
    ensures ScalarPairs(TabletopCustomImage, BoardImageArgs(url))
  {
  }

  lemma BoardFieldTypes()
    ensures "Transform" in TabletopCustomBoard.fields && TabletopCustomBoard.fields["Transform"].ty == Record(TabletopTransform)
    ensures "CustomImage" in TabletopCustomBoard.fields && TabletopCustomBoard.fields["CustomImage"].ty == Record(TabletopCustomImage)
    ensures "GUID" in TabletopCustomBoard.fields && TabletopCustomBoard.fields["GUID"].ty == Scalar
  {
  }

  lemma IntendedBoardArgsCoerce(position: PosType, url: string, guid: string)
    ensures FromDict(TabletopCustomBoard, DictOf(IntendedBoardArgs(position, url, guid))) ==
            Success(BoardObject(position, url, guid))
  {
    var args := IntendedBoardArgs(position, url, guid);
    var outs := BoardOuts(position, url, guid);
    forall i | 0 <= i < |args| ensures ArgCoerces(TabletopCustomBoard, args[i], outs[i]) {
      BoardFieldTypes();
      if i == 0 {
        PlaneCoerce(position.x, position.z);
      } else if i == 1 {
        BoardImageScalar(url);
        CoerceScalarKwargs(TabletopCustomImage, BoardImageArgs(url));
      }
    }
    CoerceKwargs(TabletopCustomBoard, args, outs);
  }
}
