/** Model of ttgen/tabletop_generator/players.py: two players' hand zones,
    one on each side of the near edge of an 18 by 18 table. */
module Players {
  import opened Dataclass
  import opened Simulator

  /** `TwoPlayers(position)`. */
  datatype TwoPlayers = TwoPlayers(position: PosType)

  /** Python's `a // b` on floats: the quotient rounded down. */
  function FloorDiv(a: real, b: real): (q: real)
    requires b != 0.0
    ensures q == q.Floor as real
    ensures q <= a / b < q + 1.0
  {
    (a / b).Floor as real
  }

  /** The keywords of a hand's transform other than `posX`: height 3.24,
      no turn, the given z and box size. */
  function HandKwargs(z: real, sx: real, sy: real, sz: real): map<string, Value> {
    map["posY" := Float(3.24), "posZ" := Float(z), "rotY" := Float(0.0),
        "scaleX" := Float(sx), "scaleY" := Float(sy), "scaleZ" := Float(sz)]
  }

  /** `TabletopTransform(posX=x, posY=3.24, posZ=z, rotY=0.0,
      scaleX=sx, scaleY=sy, scaleZ=sz)`. */
  function HandTransform(x: real, z: real, sx: real, sy: real, sz: real): Value {
    Instantiate(TabletopTransform, HandKwargs(z, sx, sy, sz)["posX" := Float(x)])
  }

  /** `TabletopHandTransform(Color=color, Transform=transform)`, built
      directly (no coercion), so `Transform` holds the one transform
      although the field is declared as a list. */
  function Hand(color: string, transform: Value): Value {
    Instantiate(TabletopHandTransform, map["Color" := Str(color), "Transform" := transform])
  }

  /** `generate`: the red hand at the left and the blue hand at the right of
      the near edge, each pulled in by half a hand box. */
  function Generate(p: TwoPlayers): seq<Value> {
    var tableX := 18.0;
    var tableZ := 18.0;
    var boxX := 12.0;
    var boxY := 6.0;
    var boxZ := 6.0;
    [Hand("Red", HandTransform(-(tableX - FloorDiv(boxX, 2.0)), -(tableZ - FloorDiv(boxZ, 2.0)), boxX, boxY, boxZ)),
     Hand("Blue", HandTransform(tableX - FloorDiv(boxX, 2.0), -(tableZ - FloorDiv(boxZ, 2.0)), boxX, boxY, boxZ))]
  }

  /** The halved box sizes are whole, so the floor division is exact. */
  lemma HalfBoxes()
    ensures FloorDiv(12.0, 2.0) == 6.0 && FloorDiv(6.0, 2.0) == 3.0
  {
    assert (12.0 / 2.0).Floor == 6;
    assert (6.0 / 2.0).Floor == 3;
  }

  /** `getattr(hand.Transform, f)`. */
  function TransformField(hand: Value, f: string): Value {
    if hand.Instance? && "Transform" in hand.attrs && hand.attrs["Transform"].Instance? &&
       f in hand.attrs["Transform"].attrs
    then hand.attrs["Transform"].attrs[f]
    else NoneValue
  }

  /** A hand transform puts the box at the given x and z, at height 3.24. */
  lemma HandPosition(x: real, z: real, sx: real, sy: real, sz: real)
    ensures var t := HandTransform(x, z, sx, sy, sz);
            t.attrs["posX"] == Float(x) && t.attrs["posY"] == Float(3.24) && t.attrs["posZ"] == Float(z)
  {
  }

  /** It leaves the box unturned. */
  lemma HandRotation(x: real, z: real, sx: real, sy: real, sz: real)
    ensures var t := HandTransform(x, z, sx, sy, sz);
            t.attrs["rotX"] == Float(0.0) && t.attrs["rotY"] == Float(0.0) && t.attrs["rotZ"] == Float(0.0)
  {
  }

  /** It sizes the box as given. */
  lemma HandScale(x: real, z: real, sx: real, sy: real, sz: real)
    ensures var t := HandTransform(x, z, sx, sy, sz);
            t.attrs["scaleX"] == Float(sx) && t.attrs["scaleY"] == Float(sy) && t.attrs["scaleZ"] == Float(sz)
  {
  }

  /** Two hand transforms that differ only in x agree on every other
      field. */
  lemma HandTransformsAgree(x: real, x': real, z: real, sx: real, sy: real, sz: real)
    ensures var t := HandTransform(x, z, sx, sy, sz);
            var t' := HandTransform(x', z, sx, sy, sz);
            t.cls == t'.cls && t.attrs.Keys == t'.attrs.Keys &&
            forall f :: f in t.attrs && f != "posX" ==> t.attrs[f] == t'.attrs[f]
  {
    var kw := HandKwargs(z, sx, sy, sz);
    forall f | f in TabletopTransform.fields && f != "posX"
      ensures HandTransform(x, z, sx, sy, sz).attrs[f] == HandTransform(x', z, sx, sy, sz).attrs[f]
    {
      if f in kw {
        assert kw["posX" := Float(x)][f] == kw[f] == kw["posX" := Float(x')][f];
      }
    }
  }

  /** Exactly two hands, red first, then blue. */
  lemma TwoHands(p: TwoPlayers)
    ensures |Generate(p)| == 2
    ensures Generate(p)[0] == Hand("Red", HandTransform(-12.0, -15.0, 12.0, 6.0, 6.0))
    ensures Generate(p)[1] == Hand("Blue", HandTransform(12.0, -15.0, 12.0, 6.0, 6.0))
    ensures Generate(p)[0].attrs["Color"] == Str("Red") && Generate(p)[1].attrs["Color"] == Str("Blue")
  {
    HalfBoxes();
  }

  /** The hands are mirror images across the table's centre line: red at
      x = -12, blue at x = 12, both at z = -15, with every other transform
      field the same. */
  lemma HandsMirrored(p: TwoPlayers)
    ensures TransformField(Generate(p)[0], "posX") == Float(-12.0)
    ensures TransformField(Generate(p)[1], "posX") == Float(12.0)
    ensures forall f :: f in TabletopTransform.fields && f != "posX" ==>
              TransformField(Generate(p)[0], f) == TransformField(Generate(p)[1], f)
    ensures TransformField(Generate(p)[0], "posZ") == TransformField(Generate(p)[1], "posZ") == Float(-15.0)
  {
    TwoHands(p);
    HandPosition(-12.0, -15.0, 12.0, 6.0, 6.0);
    HandPosition(12.0, -15.0, 12.0, 6.0, 6.0);
    HandTransformsAgree(-12.0, 12.0, -15.0, 12.0, 6.0, 6.0);
  }
}
