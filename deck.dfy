/** Model of `Deck` in ttgen/tabletop_generator/components.py: a custom deck
    of `count` cards, numbered from the deck's own number, together with
    its face and back sheets. */
module Decks {
  import opened Wrappers
  import opened Dataclass
  import opened Simulator
  import opened Components
  import opened Sequences
  import Text

  /** `len(range(count))`. */
  function CardCount(count: int): nat {
    if count < 0 then 0 else count
  }

  /** A generator `Deck`; `generate` fills in its face and back URLs when
      they are empty. The sheet size and the metadata are loaded but never
      read. */
  class Deck {
    var position: PosType
    var faceUrl: string
    var backUrl: string
    var numDim: real
    var metadata: map<string, string>
    var count: int

    constructor(position: PosType, faceUrl: string, backUrl: string, numDim: real,
                metadata: map<string, string>, count: int)
      ensures this.position == position && this.faceUrl == faceUrl && this.backUrl == backUrl
      ensures this.numDim == numDim && this.metadata == metadata && this.count == count
    {
      this.position := position;
      this.faceUrl := faceUrl;
      this.backUrl := backUrl;
      this.numDim := numDim;
      this.metadata := metadata;
      this.count := count;
    }

    /** `Deck()`: a 52-card deck at the origin. */
    constructor Default()
      ensures position == DefaultPos && faceUrl == "" && backUrl == ""
      ensures numDim == 10.7 && metadata == map[] && count == 52
    {
      position := DefaultPos;
      faceUrl := "";
      backUrl := "";
      numDim := 10.7;
      metadata := map[];
      count := 52;
    }

    /** `generate`: draws the next deck number, defaults each empty URL, makes
        one card per `range(count)` with a fresh GUID each, and returns the
        custom deck holding them. */
    method Generate(name: string, dest: string, g: Globals) returns (r: Result<seq<Value>, CoerceError>)
      modifies this`faceUrl, this`backUrl, g
      ensures g.deckId == old(g.deckId) + 1
      ensures g.guidsDrawn == old(g.guidsDrawn) + CardCount(count)
      ensures faceUrl == if old(faceUrl) == "" then g.imageUrl(dest, "decks", name) else old(faceUrl)
      ensures backUrl == if old(backUrl) == "" then g.imageUrl(dest, "decks", name + "_back") else old(backUrl)
      ensures r == Success([DeckObject(name, position, g.deckId, faceUrl, backUrl,
                                       Cards(g.deckId, g.uuid4, old(g.guidsDrawn), CardCount(count)))])
    {
      var deckId := g.GetDeckId();
      if faceUrl == "" {
        faceUrl := g.imageUrl(dest, "decks", name);
      }
      if backUrl == "" {
        backUrl := g.imageUrl(dest, "decks", name + "_back");
      }
      var start := g.guidsDrawn;
      var cards := MakeCards(deckId, count, g);
      CardsAreInstances(deckId, g.uuid4, start, CardCount(count));
      r := DeckResult(name, position, deckId, faceUrl, backUrl, cards);
    }
  }

  // ---------------------------------------------------------------------
  // Cards

  /** The loop of `generate` that builds `cards`: one card per
      `range(count)`, numbered `100 * deck_id + i`, each with a fresh GUID. */
  method MakeCards(deckId: int, count: int, g: Globals) returns (cards: seq<Value>)
    modifies g
    ensures g.deckId == old(g.deckId) && g.guidsDrawn == old(g.guidsDrawn) + CardCount(count)
    ensures cards == Cards(deckId, g.uuid4, old(g.guidsDrawn), CardCount(count))
  {
    var start := g.guidsDrawn;
    ghost var want := Cards(deckId, g.uuid4, start, CardCount(count));
    cards := [];
    for i := 0 to CardCount(count)
      invariant g.deckId == old(g.deckId) && g.guidsDrawn == start + i
      invariant |cards| == i && PrefixOf(cards, want, i)
    {
      ghost var n := g.guidsDrawn;
      var guid := g.GenGuid();
      CardAt(deckId, g.uuid4, start, CardCount(count), i, n);
      PrefixSnoc(cards, Card(100 * deckId + i, guid), want, i);
      cards := cards + [Card(100 * deckId + i, guid)];
    }
    PrefixWhole(cards, want);
  }

  function CardArgs(cardId: int, guid: string): Kwargs {
    [("CardID", Int(cardId)), ("GUID", Str(guid))]
  }

  lemma CardFieldsDeclared(cardId: int, guid: string)
    ensures KwMap(CardArgs(cardId, guid)).Keys <= TabletopCard.fields.Keys
  {
    KwargsDeclared(TabletopCard, CardArgs(cardId, guid));
  }

  /** `TabletopCard(CardID=card_id, GUID=guid)`. */
  function Card(cardId: int, guid: string): (c: Value)
    ensures c.Instance? && c.cls == "TabletopCard"
  {
    CardFieldsDeclared(cardId, guid);
    Instantiate(TabletopCard, KwMap(CardArgs(cardId, guid)))
  }

  /** The cards of deck `deckId` after `n` turns of the loop, the first
      GUID being the `start`-th drawn. */
  function Cards(deckId: int, uuid4: nat -> string, start: nat, n: nat): (cs: seq<Value>)
    ensures |cs| == n
  {
    seq(n, k requires 0 <= k < n => Card(100 * deckId + k, Guid(uuid4, start + k)))
  }

  lemma CardAt(deckId: int, uuid4: nat -> string, start: nat, total: nat, k: nat, n: nat)
    requires k < total && n == start + k
    ensures Cards(deckId, uuid4, start, total)[k] == Card(100 * deckId + k, Guid(uuid4, n))
  {
  }

  /** `card.CardID`. */
  function CardIdOf(c: Value): Value {
    if c.Instance? && "CardID" in c.attrs then c.attrs["CardID"] else NoneValue
  }

  /** `[i.CardID for i in cards]`. */
  function CardIds(cards: seq<Value>): (ids: seq<Value>)
    ensures |ids| == |cards| && forall k :: 0 <= k < |cards| ==> ids[k] == CardIdOf(cards[k])
  {
    seq(|cards|, k requires 0 <= k < |cards| => CardIdOf(cards[k]))
  }

  lemma CardsAreInstances(deckId: int, uuid4: nat -> string, start: nat, n: nat)
    ensures forall k :: 0 <= k < n ==> Cards(deckId, uuid4, start, n)[k].Instance?
  {
  }

  /** A card carries the number and GUID it was made with. */
  lemma CardFields(cardId: int, guid: string)
    ensures CardIdOf(Card(cardId, guid)) == Int(cardId)
    ensures "GUID" in Card(cardId, guid).attrs && Card(cardId, guid).attrs["GUID"] == Str(guid)
  {
    KwMapPair(("CardID", Int(cardId)), ("GUID", Str(guid)));
  }

  /** Card k of deck `deckId` is numbered `100 * deckId + k` and carries the
      k-th GUID drawn for the deck. */
  lemma CardNumbered(deckId: int, uuid4: nat -> string, start: nat, n: nat, k: nat)
    requires k < n
    ensures CardIdOf(Cards(deckId, uuid4, start, n)[k]) == Int(100 * deckId + k)
    ensures Cards(deckId, uuid4, start, n)[k].Instance? && "GUID" in Cards(deckId, uuid4, start, n)[k].attrs &&
            Cards(deckId, uuid4, start, n)[k].attrs["GUID"] == Str(Guid(uuid4, start + k))
  {
    var guid := Guid(uuid4, start + k);
    var c := Card(100 * deckId + k, guid);
    CardAt(deckId, uuid4, start, n, k, start + k);
    CardFields(100 * deckId + k, guid);
    assert Cards(deckId, uuid4, start, n)[k] == c;
  }

  /** So the ids list the card numbers in order. */
  lemma CardsNumbered(deckId: int, uuid4: nat -> string, start: nat, n: nat)
    ensures var cs := Cards(deckId, uuid4, start, n);
            forall k :: 0 <= k < n ==>
              CardIdOf(cs[k]) == Int(100 * deckId + k) &&
              cs[k].Instance? && "GUID" in cs[k].attrs && cs[k].attrs["GUID"] == Str(Guid(uuid4, start + k))
    ensures CardIds(Cards(deckId, uuid4, start, n)) == seq(n, k requires 0 <= k < n => Int(100 * deckId + k))
  {
    forall k | 0 <= k < n
      ensures CardIdOf(Cards(deckId, uuid4, start, n)[k]) == Int(100 * deckId + k)
      ensures Cards(deckId, uuid4, start, n)[k].Instance? && "GUID" in Cards(deckId, uuid4, start, n)[k].attrs &&
              Cards(deckId, uuid4, start, n)[k].attrs["GUID"] == Str(Guid(uuid4, start + k))
    {
      CardNumbered(deckId, uuid4, start, n, k);
    }
  }

  /** Within a deck of at most 100 cards, and between two such decks with
      different numbers, no two cards share a number; a card number gives
      back its deck and its place. */
  lemma CardNumbersDecode(deckId: nat, k: nat)
    requires k < 100
    ensures (100 * deckId + k) / 100 == deckId && (100 * deckId + k) % 100 == k
  {
  }

  lemma CardNumbersDistinct(d1: nat, uuid1: nat -> string, s1: nat, n1: nat,
                            d2: nat, uuid2: nat -> string, s2: nat, n2: nat, k1: nat, k2: nat)
    requires n1 <= 100 && n2 <= 100 && k1 < n1 && k2 < n2
    requires d1 != d2 || k1 != k2
    ensures CardIdOf(Cards(d1, uuid1, s1, n1)[k1]) != CardIdOf(Cards(d2, uuid2, s2, n2)[k2])
  {
    CardsNumbered(d1, uuid1, s1, n1);
    CardsNumbered(d2, uuid2, s2, n2);
    CardNumbersDecode(d1, k1);
    CardNumbersDecode(d2, k2);
  }

  // ---------------------------------------------------------------------
  // The deck object

  /** `dict(posX=x, posY=2.0, posZ=y, rotY=180.0, rotZ=180.0, scaleX=1.0,
      scaleZ=1.0)`: the deck lies face down above the table. */
  function DeckTransformArgs(position: PosType): Kwargs {
    [("posX", F(position.x)), ("posY", F(2.0)), ("posZ", F(position.y)),
     ("rotY", F(180.0)), ("rotZ", F(180.0)), ("scaleX", F(1.0)), ("scaleZ", F(1.0))]
  }

  function DeckFaceArgs(face: string, back: string): Kwargs {
    [("FaceURL", Str(face)), ("BackURL", Str(back))]
  }

  /** The keyword arguments of the deck's `from_dict`. */
  function DeckArgs(name: string, position: PosType, deckId: nat, face: string, back: string, cards: seq<Value>): Kwargs {
    [("Nickname", Str(name)),
     ("Transform", DictOf(DeckTransformArgs(position))),
     ("DeckIDs", List(CardIds(cards))),
     ("CustomDeck", DictOf([(Text.NatToDecimal(deckId), DictOf(DeckFaceArgs(face, back)))])),
     ("ContainedObjects", List(cards))]
  }

  /** `TabletopCustomDeck(FaceURL=face, BackURL=back)`. */
  function CustomDeckSheet(face: string, back: string): Value {
    KwargsDeclared(TabletopCustomDeck, DeckFaceArgs(face, back));
    Instantiate(TabletopCustomDeck, KwMap(DeckFaceArgs(face, back)))
  }

  function DeckTransform(position: PosType): Value {
    KwargsDeclared(TabletopTransform, DeckTransformArgs(position));
    Instantiate(TabletopTransform, KwMap(DeckTransformArgs(position)))
  }

  function DeckOuts(name: string, position: PosType, deckId: nat, face: string, back: string, cards: seq<Value>): Kwargs {
    [("Nickname", Str(name)),
     ("Transform", DeckTransform(position)),
     ("DeckIDs", List(CardIds(cards))),
     ("CustomDeck", DictOf([(Text.NatToDecimal(deckId), CustomDeckSheet(face, back))])),
     ("ContainedObjects", List(cards))]
  }

  /** The `TabletopDeckCustom` that `generate` returns. */
  function DeckObject(name: string, position: PosType, deckId: nat, face: string, back: string, cards: seq<Value>): Value {
    DeckOutsDeclared(name, position, deckId, face, back, cards);
    Instantiate(TabletopDeckCustom, KwMap(DeckOuts(name, position, deckId, face, back, cards)))
  }

  lemma DeckOutsDeclared(name: string, position: PosType, deckId: nat, face: string, back: string, cards: seq<Value>)
    ensures KwMap(DeckOuts(name, position, deckId, face, back, cards)).Keys <= TabletopDeckCustom.fields.Keys
  {
    var outs := DeckOuts(name, position, deckId, face, back, cards);
    DeckKeysDeclared(outs[0].1, outs[1].1, outs[2].1, outs[3].1, outs[4].1);
  }

  /** The keys of the deck's arguments, whatever their values. */
  lemma DeckKeysDeclared(nickname: Value, transform: Value, ids: Value, sheet: Value, contained: Value)
    ensures KwMap([("Nickname", nickname), ("Transform", transform), ("DeckIDs", ids),
                   ("CustomDeck", sheet), ("ContainedObjects", contained)]).Keys <= TabletopDeckCustom.fields.Keys
  {
    var outs := [("Nickname", nickname), ("Transform", transform), ("DeckIDs", ids),
                 ("CustomDeck", sheet), ("ContainedObjects", contained)];
    DeckNicknameType();
    DeckTransformType();
    DeckIdsType();
    DeckSheetType();
    DeckCardsType();
    KwargsDeclared(TabletopDeckCustom, outs);
  }

  lemma DeckNicknameType()
    ensures "Nickname" in TabletopDeckCustom.fields && TabletopDeckCustom.fields["Nickname"].ty == Scalar
  {
  }

  lemma DeckTransformType()
    ensures "Transform" in TabletopDeckCustom.fields && TabletopDeckCustom.fields["Transform"].ty == Record(TabletopTransform)
  {
  }

  lemma DeckIdsType()
    ensures "DeckIDs" in TabletopDeckCustom.fields && TabletopDeckCustom.fields["DeckIDs"].ty == ListOf(Scalar)
  {
  }

  lemma DeckSheetType()
    ensures "CustomDeck" in TabletopDeckCustom.fields &&
            TabletopDeckCustom.fields["CustomDeck"].ty == MapOf(Scalar, Record(TabletopCustomDeck))
  {
  }

  lemma DeckCardsType()
    ensures "ContainedObjects" in TabletopDeckCustom.fields &&
            TabletopDeckCustom.fields["ContainedObjects"].ty == ListOf(Record(TabletopObjectState))
  {
  }

  lemma DeckTransformScalar(position: PosType)
    ensures ScalarPairs(TabletopTransform, DeckTransformArgs(position))
  {
  }

  lemma DeckFaceScalar(face: string, back: string)
    ensures ScalarPairs(TabletopCustomDeck, DeckFaceArgs(face, back))
  {
  }

  lemma CustomDeckCoerce(deckId: nat, face: string, back: string)
    ensures Coerce(MapOf(Scalar, Record(TabletopCustomDeck)),
                   DictOf([(Text.NatToDecimal(deckId), DictOf(DeckFaceArgs(face, back)))])) ==
            Success(DictOf([(Text.NatToDecimal(deckId), CustomDeckSheet(face, back))]))
  {
    DeckFaceScalar(face, back);
    CoerceScalarKwargs(TabletopCustomDeck, DeckFaceArgs(face, back));
    CoerceDictTo(Scalar, Record(TabletopCustomDeck),
                 [(Text.NatToDecimal(deckId), DictOf(DeckFaceArgs(face, back)))],
                 [(Text.NatToDecimal(deckId), CustomDeckSheet(face, back))]);
  }

  lemma DeckNameArg(name: string)
    ensures ArgCoerces(TabletopDeckCustom, ("Nickname", Str(name)), ("Nickname", Str(name)))
  {
    DeckNicknameType();
  }

  lemma DeckTransformArg(position: PosType)
    ensures ArgCoerces(TabletopDeckCustom, ("Transform", DictOf(DeckTransformArgs(position))),
                       ("Transform", DeckTransform(position)))
  {
    DeckTransformType();
    DeckTransformScalar(position);
    NestedArgCoerces(TabletopDeckCustom, "Transform", TabletopTransform, DeckTransformArgs(position));
  }

  lemma DeckIdsArg(cards: seq<Value>)
    ensures ArgCoerces(TabletopDeckCustom, ("DeckIDs", List(CardIds(cards))), ("DeckIDs", List(CardIds(cards))))
  {
    DeckIdsType();
    CoerceListTo(Scalar, CardIds(cards), CardIds(cards));
  }

  lemma DeckSheetArg(deckId: nat, face: string, back: string)
    ensures ArgCoerces(TabletopDeckCustom,
                       ("CustomDeck", DictOf([(Text.NatToDecimal(deckId), DictOf(DeckFaceArgs(face, back)))])),
                       ("CustomDeck", DictOf([(Text.NatToDecimal(deckId), CustomDeckSheet(face, back))])))
  {
    DeckSheetType();
    CustomDeckCoerce(deckId, face, back);
  }

  lemma DeckCardsArg(cards: seq<Value>)
    requires forall k :: 0 <= k < |cards| ==> cards[k].Instance?
    ensures ArgCoerces(TabletopDeckCustom, ("ContainedObjects", List(cards)), ("ContainedObjects", List(cards)))
  {
    DeckCardsType();
    CoerceListTo(Record(TabletopObjectState), cards, cards);
  }

  /** The deck's keyword arguments coerce: the transform and the sheet become
      records, the card ids and the cards (already instances) stay as they
      are. */
  lemma DeckArgsCoerce(name: string, position: PosType, deckId: nat, face: string, back: string, cards: seq<Value>)
    requires forall k :: 0 <= k < |cards| ==> cards[k].Instance?
    ensures FromDict(TabletopDeckCustom, DictOf(DeckArgs(name, position, deckId, face, back, cards))) ==
            Success(DeckObject(name, position, deckId, face, back, cards))
  {
    var sheets := [(Text.NatToDecimal(deckId), DictOf(DeckFaceArgs(face, back)))];
    var sheets' := [(Text.NatToDecimal(deckId), CustomDeckSheet(face, back))];
    DeckNameArg(name);
    DeckTransformArg(position);
    DeckIdsArg(cards);
    DeckSheetArg(deckId, face, back);
    DeckCardsArg(cards);
    CoerceKwargs5(TabletopDeckCustom,
                  ("Nickname", Str(name)), ("Transform", DictOf(DeckTransformArgs(position))),
                  ("DeckIDs", List(CardIds(cards))), ("CustomDeck", DictOf(sheets)), ("ContainedObjects", List(cards)),
                  ("Nickname", Str(name)), ("Transform", DeckTransform(position)),
                  ("DeckIDs", List(CardIds(cards))), ("CustomDeck", DictOf(sheets')), ("ContainedObjects", List(cards)));
  }

  /** The deck's transform: the component's x and y become posX and posZ,
      the deck is raised to posY 2.0, turned 180 degrees about y and z, and
      kept at scale 1.0 along x and z; rotX and scaleY keep their
      defaults. */
  lemma DeckTransformFields(position: PosType)
    ensures var t := DeckTransform(position);
            t.Instance? && t.cls == "TabletopTransform" && t.attrs.Keys == TabletopTransform.fields.Keys &&
            t.attrs["posX"] == Float(position.x) && t.attrs["posY"] == Float(2.0) &&
            t.attrs["posZ"] == Float(position.y) && t.attrs["rotX"] == Float(0.0) &&
            t.attrs["rotY"] == Float(180.0) && t.attrs["rotZ"] == Float(180.0) &&
            t.attrs["scaleX"] == Float(1.0) && t.attrs["scaleY"] == Float(1.0) && t.attrs["scaleZ"] == Float(1.0)
  {
    var kw := DeckTransformArgs(position);
    KwMapSeven(kw[0], kw[1], kw[2], kw[3], kw[4], kw[5], kw[6]);
    assert kw == [kw[0], kw[1], kw[2], kw[3], kw[4], kw[5], kw[6]];
    DeckTransformMap(F(position.x), F(position.y));
  }

  /** The seven arguments name distinct transform fields and leave rotX and
      scaleY out. */
  lemma DeckTransformMap(x: Value, z: Value)
    ensures var m := map["posX" := x]["posY" := F(2.0)]["posZ" := z]["rotY" := F(180.0)]
                        ["rotZ" := F(180.0)]["scaleX" := F(1.0)]["scaleZ" := F(1.0)];
            var t := Instantiate(TabletopTransform, m);
            t.attrs["posX"] == x && t.attrs["posY"] == Float(2.0) && t.attrs["posZ"] == z &&
            t.attrs["rotX"] == Float(0.0) && t.attrs["rotY"] == Float(180.0) && t.attrs["rotZ"] == Float(180.0) &&
            t.attrs["scaleX"] == Float(1.0) && t.attrs["scaleY"] == Float(1.0) && t.attrs["scaleZ"] == Float(1.0)
  {
    var m := map["posX" := x]["posY" := F(2.0)]["posZ" := z]["rotY" := F(180.0)]
                ["rotZ" := F(180.0)]["scaleX" := F(1.0)]["scaleZ" := F(1.0)];
    assert m.Keys == {"posX", "posY", "posZ", "rotY", "rotZ", "scaleX", "scaleZ"};
    assert "rotX" !in m && "scaleY" !in m;
  }

  /** The face and back sheet carries the two URLs; its grid keeps the
      default 10 by 7. */
  lemma DeckSheetFields(face: string, back: string)
    ensures var s := CustomDeckSheet(face, back);
            s.Instance? && s.cls == "TabletopCustomDeck" &&
            s.attrs["FaceURL"] == Str(face) && s.attrs["BackURL"] == Str(back) &&
            s.attrs["NumWidth"] == Int(10) && s.attrs["NumHeight"] == Int(7)
  {
    KwMapPair(("FaceURL", Str(face)), ("BackURL", Str(back)));
  }

  /** The deck object `generate` builds: named after the component, with
      `DeckIDs` the ids of the cards, `ContainedObjects` the cards
      themselves, and `CustomDeck` a dictionary with the one key
      `str(deck_id)`, holding the face and back sheet. */
  lemma DeckObjectFields(name: string, position: PosType, deckId: nat, face: string, back: string, cards: seq<Value>)
    ensures var o := DeckObject(name, position, deckId, face, back, cards);
            o.Instance? && o.cls == "TabletopDeckCustom" && o.attrs.Keys == TabletopDeckCustom.fields.Keys &&
            o.attrs["Name"] == Str("DeckCustom") &&
            o.attrs["Nickname"] == Str(name) &&
            o.attrs["Transform"] == DeckTransform(position) &&
            o.attrs["DeckIDs"] == List(CardIds(cards)) &&
            o.attrs["ContainedObjects"] == List(cards) &&
            o.attrs["CustomDeck"] == DictOf([(Text.NatToDecimal(deckId), CustomDeckSheet(face, back))])
  {
    var kw := DeckOuts(name, position, deckId, face, back, cards);
    DeckAttrs(kw[0].1, kw[1].1, kw[2].1, kw[3].1, kw[4].1);
  }

  /** The deck record built from its five keyword arguments, whatever their
      values: each argument under its own field, `Name` at its default. */
  lemma DeckAttrs(nickname: Value, transform: Value, ids: Value, sheet: Value, contained: Value)
    ensures var kw := [("Nickname", nickname), ("Transform", transform), ("DeckIDs", ids),
                       ("CustomDeck", sheet), ("ContainedObjects", contained)];
            KwMap(kw).Keys <= TabletopDeckCustom.fields.Keys &&
            var o := Instantiate(TabletopDeckCustom, KwMap(kw));
            o.attrs["Name"] == Str("DeckCustom") && o.attrs["Nickname"] == nickname &&
            o.attrs["Transform"] == transform && o.attrs["DeckIDs"] == ids &&
            o.attrs["CustomDeck"] == sheet && o.attrs["ContainedObjects"] == contained
  {
    DeckKeysDeclared(nickname, transform, ids, sheet, contained);
    KwMapFive(("Nickname", nickname), ("Transform", transform), ("DeckIDs", ids),
              ("CustomDeck", sheet), ("ContainedObjects", contained));
    DeckNameDefault();
  }

  lemma DeckNameDefault()
    ensures "Name" in TabletopDeckCustom.fields && TabletopDeckCustom.fields["Name"].default == Str("DeckCustom")
  {
  }

  /** The `CustomDeck` dictionary has the one key `str(deck_id)`, holding
      the face and back sheet. */
  lemma DeckSheetDict(deckId: nat, face: string, back: string)
    ensures var d := DictOf([(Text.NatToDecimal(deckId), CustomDeckSheet(face, back))]);
            d.order == [Text.NatToDecimal(deckId)] &&
            d.vals == map[Text.NatToDecimal(deckId) := CustomDeckSheet(face, back)]
  {
    var sheets := [(Text.NatToDecimal(deckId), CustomDeckSheet(face, back))];
    assert sheets[..|sheets| - 1] == [];
    assert KwMap(sheets) == KwMap([])[sheets[0].0 := sheets[0].1];
  }

  /** What `Deck.generate` returns for deck number `deckId` with `n` cards:
      `DeckIDs` lists `100 * deckId + i` for i = 0 .. n - 1 in order, and
      card i of `ContainedObjects` carries that number. */
  lemma GeneratedDeckIds(name: string, position: PosType, deckId: nat, face: string, back: string,
                         uuid4: nat -> string, start: nat, n: nat)
    ensures var o := DeckObject(name, position, deckId, face, back, Cards(deckId, uuid4, start, n));
            o.attrs["DeckIDs"] == List(seq(n, k requires 0 <= k < n => Int(100 * deckId + k))) &&
            o.attrs["ContainedObjects"].List? && |o.attrs["ContainedObjects"].items| == n &&
            forall k :: 0 <= k < n ==> CardIdOf(o.attrs["ContainedObjects"].items[k]) == Int(100 * deckId + k)
  {
    DeckObjectFields(name, position, deckId, face, back, Cards(deckId, uuid4, start, n));
    CardsNumbered(deckId, uuid4, start, n);
  }

  /** The `return` of `generate`: the deck's `from_dict`, as a one-element
      list; the coercion succeeds whenever the contained objects are
      instances. */
  function DeckResult(name: string, position: PosType, deckId: nat, face: string, back: string, cards: seq<Value>):
    (r: Result<seq<Value>, CoerceError>)
    requires forall k :: 0 <= k < |cards| ==> cards[k].Instance?
    ensures r == Success([DeckObject(name, position, deckId, face, back, cards)])
  {
    DeckArgsCoerce(name, position, deckId, face, back, cards);
    var obj := FromDict(TabletopDeckCustom, DictOf(DeckArgs(name, position, deckId, face, back, cards)));
    match obj
    case Success(v) => Success([v])
    case Failure(e) => Failure(e)
  }
}
