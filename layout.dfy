/** Model of ttgen/tabletop_generator/layout.py: the open deck, a layout
    element whose size follows from the number of cards laid out side by
    side. */
module Layout {
  import opened Dataclass

  /** `OpenDeck(position, count, deck)`. */
  datatype OpenDeck = OpenDeck(position: PosType, count: int, deck: string)

  /** `OpenDeck()`: one card at the origin, no deck named. */
  const DefaultOpenDeck := OpenDeck(DefaultPos, 1, "")

  /** `width`: a 2.0 wide slot for each card and one more, with a 0.2 gap
      per card; that is 2.2 per card plus 2.0. */
  function Width(d: OpenDeck): (w: real)
    ensures w == 2.2 * d.count as real + 2.0
  {
    (d.count + 1) as real * 2.0 + d.count as real * 0.2
  }

  /** `height`. */
  function Height(d: OpenDeck): real {
    3.2
  }

  /** `bottom_margin`. */
  function BottomMargin(d: OpenDeck): real {
    0.8
  }

  /** With the default single card the open deck is 4.2 wide. */
  lemma DefaultWidth()
    ensures Width(DefaultOpenDeck) == 4.2
  {
  }

  /** One more card widens the open deck by exactly 2.2. */
  lemma WidthStep(d: OpenDeck)
    ensures Width(d.(count := d.count + 1)) == Width(d) + 2.2
  {
  }

  /** So more cards always make a wider open deck. */
  lemma WidthIncreasing(d: OpenDeck, e: OpenDeck)
    requires d.count < e.count
    ensures Width(d) < Width(e)
  {
  }

  /** Height and bottom margin are 3.2 and 0.8 whatever the count, deck and
      position. */
  lemma FixedHeight(d: OpenDeck, e: OpenDeck)
    ensures Height(d) == Height(e) == 3.2
    ensures BottomMargin(d) == BottomMargin(e) == 0.8
  {
  }
}
