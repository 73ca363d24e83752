/**
 * The plugin's fixed lookup tables: which ground item is which egg, which
 * display colour an egg name gets, which egg a Collector's call names, and
 * which item a Healer's call names.
 *
 * Item identifiers are the host's (its ItemID table is not part of this
 * model); the proofs rely only on their being distinct and not -1.
 */
module EggTables {
  import opened Wrappers
  import opened JavaString

  /** The four egg colours the minigame drops. */
  datatype EggColor = RedEgg | GreenEgg | BlueEgg | YellowEgg

  /** The java.awt.Color constants the plugin uses for highlighting. */
  datatype Color = Red | Green | Cyan | Yellow

  const RedEggId: int := 10531
  const GreenEggId: int := 10532
  const BlueEggId: int := 10533
  const YellowEggId: int := 10534

  const CrackersId: int := 10513
  const TofuId: int := 10514
  const WormsId: int := 10515
  const PoisonedTofuId: int := 10539
  const PoisonedWormsId: int := 10540
  const PoisonedMeatId: int := 10541

  /** The ground item of each egg colour. */
  function EggItemId(c: EggColor): int
  {
    match c
    case RedEgg => RedEggId
    case GreenEgg => GreenEggId
    case BlueEgg => BlueEggId
    case YellowEgg => YellowEggId
  }

  /**
   * The switch of getEggMap: which colour's location map an item id selects,
   * or None (Java null) for any item that is not an egg.
   */
  function EggColorOf(itemId: int): (r: Option<EggColor>)
    ensures forall c :: r == Some(c) <==> itemId == EggItemId(c)
  {
    if itemId == RedEggId then Some(RedEgg)
    else if itemId == GreenEggId then Some(GreenEgg)
    else if itemId == BlueEggId then Some(BlueEgg)
    else if itemId == YellowEggId then Some(YellowEgg)
    else None
  }

  /** isEgg: the item is one of the four eggs, exactly when getEggMap has a map for it. */
  function IsEgg(itemId: int): (r: bool)
    ensures r <==> EggColorOf(itemId).Some?
    ensures r <==> exists c :: itemId == EggItemId(c)
  {
    itemId == RedEggId || itemId == GreenEggId || itemId == BlueEggId || itemId == YellowEggId
  }

  /** The word an egg's name and a call start with. */
  function ColorWord(c: EggColor): string
  {
    match c
    case RedEgg => "Red"
    case GreenEgg => "Green"
    case BlueEgg => "Blue"
    case YellowEgg => "Yellow"
  }

  /** The ground item's name as it appears in a "Take" menu entry. */
  function EggName(c: EggColor): string
  {
    ColorWord(c) + " egg"
  }

  /** The text of the Collector's call widget naming colour `c`. */
  function CallText(c: EggColor): string
  {
    ColorWord(c) + " eggs"
  }

  /** The colour an egg is painted in: blue eggs are shown in cyan. */
  function DisplayColor(c: EggColor): Color
  {
    match c
    case RedEgg => Red
    case GreenEgg => Green
    case BlueEgg => Cyan
    case YellowEgg => Yellow
  }

  /**
   * getEggColor: the display colour for a string by the colour word it starts
   * with, tried in the order Red, Green, Blue, Yellow; None for null or any
   * other string.
   */
  function GetEggColor(str: Option<string>): (r: Option<Color>)
    ensures str.None? ==> r.None?
    ensures forall c :: str.Some? && StartsWith(str.value, ColorWord(c)) ==> r == Some(DisplayColor(c))
    ensures r.Some? ==> str.Some? && exists c :: StartsWith(str.value, ColorWord(c)) && r == Some(DisplayColor(c))
  {
    if str.None? then None
    else if StartsWith(str.value, "Red") then
      ColorWordsExclusive(str.value, RedEgg);
      Some(Red)
    else if StartsWith(str.value, "Green") then
      ColorWordsExclusive(str.value, GreenEgg);
      Some(Green)
    else if StartsWith(str.value, "Blue") then
      ColorWordsExclusive(str.value, BlueEgg);
      Some(Cyan)
    else if StartsWith(str.value, "Yellow") then
      ColorWordsExclusive(str.value, YellowEgg);
      Some(Yellow)
    else None
  }

  /** No string starts with two different colour words: they differ in their first letter. */
  lemma ColorWordsExclusive(s: string, c: EggColor)
    requires StartsWith(s, ColorWord(c))
    ensures forall d :: StartsWith(s, ColorWord(d)) <==> d == c
  {
    forall d | StartsWith(s, ColorWord(d))
      ensures d == c
    {
      assert ColorWord(d)[0] == s[0] == ColorWord(c)[0];
    }
  }

  /** An egg's own name gets that egg's display colour. */
  lemma EggNameColor(c: EggColor)
    ensures GetEggColor(Some(EggName(c))) == Some(DisplayColor(c))
  {
    assert StartsWith(EggName(c), ColorWord(c));
  }

  /**
   * The switch of getCalledEggMap: the colour whose location map a call
   * selects. Only the exact red, green and blue calls select one; a yellow
   * call, an absent widget and any other text select none.
   */
  function CalledEggColor(call: Option<string>): (r: Option<EggColor>)
    ensures forall c :: r == Some(c) <==> call == Some(CallText(c)) && c != YellowEgg
  {
    match call
    case None => None
    case Some(text) =>
      CallTextsDistinct();
      assert CallText(RedEgg) == "Red eggs" && CallText(GreenEgg) == "Green eggs";
      assert CallText(BlueEgg) == "Blue eggs";
      if text == "Red eggs" then Some(RedEgg)
      else if text == "Green eggs" then Some(GreenEgg)
      else if text == "Blue eggs" then Some(BlueEgg)
      else None
  }

  /** The four calls differ from each other (in their first letter). */
  lemma CallTextsDistinct()
    ensures forall c, d :: CallText(c) == CallText(d) ==> c == d
  {
    forall c, d | CallText(c) == CallText(d)
      ensures c == d
    {
      assert CallText(c)[0] == ColorWord(c)[0];
      assert CallText(d)[0] == ColorWord(d)[0];
    }
  }

  /** The six calls a Healer can hear, in the order the source lists them. */
  datatype ListenCall = Tofu | Crackers | Worms | PoisonedWorms | PoisonedTofu | PoisonedMeat

  /** The widget text of each call. */
  function ListenText(call: ListenCall): string
  {
    match call
    case Tofu => "Tofu"
    case Crackers => "Crackers"
    case Worms => "Worms"
    case PoisonedWorms => "Pois. Worms"
    case PoisonedTofu => "Pois. Tofu"
    case PoisonedMeat => "Pois. Meat"
  }

  /** The item each call asks for. */
  function ListenItem(call: ListenCall): int
  {
    match call
    case Tofu => TofuId
    case Crackers => CrackersId
    case Worms => WormsId
    case PoisonedWorms => PoisonedWormsId
    case PoisonedTofu => PoisonedTofuId
    case PoisonedMeat => PoisonedMeatId
  }

  /**
   * getListenItemId: the item named by a listen widget's text, or -1 when the
   * widget is absent or its text is none of the six calls.
   */
  function GetListenItemId(text: Option<string>): (r: int)
    ensures forall call :: text == Some(ListenText(call)) ==> r == ListenItem(call)
    ensures r != -1 <==> exists call :: text == Some(ListenText(call))
  {
    match text
    case None => -1
    case Some(t) =>
      ListenTextsDistinct();
      assert ListenText(Tofu) == "Tofu" && ListenText(Crackers) == "Crackers" && ListenText(Worms) == "Worms";
      assert ListenText(PoisonedWorms) == "Pois. Worms" && ListenText(PoisonedTofu) == "Pois. Tofu";
      assert ListenText(PoisonedMeat) == "Pois. Meat";
      if t == "Tofu" then TofuId
      else if t == "Crackers" then CrackersId
      else if t == "Worms" then WormsId
      else if t == "Pois. Worms" then PoisonedWormsId
      else if t == "Pois. Tofu" then PoisonedTofuId
      else if t == "Pois. Meat" then PoisonedMeatId
      else
        assert forall call :: ListenText(call) != t;
        -1
  }

  /** The six call texts differ from each other. */
  lemma ListenTextsDistinct()
    ensures forall a, b :: ListenText(a) == ListenText(b) ==> a == b
  {
    forall a, b | ListenText(a) == ListenText(b)
      ensures a == b
    {
      var s := ListenText(a);
      assert |s| == |ListenText(b)|;
      assert s[0] == ListenText(b)[0];
      if |s| == 10 {
        assert s[6] == ListenText(b)[6];
      }
    }
  }

  /** Different calls ask for different items, so the item id identifies the call heard. */
  lemma ListenItemsDistinct(a: ListenCall, b: ListenCall)
    requires GetListenItemId(Some(ListenText(a))) == GetListenItemId(Some(ListenText(b)))
    ensures a == b
  {
  }
}
