/**
 * The Collector's menu aid: when a "Take" entry for an egg is added, decide
 * whether it should be painted, and in which colour, and build the painted
 * text.
 */
module MenuHighlight {
  import opened Wrappers
  import opened JavaString
  import opened EggTables

  /** A menu entry as the host shows it: an action and what it acts on, both possibly colour-tagged. */
  datatype MenuEntry = MenuEntry(option: string, target: string)

  /** A text with its leading colour tag cut off: everything after the first '>'. */
  function Clean(text: string): string
  {
    AfterFirst(text, '>')
  }

  /** The six hexadecimal digits of a colour's RGB value. */
  function HexCode(c: Color): string
  {
    match c
    case Red => "ff0000"
    case Green => "00ff00"
    case Cyan => "00ffff"
    case Yellow => "ffff00"
  }

  /** ColorUtil.prependColorTag: the text preceded by the tag that paints it in `c`. */
  function PrependColorTag(text: string, c: Color): string
  {
    "<col=" + HexCode(c) + ">" + text
  }

  /** Cleaning a painted text gives back the text: the tag holds no '>' before its last character. */
  lemma CleanPainted(text: string, c: Color)
    ensures Clean(PrependColorTag(text, c)) == text
  {
    var tag := "<col=" + HexCode(c);
    assert '>' !in tag;
    assert PrependColorTag(text, c) == tag + ">" + text;
    AfterFirstOfPrefixed(tag, '>', text);
  }

  /**
   * The colour a newly added entry is painted in, if any: only a "Take"
   * entry; the target's own colour when the heard call starts with the
   * target's name; otherwise yellow for a yellow egg, which is never wrong.
   */
  function HighlightColor(calledEgg: Option<string>, target: string, option: string): (r: Option<Color>)
    ensures r.Some? ==> Clean(option) == "Take"
    ensures r.Some? ==> r == GetEggColor(Some(Clean(target)))
    ensures r.Some? ==> (calledEgg.Some? && StartsWith(calledEgg.value, Clean(target))) || Clean(target) == EggName(YellowEgg)
    ensures Clean(option) == "Take" && calledEgg.Some? && StartsWith(calledEgg.value, Clean(target)) ==>
              r == GetEggColor(Some(Clean(target)))
    ensures Clean(option) == "Take" && Clean(target) == EggName(YellowEgg) ==> r == Some(Yellow)
  {
    var targetClean := Clean(target);
    var optionClean := Clean(option);
    assert EggName(YellowEgg) == "Yellow egg";
    if optionClean != "Take" then None
    else if calledEgg.Some? && StartsWith(calledEgg.value, targetClean) then GetEggColor(Some(targetClean))
    else if targetClean == "Yellow egg" then
      EggNameColor(YellowEgg);
      Some(Yellow)
    else None
  }

  /** A call for `c` starts with the name of egg `d` exactly when they are the same colour. */
  lemma CallStartsWithEggName(c: EggColor, d: EggColor)
    ensures StartsWith(CallText(c), EggName(d)) <==> c == d
  {
    assert CallText(c)[0] == ColorWord(c)[0] && EggName(d)[0] == ColorWord(d)[0];
    if c == d {
      assert CallText(c) == EggName(c) + "s";
      assert CallText(c)[..|EggName(c)|] == EggName(c);
    }
  }

  /**
   * With a colour called, taking an egg of that colour is painted in the
   * egg's colour, a yellow egg is always painted yellow, and any other egg
   * is left alone; only the cleaned labels matter, whether or not the host
   * put a tag in front of them.
   */
  lemma HighlightFollowsCall(c: EggColor, d: EggColor, target: string, option: string)
    requires Clean(target) == EggName(d) && Clean(option) == "Take"
    ensures HighlightColor(Some(CallText(c)), target, option)
         == if c == d || d == YellowEgg then Some(DisplayColor(d)) else None
  {
    CallStartsWithEggName(c, d);
    EggNameColor(d);
    EggNameColor(YellowEgg);
    if d != YellowEgg {
      assert EggName(d) != "Yellow egg" by {
        assert EggName(d)[0] == ColorWord(d)[0];
      }
    }
  }

  /** With no call heard, only yellow eggs are painted. */
  lemma NoCallOnlyYellow(target: string, option: string)
    ensures HighlightColor(None, target, option).Some? <==> Clean(option) == "Take" && Clean(target) == EggName(YellowEgg)
  {
  }

  /**
   * Painting is stable: the painted target, seen again, leads to the same
   * decision, so repainting an entry never changes its colour.
   */
  lemma RepaintSameColor(calledEgg: Option<string>, target: string, option: string, c: Color)
    ensures HighlightColor(calledEgg, PrependColorTag(Clean(target), c), option) == HighlightColor(calledEgg, target, option)
  {
    CleanPainted(Clean(target), c);
  }
}
