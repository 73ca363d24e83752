/**
 * The wave-start game message, "---- Wave: <n> ...", and which of its words
 * the plugin takes as the wave token.
 */
module WaveMessage {
  import opened JavaString

  /** How every wave-start game message begins. */
  const WaveMessagePrefix: string := "---- Wave:"

  /** Position of the wave token among the space-separated words of a wave message. */
  const WaveNumIndex: nat := 2

  /**
   * A wave message "---- Wave: <w> ..." yields the token `w`, as long as `w`
   * is a non-empty word that ends the message or is followed by a space.
   */
  lemma WaveToken(w: string, tail: string)
    requires w != "" && ' ' !in w
    requires tail == "" || tail[0] == ' '
    ensures StartsWith("---- Wave: " + w + tail, WaveMessagePrefix)
    ensures |Split("---- Wave: " + w + tail)| > WaveNumIndex
    ensures Split("---- Wave: " + w + tail)[WaveNumIndex] == w
  {
    WaveMessageWords(w, tail);
    ThirdWord("----", "Wave:", w, tail);
  }

  /** A wave message is the words "----" and "Wave:", each followed by a space, then the rest. */
  lemma WaveMessageWords(w: string, tail: string)
    ensures StartsWith("---- Wave: " + w + tail, WaveMessagePrefix)
    ensures "---- Wave: " + w + tail == "----" + " " + ("Wave:" + " " + (w + tail))
  {
    var m := "---- Wave: " + w + tail;
    assert m[..|WaveMessagePrefix|] == WaveMessagePrefix;
  }

  /** Two words and a third that ends the string or is followed by a space: the third survives the split. */
  lemma ThirdWord(a: string, b: string, w: string, tail: string)
    requires ' ' !in a && ' ' !in b && w != "" && ' ' !in w
    requires tail == "" || tail[0] == ' '
    ensures |Split(a + " " + (b + " " + (w + tail)))| > 2
    ensures Split(a + " " + (b + " " + (w + tail)))[2] == w
  {
    var m := a + " " + (b + " " + (w + tail));
    PiecesTwoCons(a, b, w + tail);
    PiecesHead(w, tail);
    assert m[|a|] == ' ';
    SplitKeepsPiece(m, 2);
  }

  /**
   * A wave message whose text after "---- Wave:" holds no space has only two
   * words, so reading the wave token throws.
   */
  lemma WaveTokenMissing(rest: string)
    requires ' ' !in rest
    ensures StartsWith(WaveMessagePrefix + rest, WaveMessagePrefix)
    ensures |Split(WaveMessagePrefix + rest)| == 2
  {
    var m := WaveMessagePrefix + rest;
    assert m[..|WaveMessagePrefix|] == WaveMessagePrefix;
    assert m == "----" + " " + ("Wave:" + rest);
    assert ' ' !in "Wave:" + rest;
    TwoWords("----", "Wave:" + rest);
    assert ' ' in m by { assert m[4] == ' '; }
    assert Pieces(m)[1] != "";
  }
}
