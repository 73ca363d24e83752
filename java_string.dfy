/**
 * The few java.lang.String operations the plugin relies on, over `string`
 * (a Java string is modelled as a sequence of characters).
 */
module JavaString {

  /** `s.indexOf(c)`: the first position of `c` in `s`, or -1 when there is none. */
  function IndexOf(s: string, c: char): (r: int)
    ensures -1 <= r < |s|
    ensures r == -1 <==> c !in s
    ensures r >= 0 ==> s[r] == c
  {
    if s == [] then -1
    else if s[0] == c then 0
    else
      var k := IndexOf(s[1..], c);
      if k == -1 then -1 else k + 1
  }

  /** No `c` comes before the position `IndexOf` reports. */
  lemma {:induction false} IndexOfFirst(s: string, c: char)
    ensures IndexOf(s, c) >= 0 ==> c !in s[..IndexOf(s, c)]
  {
    if s != [] && s[0] != c {
      IndexOfFirst(s[1..], c);
      var k := IndexOf(s[1..], c);
      if k >= 0 {
        assert s[..k + 1] == [s[0]] + s[1..][..k];
      }
    }
  }

  /** `s.substring(s.indexOf(c) + 1)`: what follows the first `c`, or all of `s` without one. */
  function AfterFirst(s: string, c: char): (r: string)
    ensures c !in s ==> r == s
    ensures c in s ==> |r| < |s| && s == s[..|s| - |r| - 1] + [c] + r && c !in s[..|s| - |r| - 1]
  {
    var k := IndexOf(s, c);
    IndexOfFirst(s, c);
    assert k >= 0 ==> s == s[..k] + [c] + s[k + 1..];
    s[k + 1..]
  }

  /** Cutting at the first `c` of `p + [c] + rest`, when `p` holds no `c`, gives back `rest`. */
  lemma AfterFirstOfPrefixed(p: string, c: char, rest: string)
    requires c !in p
    ensures AfterFirst(p + [c] + rest, c) == rest
  {
    IndexOfPrefixed(p, c, rest);
  }

  /** In `p + [c] + rest` with no `c` in `p`, the first `c` sits right after `p`. */
  lemma IndexOfPrefixed(p: string, c: char, rest: string)
    requires c !in p
    ensures IndexOf(p + [c] + rest, c) == |p|
  {
    var s := p + [c] + rest;
    IndexOfFirst(s, c);
    assert s[|p|] == c;
  }

  /** `s.startsWith(prefix)`. */
  predicate StartsWith(s: string, prefix: string)
  {
    |prefix| <= |s| && s[..|prefix|] == prefix
  }

  /** `needle` occurs in `s` starting at position `i`. */
  predicate OccursAt(s: string, needle: string, i: int)
  {
    0 <= i && i + |needle| <= |s| && s[i..i + |needle|] == needle
  }

  /** `s.contains(needle)`, scanning the start positions of `s` from the left. */
  predicate Contains(s: string, needle: string)
    decreases |s|
  {
    StartsWith(s, needle) || (s != [] && Contains(s[1..], needle))
  }

  /** The scan finds `needle` exactly when it occurs somewhere in `s`. */
  lemma {:induction false} ContainsOccurs(s: string, needle: string)
    ensures Contains(s, needle) <==> exists i :: OccursAt(s, needle, i)
    decreases |s|
  {
    if s != [] {
      ContainsOccurs(s[1..], needle);
    }
    if exists i :: OccursAt(s, needle, i) {
      var i :| OccursAt(s, needle, i);
      if i > 0 {
        assert s[1..][i - 1..i - 1 + |needle|] == s[i..i + |needle|];
        assert OccursAt(s[1..], needle, i - 1);
      } else {
        assert StartsWith(s, needle);
      }
    }
    if s != [] && Contains(s[1..], needle) {
      var j :| OccursAt(s[1..], needle, j);
      assert s[1..][j..j + |needle|] == s[j + 1..j + 1 + |needle|];
      assert OccursAt(s, needle, j + 1);
    }
    if StartsWith(s, needle) {
      assert OccursAt(s, needle, 0);
    }
  }

  /** The pieces of `s` between its spaces, in order, before any empty piece is dropped. */
  function Pieces(s: string): (r: seq<string>)
    ensures |r| >= 1
    decreases |s|
  {
    var k := IndexOf(s, ' ');
    if k == -1 then [s] else [s[..k]] + Pieces(s[k + 1..])
  }

  /** No piece holds a space. */
  lemma {:induction false} PiecesSpaceFree(s: string)
    ensures forall i :: 0 <= i < |Pieces(s)| ==> ' ' !in Pieces(s)[i]
    decreases |s|
  {
    var k := IndexOf(s, ' ');
    if k != -1 {
      var rest := s[k + 1..];
      IndexOfFirst(s, ' ');
      PiecesSpaceFree(rest);
      var ps := Pieces(s);
      assert ps == [s[..k]] + Pieces(rest);
      forall i | 0 <= i < |ps|
        ensures ' ' !in ps[i]
      {
        if i > 0 {
          assert ps[i] == Pieces(rest)[i - 1];
        }
      }
    }
  }

  /** Pieces glued back together with single spaces. */
  function JoinWithSpaces(ps: seq<string>): string
  {
    if |ps| == 0 then ""
    else if |ps| == 1 then ps[0]
    else ps[0] + " " + JoinWithSpaces(ps[1..])
  }

  /** Cutting at the spaces loses nothing: the pieces join back to `s`. */
  lemma {:induction false} JoinPieces(s: string)
    ensures JoinWithSpaces(Pieces(s)) == s
    decreases |s|
  {
    var k := IndexOf(s, ' ');
    if k != -1 {
      var rest := s[k + 1..];
      calc {
        JoinWithSpaces(Pieces(s));
        JoinWithSpaces([s[..k]] + Pieces(rest));
        { JoinCons(s[..k], Pieces(rest)); }
        s[..k] + " " + JoinWithSpaces(Pieces(rest));
        { JoinPieces(rest); }
        s[..k] + " " + rest;
        { CutAtSpace(s, k); }
        s;
      }
    }
  }

  /** A string is what comes before a space at position `k`, that space, and what follows. */
  lemma CutAtSpace(s: string, k: int)
    requires 0 <= k < |s| && s[k] == ' '
    ensures s[..k] + " " + s[k + 1..] == s
  {
    assert s == s[..k] + [s[k]] + s[k + 1..];
  }

  /** Joining a longer list adds one word and one space in front. */
  lemma JoinCons(a: string, ps: seq<string>)
    requires |ps| >= 1
    ensures JoinWithSpaces([a] + ps) == a + " " + JoinWithSpaces(ps)
  {
    assert ([a] + ps)[1..] == ps;
  }

  /** Space-free pieces joined with spaces are cut back into the same pieces. */
  lemma {:induction false} PiecesJoin(ps: seq<string>)
    requires |ps| >= 1
    requires forall i :: 0 <= i < |ps| ==> ' ' !in ps[i]
    ensures Pieces(JoinWithSpaces(ps)) == ps
  {
    if |ps| > 1 {
      PiecesJoin(ps[1..]);
      PiecesCons(ps[0], JoinWithSpaces(ps[1..]));
      assert ps == [ps[0]] + ps[1..];
    }
  }

  /** A space-free word followed by a space becomes the first piece. */
  lemma PiecesCons(p: string, rest: string)
    requires ' ' !in p
    ensures Pieces(p + " " + rest) == [p] + Pieces(rest)
  {
    var s := p + " " + rest;
    IndexOfPrefixed(p, ' ', rest);
    assert s[..|p|] == p;
    assert s[|p| + 1..] == rest;
  }

  /** Two space-free words, each followed by a space, become the first two pieces. */
  lemma PiecesTwoCons(a: string, b: string, t: string)
    requires ' ' !in a && ' ' !in b
    ensures Pieces(a + " " + (b + " " + t)) == [a, b] + Pieces(t)
  {
    PiecesCons(a, b + " " + t);
    PiecesCons(b, t);
  }

  /** Two space-free words around one space are cut into exactly those two. */
  lemma TwoWords(a: string, b: string)
    requires ' ' !in a && ' ' !in b
    ensures Pieces(a + " " + b) == [a, b]
  {
    PiecesCons(a, b);
  }

  /** A space-free word that ends the string or is followed by a space is the first piece. */
  lemma PiecesHead(w: string, tail: string)
    requires ' ' !in w
    requires tail == "" || tail[0] == ' '
    ensures Pieces(w + tail)[0] == w
  {
    if tail == "" {
      assert w + tail == w;
    } else {
      assert w + tail == w + " " + tail[1..];
      PiecesCons(w, tail[1..]);
    }
  }

  /** Splitting a string with a space keeps every piece up to a non-empty one. */
  lemma SplitKeepsPiece(s: string, k: nat)
    requires ' ' in s && k < |Pieces(s)| && Pieces(s)[k] != ""
    ensures k < |Split(s)| && Split(s)[k] == Pieces(s)[k]
  {
  }

  /** `ps` without its trailing empty strings. */
  function DropTrailingEmpty(ps: seq<string>): (r: seq<string>)
    ensures |r| <= |ps| && r == ps[..|r|]
    ensures r == [] || r[|r| - 1] != ""
    ensures forall i :: |r| <= i < |ps| ==> ps[i] == ""
  {
    if ps == [] then []
    else if ps[|ps| - 1] == "" then DropTrailingEmpty(ps[..|ps| - 1])
    else ps
  }

  /**
   * `s.split(" ")`: without a space the whole string is the only element;
   * otherwise the pieces between spaces, trailing empty pieces removed.
   */
  function Split(s: string): (r: seq<string>)
    ensures forall i :: 0 <= i < |r| ==> ' ' !in r[i]
    ensures ' ' !in s ==> r == [s]
    ensures ' ' in s ==> |r| <= |Pieces(s)|
    ensures ' ' in s ==> r == Pieces(s)[..|r|] && (r == [] || r[|r| - 1] != "")
    ensures ' ' in s ==> forall i :: |r| <= i < |Pieces(s)| ==> Pieces(s)[i] == ""
  {
    PiecesSpaceFree(s);
    if ' ' !in s then [s] else DropTrailingEmpty(Pieces(s))
  }
}
