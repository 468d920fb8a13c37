/** Text as sequences of characters: words, trimming, letter case. */
module CommandText {

  // ---- Words -----------------------------------------------------------------------------------

  /** The White_Space property of the Unicode Character Database. */
  predicate IsSpace(c: char) {
    '\t' <= c <= '\r' || c == ' ' || c == '\U{85}' || c == '\U{A0}' || c == '\U{1680}'
    || '\U{2000}' <= c <= '\U{200A}' || c == '\U{2028}' || c == '\U{2029}' || c == '\U{202F}'
    || c == '\U{205F}' || c == '\U{3000}'
  }

  /** The length of the piece at the start of `text`, up to a separator. */
  function PieceEnd(text: string, sep: char -> bool): (n: nat)
    ensures n <= |text|
    ensures forall i :: 0 <= i < n ==> !sep(text[i])
    ensures n < |text| ==> sep(text[n])
  {
    if text == "" || sep(text[0]) then 0 else 1 + PieceEnd(text[1..], sep)
  }

  /** The non-empty pieces between separators. */
  function Split(text: string, sep: char -> bool): (pieces: seq<string>)
    decreases |text|
  {
    if text == "" then []
    else if sep(text[0]) then Split(text[1..], sep)
    else
      var n := PieceEnd(text, sep);
      [text[..n]] + Split(text[n..], sep)
  }

  predicate AllOf(text: string, test: char -> bool) {
    forall i :: 0 <= i < |text| ==> test(text[i])
  }

  predicate IsPiece(piece: string, sep: char -> bool) {
    piece != "" && forall i :: 0 <= i < |piece| ==> !sep(piece[i])
  }

  function Words(text: string): (words: seq<string>) {
    Split(text, IsSpace)
  }

  predicate AreWords(words: seq<string>) {
    forall i :: 0 <= i < |words| ==> IsPiece(words[i], IsSpace)
  }

  function Join(words: seq<string>): (text: string) {
    if words == [] then "" else if |words| == 1 then words[0] else words[0] + " " + Join(words[1..])
  }

  function Collapse(text: string): string {
    Join(Words(text))
  }

  lemma {:induction false} SplitGivesPieces(text: string, sep: char -> bool)
    ensures forall i :: 0 <= i < |Split(text, sep)| ==> IsPiece(Split(text, sep)[i], sep)
    decreases |text|
  {
    if text != "" {
      if sep(text[0]) {
        SplitGivesPieces(text[1..], sep);
      } else {
        SplitGivesPieces(text[PieceEnd(text, sep)..], sep);
      }
    }
  }

  lemma PieceEndIs(piece: string, rest: string, sep: char -> bool)
    requires IsPiece(piece, sep) && (rest == "" || sep(rest[0]))
    ensures PieceEnd(piece + rest, sep) == |piece|
  {
    var n := PieceEnd(piece + rest, sep);
    assert rest != "" ==> (piece + rest)[|piece|] == rest[0];
  }

  lemma SplitFirst(piece: string, rest: string, sep: char -> bool)
    requires IsPiece(piece, sep) && (rest == "" || sep(rest[0]))
    ensures Split(piece + rest, sep) == [piece] + Split(rest, sep)
  {
    var text := piece + rest;
    PieceEndIs(piece, rest, sep);
    assert !sep(text[0]) by { assert text[0] == piece[0]; }
    assert text[..|piece|] == piece && text[|piece|..] == rest;
  }

  lemma SplitSkips(text: string, sep: char -> bool)
    requires text != "" && sep(text[0])
    ensures Split(text, sep) == Split(text[1..], sep)
  {
  }

  /** Splitting works on both sides of a separator. */
  lemma {:induction false} SplitAppend(a: string, b: string, sep: char -> bool)
    requires a == "" || sep(a[|a| - 1]) || b == "" || sep(b[0])
    ensures Split(a + b, sep) == Split(a, sep) + Split(b, sep)
    decreases |a|
  {
    if a == "" {
      assert a + b == b;
    } else if sep(a[0]) {
      assert (a + b)[1..] == a[1..] + b;
      SplitAppend(a[1..], b, sep);
      SplitSkips(a + b, sep);
    } else {
      var n := PieceEnd(a, sep);
      var piece, rest := a[..n], a[n..];
      SplitAppend(rest, b, sep);
      AppendFirst(piece, rest, b, sep);
      assert piece + rest == a;
    }
  }

  lemma AppendFirst(piece: string, rest: string, b: string, sep: char -> bool)
    requires IsPiece(piece, sep) && (rest == "" || sep(rest[0])) && (rest + b == "" || sep((rest + b)[0]))
    requires Split(rest + b, sep) == Split(rest, sep) + Split(b, sep)
    ensures Split((piece + rest) + b, sep) == Split(piece + rest, sep) + Split(b, sep)
  {
    hide Split;
    assert (piece + rest) + b == piece + (rest + b);
    SplitFirst(piece, rest, sep);
    SplitFirst(piece, rest + b, sep);
    assert [piece] + (Split(rest, sep) + Split(b, sep)) == ([piece] + Split(rest, sep)) + Split(b, sep);
  }

  lemma {:induction false} SplitBlank(text: string, sep: char -> bool)
    requires AllOf(text, sep)
    ensures Split(text, sep) == []
  {
    if text != "" {
      SplitBlank(text[1..], sep);
    }
  }

  /** Joining pieces and splitting again gives the pieces back. */
  lemma {:induction false} SplitOfJoin(pieces: seq<string>, sep: char -> bool)
    requires sep(' ') && forall i :: 0 <= i < |pieces| ==> IsPiece(pieces[i], sep)
    ensures Split(Join(pieces), sep) == pieces
  {
    if |pieces| == 1 {
      assert pieces[0] + "" == pieces[0];
      SplitFirst(pieces[0], "", sep);
    } else if pieces != [] {
      var rest := " " + Join(pieces[1..]);
      assert Join(pieces) == pieces[0] + rest;
      SplitFirst(pieces[0], rest, sep);
      assert rest[1..] == Join(pieces[1..]);
      SplitSkips(rest, sep);
      SplitOfJoin(pieces[1..], sep);
    }
  }

  lemma WordsOfJoin(words: seq<string>)
    requires AreWords(words)
    ensures Words(Join(words)) == words
  {
    SplitOfJoin(words, IsSpace);
  }

  lemma {:induction false} JoinAppend(a: seq<string>, b: seq<string>)
    requires a != [] && b != []
    ensures Join(a + b) == Join(a) + " " + Join(b)
  {
    if |a| == 1 {
      assert (a + b)[1..] == b;
    } else {
      assert (a + b)[1..] == a[1..] + b;
      JoinAppend(a[1..], b);
    }
  }

  // ---- Trimming and case -----------------------------------------------------------------------

  function DropWhile(text: string, drop: char -> bool): (rest: string)
    ensures |rest| < |text| || rest == text
    ensures rest != "" ==> !drop(rest[0])
  {
    if text == "" || !drop(text[0]) then text else DropWhile(text[1..], drop)
  }

  function DropEnd(text: string, drop: char -> bool): (rest: string)
    ensures rest != "" ==> !drop(rest[|rest| - 1])
  {
    if text == "" || !drop(text[|text| - 1]) then text else DropEnd(text[..|text| - 1], drop)
  }

  lemma {:induction false} DropWhileSplits(text: string, drop: char -> bool) returns (lead: string)
    ensures text == lead + DropWhile(text, drop) && AllOf(lead, drop)
  {
    if text == "" || !drop(text[0]) {
      lead := "";
    } else {
      var more := DropWhileSplits(text[1..], drop);
      lead := [text[0]] + more;
    }
  }

  lemma {:induction false} DropEndSplits(text: string, drop: char -> bool) returns (tail: string)
    ensures text == DropEnd(text, drop) + tail && AllOf(tail, drop)
  {
    if text == "" || !drop(text[|text| - 1]) {
      tail := "";
    } else {
      var more := DropEndSplits(text[..|text| - 1], drop);
      tail := more + [text[|text| - 1]];
    }
  }

  function Trim(text: string): (rest: string) {
    DropEnd(DropWhile(text, IsSpace), IsSpace)
  }

  function LowerChar(c: char): (d: char) {
    if 'A' <= c <= 'Z' then (c as int + 32) as char else c
  }

  function Lower(text: string): (lower: string)
    ensures |lower| == |text| && forall i :: 0 <= i < |text| ==> lower[i] == LowerChar(text[i])
  {
    seq(|text|, i requires 0 <= i < |text| => LowerChar(text[i]))
  }

  /** Neither trimming nor the order of trimming and lowering matters to the words. */
  lemma WordsOfTrimmed(text: string)
    ensures Words(Lower(Trim(text))) == Words(Lower(text))
  {
    var mid := Trim(text);
    var lead := DropWhileSplits(text, IsSpace);
    var tail := DropEndSplits(DropWhile(text, IsSpace), IsSpace);
    assert Lower(text) == Lower(lead) + (Lower(mid) + Lower(tail));
    PaddingAdds(lead, Lower(mid) + Lower(tail));
    TailAdds(Lower(mid), tail);
  }

  lemma BlankLower(blank: string)
    requires AllOf(blank, IsSpace)
    ensures AllOf(Lower(blank), IsSpace)
  {
  }

  lemma PaddingAdds(blank: string, text: string)
    requires AllOf(blank, IsSpace)
    ensures Words(Lower(blank) + text) == Words(text)
  {
    BlankLower(blank);
    SplitBlank(Lower(blank), IsSpace);
    SplitAppend(Lower(blank), text, IsSpace);
  }

  lemma TailAdds(text: string, blank: string)
    requires AllOf(blank, IsSpace)
    ensures Words(text + Lower(blank)) == Words(text)
  {
    BlankLower(blank);
    SplitBlank(Lower(blank), IsSpace);
    SplitAppend(text, Lower(blank), IsSpace);
  }
}
