/** Checkable facts derived from an expected answer by rule, and their evaluation against an
    answer by string comparison.

    `nfc` is normalization form C: any function, of which only the closure of normalised text
    under substrings is ever assumed.  Case folding is any mapping of characters to strings that
    leaves white space alone. */
module Assertions {
  import opened Wrappers

  type Form = string -> string
  type Fold = char -> string

  /** Every part of a text in this form is in this form: section 1.4 of UAX #15. */
  ghost predicate ClosedUnderParts(nfc: Form) { forall t, s :: nfc(t) == t && Contains(t, s) ==> nfc(s) == s }

  ghost predicate KeepsSpaces(fold: Fold) { forall c :: IsSpace(c) ==> fold(c) == [c] }

  // ----- substrings

  predicate StartsAt(t: string, s: string, i: nat) { i + |s| <= |t| && t[i..i + |s|] == s }

  /** Python's `s in t`. */
  predicate Contains(t: string, s: string) { exists i :: 0 <= i <= |t| && StartsAt(t, s, i) }

  lemma ContainsMiddle(a: string, s: string, b: string)
    ensures Contains(a + s + b, s)
  {
    assert StartsAt(a + s + b, s, |a|);
  }

  lemma Middle(t: string, s: string) returns (a: string, b: string)
    requires Contains(t, s)
    ensures t == a + s + b
  {
    var i :| 0 <= i <= |t| && StartsAt(t, s, i);
    a, b := t[..i], t[i + |s|..];
  }

  lemma ContainsTransitive(t: string, s: string, r: string)
    requires Contains(t, s) && Contains(s, r)
    ensures Contains(t, r)
  {
    var a, b := Middle(t, s);
    var c, d := Middle(s, r);
    assert t == (a + c) + r + (d + b);
    ContainsMiddle(a + c, r, d + b);
  }

  // ----- normalisation

  const QUOTES := "\"\U{201C}\U{201D}"

  function Unquoted(s: string): string {
    if s == "" then "" else Unquoted(s[..|s| - 1]) + if s[|s| - 1] in QUOTES then "" else [s[|s| - 1]]
  }

  function Folded(fold: Fold, s: string): string {
    if s == "" then "" else Folded(fold, s[..|s| - 1]) + fold(s[|s| - 1])
  }

  predicate EndsInSpace(s: string) { s != "" && IsSpace(s[|s| - 1]) }

  /** str.split() without a separator. */
  function Words(s: string): seq<string> {
    if s == "" then []
    else
      var n := |s| - 1;
      var before := Words(s[..n]);
      if IsSpace(s[n]) then before
      else if before == [] || EndsInSpace(s[..n]) then before + [[s[n]]]
      else before[..|before| - 1] + [before[|before| - 1] + [s[n]]]
  }

  function Spaced(words: seq<string>): string {
    if words == [] then "" else if |words| == 1 then words[0] else Spaced(words[..|words| - 1]) + " " + words[|words| - 1]
  }

  function Collapsed(s: string): string { Spaced(Words(s)) }

  /** What follows the normalization form: quotes out, case folded, white space collapsed. */
  function Plain(fold: Fold, s: string): string { Collapsed(Folded(fold, Unquoted(s))) }

  function Normalized(nfc: Form, fold: Fold, s: string): string { Plain(fold, nfc(s)) }

  /** What an item is checked by: the item without quotes, white space collapsed. */
  function ValueOf(item: string): string { Collapsed(Unquoted(item)) }

  /** The normalization form takes nothing from the value that is not found in it as written. */
  predicate Survives(nfc: Form, fold: Fold, value: string) { Contains(Plain(fold, value), Normalized(nfc, fold, value)) }

  // ----- normalisation keeps substrings

  lemma {:induction false} WordsAreWords(s: string)
    ensures forall i :: 0 <= i < |Words(s)| ==> |Words(s)[i]| > 0
    ensures Collapsed(s) == "" <==> Words(s) == []
  {
    if s != "" { WordsAreWords(s[..|s| - 1]); }
    SpacedWords(Words(s));
  }

  lemma SpacedWords(words: seq<string>)
    requires forall i :: 0 <= i < |words| ==> |words[i]| > 0
    ensures Spaced(words) == "" <==> words == []
  {}

  lemma {:induction false} WordsBlank(s: string)
    ensures Words(s) == [] <==> forall c :: c in s ==> IsSpace(c)
  {
    if s != "" {
      var n := |s| - 1;
      assert s == s[..n] + [s[n]];
      WordsBlank(s[..n]);
    }
  }

  function Gap(s: string): string { if Collapsed(s) != "" && EndsInSpace(s) then " " else "" }

  lemma Regroup(a: string, b: string, c: string, d: string)
    ensures a + b + c + d == a + (b + c + d)
  {}

  /** Collapsing reads left to right, and puts one space before a word that follows another. */
  lemma CollapsedStep(s: string, c: char)
    ensures IsSpace(c) ==> Collapsed(s + [c]) == Collapsed(s)
    ensures !IsSpace(c) ==> Collapsed(s + [c]) == Collapsed(s) + Gap(s) + [c]
  {
    WordsAreWords(s);
    assert (s + [c])[..|s|] == s;
    var before, after := Words(s), Words(s + [c]);
    if !IsSpace(c) && before != [] {
      var n := |before| - 1;
      if EndsInSpace(s) {
        assert after[..|after| - 1] == before;
      } else {
        assert after[..|after| - 1] == before[..n];
      }
    }
  }

  lemma {:induction false} CollapsedPrefix(s: string, b: string) returns (rest: string)
    ensures Collapsed(s + b) == Collapsed(s) + rest
  {
    if b == "" {
      assert s + b == s;
      rest := "";
    } else {
      var n := |b| - 1;
      rest := CollapsedPrefix(s, b[..n]);
      assert s + b == (s + b[..n]) + [b[n]];
      CollapsedStep(s + b[..n], b[n]);
      var more := if IsSpace(b[n]) then "" else Gap(s + b[..n]) + [b[n]];
      rest := rest + more;
    }
  }

  lemma SuffixStep(t: string, s: string, c: char, before: string) returns (rest: string)
    requires Collapsed(t) == before + Collapsed(s)
    requires Collapsed(s) != "" ==> (EndsInSpace(t) <==> EndsInSpace(s))
    ensures Collapsed(t + [c]) == rest + Collapsed(s + [c])
  {
    CollapsedStep(t, c);
    CollapsedStep(s, c);
    if IsSpace(c) {
      rest := before;
    } else if Collapsed(s) == "" {
      rest := before + Gap(t);
      assert before + "" == before && "" + "" + [c] == [c];
    } else {
      rest := before;
      Regroup(before, Collapsed(s), Gap(s), [c]);
      assert Gap(t) == Gap(s);
    }
  }

  lemma {:induction false} CollapsedSuffix(a: string, s: string) returns (rest: string)
    ensures Collapsed(a + s) == rest + Collapsed(s)
  {
    if s == "" {
      rest := Collapsed(a + s);
    } else {
      var n := |s| - 1;
      var before := CollapsedSuffix(a, s[..n]);
      assert a + s == (a + s[..n]) + [s[n]] && s == s[..n] + [s[n]];
      assert n > 0 ==> (a + s[..n])[|a + s[..n]| - 1] == s[..n][n - 1];
      rest := SuffixStep(a + s[..n], s[..n], s[n], before);
    }
  }

  lemma CollapsedContains(t: string, s: string)
    requires Contains(t, s)
    ensures Contains(Collapsed(t), Collapsed(s))
  {
    var a, b := Middle(t, s);
    var after := CollapsedPrefix(a + s, b);
    var before := CollapsedSuffix(a, s);
    ContainsMiddle(before, Collapsed(s), after);
  }

  lemma {:induction false} UnquotedPlus(s: string, t: string)
    ensures Unquoted(s + t) == Unquoted(s) + Unquoted(t)
  {
    if t == "" {
      assert s + t == s;
    } else {
      UnquotedPlus(s, t[..|t| - 1]);
      assert (s + t)[..|s + t| - 1] == s + t[..|t| - 1];
    }
  }

  lemma {:induction false} FoldedPlus(fold: Fold, s: string, t: string)
    ensures Folded(fold, s + t) == Folded(fold, s) + Folded(fold, t)
  {
    if t == "" {
      assert s + t == s;
    } else {
      FoldedPlus(fold, s, t[..|t| - 1]);
      assert (s + t)[..|s + t| - 1] == s + t[..|t| - 1];
    }
  }

  /** Removing quotes, folding case and collapsing white space keep the substring relation. */
  lemma PlainContains(fold: Fold, t: string, s: string)
    requires Contains(t, s)
    ensures Contains(Plain(fold, t), Plain(fold, s))
  {
    var a, b := Middle(t, s);
    UnquotedPlus(a + s, b);
    UnquotedPlus(a, s);
    FoldedPlus(fold, Unquoted(a) + Unquoted(s), Unquoted(b));
    FoldedPlus(fold, Unquoted(a), Unquoted(s));
    ContainsMiddle(Folded(fold, Unquoted(a)), Folded(fold, Unquoted(s)), Folded(fold, Unquoted(b)));
    CollapsedContains(Folded(fold, Unquoted(t)), Folded(fold, Unquoted(s)));
  }

  /** In a text in the normalization form, so does normalising as a whole. */
  lemma NormalizedContains(nfc: Form, fold: Fold, t: string, s: string)
    requires ClosedUnderParts(nfc) && nfc(t) == t && Contains(t, s)
    ensures Contains(Normalized(nfc, fold, t), Normalized(nfc, fold, s))
  {
    PlainContains(fold, t, s);
  }

  // ----- a value stripped of its quotes normalises like the item it came from

  /** Texts that collapse alike however they are continued. */
  ghost predicate Alike(s: string, t: string) {
    Collapsed(s) == Collapsed(t) && (Collapsed(s) == "" || (EndsInSpace(s) <==> EndsInSpace(t)))
  }

  lemma {:induction false} AlikeExtended(s: string, t: string, more: string)
    requires Alike(s, t)
    ensures Alike(s + more, t + more)
  {
    if more == "" {
      assert s + more == s && t + more == t;
    } else {
      var n := |more| - 1;
      AlikeExtended(s, t, more[..n]);
      assert s + more == (s + more[..n]) + [more[n]] && t + more == (t + more[..n]) + [more[n]];
      CollapsedStep(s + more[..n], more[n]);
      CollapsedStep(t + more[..n], more[n]);
    }
  }

  lemma {:induction false} CollapsedFold(fold: Fold, s: string)
    requires KeepsSpaces(fold)
    ensures Collapsed(Folded(fold, Collapsed(s))) == Collapsed(Folded(fold, s))
    ensures EndsInSpace(s) || Alike(Folded(fold, Collapsed(s)), Folded(fold, s))
  {
    if s != "" {
      var n := |s| - 1;
      var before, c := s[..n], s[n];
      assert s == before + [c];
      CollapsedFold(fold, before);
      CollapsedStep(before, c);
      FoldedPlus(fold, before, [c]);
      FoldedOne(fold, c);
      var done := Folded(fold, Collapsed(before));
      if IsSpace(c) {
        CollapsedStep(Folded(fold, before), c);
      } else if Collapsed(before) != "" && EndsInSpace(before) {
        FoldedPlus(fold, Collapsed(before) + " ", [c]);
        FoldedPlus(fold, Collapsed(before), " ");
        FoldedOne(fold, ' ');
        CollapsedStep(done, ' ');
        FoldedEnds(fold, before);
        assert Alike(done + " ", Folded(fold, before));
        AlikeExtended(done + " ", Folded(fold, before), fold(c));
      } else {
        FoldedPlus(fold, Collapsed(before), [c]);
        assert Alike(done, Folded(fold, before)) by {
          if EndsInSpace(before) { assert Collapsed(done) == ""; }
        }
        AlikeExtended(done, Folded(fold, before), fold(c));
        assert Collapsed(before) + "" + [c] == Collapsed(before) + [c];
      }
    }
  }

  lemma FoldedOne(fold: Fold, c: char)
    ensures Folded(fold, [c]) == fold(c)
  {
    assert [c][..0] == "";
  }

  lemma FoldedEnds(fold: Fold, s: string)
    requires KeepsSpaces(fold) && EndsInSpace(s)
    ensures EndsInSpace(Folded(fold, s))
  {}

  lemma {:induction false} UnquotedFixes(s: string)
    requires forall c :: c in s ==> c !in QUOTES
    ensures Unquoted(s) == s
  {
    if s != "" {
      var n := |s| - 1;
      assert s == s[..n] + [s[n]];
      UnquotedFixes(s[..n]);
    }
  }

  lemma {:induction false} CollapsedAdds(s: string, c: char)
    requires c in Collapsed(s)
    ensures c == ' ' || c in s
  {
    if s != "" {
      var n := |s| - 1;
      assert s == s[..n] + [s[n]];
      CollapsedStep(s[..n], s[n]);
      if c in Collapsed(s[..n]) { CollapsedAdds(s[..n], c); }
    }
  }

  /** But for the normalization form, a value normalises like the item it came from. */
  lemma ValuePlain(fold: Fold, item: string)
    requires KeepsSpaces(fold)
    ensures Plain(fold, ValueOf(item)) == Plain(fold, item)
  {
    var value := ValueOf(item);
    UnquotedMembers(item);
    forall c | c in value ensures c !in QUOTES { CollapsedAdds(Unquoted(item), c); }
    UnquotedFixes(value);
    CollapsedFold(fold, Unquoted(item));
  }

  /** With it, a value is found in its item exactly if it is found in itself as it was written:
      the form may compose what a quote kept apart. */
  lemma ValueNormalizes(nfc: Form, fold: Fold, item: string)
    requires KeepsSpaces(fold) && nfc(item) == item
    ensures Contains(Normalized(nfc, fold, item), Normalized(nfc, fold, ValueOf(item))) <==> Survives(nfc, fold, ValueOf(item))
    ensures nfc(ValueOf(item)) == ValueOf(item) ==> Normalized(nfc, fold, ValueOf(item)) == Normalized(nfc, fold, item)
    ensures nfc(ValueOf(item)) == ValueOf(item) ==> Survives(nfc, fold, ValueOf(item))
  {
    ValuePlain(fold, item);
    ContainsSelf(Plain(fold, item));
  }

  lemma ContainsSelf(s: string)
    ensures Contains(s, s)
  {
    assert StartsAt(s, s, 0);
  }

  // ----- splitting at top-level commas

  function Depth(s: string): int {
    if s == "" then 0
    else Depth(s[..|s| - 1]) + (if s[|s| - 1] == '(' then 1 else if s[|s| - 1] == ')' then -1 else 0)
  }

  /** The text cut at every comma outside parentheses. */
  function Pieces(text: string): (r: seq<string>)
    ensures r != []
  {
    if text == "" then [""]
    else
      var n := |text| - 1;
      var before := Pieces(text[..n]);
      if text[n] == ',' && Depth(text[..n]) == 0 then before + [""]
      else before[..|before| - 1] + [before[|before| - 1] + [text[n]]]
  }

  function Commas(pieces: seq<string>): string {
    if pieces == [] then "" else if |pieces| == 1 then pieces[0] else Commas(pieces[..|pieces| - 1]) + "," + pieces[|pieces| - 1]
  }

  /** No comma outside parentheses within a piece. */
  ghost predicate Solid(piece: string) {
    forall i :: 0 <= i < |piece| && piece[i] == ',' ==> Depth(piece[..i]) != 0
  }

  ghost predicate Closed(pieces: seq<string>) {
    forall k :: 0 <= k < |pieces| ==> Solid(pieces[k]) && Depth(pieces[k]) == 0
  }

  /** What a split at top-level commas is, without saying how it is found. */
  ghost predicate IsSplit(pieces: seq<string>, text: string) {
    && pieces != [] && Commas(pieces) == text
    && Closed(pieces[..|pieces| - 1]) && Solid(pieces[|pieces| - 1])
  }

  lemma DepthStep(s: string, c: char)
    ensures Depth(s + [c]) == Depth(s) + (if c == '(' then 1 else if c == ')' then -1 else 0)
  {
    assert (s + [c])[..|s|] == s;
  }

  lemma SolidStep(piece: string, c: char)
    ensures Solid(piece + [c]) <==> Solid(piece) && (c == ',' ==> Depth(piece) != 0)
  {
    var more := piece + [c];
    forall i | 0 <= i <= |piece| ensures more[..i] == piece[..i] {}
    assert piece[..|piece|] == piece;
    if Solid(more) {
      forall i | 0 <= i < |piece| && piece[i] == ',' ensures Depth(piece[..i]) != 0 { assert more[i] == piece[i]; }
      assert more[|piece|] == c;
    }
  }

  /** The last piece of a split is at the depth of the whole text. */
  lemma {:induction false} LastDepth(pieces: seq<string>, text: string)
    requires pieces != [] && Commas(pieces) == text && Closed(pieces[..|pieces| - 1])
    ensures Depth(pieces[|pieces| - 1]) == Depth(text)
  {
    if |pieces| > 1 {
      var n := |pieces| - 1;
      assert pieces[..n][n - 1] == pieces[n - 1] && pieces[..n][..n - 1] == pieces[..n - 1];
      assert Depth(pieces[..n][n - 1]) == 0;
      assert forall k | 0 <= k < n - 1 :: pieces[..n - 1][k] == pieces[..n][k];
      LastDepth(pieces[..n], Commas(pieces[..n]));
      DepthStep(Commas(pieces[..n]), ',');
      DepthPlus(Commas(pieces[..n]) + ",", pieces[n]);
    }
  }

  lemma {:induction false} DepthPlus(s: string, t: string)
    ensures Depth(s + t) == Depth(s) + Depth(t)
  {
    if t == "" {
      assert s + t == s;
    } else {
      DepthPlus(s, t[..|t| - 1]);
      assert (s + t)[..|s + t| - 1] == s + t[..|t| - 1];
    }
  }

  lemma CommasStep(pieces: seq<string>, piece: string, c: char)
    ensures Commas(pieces + [piece + [c]]) == Commas(pieces + [piece]) + [c]
    ensures pieces != [] ==> Commas(pieces + [""]) == Commas(pieces) + ","
  {
    assert (pieces + [piece + [c]])[..|pieces|] == pieces == (pieces + [piece])[..|pieces|];
    assert pieces != [] ==> (pieces + [""])[..|pieces|] == pieces;
  }

  /** Cutting loses nothing, cuts only outside parentheses and at every comma there. */
  lemma {:induction false} PiecesSplit(text: string)
    ensures IsSplit(Pieces(text), text)
  {
    if text != "" {
      var n := |text| - 1;
      PiecesSplit(text[..n]);
      PieceAdded(Pieces(text[..n]), text[..n], text[n]);
      assert text == text[..n] + [text[n]];
    }
  }

  function Extended(pieces: seq<string>, text: string, c: char): seq<string>
    requires pieces != []
  {
    if c == ',' && Depth(text) == 0 then pieces + [""]
    else pieces[..|pieces| - 1] + [pieces[|pieces| - 1] + [c]]
  }

  lemma PieceAdded(pieces: seq<string>, text: string, c: char)
    requires IsSplit(pieces, text)
    ensures IsSplit(Extended(pieces, text, c), text + [c])
  {
    LastDepth(pieces, text);
    if c == ',' && Depth(text) == 0 { PieceOpened(pieces, text); } else { PieceGrown(pieces, text, c); }
  }

  lemma PieceOpened(pieces: seq<string>, text: string)
    requires IsSplit(pieces, text) && Depth(pieces[|pieces| - 1]) == 0
    ensures IsSplit(pieces + [""], text + ",")
  {
    CommasStep(pieces, "", ',');
    assert (pieces + [""])[..|pieces|] == pieces == pieces[..|pieces| - 1] + [pieces[|pieces| - 1]];
  }

  lemma PieceGrown(pieces: seq<string>, text: string, c: char)
    requires IsSplit(pieces, text) && (c == ',' ==> Depth(pieces[|pieces| - 1]) != 0)
    ensures IsSplit(pieces[..|pieces| - 1] + [pieces[|pieces| - 1] + [c]], text + [c])
  {
    var m := |pieces| - 1;
    CommasStep(pieces[..m], pieces[m], c);
    SolidStep(pieces[m], c);
    assert pieces == pieces[..m] + [pieces[m]];
    assert (pieces[..m] + [pieces[m] + [c]])[..m] == pieces[..m];
  }

  /** Nothing else is such a split. */
  lemma {:induction false} OneSplit(pieces: seq<string>, text: string)
    requires IsSplit(pieces, text)
    ensures pieces == Pieces(text)
    decreases |text|
  {
    var m := |pieces| - 1;
    var last := pieces[m];
    if last != "" {
      var shorter := last[..|last| - 1];
      Shortened(pieces, text, shorter, last[|last| - 1]);
      OneSplit(pieces[..m] + [shorter], text[..|text| - 1]);
    } else if m > 0 {
      Uncut(pieces, text);
      OneSplit(pieces[..m], text[..|text| - 1]);
    }
  }

  lemma Shortened(pieces: seq<string>, text: string, shorter: string, c: char)
    requires IsSplit(pieces, text) && pieces[|pieces| - 1] == shorter + [c]
    ensures text != "" && text[|text| - 1] == c
    ensures var fewer := pieces[..|pieces| - 1] + [shorter];
            IsSplit(fewer, text[..|text| - 1]) && pieces == Extended(fewer, text[..|text| - 1], c)
  {
    var m := |pieces| - 1;
    var fewer := pieces[..m] + [shorter];
    assert pieces == pieces[..m] + [shorter + [c]] && fewer[..m] == pieces[..m];
    CommasStep(pieces[..m], shorter, c);
    SolidStep(shorter, c);
    assert text == Commas(fewer) + [c] && text[..|text| - 1] == Commas(fewer);
    LastDepth(fewer, Commas(fewer));
  }

  lemma Uncut(pieces: seq<string>, text: string)
    requires IsSplit(pieces, text) && |pieces| > 1 && pieces[|pieces| - 1] == ""
    ensures text != "" && text[|text| - 1] == ','
    ensures var fewer := pieces[..|pieces| - 1];
            IsSplit(fewer, text[..|text| - 1]) && pieces == Extended(fewer, text[..|text| - 1], ',')
  {
    var m := |pieces| - 1;
    var fewer := pieces[..m];
    assert pieces == fewer + [""];
    CommasStep(fewer, "", ',');
    assert text == Commas(fewer) + "," && text[..|text| - 1] == Commas(fewer);
    assert forall k | 0 <= k < m - 1 :: fewer[..m - 1][k] == fewer[k];
    LastDepth(fewer, Commas(fewer));
  }

  function StripLeft(s: string): (r: string)
    ensures r != "" ==> !IsSpace(r[0])
  {
    if s != "" && IsSpace(s[0]) then StripLeft(s[1..]) else s
  }

  function StripRight(s: string): (r: string)
    ensures r != "" ==> !IsSpace(r[|r| - 1])
  {
    if EndsInSpace(s) then StripRight(s[..|s| - 1]) else s
  }

  function Strip(s: string): string { StripRight(StripLeft(s)) }

  function Stripped(items: seq<string>): (r: seq<string>)
    ensures |r| == |items|
  {
    seq(|items|, k requires 0 <= k < |items| => Strip(items[k]))
  }

  lemma NextPiece(text: string, i: nat, items: seq<string>, current: string)
    requires i < |text| && items + [current] == Pieces(text[..i])
    ensures Pieces(text[..i + 1])
         == if text[i] == ',' && Depth(text[..i]) == 0 then items + [current] + [""] else items + [current + [text[i]]]
    ensures Depth(text[..i + 1]) == Depth(text[..i]) + (if text[i] == '(' then 1 else if text[i] == ')' then -1 else 0)
  {
    assert text[..i + 1][..i] == text[..i] && (items + [current])[..|items|] == items;
  }

  method SplitTopLevelCommas(text: string) returns (r: seq<string>)
    ensures r == Stripped(Pieces(text))
  {
    var items, depth, current := [], 0, "";
    for i := 0 to |text|
      invariant items + [current] == Pieces(text[..i]) && depth == Depth(text[..i])
    {
      NextPiece(text, i, items, current);
      if text[i] == '(' {
        depth, current := depth + 1, current + [text[i]];
      } else if text[i] == ')' {
        depth, current := depth - 1, current + [text[i]];
      } else if text[i] == ',' && depth == 0 {
        items, current := items + [current], "";
      } else {
        current := current + [text[i]];
      }
    }
    TakeAll(text);
    r := Stripped(items + [current]);
  }

  // ----- derivation

  datatype Kind = ContainsOne | ContainsAll

  datatype Assertion = Assertion(kind: Kind, values: seq<string>)

  datatype Status = Passed | Failed | NotApplicable

  datatype Outcome = Outcome(status: Status, missing: seq<string>)

  const STOPWORDS := ["while", "through", "by", "to", "that", "where", "which", "not", "being", "or", "and", "yes", "no"]

  predicate SpellsAt(item: string, upper: string, lower: string)
    requires |upper| == |lower|
  {
    |lower| < |item| && forall i :: 0 <= i < |lower| ==> item[i] == lower[i] || item[i] == upper[i]
  }

  /** The length of a leading "and" or "or", in any case, that more text follows. */
  function LeadingConjunction(item: string): (k: nat)
    ensures k < |item| || k == 0
  {
    if SpellsAt(item, "AND", "and") then 3 else if SpellsAt(item, "OR", "or") then 2 else 0
  }

  /** Drops the conjunction before the last item, unless a line break follows within the item. */
  function WithoutConjunction(item: string): string {
    var k := LeadingConjunction(item);
    if k > 0 && IsSpace(item[k]) && '\n' !in StripLeft(item[k..]) then StripLeft(item[k..]) else item
  }

  function NonBlank(items: seq<string>): (r: seq<string>)
    ensures forall item :: item in r ==> item != ""
  {
    if items == [] then []
    else
      var last := Strip(items[|items| - 1]);
      NonBlank(items[..|items| - 1]) + if last != "" then [last] else []
  }

  function Items(body: string): seq<string> {
    var items := Stripped(Pieces(body));
    var n := |items| - 1;
    NonBlank(items[..n] + [WithoutConjunction(items[n])])
  }

  function WithoutParentheses(word: string): string {
    if word != "" && word[0] in "()" then WithoutParentheses(word[1..])
    else if word != "" && word[|word| - 1] in "()" then WithoutParentheses(word[..|word| - 1])
    else word
  }

  predicate IsShortItem(item: string) { Depth(item) == 0 && 1 <= |Words(item)| <= 4 }

  /** The items of an answer that is wholly a short enumeration; `lower` is str.lower. */
  function EnumerationValues(lower: string -> string, answer: string): (r: Option<seq<string>>)
    ensures r.Some? ==> |r.value| >= 3
  {
    var stripped := Strip(answer);
    if stripped == "" || stripped[|stripped| - 1] != '.' then None
    else
      var body := stripped[..|stripped| - 1];
      var cleaned := Items(body);
      if |Pieces(body)| < 3 || |cleaned| < 3 then None
      else if exists i :: 0 <= i < |cleaned| && !IsShortItem(cleaned[i]) then None
      else if WithoutParentheses(lower(Words(cleaned[0])[0])) in STOPWORDS then None
      else Some(seq(|cleaned|, i requires 0 <= i < |cleaned| => ValueOf(cleaned[i])))
  }

  /** `literals` are the quotable facts the patterns found in the answer. */
  function DeriveAssertions(lower: string -> string, literals: seq<string>, answer: string): (r: seq<Assertion>)
    ensures forall i :: 0 <= i < |r| ==> r[i].values != []
  {
    (if literals != [] then [Assertion(ContainsOne, literals)] else [])
    + match EnumerationValues(lower, answer) case None => [] case Some(values) => [Assertion(ContainsAll, values)]
  }

  // ----- evaluation

  predicate Holds(nfc: Form, fold: Fold, answer: string, value: string) { Contains(Normalized(nfc, fold, answer), Normalized(nfc, fold, value)) }

  function MissingOf(nfc: Form, fold: Fold, answer: string, values: seq<string>): (r: seq<string>)
    ensures forall v :: v in r <==> v in values && !Holds(nfc, fold, answer, v)
  {
    if values == [] then []
    else
      var n := |values| - 1;
      assert values == values[..n] + [values[n]];
      MissingOf(nfc, fold, answer, values[..n]) + if Holds(nfc, fold, answer, values[n]) then [] else [values[n]]
  }

  function Missing(nfc: Form, fold: Fold, answer: string, assertions: seq<Assertion>): seq<string> {
    if assertions == [] then []
    else
      Missing(nfc, fold, answer, assertions[..|assertions| - 1]) + MissingOf(nfc, fold, answer, assertions[|assertions| - 1].values)
  }

  function Evaluated(nfc: Form, fold: Fold, answer: string, assertions: seq<Assertion>): Outcome {
    var missing := Missing(nfc, fold, answer, assertions);
    if assertions == [] then Outcome(NotApplicable, []) else Outcome(if missing == [] then Passed else Failed, missing)
  }

  lemma MissingOfStep(nfc: Form, fold: Fold, answer: string, values: seq<string>, i: nat)
    requires i < |values|
    ensures MissingOf(nfc, fold, answer, values[..i + 1])
         == MissingOf(nfc, fold, answer, values[..i]) + if Holds(nfc, fold, answer, values[i]) then [] else [values[i]]
  {
    assert values[..i + 1][..i] == values[..i];
  }

  method AddMissing(nfc: Form, fold: Fold, normalized: string, values: seq<string>, before: seq<string>, ghost answer: string)
    returns (missing: seq<string>)
    requires normalized == Normalized(nfc, fold, answer)
    ensures missing == before + MissingOf(nfc, fold, answer, values)
  {
    missing := before;
    for i := 0 to |values|
      invariant missing == before + MissingOf(nfc, fold, answer, values[..i])
    {
      MissingOfStep(nfc, fold, answer, values, i);
      if !Contains(normalized, Normalized(nfc, fold, values[i])) { missing := missing + [values[i]]; }
    }
    TakeAll(values);
  }

  method EvaluateAssertions(nfc: Form, fold: Fold, answer: string, assertions: seq<Assertion>) returns (r: Outcome)
    ensures r == Evaluated(nfc, fold, answer, assertions)
  {
    if assertions == [] { return Outcome(NotApplicable, []); }
    var normalized := Normalized(nfc, fold, answer);
    var missing := [];
    for k := 0 to |assertions|
      invariant missing == Missing(nfc, fold, answer, assertions[..k])
    {
      assert assertions[..k + 1][..k] == assertions[..k];
      missing := AddMissing(nfc, fold, normalized, assertions[k].values, missing, answer);
    }
    TakeAll(assertions);
    r := Outcome(if missing == [] then Passed else Failed, missing);
  }

  // ----- an answer satisfies what was derived from it

  lemma {:induction false} StripLeftContained(s: string)
    ensures Contains(s, StripLeft(s))
  {
    if s != "" && IsSpace(s[0]) {
      StripLeftContained(s[1..]);
      TailContained(s, 1);
      ContainsTransitive(s, s[1..], StripLeft(s[1..]));
    } else {
      TailContained(s, 0);
    }
  }

  lemma TailContained(s: string, k: nat)
    requires k <= |s|
    ensures Contains(s, s[k..])
    ensures Contains(s, s[..k])
  {
    assert s[..k] + s[k..] + "" == s && "" + s[..k] + s[k..] == s;
    ContainsMiddle(s[..k], s[k..], "");
    ContainsMiddle("", s[..k], s[k..]);
  }

  lemma {:induction false} StripRightContained(s: string)
    ensures Contains(s, StripRight(s))
  {
    if EndsInSpace(s) {
      StripRightContained(s[..|s| - 1]);
      TailContained(s, |s| - 1);
      ContainsTransitive(s, s[..|s| - 1], StripRight(s[..|s| - 1]));
    } else {
      TailContained(s, 0);
    }
  }

  lemma StripContained(s: string)
    ensures Contains(s, Strip(s))
  {
    StripLeftContained(s);
    StripRightContained(StripLeft(s));
    ContainsTransitive(s, StripLeft(s), Strip(s));
  }

  lemma WithoutConjunctionContained(item: string)
    ensures Contains(item, WithoutConjunction(item))
  {
    var k := LeadingConjunction(item);
    TailContained(item, 0);
    if k > 0 {
      TailContained(item, k);
      StripLeftContained(item[k..]);
      ContainsTransitive(item, item[k..], StripLeft(item[k..]));
    }
  }

  lemma {:induction false} PieceContained(pieces: seq<string>, k: nat)
    requires k < |pieces|
    ensures Contains(Commas(pieces), pieces[k])
  {
    var n := |pieces| - 1;
    if k < n {
      PieceContained(pieces[..n], k);
      ContainsMiddle("", Commas(pieces[..n]), "," + pieces[n]);
      assert Commas(pieces) == "" + Commas(pieces[..n]) + ("," + pieces[n]);
      ContainsTransitive(Commas(pieces), Commas(pieces[..n]), pieces[k]);
    } else if n > 0 {
      ContainsMiddle(Commas(pieces[..n]) + ",", pieces[n], "");
      assert Commas(pieces) == Commas(pieces[..n]) + "," + pieces[n] + "";
    } else {
      TailContained(pieces[0], 0);
    }
  }

  lemma {:induction false} NonBlankContained(text: string, items: seq<string>)
    requires forall k :: 0 <= k < |items| ==> Contains(text, items[k])
    ensures forall item :: item in NonBlank(items) ==> Contains(text, item)
  {
    if items != [] {
      var n := |items| - 1;
      NonBlankContained(text, items[..n]);
      StripContained(items[n]);
      ContainsTransitive(text, items[n], Strip(items[n]));
    }
  }

  lemma ItemsContained(body: string)
    ensures forall item :: item in Items(body) ==> Contains(body, item)
  {
    var items := Stripped(Pieces(body));
    var n := |items| - 1;
    PiecesSplit(body);
    StrippedContained(Pieces(body), body);
    WithoutConjunctionContained(items[n]);
    ContainsTransitive(body, items[n], WithoutConjunction(items[n]));
    NonBlankContained(body, items[..n] + [WithoutConjunction(items[n])]);
  }

  lemma StrippedContained(pieces: seq<string>, body: string)
    requires Commas(pieces) == body
    ensures forall k :: 0 <= k < |pieces| ==> Contains(body, Stripped(pieces)[k])
  {
    forall k | 0 <= k < |pieces| ensures Contains(body, Stripped(pieces)[k]) {
      PieceContained(pieces, k);
      StripContained(pieces[k]);
      ContainsTransitive(body, pieces[k], Strip(pieces[k]));
    }
  }

  /** Every derived value that survives holds of the answer it was read off. */
  lemma EnumerationHolds(nfc: Form, fold: Fold, lower: string -> string, answer: string)
    requires KeepsSpaces(fold) && ClosedUnderParts(nfc) && nfc(answer) == answer
    ensures var values := EnumerationValues(lower, answer);
      values.Some? ==> forall i :: 0 <= i < |values.value| && Survives(nfc, fold, values.value[i]) ==>
                         Holds(nfc, fold, answer, values.value[i])
  {
    if EnumerationValues(lower, answer).Some? {
      var stripped := Strip(answer);
      var body := stripped[..|stripped| - 1];
      var cleaned, values := Items(body), EnumerationValues(lower, answer).value;
      StripContained(answer);
      TailContained(stripped, |stripped| - 1);
      ContainsTransitive(answer, stripped, body);
      ItemsContained(body);
      forall i | 0 <= i < |values| && Survives(nfc, fold, values[i]) ensures Holds(nfc, fold, answer, values[i]) {
        assert cleaned[i] in cleaned;
        ContainsTransitive(answer, body, cleaned[i]);
        SurvivorHolds(nfc, fold, cleaned[i], answer);
      }
    }
  }

  lemma SurvivorHolds(nfc: Form, fold: Fold, item: string, answer: string)
    requires KeepsSpaces(fold) && ClosedUnderParts(nfc) && nfc(answer) == answer && Contains(answer, item)
    requires Survives(nfc, fold, ValueOf(item))
    ensures Holds(nfc, fold, answer, ValueOf(item))
  {
    NormalizedContains(nfc, fold, answer, item);
    ValueNormalizes(nfc, fold, item);
    ContainsTransitive(Normalized(nfc, fold, answer), Normalized(nfc, fold, item), Normalized(nfc, fold, ValueOf(item)));
  }

  /** Whatever answer in the normalization form an item stands in, its value holds of it: exactly
      if the value survives. */
  lemma HoldsWherever(nfc: Form, fold: Fold, item: string)
    requires KeepsSpaces(fold) && ClosedUnderParts(nfc) && nfc(item) == item
    ensures (forall answer :: nfc(answer) == answer && Contains(answer, item) ==> Holds(nfc, fold, answer, ValueOf(item)))
            <==> Survives(nfc, fold, ValueOf(item))
  {
    ContainsSelf(item);
    ValueNormalizes(nfc, fold, item);
    if Survives(nfc, fold, ValueOf(item)) {
      forall answer | nfc(answer) == answer && Contains(answer, item) ensures Holds(nfc, fold, answer, ValueOf(item)) {
        SurvivorHolds(nfc, fold, item, answer);
      }
    }
  }

  ghost predicate AllHold(nfc: Form, fold: Fold, answer: string, values: seq<string>) {
    forall v :: v in values ==> Holds(nfc, fold, answer, v)
  }

  ghost predicate EveryHolds(nfc: Form, fold: Fold, answer: string, assertions: seq<Assertion>) {
    forall k :: 0 <= k < |assertions| ==> AllHold(nfc, fold, answer, assertions[k].values)
  }

  lemma EveryHoldsStep(nfc: Form, fold: Fold, answer: string, assertions: seq<Assertion>, n: nat)
    requires |assertions| == n + 1
    ensures EveryHolds(nfc, fold, answer, assertions)
            <==> EveryHolds(nfc, fold, answer, assertions[..n]) && AllHold(nfc, fold, answer, assertions[n].values)
  {
    assert assertions == assertions[..n] + [assertions[n]];
  }

  /** Nothing is missing exactly when the answer holds every value of every assertion. */
  lemma {:induction false} NothingMissing(nfc: Form, fold: Fold, answer: string, assertions: seq<Assertion>)
    ensures Missing(nfc, fold, answer, assertions) == [] <==> EveryHolds(nfc, fold, answer, assertions)
  {
    if assertions != [] {
      var n := |assertions| - 1;
      NothingMissing(nfc, fold, answer, assertions[..n]);
      NothingMissingOf(nfc, fold, answer, assertions[n].values);
      EveryHoldsStep(nfc, fold, answer, assertions, n);
    }
  }

  lemma NothingMissingOf(nfc: Form, fold: Fold, answer: string, values: seq<string>)
    ensures MissingOf(nfc, fold, answer, values) == [] <==> AllHold(nfc, fold, answer, values)
  {
    var missing := MissingOf(nfc, fold, answer, values);
    if missing != [] { assert missing[0] in missing; }
  }

  ghost predicate IsValue(assertions: seq<Assertion>, v: string) { exists k :: 0 <= k < |assertions| && v in assertions[k].values }

  lemma IsValueStep(assertions: seq<Assertion>, n: nat, v: string)
    requires |assertions| == n + 1
    ensures IsValue(assertions, v) <==> IsValue(assertions[..n], v) || v in assertions[n].values
  {
    if IsValue(assertions, v) {
      var k :| 0 <= k < |assertions| && v in assertions[k].values;
      assert k < n ==> v in assertions[..n][k].values;
    }
    if IsValue(assertions[..n], v) {
      var k :| 0 <= k < n && v in assertions[..n][k].values;
      assert v in assertions[k].values;
    }
  }

  lemma {:induction false} MissingMembers(nfc: Form, fold: Fold, answer: string, assertions: seq<Assertion>, v: string)
    ensures v in Missing(nfc, fold, answer, assertions) <==> !Holds(nfc, fold, answer, v) && IsValue(assertions, v)
    decreases |assertions|
  {
    if assertions != [] {
      var n := |assertions| - 1;
      MissingMembers(nfc, fold, answer, assertions[..n], v);
      IsValueStep(assertions, n, v);
    }
  }

  ghost predicate AllSurvive(nfc: Form, fold: Fold, values: seq<string>) {
    forall i :: 0 <= i < |values| ==> Survives(nfc, fold, values[i])
  }

  lemma LiteralsHold(nfc: Form, fold: Fold, literals: seq<string>, answer: string)
    requires ClosedUnderParts(nfc) && nfc(answer) == answer && forall k :: 0 <= k < |literals| ==> Contains(answer, literals[k])
    ensures AllHold(nfc, fold, answer, literals)
  {
    forall k | 0 <= k < |literals| ensures Holds(nfc, fold, answer, literals[k]) { NormalizedContains(nfc, fold, answer, literals[k]); }
  }

  lemma OnlyUnsurviving(nfc: Form, fold: Fold, lower: string -> string, literals: seq<string>, answer: string, v: string)
    requires KeepsSpaces(fold) && ClosedUnderParts(nfc) && nfc(answer) == answer
    requires forall k :: 0 <= k < |literals| ==> Contains(answer, literals[k])
    requires v in Missing(nfc, fold, answer, DeriveAssertions(lower, literals, answer))
    ensures var values := EnumerationValues(lower, answer);
      values.Some? && v in values.value && !Survives(nfc, fold, v) && !Holds(nfc, fold, answer, v)
  {
    MissingMembers(nfc, fold, answer, DeriveAssertions(lower, literals, answer), v);
    LiteralsHold(nfc, fold, literals, answer);
    DerivedMember(lower, literals, answer, v);
    EnumerationHolds(nfc, fold, lower, answer);
  }

  lemma DerivedMember(lower: string -> string, literals: seq<string>, answer: string, v: string)
    requires IsValue(DeriveAssertions(lower, literals, answer), v)
    ensures v in literals || (EnumerationValues(lower, answer).Some? && v in EnumerationValues(lower, answer).value)
  {
    var assertions := DeriveAssertions(lower, literals, answer);
    var k :| 0 <= k < |assertions| && v in assertions[k].values;
    assert assertions[k].values == literals || EnumerationValues(lower, answer) == Some(assertions[k].values);
  }

  /** Evaluating an answer in the normalization form against the assertions derived from it: only
      derived values that do not survive can be missing, so if all survive it does not fail. */
  lemma OwnAnswerPasses(nfc: Form, fold: Fold, lower: string -> string, literals: seq<string>, answer: string)
    requires KeepsSpaces(fold) && ClosedUnderParts(nfc) && nfc(answer) == answer
    requires forall k :: 0 <= k < |literals| ==> Contains(answer, literals[k])
    ensures var assertions, values := DeriveAssertions(lower, literals, answer), EnumerationValues(lower, answer);
      var outcome := Evaluated(nfc, fold, answer, assertions);
      && (values.None? || AllSurvive(nfc, fold, values.value) ==>
            outcome == Outcome(if assertions == [] then NotApplicable else Passed, []))
      && forall v :: v in outcome.missing ==>
           values.Some? && v in values.value && !Survives(nfc, fold, v) && !Holds(nfc, fold, answer, v)
  {
    var assertions, values := DeriveAssertions(lower, literals, answer), EnumerationValues(lower, answer);
    var outcome := Evaluated(nfc, fold, answer, assertions);
    forall v | v in outcome.missing
      ensures values.Some? && v in values.value && !Survives(nfc, fold, v) && !Holds(nfc, fold, answer, v)
    {
      OnlyUnsurviving(nfc, fold, lower, literals, answer, v);
    }
    if outcome.missing != [] { assert outcome.missing[0] in outcome.missing; }
  }

  // ----- enumerations written out

  function Listed(items: seq<string>): string {
    if items == [] then "" else if |items| == 1 then items[0] else Listed(items[..|items| - 1]) + ", " + items[|items| - 1]
  }

  function Sentence(items: seq<string>): string { Listed(items) + "." }

  /** What an enumeration can have as an item: at most four words, no white space at either end, no
      comma outside parentheses, and these balanced. */
  ghost predicate IsItem(item: string) { IsPiece(item) && 1 <= |Words(item)| <= 4 }

  /** Of any number of words. */
  ghost predicate IsPiece(piece: string) { piece != "" && Strip(piece) == piece && Solid(piece) && Depth(piece) == 0 }

  ghost predicate OpensList(lower: string -> string, item: string)
    requires IsItem(item)
  {
    WithoutParentheses(lower(Words(item)[0])) !in STOPWORDS
  }

  function PiecesOf(items: seq<string>): (r: seq<string>)
    ensures |r| == |items|
  {
    seq(|items|, k requires 0 <= k < |items| => if k == 0 then items[k] else " " + items[k])
  }

  lemma SpacedItem(item: string)
    requires IsPiece(item)
    ensures Solid(" " + item) && Depth(" " + item) == 0 && Strip(" " + item) == item
  {
    var spaced := " " + item;
    assert " "[..0] == "" && Depth(" ") == 0;
    DepthPlus(" ", item);
    forall i | 0 <= i < |spaced| && spaced[i] == ',' ensures Depth(spaced[..i]) != 0 {
      assert item[i - 1] == ',' && spaced[..i] == " " + item[..i - 1];
      DepthPlus(" ", item[..i - 1]);
    }
    assert spaced[1..] == item;
  }

  lemma {:induction false} CommasListed(items: seq<string>)
    ensures Commas(PiecesOf(items)) == Listed(items)
  {
    if |items| > 1 {
      var n := |items| - 1;
      CommasListed(items[..n]);
      assert PiecesOf(items)[..n] == PiecesOf(items[..n]);
      assert Listed(items[..n]) + ", " + items[n] == Listed(items[..n]) + "," + (" " + items[n]);
    }
  }

  lemma PieceOfItem(items: seq<string>, k: nat)
    requires k < |items| && IsPiece(items[k])
    ensures Solid(PiecesOf(items)[k]) && Depth(PiecesOf(items)[k]) == 0 && Strip(PiecesOf(items)[k]) == items[k]
  {
    SpacedItem(items[k]);
  }

  lemma ItemsSplit(items: seq<string>)
    requires items != [] && forall k :: 0 <= k < |items| ==> IsPiece(items[k])
    ensures IsSplit(PiecesOf(items), Listed(items))
  {
    forall k | 0 <= k < |items| ensures Solid(PiecesOf(items)[k]) && Depth(PiecesOf(items)[k]) == 0 { PieceOfItem(items, k); }
    CommasListed(items);
    AllClosed(PiecesOf(items), Listed(items));
  }

  lemma AllClosed(pieces: seq<string>, text: string)
    requires pieces != [] && Commas(pieces) == text
    requires forall k :: 0 <= k < |pieces| ==> Solid(pieces[k]) && Depth(pieces[k]) == 0
    ensures IsSplit(pieces, text)
  {}

  /** The only split of a list of items is into them. */
  lemma PiecesListed(items: seq<string>)
    requires items != [] && forall k :: 0 <= k < |items| ==> IsPiece(items[k])
    ensures Stripped(Pieces(Listed(items))) == items
  {
    var pieces := PiecesOf(items);
    ItemsSplit(items);
    OneSplit(pieces, Listed(items));
    forall k | 0 <= k < |items| ensures Stripped(pieces)[k] == items[k] { PieceOfItem(items, k); }
  }

  lemma {:induction false} NonBlankItems(items: seq<string>)
    requires forall k :: 0 <= k < |items| ==> items[k] != "" && Strip(items[k]) == items[k]
    ensures NonBlank(items) == items
  {
    if items != [] {
      var n := |items| - 1;
      NonBlankItems(items[..n]);
      assert items == items[..n] + [items[n]];
    }
  }

  lemma {:induction false} ListedOpens(items: seq<string>)
    requires items != [] && forall k :: 0 <= k < |items| ==> items[k] != ""
    ensures Listed(items) != "" && Listed(items)[0] == items[0][0]
  {
    if |items| > 1 { ListedOpens(items[..|items| - 1]); }
  }

  /** A text that neither begins nor ends in white space is stripped already. */
  lemma StripFixes(s: string)
    requires s != "" && !IsSpace(s[0]) && !IsSpace(s[|s| - 1])
    ensures Strip(s) == s
  {}

  lemma ItemOpens(item: string)
    requires IsPiece(item)
    ensures !IsSpace(item[0])
  {
    StripRightKeeps(StripLeft(item));
  }

  lemma {:induction false} StripRightKeeps(s: string)
    ensures StripRight(s) <= s
  {
    if EndsInSpace(s) { StripRightKeeps(s[..|s| - 1]); }
  }

  /** Items that make an enumeration: at least three, the last without a conjunction before it, and
      the first not a stop-word's. */
  ghost predicate Reads(lower: string -> string, items: seq<string>) {
    && |items| >= 3 && (forall k :: 0 <= k < |items| ==> IsItem(items[k]))
    && WithoutConjunction(items[|items| - 1]) == items[|items| - 1] && OpensList(lower, items[0])
  }

  function ValuesOf(items: seq<string>): (r: seq<string>)
    ensures |r| == |items|
  {
    seq(|items|, k requires 0 <= k < |items| => ValueOf(items[k]))
  }

  /** Written out as a sentence, items are read back: each gives its value. */
  lemma EnumerationReads(lower: string -> string, items: seq<string>)
    requires Reads(lower, items)
    ensures EnumerationValues(lower, Sentence(items)) == Some(ValuesOf(items))
  {
    SentenceStrips(items);
    ItemsListed(items);
    ReadOff(lower, Sentence(items), items);
  }

  lemma ReadOff(lower: string -> string, answer: string, cleaned: seq<string>)
    requires Strip(answer) == answer && answer != "" && answer[|answer| - 1] == '.'
    requires Items(answer[..|answer| - 1]) == cleaned && |Pieces(answer[..|answer| - 1])| >= 3
    requires |cleaned| >= 3 && (forall k :: 0 <= k < |cleaned| ==> IsShortItem(cleaned[k])) && IsShortItem(cleaned[0])
    requires WithoutParentheses(lower(Words(cleaned[0])[0])) !in STOPWORDS
    ensures EnumerationValues(lower, answer) == Some(ValuesOf(cleaned))
  {}

  lemma SentenceStrips(items: seq<string>)
    requires items != [] && forall k :: 0 <= k < |items| ==> IsPiece(items[k])
    ensures Strip(Sentence(items)) == Sentence(items) && Sentence(items)[..|Sentence(items)| - 1] == Listed(items)
  {
    ListedOpens(items);
    ItemOpens(items[0]);
    StripFixes(Sentence(items));
  }

  lemma ItemsListed(items: seq<string>)
    requires items != [] && forall k :: 0 <= k < |items| ==> IsItem(items[k])
    requires WithoutConjunction(items[|items| - 1]) == items[|items| - 1]
    ensures Items(Listed(items)) == items && |Pieces(Listed(items))| == |items|
  {
    var n := |items| - 1;
    PiecesListed(items);
    assert items[..n] + [items[n]] == items;
    NonBlankItems(items);
  }

  /** "and" or "or", in any case. */
  predicate IsConjunction(word: string) { SpellsWhole(word, "AND", "and") || SpellsWhole(word, "OR", "or") }

  predicate SpellsWhole(word: string, upper: string, lower: string)
    requires |upper| == |lower|
  {
    |word| == |lower| && forall i :: 0 <= i < |lower| ==> word[i] == lower[i] || word[i] == upper[i]
  }

  predicate HasNoMarks(s: string) { forall i :: 0 <= i < |s| ==> s[i] != ',' && s[i] != '(' && s[i] != ')' }

  lemma {:induction false} FrontDepth(front: string)
    requires HasNoMarks(front)
    ensures Depth(front) == 0
  {
    if front != "" { FrontDepth(front[..|front| - 1]); }
  }

  /** A piece stays one behind a text without commas and parentheses. */
  lemma BehindFront(front: string, item: string)
    requires IsPiece(item) && front != "" && !IsSpace(front[0]) && HasNoMarks(front)
    ensures IsPiece(front + item)
  {
    var whole := front + item;
    FrontDepth(front);
    DepthPlus(front, item);
    assert Solid(whole) by {
      forall i | 0 <= i < |whole| && whole[i] == ',' ensures Depth(whole[..i]) != 0 {
        assert i >= |front| && item[i - |front|] == ',' && whole[..i] == front + item[..i - |front|];
        DepthPlus(front, item[..i - |front|]);
      }
    }
    assert whole[|whole| - 1] == item[|item| - 1] && whole[0] == front[0];
    StripFixes(whole);
  }

  /** The conjunction before a last item goes, unless the item holds a line break. */
  lemma ConjunctionOff(word: string, item: string)
    requires IsConjunction(word) && IsPiece(item)
    ensures WithoutConjunction(word + " " + item) == if '\n' in item then word + " " + item else item
  {
    var whole := word + (" " + item);
    assert whole == word + " " + item;
    assert whole[|word|..] == " " + item && whole[|word|] == ' ';
    assert forall i :: 0 <= i < |word| ==> whole[i] == word[i];
    ItemOpens(item);
    assert (" " + item)[1..] == item && StripLeft(" " + item) == StripLeft(item) == item;
    if SpellsWhole(word, "AND", "and") { assert SpellsAt(whole, "AND", "and"); }
    if SpellsWhole(word, "OR", "or") { assert SpellsAt(whole, "OR", "or") && whole[2] == ' '; }
  }

  /** The items with a conjunction before the last. */
  function Conjoined(items: seq<string>, word: string): seq<string>
    requires items != []
  {
    items[..|items| - 1] + [word + " " + items[|items| - 1]]
  }

  lemma ConjoinedPieces(items: seq<string>, word: string)
    requires items != [] && (forall k :: 0 <= k < |items| ==> IsPiece(items[k])) && IsConjunction(word)
    ensures forall k :: 0 <= k < |items| ==> IsPiece(Conjoined(items, word)[k])
  {
    var front := word + " ";
    assert front[0] == word[0] && HasNoMarks(word) && !IsSpace(word[0]);
    BehindFront(front, items[|items| - 1]);
  }

  lemma ConjoinedRead(items: seq<string>, word: string)
    requires items != [] && (forall k :: 0 <= k < |items| ==> IsPiece(items[k])) && IsConjunction(word) && '\n' !in items[|items| - 1]
    ensures Items(Listed(Conjoined(items, word))) == items && |Pieces(Listed(Conjoined(items, word)))| == |items|
  {
    ConjoinedPieces(items, word);
    ConjunctionOff(word, items[|items| - 1]);
    PiecesListed(Conjoined(items, word));
    PiecesKept(items);
    LastReplaced(Conjoined(items, word), items);
    LastRead(Listed(Conjoined(items, word)), Conjoined(items, word), items);
  }

  lemma PiecesKept(items: seq<string>)
    requires forall k :: 0 <= k < |items| ==> IsPiece(items[k])
    ensures NonBlank(items) == items
  {
    NonBlankItems(items);
  }

  function LastFreed(written: seq<string>): seq<string>
    requires written != []
  {
    written[..|written| - 1] + [WithoutConjunction(written[|written| - 1])]
  }

  lemma LastReplaced(written: seq<string>, items: seq<string>)
    requires items != [] && |written| == |items| && written[..|items| - 1] == items[..|items| - 1]
    requires WithoutConjunction(written[|items| - 1]) == items[|items| - 1]
    ensures LastFreed(written) == items
  {}

  lemma LastRead(text: string, written: seq<string>, items: seq<string>)
    requires written != [] && Stripped(Pieces(text)) == written && LastFreed(written) == items && NonBlank(items) == items
    ensures Items(text) == items && |Pieces(text)| == |written|
  {}

  /** With "and" or "or" before the last item the same values are read. */
  lemma ConjunctionReads(lower: string -> string, items: seq<string>, word: string)
    requires |items| >= 3 && (forall k :: 0 <= k < |items| ==> IsItem(items[k])) && OpensList(lower, items[0])
    requires IsConjunction(word) && '\n' !in items[|items| - 1]
    ensures EnumerationValues(lower, Sentence(Conjoined(items, word))) == Some(ValuesOf(items))
  {
    ConjoinedPieces(items, word);
    ConjoinedRead(items, word);
    SentenceStrips(Conjoined(items, word));
    ReadOff(lower, Sentence(Conjoined(items, word)), items);
  }

  /** Items of one to four words with balanced parentheses, at least three, the first not opening like a clause. */
  ghost predicate IsEnumeration(lower: string -> string, items: seq<string>) {
    && |items| >= 3 && (forall k :: 0 <= k < |items| ==> 1 <= |Words(items[k])| <= 4 && Depth(items[k]) == 0)
    && !OpensLikeClause(WithoutParentheses(lower(Words(items[0])[0])))
  }

  /** Values are read only off an answer that ends in a full stop and has such items before it. */
  lemma OnlyEnumerationsRead(lower: string -> string, answer: string) returns (body: string)
    requires EnumerationValues(lower, answer).Some?
    ensures Strip(answer) == body + "." && |Pieces(body)| >= 3 && IsEnumeration(lower, Items(body))
    ensures EnumerationValues(lower, answer) == Some(ValuesOf(Items(body)))
  {
    var stripped := Strip(answer);
    body := stripped[..|stripped| - 1];
    ReadIsEnumeration(lower, answer, body, Items(body));
  }

  lemma ReadIsEnumeration(lower: string -> string, answer: string, body: string, items: seq<string>)
    requires EnumerationValues(lower, answer).Some? && Strip(answer) == body + "." && items == Items(body)
    ensures |Pieces(body)| >= 3 && IsEnumeration(lower, items) && EnumerationValues(lower, answer) == Some(ValuesOf(items))
  {
    assert (body + ".")[..|body|] == body;
    assert forall k :: 0 <= k < |items| ==> IsShortItem(items[k]);
    NoClause(WithoutParentheses(lower(Words(items[0])[0])));
  }

  lemma NoClause(word: string)
    ensures OpensLikeClause(word) ==> word in STOPWORDS
  {
    assert STOPWORDS == ["while", "through", "by", "to", "that", "where", "which", "not", "being", "or", "and", "yes", "no"];
  }

  /** Nothing but a leading conjunction, with the white space behind it, is ever taken off an item. */
  lemma OnlyConjunctionsGo(item: string)
    ensures WithoutConjunction(item) == item
         || exists k :: 0 < k < |item| && IsConjunction(item[..k]) && IsSpace(item[k]) && WithoutConjunction(item) == StripLeft(item[k..])
  {
    var k := LeadingConjunction(item);
    if k > 0 { assert IsConjunction(item[..k]); }
  }

  predicate IsParenthesis(c: char) { c == '(' || c == ')' }

  /** Parentheses go from both ends, and nothing else does. */
  lemma {:induction false} ParenthesesGo(word: string) returns (lo: nat, hi: nat)
    ensures lo <= hi <= |word| && WithoutParentheses(word) == word[lo..hi]
    ensures forall k :: 0 <= k < lo || hi <= k < |word| ==> IsParenthesis(word[k])
    ensures lo < hi ==> !IsParenthesis(word[lo]) && !IsParenthesis(word[hi - 1])
    decreases |word|
  {
    lo, hi := 0, |word|;
    if word != "" && word[0] in "()" {
      lo, hi := ParenthesesGo(word[1..]);
      assert forall k :: 1 <= k < |word| ==> word[k] == word[1..][k - 1];
      lo, hi := lo + 1, hi + 1;
    } else if word != "" && word[|word| - 1] in "()" {
      lo, hi := ParenthesesGo(word[..|word| - 1]);
      assert forall k :: 0 <= k < |word| - 1 ==> word[k] == word[..|word| - 1][k];
    }
  }

  predicate OpensLikeClause(word: string) {
    || word == "while" || word == "through" || word == "by" || word == "to" || word == "that" || word == "where" || word == "which"
    || word == "not" || word == "being" || word == "or" || word == "and" || word == "yes" || word == "no"
  }

  predicate IsWord(word: string) { word != "" && forall i :: 0 <= i < |word| ==> !IsSpace(word[i]) }

  /** Words with single spaces between them are those words again. */
  lemma {:induction false} SpacedRead(words: seq<string>)
    requires forall i :: 0 <= i < |words| ==> IsWord(words[i])
    ensures Words(Spaced(words)) == words
  {
    if |words| == 1 {
      NextWord("", words[0]);
      assert "" + words[0] == words[0];
    } else if words != [] {
      var n := |words| - 1;
      SpacedRead(words[..n]);
      LastWord(Spaced(words[..n]), words[..n], words[n]);
      assert words == words[..n] + [words[n]];
    }
  }

  lemma LastWord(s: string, words: seq<string>, word: string)
    requires Words(s) == words && IsWord(word)
    ensures Words(s + " " + word) == words + [word]
  {
    SpaceAdded(s);
    NextWord(s + " ", word);
  }

  lemma SpaceAdded(s: string)
    ensures Words(s + " ") == Words(s) && EndsInSpace(s + " ")
  {
    assert (s + " ")[..|s|] == s;
  }

  lemma {:induction false} NextWord(s: string, word: string)
    requires (s == "" || EndsInSpace(s)) && IsWord(word)
    ensures Words(s + word) == Words(s) + [word]
    decreases |word|
  {
    var n := |word| - 1;
    var front, c := word[..n], word[n];
    assert word == front + [c] && s + word == s + front + [c];
    if n == 0 {
      WordOpens(s, c);
      assert [c] == word;
    } else {
      NextWord(s, front);
      WordGrows(s + front, Words(s), front, c);
    }
  }

  lemma WordOpens(t: string, c: char)
    requires (t == "" || EndsInSpace(t)) && !IsSpace(c)
    ensures Words(t + [c]) == Words(t) + [[c]]
  {
    assert (t + [c])[..|t|] == t;
  }

  lemma WordGrows(t: string, before: seq<string>, front: string, c: char)
    requires Words(t) == before + [front] && t != "" && front != "" && t[|t| - 1] == front[|front| - 1] && IsWord(front) && !IsSpace(c)
    ensures Words(t + [c]) == before + [front + [c]]
  {
    assert (t + [c])[..|t|] == t;
    assert (before + [front])[..|before|] == before;
  }

  // ----- what an enumeration holds

  lemma {:induction false} CollapsedEnds(s: string)
    ensures Collapsed(s) != "" ==> !IsSpace(Collapsed(s)[0]) && !IsSpace(Collapsed(s)[|Collapsed(s)| - 1])
  {
    if s != "" {
      var n := |s| - 1;
      CollapsedEnds(s[..n]);
      CollapsedStep(s[..n], s[n]);
      assert s == s[..n] + [s[n]];
    }
  }

  function Behind(s: string, t: string): string { s + (if t == "" then "" else " ") + t }

  /** After white space another text collapses on its own. */
  lemma {:induction false} CollapsedApart(s: string, t: string)
    requires EndsInSpace(s) && Collapsed(s) != ""
    ensures Collapsed(s + t) == Behind(Collapsed(s), Collapsed(t))
    decreases |t|
  {
    if t == "" {
      assert s + t == s;
      assert Behind(Collapsed(s), "") == Collapsed(s);
    } else {
      var n := |t| - 1;
      CollapsedApart(s, t[..n]);
      assert t == t[..n] + [t[n]] && s + t == (s + t[..n]) + [t[n]];
      assert t[..n] != "" ==> (EndsInSpace(s + t[..n]) <==> EndsInSpace(t[..n]));
      ApartStep(s + t[..n], t[..n], t[n], Collapsed(s));
    }
  }

  lemma ApartStep(t: string, s: string, c: char, before: string)
    requires before != "" && Collapsed(t) == Behind(before, Collapsed(s))
    requires s == "" ==> EndsInSpace(t)
    requires s != "" ==> (EndsInSpace(t) <==> EndsInSpace(s))
    ensures Collapsed(t + [c]) == Behind(before, Collapsed(s + [c]))
  {
    CollapsedStep(t, c);
    CollapsedStep(s, c);
    if !IsSpace(c) {
      if Collapsed(s) == "" {
        BlankEnds(s);
        FirstBehind(before, [c]);
      } else {
        MoreBehind(before, Collapsed(s), Gap(s), [c]);
      }
    }
  }

  lemma FirstBehind(before: string, c: string)
    requires c != ""
    ensures Behind(before, "") == before && Behind(before, "" + "" + c) == before + " " + c
  {
    assert "" + "" + c == c;
  }

  lemma MoreBehind(before: string, s: string, gap: string, c: string)
    requires s != ""
    ensures Behind(before, s) + gap + c == Behind(before, s + gap + c)
  {
    Regroup(before + " ", s, gap, c);
  }

  lemma BlankEnds(s: string)
    requires Collapsed(s) == ""
    ensures s == "" || EndsInSpace(s)
  {
    WordsAreWords(s);
    WordsBlank(s);
    if s != "" { assert s[|s| - 1] in s; }
  }

  /** A text without the character lies on one side of it. */
  lemma OneSide(a: string, c: char, b: string, s: string)
    requires Contains(a + [c] + b, s) && c !in s
    ensures Contains(a, s) || Contains(b, s)
  {
    var t := a + [c] + b;
    var i :| 0 <= i <= |t| && StartsAt(t, s, i);
    if i + |s| <= |a| {
      assert StartsAt(a, s, i);
    } else if i > |a| {
      assert t[i..i + |s|] == b[i - |a| - 1..i - |a| - 1 + |s|];
      assert StartsAt(b, s, i - |a| - 1);
    } else {
      Within(t, s, i, |a|);
    }
  }

  lemma Within(t: string, s: string, i: nat, m: nat)
    requires StartsAt(t, s, i) && i <= m < i + |s|
    ensures t[m] in s
  {
    assert t[i..i + |s|][m - i] == t[m];
  }

  lemma WithoutLast(a: string, s: string)
    requires Contains(a + " ", s) && s != "" && s[|s| - 1] != ' '
    ensures Contains(a, s)
  {
    var t := a + " ";
    var i :| 0 <= i <= |t| && StartsAt(t, s, i);
    assert t[i..i + |s|][|s| - 1] == t[i + |s| - 1];
    assert StartsAt(a, s, i);
  }

  lemma WithoutFirst(a: string, s: string)
    requires Contains(" " + a, s) && s != "" && s[0] != ' '
    ensures Contains(a, s)
  {
    var t := " " + a;
    var i :| 0 <= i <= |t| && StartsAt(t, s, i);
    assert t[i..i + |s|][0] == t[i];
    assert StartsAt(a, s, i - 1);
  }

  /** Texts of the kind normalising yields, with no comma or full stop. */
  predicate IsUnpointed(s: string) { s != "" && s[0] != ' ' && s[|s| - 1] != ' ' && ',' !in s && '.' !in s }

  lemma GapAdds(t: string, s: string)
    requires IsUnpointed(s) && Contains(Collapsed(t) + Gap(t), s)
    ensures Contains(Collapsed(t), s)
  {
    if Gap(t) == " " { WithoutLast(Collapsed(t), s); } else { assert Collapsed(t) + Gap(t) == Collapsed(t); }
  }

  /** A mark after a text adds nothing that does not hold the mark. */
  lemma MarkAdds(t: string, mark: char, s: string)
    requires IsUnpointed(s) && mark !in s && !IsSpace(mark) && Contains(Collapsed(t + [mark]), s)
    ensures Contains(Collapsed(t), s)
  {
    CollapsedStep(t, mark);
    assert Collapsed(t + [mark]) == Collapsed(t) + Gap(t) + [mark] + "";
    OneSide(Collapsed(t) + Gap(t), mark, "", s);
    GapAdds(t, s);
  }

  lemma CollapsedNext(t: string, item: string)
    ensures Collapsed(t + ", " + item) == Collapsed(t) + Gap(t) + "," + Behind("", Collapsed(item))
  {
    CollapsedStep(t, ',');
    CollapsedStep(t + ",", ' ');
    assert t + "," + " " == t + ", ";
    CollapsedApart(t + ", ", item);
    BehindNothing(Collapsed(t) + Gap(t) + ",", Collapsed(item));
  }

  lemma BehindNothing(s: string, t: string)
    ensures Behind(s, t) == s + Behind("", t)
  {}

  lemma BehindAdds(t: string, s: string)
    requires IsUnpointed(s) && Contains(Behind("", t), s)
    ensures Contains(t, s)
  {
    if t != "" {
      assert Behind("", t) == " " + t;
      WithoutFirst(t, s);
    }
  }

  lemma ItemAdds(t: string, item: string, s: string)
    requires IsUnpointed(s) && Contains(Collapsed(t + ", " + item), s)
    ensures Contains(Collapsed(t), s) || Contains(Collapsed(item), s)
  {
    CollapsedNext(t, item);
    OneSide(Collapsed(t) + Gap(t), ',', Behind("", Collapsed(item)), s);
    if Contains(Collapsed(t) + Gap(t), s) { GapAdds(t, s); } else { BehindAdds(Collapsed(item), s); }
  }

  ghost predicate InSome(texts: seq<string>, s: string) { exists k :: 0 <= k < |texts| && Contains(Collapsed(texts[k]), s) }

  lemma {:induction false} ListedHolds(texts: seq<string>, s: string)
    requires texts != [] && IsUnpointed(s) && Contains(Collapsed(Listed(texts)), s)
    ensures InSome(texts, s)
  {
    if |texts| > 1 {
      var n := |texts| - 1;
      ItemAdds(Listed(texts[..n]), texts[n], s);
      if Contains(Collapsed(Listed(texts[..n])), s) {
        ListedHolds(texts[..n], s);
        var k :| 0 <= k < n && Contains(Collapsed(texts[..n][k]), s);
        assert texts[k] == texts[..n][k];
      }
    }
  }

  function Foldeds(fold: Fold, items: seq<string>): (r: seq<string>)
    ensures |r| == |items|
  {
    seq(|items|, k requires 0 <= k < |items| => Folded(fold, Unquoted(items[k])))
  }

  ghost predicate KeepsMarks(fold: Fold) { KeepsSpaces(fold) && fold(',') == "," && fold('.') == "." }

  lemma MarkPlain(fold: Fold, mark: string)
    requires KeepsMarks(fold) && (mark == ", " || mark == ".")
    ensures Folded(fold, Unquoted(mark)) == mark
  {
    UnquotedFixes(mark);
    if mark == ", " {
      assert mark == "," + " ";
      FoldedPlus(fold, ",", " ");
      FoldedOne(fold, ',');
      FoldedOne(fold, ' ');
    } else {
      FoldedOne(fold, '.');
    }
  }

  lemma FoldedTwo(fold: Fold, a: string, b: string)
    ensures Folded(fold, Unquoted(a + b)) == Folded(fold, Unquoted(a)) + Folded(fold, Unquoted(b))
  {
    UnquotedPlus(a, b);
    FoldedPlus(fold, Unquoted(a), Unquoted(b));
  }

  lemma FoldedNext(fold: Fold, a: string, b: string)
    requires KeepsMarks(fold)
    ensures Folded(fold, Unquoted(a + ", " + b)) == Folded(fold, Unquoted(a)) + ", " + Folded(fold, Unquoted(b))
  {
    MarkPlain(fold, ", ");
    FoldedTwo(fold, a + ", ", b);
    FoldedTwo(fold, a, ", ");
  }

  lemma ListedLast(items: seq<string>, last: string)
    requires items != []
    ensures Listed(items + [last]) == Listed(items) + ", " + last
  {
    assert (items + [last])[..|items|] == items;
  }

  lemma FoldedsLast(fold: Fold, items: seq<string>, n: nat)
    requires |items| == n + 1
    ensures Foldeds(fold, items) == Foldeds(fold, items[..n]) + [Folded(fold, Unquoted(items[n]))]
  {}

  lemma {:induction false} FoldedListed(fold: Fold, items: seq<string>)
    requires KeepsMarks(fold)
    ensures Folded(fold, Unquoted(Listed(items))) == Listed(Foldeds(fold, items))
    decreases |items|
  {
    if |items| > 1 {
      var n := |items| - 1;
      FoldedListed(fold, items[..n]);
      FoldedNext(fold, Listed(items[..n]), items[n]);
      FoldedsLast(fold, items, n);
      ListedLast(Foldeds(fold, items[..n]), Folded(fold, Unquoted(items[n])));
    }
  }

  lemma {:induction false} ListedContains(items: seq<string>, k: nat)
    requires k < |items|
    ensures Contains(Listed(items), items[k])
  {
    var n := |items| - 1;
    if k < n {
      ListedContains(items[..n], k);
      TailContained(Listed(items), |Listed(items[..n])|);
      assert Listed(items)[..|Listed(items[..n])|] == Listed(items[..n]);
      ContainsTransitive(Listed(items), Listed(items[..n]), items[k]);
    } else if n > 0 {
      var cut := |Listed(items[..n])| + 2;
      TailContained(Listed(items), cut);
      assert Listed(items)[cut..] == items[n];
    } else {
      ContainsSelf(items[0]);
    }
  }

  lemma SentenceContains(items: seq<string>, k: nat)
    requires k < |items|
    ensures Contains(Sentence(items), items[k])
  {
    ListedContains(items, k);
    TailContained(Sentence(items), |Listed(items)|);
    assert Sentence(items)[..|Listed(items)|] == Listed(items);
    ContainsTransitive(Sentence(items), Listed(items), items[k]);
  }

  /** Some item, normalised on its own, holds the normalised text. */
  ghost predicate SomeItemHolds(fold: Fold, items: seq<string>, s: string) {
    exists k :: 0 <= k < |items| && Contains(Plain(fold, items[k]), s)
  }

  lemma ItemHolds(fold: Fold, items: seq<string>, s: string)
    requires KeepsMarks(fold) && items != [] && IsUnpointed(s) && Contains(Plain(fold, Sentence(items)), s)
    ensures SomeItemHolds(fold, items, s)
  {
    var folded := Foldeds(fold, items);
    PlainSentence(fold, items, folded);
    MarkAdds(Listed(folded), '.', s);
    ListedHolds(folded, s);
    SomeFolded(fold, items, folded, s);
  }

  lemma SomeFolded(fold: Fold, items: seq<string>, folded: seq<string>, s: string)
    requires folded == Foldeds(fold, items) && InSome(folded, s)
    ensures SomeItemHolds(fold, items, s)
  {
    var k :| 0 <= k < |items| && Contains(Collapsed(folded[k]), s);
    assert Contains(Plain(fold, items[k]), s);
  }

  lemma PlainSentence(fold: Fold, items: seq<string>, folded: seq<string>)
    requires KeepsMarks(fold) && folded == Foldeds(fold, items)
    ensures Plain(fold, Sentence(items)) == Collapsed(Listed(folded) + ".")
  {
    assert Folded(fold, Unquoted(Sentence(items))) == Listed(folded) + "." by {
      FoldedListed(fold, items);
      MarkPlain(fold, ".");
      FoldedTwo(fold, Listed(items), ".");
    }
  }

  lemma SentenceHolds(fold: Fold, items: seq<string>, s: string)
    requires SomeItemHolds(fold, items, s)
    ensures Contains(Plain(fold, Sentence(items)), s)
  {
    var k :| 0 <= k < |items| && Contains(Plain(fold, items[k]), s);
    SentenceContains(items, k);
    PlainContains(fold, Sentence(items), items[k]);
    ContainsTransitive(Plain(fold, Sentence(items)), Plain(fold, items[k]), s);
  }

  /** The value, normalised, is found in the value of some item as it was written. */
  ghost predicate SurvivesAmong(nfc: Form, fold: Fold, items: seq<string>, value: string) {
    exists k :: 0 <= k < |items| && Contains(Plain(fold, ValueOf(items[k])), Normalized(nfc, fold, value))
  }

  predicate Unpointed(s: string) { ',' !in s && '.' !in s }

  /** A value without comma and full stop holds of an enumeration in the normalization form if and
      only if it survives among the items. */
  lemma HoldsInSentence(nfc: Form, fold: Fold, items: seq<string>, value: string)
    requires KeepsMarks(fold) && nfc(Sentence(items)) == Sentence(items) && items != []
    requires Unpointed(Normalized(nfc, fold, value))
    ensures Holds(nfc, fold, Sentence(items), value) <==> SurvivesAmong(nfc, fold, items, value)
  {
    AmongItems(nfc, fold, items, value);
    InSentence(fold, items, Normalized(nfc, fold, value), Folded(fold, Unquoted(nfc(value))));
  }

  lemma AmongItems(nfc: Form, fold: Fold, items: seq<string>, value: string)
    requires KeepsSpaces(fold)
    ensures SurvivesAmong(nfc, fold, items, value) <==> SomeItemHolds(fold, items, Normalized(nfc, fold, value))
  {
    forall k | 0 <= k < |items| ensures Plain(fold, ValueOf(items[k])) == Plain(fold, items[k]) { ValuePlain(fold, items[k]); }
  }

  lemma InSentence(fold: Fold, items: seq<string>, s: string, text: string)
    requires KeepsMarks(fold) && items != [] && s == Collapsed(text) && Unpointed(s)
    ensures Contains(Plain(fold, Sentence(items)), s) <==> SomeItemHolds(fold, items, s)
  {
    if s == "" {
      assert StartsAt(Plain(fold, items[0]), s, 0);
    } else {
      CollapsedEnds(text);
      if Contains(Plain(fold, Sentence(items)), s) { ItemHolds(fold, items, s); }
    }
    if SomeItemHolds(fold, items, s) { SentenceHolds(fold, items, s); }
  }

  lemma ValuesHold(nfc: Form, fold: Fold, items: seq<string>)
    requires KeepsMarks(fold) && nfc(Sentence(items)) == Sentence(items) && items != []
    requires forall k :: 0 <= k < |items| ==> Unpointed(Normalized(nfc, fold, ValueOf(items[k])))
    ensures AllHold(nfc, fold, Sentence(items), ValuesOf(items))
            <==> forall k :: 0 <= k < |items| ==> SurvivesAmong(nfc, fold, items, ValueOf(items[k]))
  {
    AllHoldByIndex(nfc, fold, Sentence(items), ValuesOf(items));
    forall k | 0 <= k < |items|
      ensures Holds(nfc, fold, Sentence(items), ValuesOf(items)[k]) <==> SurvivesAmong(nfc, fold, items, ValueOf(items[k]))
    {
      HoldsInSentence(nfc, fold, items, ValueOf(items[k]));
    }
  }

  /** Whether an answer with these derived values passes. */
  lemma PassesByValues(nfc: Form, fold: Fold, lower: string -> string, literals: seq<string>, answer: string, values: seq<string>)
    requires ClosedUnderParts(nfc) && nfc(answer) == answer && forall k :: 0 <= k < |literals| ==> Contains(answer, literals[k])
    requires EnumerationValues(lower, answer) == Some(values)
    ensures Evaluated(nfc, fold, answer, DeriveAssertions(lower, literals, answer)).status == Passed
            <==> AllHold(nfc, fold, answer, values)
  {
    LiteralsHold(nfc, fold, literals, answer);
    NothingMissing(nfc, fold, answer, DeriveAssertions(lower, literals, answer));
    LastAssertion(nfc, fold, lower, literals, answer, values);
  }

  /** An enumeration in the normalization form passes its own assertions if and only if every value
      survives among the items. */
  lemma SentencePasses(nfc: Form, fold: Fold, lower: string -> string, literals: seq<string>, items: seq<string>)
    requires KeepsMarks(fold) && ClosedUnderParts(nfc) && nfc(Sentence(items)) == Sentence(items) && Reads(lower, items)
    requires forall k :: 0 <= k < |literals| ==> Contains(Sentence(items), literals[k])
    requires forall k :: 0 <= k < |items| ==> Unpointed(Normalized(nfc, fold, ValueOf(items[k])))
    ensures Evaluated(nfc, fold, Sentence(items), DeriveAssertions(lower, literals, Sentence(items))).status == Passed
            <==> forall k :: 0 <= k < |items| ==> SurvivesAmong(nfc, fold, items, ValueOf(items[k]))
  {
    EnumerationReads(lower, items);
    ValuesHold(nfc, fold, items);
    PassesByValues(nfc, fold, lower, literals, Sentence(items), ValuesOf(items));
  }

  lemma AllHoldByIndex(nfc: Form, fold: Fold, answer: string, values: seq<string>)
    ensures AllHold(nfc, fold, answer, values) <==> forall k :: 0 <= k < |values| ==> Holds(nfc, fold, answer, values[k])
  {
    if AllHold(nfc, fold, answer, values) {
      forall k | 0 <= k < |values| ensures Holds(nfc, fold, answer, values[k]) { assert values[k] in values; }
    }
  }

  lemma LastAssertion(nfc: Form, fold: Fold, lower: string -> string, literals: seq<string>, answer: string, values: seq<string>)
    requires EnumerationValues(lower, answer) == Some(values) && AllHold(nfc, fold, answer, literals)
    ensures EveryHolds(nfc, fold, answer, DeriveAssertions(lower, literals, answer)) <==> AllHold(nfc, fold, answer, values)
  {
    var assertions := DeriveAssertions(lower, literals, answer);
    assert assertions[|assertions| - 1].values == values;
  }

  /** One item, written out three times or more, passes if and only if its value survives. */
  lemma CopiesPass(nfc: Form, fold: Fold, lower: string -> string, item: string, items: seq<string>)
    requires Reads(lower, items) && forall k :: 0 <= k < |items| ==> items[k] == item
    requires KeepsMarks(fold) && ClosedUnderParts(nfc) && nfc(Sentence(items)) == Sentence(items)
    requires Unpointed(Normalized(nfc, fold, ValueOf(item)))
    ensures Evaluated(nfc, fold, Sentence(items), DeriveAssertions(lower, [], Sentence(items))).status == Passed
            <==> Survives(nfc, fold, ValueOf(item))
  {
    SentencePasses(nfc, fold, lower, [], items);
    AmongAlike(nfc, fold, items, item, ValueOf(item));
    assert items[0] == item;
  }

  lemma AmongAlike(nfc: Form, fold: Fold, items: seq<string>, item: string, value: string)
    requires items != [] && forall k :: 0 <= k < |items| ==> items[k] == item
    ensures SurvivesAmong(nfc, fold, items, value) <==> Contains(Plain(fold, ValueOf(item)), Normalized(nfc, fold, value))
  {
    assert items[0] == item;
  }

  /** An item whose value does not survive: a base character, a quote and a mark that composes with
      the base.  In an enumeration that begins with it, and does not hold the composed character
      elsewhere, its value is missing. */
  lemma QuotedMarkFails(nfc: Form, fold: Fold, lower: string -> string, items: seq<string>, base: char, mark: char, composed: char)
    requires KeepsMarks(fold) && nfc(Sentence(items)) == Sentence(items) && Reads(lower, items)
    requires items[0] == [base, '"', mark] && nfc([base, mark]) == [composed] && fold(composed) == [composed]
    requires base !in QUOTES && mark !in QUOTES && composed !in QUOTES && composed !in ",."
    requires !IsSpace(base) && !IsSpace(mark) && !IsSpace(composed)
    requires forall k :: 0 <= k < |items| ==> composed !in Plain(fold, ValueOf(items[k]))
    ensures [base, mark] in Evaluated(nfc, fold, Sentence(items), DeriveAssertions(lower, [], Sentence(items))).missing
  {
    EnumerationReads(lower, items);
    QuoteOut(base, mark);
    ComposedPlain(fold, composed);
    NotAmong(nfc, fold, items, [base, mark], composed);
    HoldsInSentence(nfc, fold, items, [base, mark]);
    FirstMissing(nfc, fold, lower, Sentence(items), ValuesOf(items));
  }

  lemma NotAmong(nfc: Form, fold: Fold, items: seq<string>, value: string, composed: char)
    requires Normalized(nfc, fold, value) == [composed]
    requires forall k :: 0 <= k < |items| ==> composed !in Plain(fold, ValueOf(items[k]))
    ensures !SurvivesAmong(nfc, fold, items, value)
  {
    forall k | 0 <= k < |items| ensures !Contains(Plain(fold, ValueOf(items[k])), [composed]) {
      if Contains(Plain(fold, ValueOf(items[k])), [composed]) { OneIn(Plain(fold, ValueOf(items[k])), composed); }
    }
  }

  lemma FirstMissing(nfc: Form, fold: Fold, lower: string -> string, answer: string, values: seq<string>)
    requires EnumerationValues(lower, answer) == Some(values) && !Holds(nfc, fold, answer, values[0])
    ensures values[0] in Evaluated(nfc, fold, answer, DeriveAssertions(lower, [], answer)).missing
  {
    var assertions := DeriveAssertions(lower, [], answer);
    assert assertions[0].values == values && values[0] in assertions[0].values;
    MissingMembers(nfc, fold, answer, assertions, values[0]);
  }

  lemma QuoteOut(base: char, mark: char)
    requires base !in QUOTES && mark !in QUOTES && !IsSpace(base) && !IsSpace(mark)
    ensures ValueOf([base, '"', mark]) == [base, mark]
  {
    UnquotedThree(base, mark);
    CollapsedTwo(base, mark);
  }

  lemma UnquotedThree(base: char, mark: char)
    requires base !in QUOTES && mark !in QUOTES
    ensures Unquoted([base, '"', mark]) == [base, mark]
  {
    var two := [base, '"'];
    assert [base, '"', mark][..2] == two && two[..1] == [base] && [base][..0] == [];
    assert Unquoted([base]) == Unquoted([]) + [base] == [base];
    assert Unquoted(two) == Unquoted([base]) + "" == [base];
  }

  lemma CollapsedTwo(base: char, mark: char)
    requires !IsSpace(base) && !IsSpace(mark)
    ensures Collapsed([base, mark]) == [base, mark]
  {
    CollapsedStep([base], mark);
    CollapsedOne(base);
    assert [base] + [mark] == [base, mark] && Gap([base]) == "";
  }

  lemma CollapsedOne(c: char)
    requires !IsSpace(c)
    ensures Collapsed([c]) == [c]
  {
    CollapsedStep("", c);
    assert "" + [c] == [c];
  }

  lemma ComposedPlain(fold: Fold, c: char)
    requires c !in QUOTES && !IsSpace(c) && fold(c) == [c]
    ensures Plain(fold, [c]) == [c]
  {
    UnquotedFixes([c]);
    FoldedOne(fold, c);
    CollapsedOne(c);
  }

  lemma OneIn(t: string, c: char)
    requires Contains(t, [c])
    ensures c in t
  {
    var a, b := Middle(t, [c]);
    assert t[|a|] == c;
  }

  /** An answer passes whatever another passes if and only if its normalised text contains the
      other's. */
  lemma PassesWhatever(nfc: Form, fold: Fold, answer: string, longer: string)
    ensures (forall assertions :: Evaluated(nfc, fold, answer, assertions).status == Passed
                                  ==> Evaluated(nfc, fold, longer, assertions).status == Passed)
            <==> Contains(Normalized(nfc, fold, longer), Normalized(nfc, fold, answer))
  {
    if Contains(Normalized(nfc, fold, longer), Normalized(nfc, fold, answer)) {
      forall assertions | Evaluated(nfc, fold, answer, assertions).status == Passed
        ensures Evaluated(nfc, fold, longer, assertions).status == Passed
      {
        StillPasses(nfc, fold, answer, longer, assertions);
      }
    } else {
      ItselfPasses(nfc, fold, answer, longer);
    }
  }

  lemma StillPasses(nfc: Form, fold: Fold, answer: string, longer: string, assertions: seq<Assertion>)
    requires Contains(Normalized(nfc, fold, longer), Normalized(nfc, fold, answer))
    requires Evaluated(nfc, fold, answer, assertions).status == Passed
    ensures Evaluated(nfc, fold, longer, assertions).status == Passed
  {
    NothingMissing(nfc, fold, answer, assertions);
    forall k, v | 0 <= k < |assertions| && v in assertions[k].values ensures Holds(nfc, fold, longer, v) {
      assert AllHold(nfc, fold, answer, assertions[k].values);
      ContainsTransitive(Normalized(nfc, fold, longer), Normalized(nfc, fold, answer), Normalized(nfc, fold, v));
    }
    NothingMissing(nfc, fold, longer, assertions);
  }

  /** The answer as its own one literal tells the two apart. */
  lemma ItselfPasses(nfc: Form, fold: Fold, answer: string, longer: string)
    ensures var assertions := [Assertion(ContainsOne, [answer])];
      && Evaluated(nfc, fold, answer, assertions).status == Passed
      && (Evaluated(nfc, fold, longer, assertions).status == Passed
          <==> Contains(Normalized(nfc, fold, longer), Normalized(nfc, fold, answer)))
  {
    var assertions := [Assertion(ContainsOne, [answer])];
    ContainsSelf(Normalized(nfc, fold, answer));
    NothingMissing(nfc, fold, answer, assertions);
    NothingMissing(nfc, fold, longer, assertions);
    assert AllHold(nfc, fold, longer, assertions[0].values) <==> Holds(nfc, fold, longer, answer);
  }

  /** In the normalization form, an answer that contains a passing answer passes too. */
  lemma LongerAnswerPasses(nfc: Form, fold: Fold, answer: string, longer: string, assertions: seq<Assertion>)
    requires ClosedUnderParts(nfc) && nfc(longer) == longer && Contains(longer, answer)
    requires Evaluated(nfc, fold, answer, assertions).status == Passed
    ensures Evaluated(nfc, fold, longer, assertions).status == Passed
  {
    NormalizedContains(nfc, fold, longer, answer);
    StillPasses(nfc, fold, answer, longer, assertions);
  }

  /** Out of the normalization form it need not: a mark behind the answer may compose with its end. */
  lemma ComposedEndFails(nfc: Form, fold: Fold, base: char, mark: char, composed: char)
    requires nfc([base]) == [base] && nfc([base, mark]) == [composed] && composed != base
    requires base !in QUOTES && composed !in QUOTES && !IsSpace(base) && !IsSpace(composed)
    requires fold(base) == [base] && fold(composed) == [composed]
    ensures Contains([base, mark], [base])
    ensures var assertions := [Assertion(ContainsOne, [[base]])];
      && Evaluated(nfc, fold, [base], assertions).status == Passed
      && Evaluated(nfc, fold, [base, mark], assertions) == Outcome(Failed, [[base]])
  {
    var assertions := [Assertion(ContainsOne, [[base]])];
    ContainsMiddle("", [base], [mark]);
    assert "" + [base] + [mark] == [base, mark];
    ComposedPlain(fold, base);
    ComposedPlain(fold, composed);
    ItselfPasses(nfc, fold, [base], [base, mark]);
    if Contains([composed], [base]) { OneIn([composed], base); }
    OnlyMissing(nfc, fold, [base, mark], [base]);
  }

  lemma OnlyMissing(nfc: Form, fold: Fold, answer: string, value: string)
    requires !Holds(nfc, fold, answer, value)
    ensures Missing(nfc, fold, answer, [Assertion(ContainsOne, [value])]) == [value]
  {
    var assertions, values := [Assertion(ContainsOne, [value])], [value];
    assert assertions[..0] == [] && values[..0] == [];
    assert MissingOf(nfc, fold, answer, values) == MissingOf(nfc, fold, answer, []) + [value];
  }

  /** A derived value checks nothing, and every answer satisfies it, exactly when its item is made
      of quotes and white space only. */
  lemma QuoteItemChecksNothing(item: string)
    ensures Collapsed(Unquoted(item)) == "" <==> forall c :: c in item ==> c in "\"\U{201C}\U{201D}" || IsSpace(c)
  {
    WordsAreWords(Unquoted(item));
    WordsBlank(Unquoted(item));
    UnquotedMembers(item);
  }

  lemma {:induction false} UnquotedMembers(s: string)
    ensures forall c :: c in Unquoted(s) <==> c in s && c !in QUOTES
  {
    if s != "" {
      var n := |s| - 1;
      assert s == s[..n] + [s[n]];
      UnquotedMembers(s[..n]);
    }
  }
}
