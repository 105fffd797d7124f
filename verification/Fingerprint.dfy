/** The content fingerprint: which fields it covers and why it identifies them.

    A passage's storage id is the digest of one string in which the hashed fields
    are joined by NUL.  Two of the groups of fields are optional, so the string has
    five, six, nine or ten segments and nothing marks which ones they are. */
module Fingerprint {
  import opened Wrappers

  const NUL: char := '\0'
  const CHUNK_LABEL := "chunk"

  datatype Position = Position(space: string, subspace: string, callout: string, depth: int)

  /** What the fingerprint sees of a passage.  `position` is None for content that sits
      nowhere in a space tree; an absent label has already been read as "chunk". */
  datatype Fields = Fields(content: string, title: string, source: string, kind: string,
                           documentId: string, position: Option<Position>, embeddingType: string)

  predicate NulFree(s: string) { NUL !in s }

  predicate NulFreeFields(f: Fields) {
    && NulFree(f.content) && NulFree(f.title) && NulFree(f.source) && NulFree(f.kind)
    && NulFree(f.documentId) && NulFree(f.embeddingType)
    && (f.position.Some? ==> var p := f.position.value;
        NulFree(p.space) && NulFree(p.subspace) && NulFree(p.callout))
  }

  // ----- decimal rendering of the depth

  const DIGITS := "0123456789"

  function Digits(n: nat): string {
    if n < 10 then [DIGITS[n]] else Digits(n / 10) + [DIGITS[n % 10]]
  }

  function Decimal(n: int): string {
    if n < 0 then "-" + Digits(-n) else Digits(n)
  }

  predicate IsDigit(c: char) { c in DIGITS }

  lemma {:induction false} DigitsAreDigits(n: nat)
    ensures |Digits(n)| > 0
    ensures forall c :: c in Digits(n) ==> IsDigit(c)
  {
    if n >= 10 { DigitsAreDigits(n / 10); }
  }

  /** What a decimal text says. */
  function ValueOf(digits: string): int
    requires forall c :: c in digits ==> IsDigit(c)
  {
    if digits == "" then 0 else 10 * ValueOf(digits[..|digits| - 1]) + (digits[|digits| - 1] as int - '0' as int)
  }

  /** The digits of a number read back as that number. */
  lemma {:induction false} DigitsRead(n: nat)
    ensures (forall c :: c in Digits(n) ==> IsDigit(c)) && ValueOf(Digits(n)) == n
  {
    DigitsAreDigits(n);
    if n >= 10 {
      DigitsRead(n / 10);
      assert Digits(n)[..|Digits(n)| - 1] == Digits(n / 10);
    } else {
      assert Digits(n)[..0] == "";
    }
  }

  lemma DigitInjective(i: nat, j: nat)
    requires i < 10 && j < 10 && DIGITS[i] == DIGITS[j]
    ensures i == j
  {}

  lemma LastDigit(n: nat)
    ensures |Digits(n)| > 0 && Digits(n)[|Digits(n)| - 1] == DIGITS[n % 10]
    ensures |Digits(n)| == 1 <==> n < 10
    ensures n >= 10 ==> Digits(n)[..|Digits(n)| - 1] == Digits(n / 10)
  {
    DigitsAreDigits(n / 10);
  }

  lemma {:induction false} DigitsInjective(m: nat, n: nat)
    requires Digits(m) == Digits(n)
    ensures m == n
    decreases m
  {
    LastDigit(m);
    LastDigit(n);
    DigitInjective(m % 10, n % 10);
    if m >= 10 { DigitsInjective(m / 10, n / 10); }
  }

  lemma DecimalSign(n: int)
    ensures |Decimal(n)| > 0 && (Decimal(n)[0] == '-' <==> n < 0)
  {
    if n >= 0 {
      DigitsAreDigits(n);
      assert !IsDigit('-') && IsDigit(Digits(n)[0]);
    }
  }

  lemma DecimalInjective(m: int, n: int)
    requires Decimal(m) == Decimal(n)
    ensures m == n
  {
    DecimalSign(m);
    DecimalSign(n);
    if m < 0 {
      assert Decimal(m)[1..] == Digits(-m) && Decimal(n)[1..] == Digits(-n);
      DigitsInjective(-m, -n);
    } else {
      DigitsInjective(m, n);
    }
  }

  lemma DecimalNulFree(n: int)
    ensures NulFree(Decimal(n))
  {
    DigitsAreDigits(if n < 0 then -n else n);
    assert !IsDigit(NUL);
  }

  // ----- the canonical string

  function Segments(f: Fields): (r: seq<string>)
    ensures |r| == 5 + (if f.position.Some? then 4 else 0) + (if f.embeddingType != CHUNK_LABEL then 1 else 0)
  {
    [f.content, f.title, f.source, f.kind, f.documentId]
    + (if f.position.Some? then
         [f.position.value.space, f.position.value.subspace, f.position.value.callout,
          Decimal(f.position.value.depth)]
       else [])
    + (if f.embeddingType != CHUNK_LABEL then [f.embeddingType] else [])
  }

  function Join(segments: seq<string>): string
    requires segments != []
  {
    if |segments| == 1 then segments[0] else segments[0] + [NUL] + Join(segments[1..])
  }

  function Canonical(f: Fields): string { Join(Segments(f)) }

  /** Reads the segments of a joined string back. */
  function Cut(s: string): (r: seq<string>)
    ensures r != []
  {
    if s == "" then [""]
    else
      var rest := Cut(s[1..]);
      if s[0] == NUL then [""] + rest else [[s[0]] + rest[0]] + rest[1..]
  }

  lemma {:induction false} CutNulFree(s: string)
    requires NulFree(s)
    ensures Cut(s) == [s]
  {
    if s != "" {
      assert forall c :: c in s[1..] ==> c in s;
      CutNulFree(s[1..]);
      assert s == [s[0]] + s[1..];
    }
  }

  lemma {:induction false} CutStep(a: string, rest: string)
    requires NulFree(a)
    ensures Cut(a + [NUL] + rest) == [a] + Cut(rest)
  {
    var s := a + [NUL] + rest;
    if a == "" {
      assert s[1..] == rest;
    } else {
      assert forall c :: c in a[1..] ==> c in a;
      assert s[1..] == a[1..] + [NUL] + rest;
      CutStep(a[1..], rest);
      assert a == [a[0]] + a[1..];
    }
  }

  lemma {:induction false} CutJoin(segments: seq<string>)
    requires segments != []
    requires forall s :: s in segments ==> NulFree(s)
    ensures Cut(Join(segments)) == segments
  {
    if |segments| == 1 {
      CutNulFree(segments[0]);
    } else {
      CutJoin(segments[1..]);
      CutStep(segments[0], Join(segments[1..]));
      assert segments == [segments[0]] + segments[1..];
    }
  }

  lemma SegmentsNulFree(f: Fields)
    requires NulFreeFields(f)
    ensures forall s :: s in Segments(f) ==> NulFree(s)
  {
    if f.position.Some? { DecimalNulFree(f.position.value.depth); }
  }

  /** What a canonical string says, segment by segment: the label comes last, and "chunk" is left out. */
  lemma CanonicalReads(f: Fields)
    requires NulFreeFields(f)
    ensures var place := if f.position.None? then []
                         else [f.position.value.space, f.position.value.subspace, f.position.value.callout, Decimal(f.position.value.depth)];
      Cut(Canonical(f)) == [f.content, f.title, f.source, f.kind, f.documentId] + place + if f.embeddingType == "chunk" then [] else [f.embeddingType]
  {
    SegmentsNulFree(f);
    CutJoin(Segments(f));
  }

  /** Equal canonical strings mean equal content, identity, position and label, although
      nothing in the string says which optional segments it holds. */
  lemma CanonicalInjective(f: Fields, g: Fields)
    requires NulFreeFields(f) && NulFreeFields(g)
    requires Canonical(f) == Canonical(g)
    ensures f == g
  {
    SegmentsNulFree(f);
    SegmentsNulFree(g);
    CutJoin(Segments(f));
    CutJoin(Segments(g));
    var s, t := Segments(f), Segments(g);
    assert s == t;
    assert s[0] == t[0] && s[1] == t[1] && s[2] == t[2] && s[3] == t[3] && s[4] == t[4];
    if f.position.Some? {
      assert s[5] == t[5] && s[6] == t[6] && s[7] == t[7] && s[8] == t[8];
      DecimalInjective(f.position.value.depth, g.position.value.depth);
    }
    if f.embeddingType != CHUNK_LABEL {
      assert s[|s| - 1] == f.embeddingType && t[|t| - 1] == g.embeddingType;
    }
  }

  /** Freedom from NUL is needed: one NUL moved across a segment border goes unnoticed. */
  lemma NulCollides()
    ensures exists f: Fields, g: Fields :: f != g && Canonical(f) == Canonical(g)
  {
    var f := Fields("a\0b", "c", "s", "k", "d", None, CHUNK_LABEL);
    var g := Fields("a", "b\0c", "s", "k", "d", None, CHUNK_LABEL);
    var sf, sg := Segments(f), Segments(g);
    assert sf[2..] == sg[2..] == ["s", "k", "d"];
    var tail := Join(sf[2..]);
    assert sf[1..][1..] == sf[2..] && sg[1..][1..] == sg[2..];
    assert Canonical(f) == "a\0b" + [NUL] + ("c" + [NUL] + tail);
    assert Canonical(g) == "a" + [NUL] + ("b\0c" + [NUL] + tail);
    assert Canonical(f) == Canonical(g);
    assert f != g;
  }
}
