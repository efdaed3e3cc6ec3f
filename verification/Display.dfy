// The escaping of text in reports (reporting.py:149-169), on Python strings: any
// code points, lone surrogates included.

module Display {
  import opened Domain

  type CodePoint = c: int | 0 <= c <= 0x10FFFF

  type Text = seq<CodePoint>

  const BACKSLASH: CodePoint := 0x5C
  const LETTER_N: CodePoint := 0x6E
  const LETTER_R: CodePoint := 0x72
  const LETTER_T: CodePoint := 0x74
  const LETTER_U: CodePoint := 0x75
  const LETTER_X: CodePoint := 0x78

  predicate Surrogate(c: CodePoint) {
    0xD800 <= c <= 0xDFFF
  }

  /** Stands for a byte that could not be decoded (PEP 383). */
  predicate EscapedByte(c: CodePoint) {
    0xDC80 <= c <= 0xDCFF
  }

  predicate Control(c: CodePoint) {
    c < 0x20 || c == 0x7F
  }

  function HexDigit(n: int): CodePoint
    requires 0 <= n < 16
  {
    if n < 10 then 0x30 + n else 0x57 + n
  }

  /** Python's :02x and :04x. */
  function Hex2(n: int): Text
    requires 0 <= n < 0x100
  {
    [HexDigit(n / 16), HexDigit(n % 16)]
  }

  function Hex4(n: int): Text
    requires 0 <= n < 0x10000
  {
    Hex2(n / 0x100) + Hex2(n % 0x100)
  }

  function Escape(c: CodePoint): Text {
    if c == BACKSLASH then [BACKSLASH, BACKSLASH]
    else if c == 0x0A then [BACKSLASH, LETTER_N]
    else if c == 0x0D then [BACKSLASH, LETTER_R]
    else if c == 0x09 then [BACKSLASH, LETTER_T]
    else if EscapedByte(c) then [BACKSLASH, LETTER_X] + Hex2(c - 0xDC00)
    else if Control(c) then [BACKSLASH, LETTER_X] + Hex2(c)
    else if Surrogate(c) then [BACKSLASH, LETTER_U] + Hex4(c)
    else [c]
  }

  function Escaped(t: Text): Text {
    if t == [] then [] else Escape(t[0]) + Escaped(t[1..])
  }

  lemma {:induction false} EscapedFrom(t: Text, i: nat)
    requires i < |t|
    ensures Escaped(t[i..]) == Escape(t[i]) + Escaped(t[i + 1..])
  {
    assert t[i..][1..] == t[i + 1..];
  }

  lemma {:induction false} NothingEscaped(t: Text)
    requires t == []
    ensures Escaped(t) == []
  {
  }

  method DisplayText(value: Text) returns (output: Text)
    ensures output == Escaped(value)
  {
    hide Escaped, Hex2, Hex4;
    output := [];
    for i := 0 to |value|
      invariant output + Escaped(value[i..]) == Escaped(value)
    {
      var c := value[i];
      var piece: Text;
      if c == BACKSLASH {
        piece := [BACKSLASH, BACKSLASH];
      } else if c == 0x0A {
        piece := [BACKSLASH, LETTER_N];
      } else if c == 0x0D {
        piece := [BACKSLASH, LETTER_R];
      } else if c == 0x09 {
        piece := [BACKSLASH, LETTER_T];
      } else if EscapedByte(c) {
        piece := [BACKSLASH, LETTER_X] + Hex2(c - 0xDC00);
      } else if Control(c) {
        piece := [BACKSLASH, LETTER_X] + Hex2(c);
      } else if Surrogate(c) {
        piece := [BACKSLASH, LETTER_U] + Hex4(c);
      } else {
        piece := [c];
      }
      assert piece == Escape(c);
      output := output + piece;
      EscapedFrom(value, i);
    }
    NothingEscaped(value[|value|..]);
  }

  // ----- reading it back -----

  function HexValue(c: CodePoint): Option<int> {
    if 0x30 <= c <= 0x39 then Some(c - 0x30)
    else if 0x61 <= c <= 0x66 then Some(c - 0x57)
    else None
  }

  function Number(digits: Text): Option<int> {
    if digits == [] then Some(0)
    else
      match (Number(digits[..|digits| - 1]), HexValue(digits[|digits| - 1]))
      case (Some(high), Some(low)) => Some(16 * high + low)
      case _ => None
  }

  /** The code point that s starts with, and how long its escape is. */
  function First(s: Text): Option<(CodePoint, nat)>
    requires s != []
  {
    if s[0] != BACKSLASH then Some((s[0], 1))
    else if |s| < 2 then None
    else if s[1] == BACKSLASH then Some((BACKSLASH, 2))
    else if s[1] == LETTER_N then Some((0x0A, 2))
    else if s[1] == LETTER_R then Some((0x0D, 2))
    else if s[1] == LETTER_T then Some((0x09, 2))
    else if s[1] == LETTER_X && |s| >= 4 then
      match Number(s[2..4])
      case Some(n) => if 0 <= n < 0x80 then Some((n, 4)) else if 0x80 <= n <= 0xFF then Some((0xDC00 + n, 4)) else None
      case None => None
    else if s[1] == LETTER_U && |s| >= 6 then
      match Number(s[2..6])
      case Some(n) => if 0 <= n <= 0xFFFF then Some((n, 6)) else None
      case None => None
    else None
  }

  function Decoded(s: Text): Option<Text>
    decreases |s|
  {
    if s == [] then Some([])
    else
      match First(s)
      case None => None
      case Some((c, n)) =>
        if n == 0 || n > |s| then None
        else
          match Decoded(s[n..])
          case None => None
          case Some(rest) => Some([c] + rest)
  }

  lemma {:induction false} HexInverts(n: int)
    requires 0 <= n < 0x100
    ensures Number(Hex2(n)) == Some(n)
  {
    var d := Hex2(n);
    assert d[..1][..0] == [] && d[..2] == d;
    assert Number(d[..1]) == Some(n / 16);
  }

  lemma {:induction false} NumberJoin(a: Text, b: Text)
    requires |b| == 2 && Number(a).Some? && Number(b).Some?
    ensures Number(a + b) == Some(0x100 * Number(a).value + Number(b).value)
  {
    var s := a + b;
    assert s[..|s| - 1] == a + [b[0]] && (a + [b[0]])[..|a|] == a;
    assert b[..1][..0] == [] && b[..1][0] == b[0] && b[..|b| - 1] == b[..1];
    assert Number(b[..1]) == HexValue(b[0]);
    assert Number(a + [b[0]]) == Some(16 * Number(a).value + HexValue(b[0]).value);
  }

  /** An escape is read back whatever follows it. */
  lemma {:induction false} FirstInverts(c: CodePoint, rest: Text)
    ensures First(Escape(c) + rest) == Some((c, |Escape(c)|))
  {
    var s := Escape(c) + rest;
    if EscapedByte(c) {
      HexInverts(c - 0xDC00);
      assert s[2..4] == Hex2(c - 0xDC00);
    } else if Control(c) && c != 0x0A && c != 0x0D && c != 0x09 {
      HexInverts(c);
      assert s[2..4] == Hex2(c);
    } else if Surrogate(c) {
      HexInverts(c / 0x100);
      HexInverts(c % 0x100);
      NumberJoin(Hex2(c / 0x100), Hex2(c % 0x100));
      assert s[2..6] == Hex4(c);
    }
  }

  /** Nothing is lost: the displayed text determines the text. */
  lemma {:induction false} DecodedInverts(t: Text)
    ensures Decoded(Escaped(t)) == Some(t)
    decreases |t|
  {
    if t != [] {
      var e, rest := Escape(t[0]), Escaped(t[1..]);
      FirstInverts(t[0], rest);
      DecodedInverts(t[1..]);
      assert (e + rest)[|e|..] == rest;
      assert t == [t[0]] + t[1..];
    }
  }

  lemma {:induction false} Injective(t: Text, u: Text)
    requires Escaped(t) == Escaped(u)
    ensures t == u
  {
    DecodedInverts(t);
    DecodedInverts(u);
  }

  predicate Harmless(c: CodePoint) {
    !Control(c) && !Surrogate(c)
  }

  lemma {:induction false} EscapeHarmless(c: CodePoint)
    ensures forall i | 0 <= i < |Escape(c)| :: Harmless(Escape(c)[i])
  {
  }

  /** No control character and no surrogate is displayed. */
  lemma {:induction false} OutputHarmless(t: Text)
    ensures forall i | 0 <= i < |Escaped(t)| :: Harmless(Escaped(t)[i])
    decreases |t|
  {
    if t != [] {
      EscapeHarmless(t[0]);
      OutputHarmless(t[1..]);
    }
  }

  /** Text is displayed as it is exactly if it has nothing to escape. */
  lemma {:induction false} UnchangedExactly(t: Text)
    ensures Escaped(t) == t <==> forall i | 0 <= i < |t| :: Harmless(t[i]) && t[i] != BACKSLASH
    decreases |t|
  {
    if t != [] {
      UnchangedExactly(t[1..]);
      LongerOnly(t[1..]);
      assert forall i | 0 < i < |t| :: t[1..][i - 1] == t[i];
      if Escaped(t) == t {
        assert |Escape(t[0])| == 1;
        assert Escaped(t)[1..] == Escaped(t[1..]);
      }
    }
  }

  lemma {:induction false} LongerOnly(t: Text)
    ensures |Escaped(t)| >= |t|
    decreases |t|
  {
    if t != [] {
      LongerOnly(t[1..]);
    }
  }
}
