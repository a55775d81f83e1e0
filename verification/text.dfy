/** The string operations of the Go standard library that the controller relies on.
    A Go string is a seq<char>; sort order on code points is Go's byte order on UTF-8. */
module Text {

  datatype Option<+T> = None | Some(value: T)

  /** unicode.IsSpace. */
  predicate IsSpace(c: char) {
    || '\t' <= c <= '\r'
    || c == ' '
    || c == '\U{85}' || c == '\U{A0}' || c == '\U{1680}'
    || '\U{2000}' <= c <= '\U{200A}'
    || c == '\U{2028}' || c == '\U{2029}' || c == '\U{202F}' || c == '\U{205F}' || c == '\U{3000}'
  }

  predicate IsCrLf(c: char) {
    c == '\r' || c == '\n'
  }

  /** The characters meant, by code point: white space as Unicode defines it, and the two line ends. */
  lemma SpaceCharacters(c: char)
    ensures IsSpace(c) <==>
              || c as int in {0x09, 0x0A, 0x0B, 0x0C, 0x0D, 0x20, 0x85, 0xA0, 0x1680}
              || 0x2000 <= c as int <= 0x200A
              || c as int in {0x2028, 0x2029, 0x202F, 0x205F, 0x3000}
    ensures IsCrLf(c) <==> c as int == 0x0D || c as int == 0x0A
  {
  }

  predicate Blank(s: string) {
    forall c | c in s :: IsSpace(c)
  }

  /** strings.TrimRight with the cutset "\r\n": what goes is a maximal tail of CR and LF. */
  function TrimCrLf(s: string): (r: string)
    ensures r <= s
    ensures forall c | c in s[|r|..] :: IsCrLf(c)
    ensures r == "" || !IsCrLf(r[|r| - 1])
  {
    if s == "" || !IsCrLf(s[|s| - 1]) then s else TrimCrLf(s[..|s| - 1])
  }

  function TrimSpaceRight(s: string): (r: string)
    ensures r <= s
    ensures Blank(s[|r|..])
    ensures r == "" || !IsSpace(r[|r| - 1])
  {
    if s == "" || !IsSpace(s[|s| - 1]) then s else TrimSpaceRight(s[..|s| - 1])
  }

  function TrimSpaceLeft(s: string): (r: string)
    ensures |r| <= |s| && r == s[|s| - |r|..]
    ensures Blank(s[..|s| - |r|])
    ensures r == "" || !IsSpace(r[0])
  {
    if s == "" || !IsSpace(s[0]) then s else TrimSpaceLeft(s[1..])
  }

  /** strings.TrimSpace and bytes.TrimSpace. */
  function TrimSpace(s: string): (r: string) {
    TrimSpaceRight(TrimSpaceLeft(s))
  }

  lemma BlankParts(s: string, t: string)
    ensures Blank(s + t) <==> Blank(s) && Blank(t)
  {
    hide IsSpace;
    assert forall c | c in s :: c in s + t;
    assert forall c | c in t :: c in s + t;
  }

  lemma LeftBlank(s: string)
    ensures Blank(TrimSpaceLeft(s)) <==> Blank(s)
  {
    var l := TrimSpaceLeft(s);
    hide Blank, IsSpace, TrimSpaceLeft;
    assert s == s[..|s| - |l|] + l;
    BlankParts(s[..|s| - |l|], l);
  }

  lemma BlankEnd(r: string)
    requires r == "" || !IsSpace(r[|r| - 1])
    ensures Blank(r) <==> r == ""
  {
    hide IsSpace;
    assert r != "" ==> r[|r| - 1] in r;
  }

  lemma RightBlank(s: string)
    ensures Blank(s) <==> TrimSpaceRight(s) == ""
    ensures TrimSpaceRight(s) != "" ==> TrimSpaceRight(s)[0] == s[0]
  {
    hide Blank, IsSpace, TrimSpaceRight;
    var r := TrimSpaceRight(s);
    BlankEnd(r);
    assert s == r + s[|r|..];
    BlankParts(r, s[|r|..]);
  }

  /** whole is kept between a blank beginning, of n characters, and a blank end. */
  predicate LosesSpaceAt(kept: string, whole: string, n: nat) {
    && n + |kept| <= |whole|
    && kept == whole[n..n + |kept|] && Blank(whole[..n]) && Blank(whole[n + |kept|..])
  }

  predicate LosesSpace(kept: string, whole: string) {
    exists n: nat | n <= |whole| :: LosesSpaceAt(kept, whole, n)
  }

  lemma TrimSpaceKeeps(s: string)
    ensures LosesSpace(TrimSpace(s), s)
  {
    var l := TrimSpaceLeft(s);
    var r := TrimSpaceRight(l);
    var n := |s| - |l|;
    hide TrimSpaceLeft, TrimSpaceRight, Blank;
    assert l == s[n..] && r == l[..|r|] && l[|r|..] == s[n + |r|..];
    assert r == s[n..n + |r|];
    assert LosesSpaceAt(r, s, n);
  }

  /** A string trims to nothing exactly when it is blank; else what is left begins and ends with a
      character that is not space. What goes is a blank beginning and a blank end. */
  lemma TrimSpaceTrims(s: string)
    ensures TrimSpace(s) == "" <==> Blank(s)
    ensures var r := TrimSpace(s); r != "" ==> !IsSpace(r[0]) && !IsSpace(r[|r| - 1])
    ensures LosesSpace(TrimSpace(s), s)
  {
    hide IsSpace, Blank, LosesSpace;
    LeftBlank(s);
    RightBlank(TrimSpaceLeft(s));
    TrimSpaceKeeps(s);
  }

  function Digit(n: nat): (c: char)
    requires n < 10
    ensures c as int == '0' as int + n
  {
    ('0' as int + n) as char
  }

  /** fmt's %d of a non-negative int. */
  function Itoa(n: nat): (s: string)
    ensures s != ""
  {
    if n < 10 then [Digit(n)] else Itoa(n / 10) + [Digit(n % 10)]
  }

  /** The number that a decimal numeral stands for. */
  function Numeral(s: string): int {
    if s == "" then 0 else 10 * Numeral(s[..|s| - 1]) + (s[|s| - 1] as int - '0' as int)
  }

  /** Itoa writes the number it is given, in the digits 0 to 9, without a leading zero. */
  lemma {:induction false} ItoaReadsBack(n: nat)
    ensures Numeral(Itoa(n)) == n
    ensures forall c | c in Itoa(n) :: '0' <= c <= '9'
    ensures n > 0 ==> Itoa(n)[0] != '0'
    ensures Itoa(0) == "0"
  {
    var s := Itoa(n);
    if n < 10 {
      assert s[..0] == "";
    } else {
      ItoaReadsBack(n / 10);
      assert s[..|s| - 1] == Itoa(n / 10);
    }
  }

  lemma {:induction false} ItoaInjective(m: nat, n: nat)
    requires Itoa(m) == Itoa(n)
    ensures m == n
  {
    var s := Itoa(m);
    assert s[|s| - 1] == Digit(m % 10) == Digit(n % 10);
    if m >= 10 && n >= 10 {
      assert Itoa(m / 10) == s[..|s| - 1] == Itoa(n / 10);
      ItoaInjective(m / 10, n / 10);
    }
  }
}
