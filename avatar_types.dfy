/**
 * The facing-direction enum shared by every system, its name table and the
 * asset-URL formatter (src/types/avatar.ts).
 */
module AvatarTypes {
  import opened Optional

  /** AvatarDirection: CENTER, BACK, FRONT, LEFT, RIGHT. */
  datatype Direction = Center | Back | Front | Left | Right

  /** The enum's numeric value, which is what the Avatar component stores. */
  function DirectionValue(d: Direction): (n: int)
    ensures 0 <= n <= 4
    ensures DirectionFromValue(n) == Some(d)
  {
    match d
    case Center => 0
    case Back => 1
    case Front => 2
    case Left => 3
    case Right => 4
  }

  /** Reads a stored number back as a direction; only 0..4 name one. */
  function DirectionFromValue(n: int): (r: Option<Direction>)
    ensures r.Some? <==> 0 <= n <= 4
  {
    if n == 0 then Some(Center)
    else if n == 1 then Some(Back)
    else if n == 2 then Some(Front)
    else if n == 3 then Some(Left)
    else if n == 4 then Some(Right)
    else None
  }

  /** AVATAR_DIRECTION_NAMES: the file-name stem of each direction's image. */
  function DirectionName(d: Direction): (s: string)
    ensures DirectionFromName(s) == Some(d)
    ensures |s| > 0 && '/' !in s
  {
    match d
    case Center => "center"
    case Back => "back"
    case Front => "front"
    case Left => "left"
    case Right => "right"
  }

  /** Reverse lookup in the name table. */
  function DirectionFromName(s: string): (r: Option<Direction>)
  {
    if s == "center" then Some(Center)
    else if s == "back" then Some(Back)
    else if s == "front" then Some(Front)
    else if s == "left" then Some(Left)
    else if s == "right" then Some(Right)
    else None
  }

  /** The name table is injective: five directions, five distinct names. */
  lemma DirectionNamesDistinct(d1: Direction, d2: Direction)
    ensures DirectionName(d1) == DirectionName(d2) <==> d1 == d2
  {
    if DirectionName(d1) == DirectionName(d2) {
      assert DirectionFromName(DirectionName(d1)) == Some(d1);
      assert DirectionFromName(DirectionName(d2)) == Some(d2);
    }
  }

  /** The CDN prefix every avatar image lives under. */
  const CdnBase: string := "https://d2pxh9orknb8as.cloudfront.net/"

  function DigitChar(k: nat): (c: char)
    requires k < 10
  {
    "0123456789"[k]
  }

  function DigitValue(c: char): (k: nat)
  {
    if '0' <= c <= '9' then (c as int - '0' as int) as nat else 0
  }

  /** JavaScript's decimal rendering of a non-negative integer (`${id}`). */
  function DecimalString(n: nat): (s: string)
    ensures |s| >= 1
    ensures forall i :: 0 <= i < |s| ==> '0' <= s[i] <= '9'
    ensures n > 0 ==> s[0] != '0'
    decreases n
  {
    if n < 10 then [DigitChar(n)] else DecimalString(n / 10) + [DigitChar(n % 10)]
  }

  /** Reads a string of decimal digits as a number. */
  function DecimalValue(s: string): (n: nat)
    decreases |s|
  {
    if s == [] then 0 else DecimalValue(s[..|s| - 1]) * 10 + DigitValue(s[|s| - 1])
  }

  /** Reading the rendering back gives the number: the rendering loses nothing. */
  lemma {:induction false} DecimalRoundTrip(n: nat)
    ensures DecimalValue(DecimalString(n)) == n
    decreases n
  {
    var s := DecimalString(n);
    if n < 10 {
      assert s[..|s| - 1] == [];
    } else {
      DecimalRoundTrip(n / 10);
      assert s[..|s| - 1] == DecimalString(n / 10);
    }
  }

  /** getAvatarImageUrl: CDN base, the avatar id in decimal, '/', the direction name, ".png". */
  function AvatarImageUrl(id: nat, d: Direction): (url: string)
    ensures |url| > |CdnBase| + 4
    ensures url[..|CdnBase|] == CdnBase
    ensures url[|url| - 4..] == ".png"
  {
    CdnBase + (DecimalString(id) + ['/'] + (DirectionName(d) + ".png"))
  }

  /** Position of the first occurrence of `c` in `s`, or |s| when there is none. */
  function FirstIndexOf(s: string, c: char): (k: nat)
    ensures k <= |s|
    decreases |s|
  {
    if s == [] then 0 else if s[0] == c then 0 else 1 + FirstIndexOf(s[1..], c)
  }

  lemma {:induction false} FirstIndexOfSeparator(a: string, b: string, sep: char)
    requires sep !in a
    ensures FirstIndexOf(a + [sep] + b, sep) == |a|
    decreases |a|
  {
    var x := a + [sep] + b;
    if a != [] {
      assert x[1..] == a[1..] + [sep] + b;
      FirstIndexOfSeparator(a[1..], b, sep);
    }
  }

  /** Two strings glued by a separator that neither left part holds split back uniquely. */
  lemma SplitAtSeparator(a: string, b: string, c: string, d: string, sep: char)
    requires sep !in a && sep !in c
    requires a + [sep] + b == c + [sep] + d
    ensures a == c && b == d
  {
    var x := a + [sep] + b;
    FirstIndexOfSeparator(a, b, sep);
    FirstIndexOfSeparator(c, d, sep);
    assert a == x[..|a|];
    assert c == x[..|c|];
    assert b == x[|a| + 1..];
    assert d == x[|c| + 1..];
  }

  /** Equal strings with a common prefix have equal remainders. */
  lemma CancelPrefix(p: string, x: string, y: string)
    requires p + x == p + y
    ensures x == y
  {
    assert x == (p + x)[|p|..];
    assert y == (p + y)[|p|..];
  }

  /** Equal strings with a common suffix have equal beginnings. */
  lemma CancelSuffix(x: string, y: string, q: string)
    requires x + q == y + q
    ensures x == y
  {
    assert x == (x + q)[..|x|];
    assert y == (y + q)[..|y|];
  }

  /** An image URL determines both the avatar id and the direction. */
  lemma AvatarImageUrlInjective(id1: nat, d1: Direction, id2: nat, d2: Direction)
    requires AvatarImageUrl(id1, d1) == AvatarImageUrl(id2, d2)
    ensures id1 == id2 && d1 == d2
  {
    var s1, s2 := DecimalString(id1), DecimalString(id2);
    var n1, n2 := DirectionName(d1), DirectionName(d2);
    CancelPrefix(CdnBase, s1 + ['/'] + (n1 + ".png"), s2 + ['/'] + (n2 + ".png"));
    assert '/' !in s1 && '/' !in s2;
    SplitAtSeparator(s1, n1 + ".png", s2, n2 + ".png", '/');
    CancelSuffix(n1, n2, ".png");
    DecimalRoundTrip(id1);
    DecimalRoundTrip(id2);
    DirectionNamesDistinct(d1, d2);
  }

  /** For a fixed avatar, the five directions give five different image URLs. */
  lemma DistinctDirectionsDistinctUrls(id: nat, d1: Direction, d2: Direction)
    requires d1 != d2
    ensures AvatarImageUrl(id, d1) != AvatarImageUrl(id, d2)
  {
    if AvatarImageUrl(id, d1) == AvatarImageUrl(id, d2) {
      AvatarImageUrlInjective(id, d1, id, d2);
    }
  }
}
