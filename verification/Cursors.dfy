/**
 Page cursors: an ISO time and a UUID joined by a colon, in URL-safe base64.
 */
module Cursors {
  import opened Options

  // --- A UUID's text: 32 hexadecimal digits in groups of 8-4-4-4-12 ---

  const UUIDS: nat := 0x1_0000_0000_0000_0000_0000_0000_0000_0000

  const DIGITS := "0123456789abcdef"

  function Hex(n: nat, width: nat): (s: string)
    ensures |s| == width
  {
    if width == 0 then "" else Hex(n / 16, width - 1) + [DIGITS[n % 16]]
  }

  function DigitValue(c: char): Option<nat> {
    if '0' <= c <= '9' then Some((c - '0') as nat)
    else if 'a' <= c <= 'f' then Some(10 + (c - 'a') as nat)
    else if 'A' <= c <= 'F' then Some(10 + (c - 'A') as nat)
    else None
  }

  function Unhex(s: string): Option<nat> {
    if s == "" then Some(0)
    else
      match (Unhex(s[..|s| - 1]), DigitValue(s[|s| - 1]))
      case (Some(high), Some(low)) => Some(16 * high + low)
      case _ => None
  }

  function UuidText(id: nat): string {
    Grouped(Hex(id, 32))
  }

  function Grouped(h: string): string
    requires |h| == 32
  {
    h[..8] + "-" + h[8..12] + "-" + h[12..16] + "-" + h[16..20] + "-" + h[20..]
  }

  function WithoutDashes(s: string): string {
    if s == "" then ""
    else
      var init, last := s[..|s| - 1], s[|s| - 1];
      if last == '-' then WithoutDashes(init) else WithoutDashes(init) + [last]
  }

  function ParseUuid(s: string): Option<nat> {
    var h := WithoutDashes(s);
    if |h| == 32 then Unhex(h) else None
  }

  function Power16(width: nat): nat {
    if width == 0 then 1 else 16 * Power16(width - 1)
  }

  predicate AllDigits(s: string) {
    forall c :: c in s ==> DigitValue(c).Some?
  }

  lemma UnhexAnother(high: string, n: nat, d: nat)
    requires d < 16 && Unhex(high) == Some(n) && AllDigits(high)
    ensures Unhex(high + [DIGITS[d]]) == Some(16 * n + d) && AllDigits(high + [DIGITS[d]])
  {
    var s := high + [DIGITS[d]];
    assert s[..|s| - 1] == high;
    assert DigitValue(DIGITS[d]) == Some(d);
  }

  // `s` is read back as n.
  predicate Reads(s: string, n: nat) {
    Unhex(s) == Some(n) && AllDigits(s)
  }

  lemma HexStep(n: nat, width: nat, p: nat)
    requires width > 0 && n < 16 * p && Reads(Hex(n / 16, width - 1), n / 16)
    ensures Reads(Hex(n, width), n) && n / 16 < p
  {
    UnhexAnother(Hex(n / 16, width - 1), n / 16, n % 16);
  }

  lemma {:induction false} HexRoundTrip(n: nat, width: nat)
    requires n < Power16(width)
    ensures Reads(Hex(n, width), n)
  {
    if width > 0 {
      var p := Power16(width - 1);
      assert n / 16 < p;
      HexRoundTrip(n / 16, width - 1);
      HexStep(n, width, p);
    }
  }

  lemma {:induction false} DigitsStay(s: string)
    requires AllDigits(s)
    ensures WithoutDashes(s) == s
  {
    if s != "" {
      DigitsStay(s[..|s| - 1]);
      assert s[|s| - 1] in s && DigitValue('-').None?;
    }
  }

  lemma {:induction false} DashesGo(s: string, t: string)
    ensures WithoutDashes(s + t) == WithoutDashes(s) + WithoutDashes(t)
  {
    if t != "" {
      var all := s + t;
      assert all[..|all| - 1] == s + t[..|t| - 1];
      DashesGo(s, t[..|t| - 1]);
    } else {
      assert s + t == s;
    }
  }

  lemma AfterDash(s: string, h: string)
    requires AllDigits(h)
    ensures WithoutDashes(s + "-" + h) == WithoutDashes(s) + h
  {
    DashesGo(s + "-", h);
    DashesGo(s, "-");
    DigitsStay(h);
  }

  lemma Powers()
    ensures Power16(32) == UUIDS
  {
    assert Power16(8) == 0x1_0000_0000;
    assert Power16(16) == 0x1_0000_0000_0000_0000;
    assert Power16(24) == 0x1_0000_0000_0000_0000_0000_0000;
  }

  lemma Joined(a: string, b: string, c: string, d: string, e: string)
    requires AllDigits(a) && AllDigits(b) && AllDigits(c) && AllDigits(d) && AllDigits(e)
    ensures WithoutDashes(a + "-" + b + "-" + c + "-" + d + "-" + e) == a + b + c + d + e
  {
    DigitsStay(a);
    AfterDash(a, b);
    AfterDash(a + "-" + b, c);
    AfterDash(a + "-" + b + "-" + c, d);
    AfterDash(a + "-" + b + "-" + c + "-" + d, e);
  }

  lemma Ungrouped(h: string)
    requires |h| == 32 && AllDigits(h)
    ensures WithoutDashes(Grouped(h)) == h && ':' !in Grouped(h)
  {
    Joined(h[..8], h[8..12], h[12..16], h[16..20], h[20..]);
    assert h[..8] + h[8..12] + h[12..16] + h[16..20] + h[20..] == h;
    assert DigitValue(':').None?;
  }

  lemma {:induction false} AtLeast(d: nat, x: nat)
    requires x > 0
    ensures d * x >= d
  {
    if x > 1 {
      AtLeast(d, x - 1);
      assert d * x == d * (x - 1) + d;
    }
  }

  lemma Multiple(d: nat, x: int)
    ensures x == 0 || d * x >= d || d * x <= -(d as int)
  {
    if x > 0 {
      AtLeast(d, x);
    } else if x < 0 {
      AtLeast(d, -x);
      assert d * x == -(d * -x);
    }
  }

  lemma Quotient(n: nat, d: nat, q: nat, r: nat)
    requires n == d * q + r && r < d
    ensures n / d == q
  {
    var x := n / d - q;
    assert n == d * (n / d) + n % d;
    assert d * x == r - n % d;
    Multiple(d, x);
  }

  lemma DivideTwice(n: nat, p: nat)
    requires p > 0
    ensures n / 16 / p == n / (16 * p)
  {
    var m := n / 16;
    var q, r := m / p, m % p;
    assert m == p * q + r && n == 16 * m + n % 16;
    assert n == (16 * p) * q + (16 * r + n % 16);
    Quotient(n, 16 * p, q, 16 * r + n % 16);
  }

  lemma {:induction false} PowersArePositive(width: nat)
    ensures Power16(width) > 0
  {
    if width > 0 {
      PowersArePositive(width - 1);
    }
  }

  // The digits of a number, the highest first
  lemma {:induction false} HexDigit(n: nat, width: nat, k: nat)
    requires k < width
    ensures Power16(width - 1 - k) > 0
    ensures Hex(n, width)[k] == DIGITS[(n / Power16(width - 1 - k)) % 16]
  {
    PowersArePositive(width - 1 - k);
    if k < width - 1 {
      var p := Power16(width - 2 - k);
      HexDigit(n / 16, width - 1, k);
      PowersArePositive(width - 2 - k);
      DivideTwice(n, p);
      assert Power16(width - 1 - k) == 16 * p && Hex(n, width)[k] == Hex(n / 16, width - 1)[k];
    }
  }

  // The text of a UUID: 36 characters, dashes behind the digits 8, 12, 16 and 20, and the digits in lower case.
  lemma UuidTextIs(id: nat, k: nat)
    requires k < 32
    ensures |UuidText(id)| == 36
    ensures UuidText(id)[8] == UuidText(id)[13] == UuidText(id)[18] == UuidText(id)[23] == '-'
    ensures Power16(31 - k) > 0
    ensures UuidText(id)[k + if k < 8 then 0 else if k < 12 then 1 else if k < 16 then 2 else if k < 20 then 3 else 4]
         == "0123456789abcdef"[(id / Power16(31 - k)) % 16]
  {
    HexDigit(id, 32, k);
    GroupedAt(Hex(id, 32), k);
  }

  lemma GroupedAt(h: string, k: nat)
    requires |h| == 32 && k < 32
    ensures |Grouped(h)| == 36 && Grouped(h)[8] == Grouped(h)[13] == Grouped(h)[18] == Grouped(h)[23] == '-'
    ensures Grouped(h)[k + if k < 8 then 0 else if k < 12 then 1 else if k < 16 then 2 else if k < 20 then 3 else 4] == h[k]
  {
  }

  lemma UuidRoundTrip(id: nat)
    requires id < UUIDS
    ensures ParseUuid(UuidText(id)) == Some(id)
    ensures ':' !in UuidText(id)
  {
    Powers();
    HexRoundTrip(id, 32);
    Ungrouped(Hex(id, 32));
  }

  // --- The cursor ---

  // isoformat / fromisoformat and base64 are foreign: all that is asked of them is that one undoes the other.
  datatype Codec = Codec(iso: int -> string, parseIso: string -> Option<int>,
                         base64: string -> string, unbase64: string -> Option<string>)

  ghost predicate Invertible(c: Codec) {
    && c.base64("") == ""
    && (forall t :: c.parseIso(c.iso(t)) == Some(t))
    && (forall s :: c.unbase64(c.base64(s)) == Some(s))
  }

  datatype Position = Position(at: int, id: nat)

  function EncodeCursor(c: Codec, p: Position): string {
    c.base64(c.iso(p.at) + ":" + UuidText(p.id))
  }

  // raw.rsplit(":", 1), which without a colon has only one part.
  function SplitAtLastColon(s: string): Option<(string, string)> {
    if s == "" then None
    else
      var init, last := s[..|s| - 1], s[|s| - 1];
      if last == ':' then Some((init, ""))
      else
        match SplitAtLastColon(init)
        case Some((before, after)) => Some((before, after + [last]))
        case None => None
  }

  // None is an exception.
  function DecodeCursor(c: Codec, cursor: string): Option<Position> {
    match c.unbase64(cursor)
    case None => None
    case Some(raw) =>
      match SplitAtLastColon(raw)
      case None => None
      case Some((iso, uuid)) =>
        match (c.parseIso(iso), ParseUuid(uuid))
        case (Some(at), Some(id)) => Some(Position(at, id))
        case _ => None
  }

  lemma SplitAnother(s: string, last: char, before: string, after: string)
    requires last != ':' && SplitAtLastColon(s) == Some((before, after))
    ensures SplitAtLastColon(s + [last]) == Some((before, after + [last]))
  {
    assert (s + [last])[..|s|] == s;
  }

  // The split is at the last colon, whatever stands before it.
  lemma {:induction false} SplitFindsLastColon(before: string, after: string)
    requires ':' !in after
    ensures SplitAtLastColon(before + ":" + after) == Some((before, after))
  {
    if after == "" {
      var s := before + ":" + after;
      assert s[..|s| - 1] == before;
    } else {
      var init, last := after[..|after| - 1], after[|after| - 1];
      SplitFindsLastColon(before, init);
      SplitAnother(before + ":" + init, last, before, init);
      assert before + ":" + init + [last] == before + ":" + after;
      assert init + [last] == after;
    }
  }

  lemma CursorRoundTrip(c: Codec, p: Position)
    requires Invertible(c) && p.id < UUIDS
    ensures DecodeCursor(c, EncodeCursor(c, p)) == Some(p)
  {
    UuidRoundTrip(p.id);
    SplitFindsLastColon(c.iso(p.at), UuidText(p.id));
  }
}
