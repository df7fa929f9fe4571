/**
 Construction of `messages.external_message_id` (src/external_id.rs).

 `ExtId` names the five constructors with their arguments; `Format` is the text the
 program stores. `FormatIsInjective` shows that the text determines constructor and
 arguments, which is what lets every other module key rows by `ExtId`.
 */
module ExternalId {

  function Pow16(k: nat): (r: nat)
    ensures r > 0
  {
    if k == 0 then 1 else 16 * Pow16(k - 1)
  }

  // A UUID is 128 bits: 32 hexadecimal digits.
  type Uuid = u: nat | u < Pow16(32) witness 0

  const NIL: Uuid := 0

  datatype ExtId =
    | InstagramId(mid: string)
    | TelegramId(chat: int, message: int)
    | TelegramUpdateId(update: int)
    | WidgetId(client: Uuid, widgetMid: Uuid)
    | OperatorId(localMid: string)

  // ── Decimal integers, as Rust prints an i64 ─────────────────────────

  const DIGITS: string := "0123456789abcdef"

  function DecimalNat(n: nat): (r: string)
    ensures |r| > 0
    ensures forall i :: 0 <= i < |r| ==> '0' <= r[i] <= '9'
  {
    if n < 10 then [DIGITS[n]] else DecimalNat(n / 10) + [DIGITS[n % 10]]
  }

  function Decimal(n: int): (r: string)
    ensures |r| > 0
    ensures forall i :: 0 <= i < |r| ==> r[i] == '-' || '0' <= r[i] <= '9'
  {
    if n < 0 then "-" + DecimalNat(-n) else DecimalNat(n)
  }

  lemma LastDigit(n: nat)
    ensures DecimalNat(n)[|DecimalNat(n)| - 1] == DIGITS[n % 10]
    ensures n >= 10 ==> DecimalNat(n)[..|DecimalNat(n)| - 1] == DecimalNat(n / 10)
    ensures n < 10 <==> |DecimalNat(n)| == 1
  {
  }

  lemma {:induction false} DecimalNatIsInjective(a: nat, b: nat)
    requires DecimalNat(a) == DecimalNat(b)
    ensures a == b
    decreases a
  {
    LastDigit(a);
    LastDigit(b);
    if a >= 10 {
      DecimalNatIsInjective(a / 10, b / 10);
    }
    DigitsDiffer(a % 10, b % 10);
  }

  lemma DigitsDiffer(d: nat, e: nat)
    requires d < 16 && e < 16 && DIGITS[d] == DIGITS[e]
    ensures d == e
  {
  }

  lemma SignOfDecimal(n: int)
    ensures n < 0 <==> Decimal(n)[0] == '-'
    ensures n < 0 ==> Decimal(n)[1..] == DecimalNat(-n)
    ensures n >= 0 ==> Decimal(n) == DecimalNat(n)
  {
  }

  lemma DecimalIsInjective(a: int, b: int)
    requires Decimal(a) == Decimal(b)
    ensures a == b
  {
    SignOfDecimal(a);
    SignOfDecimal(b);
    hide Decimal, DecimalNat;
    if a < 0 {
      DecimalNatIsInjective(-a, -b);
    } else {
      DecimalNatIsInjective(a, b);
    }
  }

  // The first `m` ids, one by one.
  function Nth(i: nat, m: Uuid): (u: Uuid)
    ensures i < m ==> u == i
  {
    if i < m then i else NIL
  }

  // ── Hyphenated UUIDs ────────────────────────────────────────────────

  function Hex(n: nat, width: nat): (r: string)
    ensures |r| == width
  {
    if width == 0 then "" else Hex(n / 16, width - 1) + [DIGITS[n % 16]]
  }

  lemma {:induction false} HexIsInjective(a: nat, b: nat, width: nat)
    requires a < Pow16(width) && b < Pow16(width)
    requires Hex(a, width) == Hex(b, width)
    ensures a == b
  {
    if width > 0 {
      var s, t := Hex(a, width), Hex(b, width);
      assert s[..width - 1] == Hex(a / 16, width - 1) && t[..width - 1] == Hex(b / 16, width - 1);
      HexIsInjective(a / 16, b / 16, width - 1);
      assert s[width - 1] == DIGITS[a % 16] && t[width - 1] == DIGITS[b % 16];
    }
  }

  // 8-4-4-4-12, as `Uuid`'s `Display` prints it.
  function UuidText(u: Uuid): (r: string)
    ensures |r| == 36
  {
    var h := Hex(u, 32);
    h[..8] + "-" + h[8..12] + "-" + h[12..16] + "-" + h[16..20] + "-" + h[20..]
  }

  lemma UuidTextIsInjective(a: Uuid, b: Uuid)
    requires UuidText(a) == UuidText(b)
    ensures a == b
  {
    var s, t := UuidText(a), UuidText(b);
    var g, h := Hex(a, 32), Hex(b, 32);
    assert s[..8] == g[..8] && s[9..13] == g[8..12] && s[14..18] == g[12..16] && s[19..23] == g[16..20] && s[24..] == g[20..];
    assert t[..8] == h[..8] && t[9..13] == h[8..12] && t[14..18] == h[12..16] && t[19..23] == h[16..20] && t[24..] == h[20..];
    assert g == g[..8] + g[8..12] + g[12..16] + g[16..20] + g[20..];
    assert h == h[..8] + h[8..12] + h[12..16] + h[16..20] + h[20..];
    HexIsInjective(a, b, 32);
  }

  // ── Reading the digits back ─────────────────────────────────────────

  function DecimalDigit(c: char): int {
    c as int - '0' as int
  }

  function DecimalValue(s: string): int {
    if s == "" then 0 else 10 * DecimalValue(s[..|s| - 1]) + DecimalDigit(s[|s| - 1])
  }

  /** A number is printed in base ten, most significant digit first, with no digit to spare. */
  lemma {:induction false} DecimalReadsBack(n: nat)
    ensures DecimalValue(DecimalNat(n)) == n
    ensures n > 0 ==> DecimalNat(n)[0] != '0'
    ensures n == 0 ==> DecimalNat(n) == "0"
    decreases n
  {
    LastDigit(n);
    DigitsCount(n % 10);
    if n >= 10 {
      DecimalReadsBack(n / 10);
    } else {
      assert DecimalNat(n)[..0] == "";
    }
  }

  lemma DigitsCount(d: nat)
    requires d < 16
    ensures d < 10 ==> DecimalDigit(DIGITS[d]) == d
    ensures HexDigit(DIGITS[d]) == d
    ensures '0' <= DIGITS[d] <= '9' || 'a' <= DIGITS[d] <= 'f'
  {
  }

  function HexDigit(c: char): int {
    if c <= '9' then c as int - '0' as int else c as int - 'a' as int + 10
  }

  function HexValue(s: string): int {
    if s == "" then 0 else 16 * HexValue(s[..|s| - 1]) + HexDigit(s[|s| - 1])
  }

  lemma {:induction false} HexReadsBack(n: nat, width: nat)
    requires n < Pow16(width)
    ensures HexValue(Hex(n, width)) == n
    ensures forall i :: 0 <= i < width ==> '0' <= Hex(n, width)[i] <= '9' || 'a' <= Hex(n, width)[i] <= 'f'
  {
    if width > 0 {
      HexReadsBack(n / 16, width - 1);
      DigitsCount(n % 16);
      var s := Hex(n, width);
      assert s[..width - 1] == Hex(n / 16, width - 1) && s[width - 1] == DIGITS[n % 16];
    }
  }

  lemma UuidGroups(u: Uuid)
    ensures
      var t := UuidText(u);
      && t[8] == '-' && t[13] == '-' && t[18] == '-' && t[23] == '-'
      && t[..8] + t[9..13] + t[14..18] + t[19..23] + t[24..] == Hex(u, 32)
  {
    var t, h := UuidText(u), Hex(u, 32);
    hide Hex;
    assert t[..8] == h[..8] && t[9..13] == h[8..12] && t[14..18] == h[12..16] && t[19..23] == h[16..20] && t[24..] == h[20..];
    assert h == h[..8] + h[8..12] + h[12..16] + h[16..20] + h[20..];
  }

  /** A UUID is printed as five groups of lower-case hexadecimal digits, which read back as its
      128 bits. */
  lemma UuidReadsBack(u: Uuid)
    ensures
      var t := UuidText(u);
      var digits := t[..8] + t[9..13] + t[14..18] + t[19..23] + t[24..];
      && t[8] == '-' && t[13] == '-' && t[18] == '-' && t[23] == '-'
      && HexValue(digits) == u
      && forall i :: 0 <= i < |digits| ==> '0' <= digits[i] <= '9' || 'a' <= digits[i] <= 'f'
  {
    UuidGroups(u);
    HexReadsBack(u, 32);
    hide Hex, HexValue, UuidText;
  }

  // ── The stored text ─────────────────────────────────────────────────

  function Format(e: ExtId): string {
    match e
    case InstagramId(mid) => "instagram:" + mid
    case TelegramId(chat, message) => "telegram:" + Decimal(chat) + ":" + Decimal(message)
    case TelegramUpdateId(update) => "telegram:update:" + Decimal(update)
    case WidgetId(client, mid) => "widget:" + UuidText(client) + ":" + UuidText(mid)
    case OperatorId(mid) => "operator:" + mid
  }

  /** The texts themselves: of widget messages all, of the others an example each. */
  lemma StoredTexts(client: Uuid, mid: Uuid)
    ensures Format(InstagramId("m")) == "instagram:m" && Format(OperatorId("m")) == "operator:m"
    ensures Format(TelegramId(-100, 27)) == "telegram:-100:27" && Format(TelegramUpdateId(0)) == "telegram:update:0"
    ensures
      var t := Format(WidgetId(client, mid));
      |t| == 80 && t[..7] == "widget:" && t[7..43] == UuidText(client) && t[43] == ':' && t[44..] == UuidText(mid)
  {
    SomeDecimals();
    hide Decimal, DecimalNat, UuidText;
  }

  lemma SomeDecimals()
    ensures Decimal(-100) == "-100" && Decimal(27) == "27" && Decimal(0) == "0"
  {
    assert DecimalNat(1) == "1" && DecimalNat(10) == "10" && DecimalNat(100) == "100" && DecimalNat(2) == "2";
  }

  // Text before and after a separator that occurs in neither prefix.
  lemma SplitAtColon(a: string, b: string, c: string, d: string)
    requires ':' !in a && ':' !in c
    requires a + ":" + b == c + ":" + d
    ensures a == c && b == d
  {
    var s := a + ":" + b;
    assert s[|a|] == ':' && s[|c|] == ':';
    assert forall i :: 0 <= i < |a| ==> s[i] == a[i] != ':';
    assert forall i :: 0 <= i < |c| ==> s[i] == c[i] != ':';
    assert |a| == |c|;
    assert s[..|a|] == a && s[..|c|] == c;
    assert s[|a| + 1..] == b && s[|c| + 1..] == d;
  }

  lemma NoColon(n: int)
    ensures ':' !in Decimal(n)
  {
  }

  lemma TelegramParts(p: string, q: string, u: string, v: string)
    requires ':' !in p && ':' !in u
    requires "telegram:" + p + ":" + q == "telegram:" + u + ":" + v
    ensures p == u && q == v
  {
    var s, t := "telegram:" + p + ":" + q, "telegram:" + u + ":" + v;
    assert s[9..] == p + ":" + q;
    assert t[9..] == u + ":" + v;
    SplitAtColon(p, q, u, v);
  }

  lemma TelegramIsInjective(a: int, b: int, c: int, d: int)
    requires Format(TelegramId(a, b)) == Format(TelegramId(c, d))
    ensures a == c && b == d
  {
    NoColon(a);
    NoColon(c);
    TelegramParts(Decimal(a), Decimal(b), Decimal(c), Decimal(d));
    DecimalIsInjective(a, c);
    DecimalIsInjective(b, d);
  }

  lemma WidgetIsInjective(a: Uuid, b: Uuid, c: Uuid, d: Uuid)
    requires Format(WidgetId(a, b)) == Format(WidgetId(c, d))
    ensures a == c && b == d
  {
    var s, t := Format(WidgetId(a, b)), Format(WidgetId(c, d));
    assert s[7..43] == UuidText(a) && t[7..43] == UuidText(c);
    assert s[44..] == UuidText(b) && t[44..] == UuidText(d);
    UuidTextIsInjective(a, c);
    UuidTextIsInjective(b, d);
  }

  // A chat id begins with a digit or a minus sign, never with the "update" tag.
  lemma TelegramIsNotAnUpdate(a: int, b: int, u: int)
    ensures Format(TelegramId(a, b)) != Format(TelegramUpdateId(u))
  {
    assert Format(TelegramId(a, b))[9] == Decimal(a)[0];
    assert Format(TelegramUpdateId(u))[9] == 'u';
  }

  /** Ids built by different constructors, or by one constructor from different
      arguments, are different texts: negative chat ids and arbitrary `mid`s included. */
  lemma FormatIsInjective(a: ExtId, b: ExtId)
    requires Format(a) == Format(b)
    ensures a == b
  {
    var s, t := Format(a), Format(b);
    assert s[0] == t[0];
    match a {
      case InstagramId(mid) =>
        assert b.InstagramId?;
        assert s[10..] == mid && t[10..] == b.mid;
      case TelegramId(chat, message) =>
        if b.TelegramUpdateId? {
          TelegramIsNotAnUpdate(chat, message, b.update);
        } else {
          TelegramIsInjective(chat, message, b.chat, b.message);
        }
      case TelegramUpdateId(update) =>
        if b.TelegramId? {
          TelegramIsNotAnUpdate(b.chat, b.message, update);
        } else {
          assert s[16..] == Decimal(update) && t[16..] == Decimal(b.update);
          DecimalIsInjective(update, b.update);
        }
      case WidgetId(client, mid) =>
        assert b.WidgetId?;
        WidgetIsInjective(client, mid, b.client, b.widgetMid);
      case OperatorId(mid) =>
        assert b.OperatorId?;
        assert s[9..] == mid && t[9..] == b.localMid;
    }
  }
}
