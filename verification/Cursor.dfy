/** The opaque audit cursor: a timestamp and an id, printed, encoded and read back
    (encode_cursor / decode_cursor of app/services/audit.py). */
module Cursor {
  import opened Wrappers
  import opened Model
  import opened Base64

  // ---- what a cursor points at --------------------------------------------------------

  /** A UTC datetime, as isoformat prints it. */
  datatype Stamp = Stamp(year: nat, month: nat, day: nat, hour: nat, minute: nat, second: nat, micro: nat)

  predicate Leap(y: nat) {
    y % 4 == 0 && (y % 100 != 0 || y % 400 == 0)
  }

  function DaysIn(y: nat, m: nat): nat {
    if m == 2 then (if Leap(y) then 29 else 28)
    else if m in {4, 6, 9, 11} then 30 else 31
  }

  predicate ValidStamp(t: Stamp) {
    && 1 <= t.year <= 9999 && 1 <= t.month <= 12 && 1 <= t.day <= DaysIn(t.year, t.month)
    && t.hour < 24 && t.minute < 60 && t.second < 60 && t.micro < 1_000_000
  }

  /** The fields of a datetime as one number. */
  function Number(t: Stamp): nat {
    (((((t.year * 100 + t.month) * 100 + t.day) * 100 + t.hour) * 100 + t.minute) * 100 + t.second) * 1_000_000 + t.micro
  }

  function StampOf(n: nat): Stamp {
    var s := n / 1_000_000;
    var mi := s / 100;
    var h := mi / 100;
    var d := h / 100;
    var mo := d / 100;
    Stamp(mo / 100, mo % 100, d % 100, h % 100, mi % 100, s % 100, n % 1_000_000)
  }

  // Both directions of the correspondence.
  lemma NumberOfStamp(n: nat)
    ensures Number(StampOf(n)) == n
  {
  }

  lemma StampOfNumber(t: Stamp)
    requires ValidStamp(t)
    ensures StampOf(Number(t)) == t
  {
    var mo := t.year * 100 + t.month;
    var d := mo * 100 + t.day;
    var h := d * 100 + t.hour;
    var mi := h * 100 + t.minute;
    var s := mi * 100 + t.second;
    assert Number(t) / 1_000_000 == s && s / 100 == mi && mi / 100 == h && h / 100 == d && d / 100 == mo;
  }

  predicate Earlier(a: Stamp, b: Stamp) {
    a.year < b.year || (a.year == b.year
    && (a.month < b.month || (a.month == b.month
    && (a.day < b.day || (a.day == b.day
    && (a.hour < b.hour || (a.hour == b.hour
    && (a.minute < b.minute || (a.minute == b.minute
    && (a.second < b.second || (a.second == b.second && a.micro < b.micro)))))))))))
  }

  /** Numbers compare as the datetimes do. */
  lemma NumberIsChronological(a: Stamp, b: Stamp)
    requires ValidStamp(a) && ValidStamp(b)
    ensures Number(a) < Number(b) <==> Earlier(a, b)
  {
  }

  // What events are ordered by: the datetime's number and the 128-bit value of the UUID,
  // whose text sorts like its value.
  datatype Key = Key(at: nat, id: nat)

  const UUID_LIMIT := Pow(Hex, 32)

  predicate ValidKey(k: Key) {
    ValidStamp(StampOf(k.at)) && k.id < UUID_LIMIT
  }

  // ---- fixed-width numerals ---------------------------------------------------------------

  datatype Base = Dec | Hex

  function Radix(b: Base): nat {
    if b.Dec? then 10 else 16
  }

  function Pow(b: Base, n: nat): nat {
    if n == 0 then 1 else if b.Dec? then 10 * Pow(b, n - 1) else 16 * Pow(b, n - 1)
  }

  function High(n: nat, b: Base): nat {
    if b.Dec? then n / 10 else n / 16
  }

  function Low(n: nat, b: Base): (d: nat)
    ensures d < Radix(b)
  {
    if b.Dec? then n % 10 else n % 16
  }

  function Digit(d: nat): char
    requires d < 16
  {
    if d < 10 then '0' + d as char else 'a' + (d - 10) as char
  }

  function DigitOf(c: char, b: Base): (d: Option<nat>)
    ensures d.Some? ==> d.value < Radix(b)
  {
    var v := if '0' <= c <= '9' then (c - '0') as nat
             else if 'a' <= c <= 'f' then (c - 'a') as nat + 10
             else if 'A' <= c <= 'F' then (c - 'A') as nat + 10 else 16;
    if v < Radix(b) then Some(v) else None
  }

  function Numeral(n: nat, w: nat, b: Base): (s: string)
    ensures |s| == w
  {
    if w == 0 then "" else Numeral(High(n, b), w - 1, b) + [Digit(Low(n, b))]
  }

  function Value(s: string, b: Base): Option<nat> {
    if s == "" then Some(0)
    else
      var high, d := Value(s[..|s| - 1], b), DigitOf(s[|s| - 1], b);
      if high.Some? && d.Some? then Some(Shifted(high.value, b) + d.value) else None
  }

  function Shifted(n: nat, b: Base): nat {
    if b.Dec? then 10 * n else 16 * n
  }

  predicate Plain(c: char) {
    c != '-' && c != '|' && c < '\U{80}'
  }

  predicate Small(s: string) {
    forall i :: 0 <= i < |s| ==> Plain(s[i])
  }

  lemma DigitReads(d: nat, b: Base)
    requires d < Radix(b)
    ensures DigitOf(Digit(d), b) == Some(d) && Plain(Digit(d))
  {
  }

  lemma ValueStep(high: string, c: char, b: Base)
    requires Value(high, b).Some? && DigitOf(c, b).Some?
    ensures Value(high + [c], b) == Some(Shifted(Value(high, b).value, b) + DigitOf(c, b).value)
  {
    assert (high + [c])[..|high|] == high;
  }

  lemma {:induction false} NumeralIsSmall(n: nat, w: nat, b: Base)
    ensures Small(Numeral(n, w, b))
  {
    if w > 0 {
      NumeralIsSmall(High(n, b), w - 1, b);
      DigitReads(Low(n, b), b);
    }
  }

  lemma {:induction false} NumeralReads(n: nat, w: nat, b: Base)
    requires n < Pow(b, w)
    ensures Value(Numeral(n, w, b), b) == Some(n) && Small(Numeral(n, w, b))
  {
    NumeralIsSmall(n, w, b);
    if w > 0 {
      NumeralReads(High(n, b), w - 1, b);
      DigitReads(Low(n, b), b);
      ValueStep(Numeral(High(n, b), w - 1, b), Digit(Low(n, b)), b);
    }
  }

  lemma Pow10()
    ensures Pow(Dec, 2) == 100 && Pow(Dec, 4) == 10_000 && Pow(Dec, 6) == 1_000_000
  {
    assert Pow(Dec, 1) == 10 && Pow(Dec, 2) == 100 && Pow(Dec, 3) == 1000;
  }

  // ---- the timestamp ------------------------------------------------------------------------

  const UTC := "+00:00"

  // Six numerals with isoformat's separators between them.
  function Dashed(y: string, mo: string, d: string, h: string, mi: string, sec: string): string {
    y + ['-'] + mo + ['-'] + d + ['T'] + h + [':'] + mi + [':'] + sec
  }

  function Clock(t: Stamp): (s: string)
    ensures |s| == 19
  {
    Dashed(Numeral(t.year, 4, Dec), Numeral(t.month, 2, Dec), Numeral(t.day, 2, Dec),
           Numeral(t.hour, 2, Dec), Numeral(t.minute, 2, Dec), Numeral(t.second, 2, Dec))
  }

  /** Microseconds are printed only when there are any. */
  function IsoFormat(t: Stamp): string {
    Clock(t) + (if t.micro == 0 then [] else ['.'] + Numeral(t.micro, 6, Dec)) + UTC
  }

  function Fields(s: string): Option<Stamp>
    requires |s| >= 19
  {
    var y, mo, d := Value(s[0..4], Dec), Value(s[5..7], Dec), Value(s[8..10], Dec);
    var h, mi, sec := Value(s[11..13], Dec), Value(s[14..16], Dec), Value(s[17..19], Dec);
    if s[4] == '-' && s[7] == '-' && s[10] == 'T' && s[13] == ':' && s[16] == ':'
       && y.Some? && mo.Some? && d.Some? && h.Some? && mi.Some? && sec.Some?
    then Some(Stamp(y.value, mo.value, d.value, h.value, mi.value, sec.value, 0)) else None
  }

  /** Reads exactly the texts isoformat prints for UTC datetimes. */
  function FromIso(s: string): Option<Stamp> {
    if |s| < 19 then None
    else
      var fields, rest := Fields(s), s[19..];
      var micro := if rest == UTC then Some(0)
                   else if |rest| == 13 && rest[0] == '.' && rest[7..] == UTC then Value(rest[1..7], Dec) else None;
      if fields.None? || micro.None? then None
      else
        var t := fields.value.(micro := micro.value);
        if ValidStamp(t) then Some(t) else None
  }

  lemma DashedSlices(y: string, mo: string, d: string, h: string, mi: string, sec: string, rest: string)
    requires |y| == 4 && |mo| == 2 && |d| == 2 && |h| == 2 && |mi| == 2 && |sec| == 2
    ensures var s := Dashed(y, mo, d, h, mi, sec) + rest;
      && |s| >= 19 && s[0..4] == y && s[5..7] == mo && s[8..10] == d && s[11..13] == h && s[14..16] == mi && s[17..19] == sec
      && s[4] == '-' && s[7] == '-' && s[10] == 'T' && s[13] == ':' && s[16] == ':'
  {
  }

  lemma ClockReads(t: Stamp, rest: string)
    requires ValidStamp(t)
    ensures Fields(Clock(t) + rest) == Some(t.(micro := 0))
  {
    Pow10();
    NumeralReads(t.year, 4, Dec);
    NumeralReads(t.month, 2, Dec);
    NumeralReads(t.day, 2, Dec);
    NumeralReads(t.hour, 2, Dec);
    NumeralReads(t.minute, 2, Dec);
    NumeralReads(t.second, 2, Dec);
    DashedSlices(Numeral(t.year, 4, Dec), Numeral(t.month, 2, Dec), Numeral(t.day, 2, Dec),
                 Numeral(t.hour, 2, Dec), Numeral(t.minute, 2, Dec), Numeral(t.second, 2, Dec), rest);
  }

  lemma IsoReads(t: Stamp)
    requires ValidStamp(t)
    ensures FromIso(IsoFormat(t)) == Some(t)
  {
    var rest := (if t.micro == 0 then [] else ['.'] + Numeral(t.micro, 6, Dec)) + UTC;
    assert IsoFormat(t) == Clock(t) + rest && IsoFormat(t)[19..] == rest;
    ClockReads(t, rest);
    assert |UTC| == 6 && UTC[0] == '+';
    if t.micro > 0 {
      Pow10();
      NumeralReads(t.micro, 6, Dec);
      assert |rest| == 13 && rest[0] == '.' && rest[7..] == UTC && rest[1..7] == Numeral(t.micro, 6, Dec);
    }
  }

  // ---- the id ---------------------------------------------------------------------------------

  function Hyphenated(h: string): string
    requires |h| == 32
  {
    h[..8] + ['-'] + h[8..12] + ['-'] + h[12..16] + ['-'] + h[16..20] + ['-'] + h[20..]
  }

  function UuidText(id: nat): string {
    Hyphenated(Numeral(id, 32, Hex))
  }

  function DropHyphens(s: string): string {
    if s == "" then "" else (if s[0] == '-' then [] else [s[0]]) + DropHyphens(s[1..])
  }

  /** Hyphens are ignored, either case is read, and there must be 32 digits. */
  function ParseUuid(s: string): Option<nat> {
    var h := DropHyphens(s);
    if |h| == 32 then Value(h, Hex) else None
  }

  lemma {:induction false} DropConcat(a: string, b: string)
    ensures DropHyphens(a + b) == DropHyphens(a) + DropHyphens(b)
    decreases |a|
  {
    if a == "" {
      assert a + b == b;
    } else {
      assert (a + b)[1..] == a[1..] + b;
      DropConcat(a[1..], b);
    }
  }

  lemma {:induction false} NothingDropped(s: string)
    requires Small(s)
    ensures DropHyphens(s) == s
  {
    if s != "" {
      assert Small(s[1..]) by {
        forall i | 0 <= i < |s| - 1 ensures Plain(s[1..][i]) { assert s[1..][i] == s[i + 1]; }
      }
      NothingDropped(s[1..]);
      assert Plain(s[0]) && [s[0]] + s[1..] == s;
    }
  }

  // One more hyphenated piece.
  lemma DropPiece(a: string, b: string)
    requires Small(b)
    ensures DropHyphens(a + ['-'] + b) == DropHyphens(a) + b
  {
    DropConcat(a + ['-'], b);
    DropConcat(a, ['-']);
    NothingDropped(b);
    assert DropHyphens(['-']) == "";
  }

  lemma HyphenatedDrops(h: string)
    requires |h| == 32 && Small(h)
    ensures DropHyphens(Hyphenated(h)) == h
  {
    var p1 := h[..8];
    var p2 := p1 + ['-'] + h[8..12];
    var p3 := p2 + ['-'] + h[12..16];
    var p4 := p3 + ['-'] + h[16..20];
    NothingDropped(p1);
    DropPiece(p1, h[8..12]);
    DropPiece(p2, h[12..16]);
    DropPiece(p3, h[16..20]);
    DropPiece(p4, h[20..]);
    assert h[..8] + h[8..12] + h[12..16] + h[16..20] + h[20..] == h;
  }

  lemma UuidReads(id: nat)
    requires id < UUID_LIMIT
    ensures ParseUuid(UuidText(id)) == Some(id)
  {
    NumeralReads(id, 32, Hex);
    HyphenatedDrops(Numeral(id, 32, Hex));
  }

  // ---- the cursor ---------------------------------------------------------------------------------

  /** Where the first '|' is. */
  function FirstBar(s: string): (i: nat)
    ensures i <= |s| && (i < |s| ==> s[i] == '|')
    ensures forall j :: 0 <= j < i ==> s[j] != '|'
  {
    if s == "" || s[0] == '|' then 0 else 1 + FirstBar(s[1..])
  }

  function ByteOf(c: char): Byte
    requires c < '\U{80}'
  {
    c as nat
  }

  function Bytes(s: string): (bs: seq<Byte>)
    requires Ascii(s)
    ensures |bs| == |s|
  {
    seq(|s|, i requires 0 <= i < |s| => assert s[i] in s; ByteOf(s[i]))
  }

  /** Text of ASCII bytes; anything else is refused. */
  function Text(bs: seq<Byte>): Option<string> {
    if exists b :: b in bs && b >= 128 then None
    else Some(seq(|bs|, i requires 0 <= i < |bs| => bs[i] as char))
  }

  function RawCursor(k: Key): string {
    IsoFormat(StampOf(k.at)) + ['|'] + UuidText(k.id)
  }

  lemma DashedIsAscii(y: string, mo: string, d: string, h: string, mi: string, sec: string)
    requires Small(y) && Small(mo) && Small(d) && Small(h) && Small(mi) && Small(sec)
    ensures forall c :: c in Dashed(y, mo, d, h, mi, sec) ==> c != '|' && c < '\U{80}'
  {
  }

  lemma IsoIsAscii(t: Stamp)
    ensures forall c :: c in IsoFormat(t) ==> c != '|' && c < '\U{80}'
  {
    NumeralIsSmall(t.year, 4, Dec);
    NumeralIsSmall(t.month, 2, Dec);
    NumeralIsSmall(t.day, 2, Dec);
    NumeralIsSmall(t.hour, 2, Dec);
    NumeralIsSmall(t.minute, 2, Dec);
    NumeralIsSmall(t.second, 2, Dec);
    NumeralIsSmall(t.micro, 6, Dec);
    DashedIsAscii(Numeral(t.year, 4, Dec), Numeral(t.month, 2, Dec), Numeral(t.day, 2, Dec),
                  Numeral(t.hour, 2, Dec), Numeral(t.minute, 2, Dec), Numeral(t.second, 2, Dec));
    UtcIsPlain(UTC);
  }

  lemma HyphenatedIsAscii(h: string)
    requires |h| == 32 && Small(h)
    ensures Ascii(Hyphenated(h))
  {
  }

  lemma UtcIsPlain(u: string)
    requires u == UTC
    ensures forall c :: c in u ==> c != '|' && c < '\U{80}'
  {
  }

  lemma PrintedIsAscii(k: Key)
    ensures Ascii(RawCursor(k)) && forall c :: c in IsoFormat(StampOf(k.at)) ==> c != '|'
  {
    IsoIsAscii(StampOf(k.at));
    NumeralIsSmall(k.id, 32, Hex);
    HyphenatedIsAscii(Numeral(k.id, 32, Hex));
  }

  function EncodeCursor(k: Key): string {
    PrintedIsAscii(k);
    StripPadding(Encode(Bytes(RawCursor(k))))
  }

  function DecodeCursor(cursor: string): Result<Key, Error> {
    var bytes := Decode(Repad(cursor));
    if bytes.None? then Err(Invalid)
    else
      var raw := Text(bytes.value);
      if raw.None? || FirstBar(raw.value) == |raw.value| then Err(Invalid)
      else
        var i := FirstBar(raw.value);
        var at, id := FromIso(raw.value[..i]), ParseUuid(raw.value[i + 1..]);
        if at.None? || id.None? then Err(Invalid) else Ok(Key(Number(at.value), id.value))
  }

  lemma TextOfBytes(s: string)
    requires Ascii(s)
    ensures Text(Bytes(s)) == Some(s)
  {
    var bs := Bytes(s);
    forall b | b in bs ensures b < 128 {
      var i :| 0 <= i < |bs| && bs[i] == b;
      assert s[i] in s;
    }
    assert Text(bs).value == s;
  }

  lemma FirstBarOf(a: string, b: string)
    requires forall c :: c in a ==> c != '|'
    ensures FirstBar(a + ['|'] + b) == |a|
  {
    var s := a + ['|'] + b;
    assert s[|a|] == '|';
    forall i | 0 <= i < |a| ensures s[i] != '|' { assert s[i] == a[i] && a[i] in a; }
  }

  /** A cursor always leads back to the event it was made from. */
  lemma CursorRoundTrip(k: Key)
    requires ValidKey(k)
    ensures DecodeCursor(EncodeCursor(k)) == Ok(k)
  {
    var raw := RawCursor(k);
    PrintedIsAscii(k);
    DecodeOfEncode(Bytes(raw));
    TextOfBytes(raw);
    FirstBarOf(IsoFormat(StampOf(k.at)), UuidText(k.id));
    var i := FirstBar(raw);
    assert raw[..i] == IsoFormat(StampOf(k.at)) && raw[i + 1..] == UuidText(k.id);
    IsoReads(StampOf(k.at));
    NumberOfStamp(k.at);
    UuidReads(k.id);
  }

  // ---- whatever a client sends ------------------------------------------------------------------

  lemma {:induction false} ValueBelow(s: string, b: Base)
    requires Value(s, b).Some?
    ensures Value(s, b).value < Pow(b, |s|)
    decreases |s|
  {
    if s != "" { ValueBelow(s[..|s| - 1], b); }
  }

  /** Any string either is refused or names a well-formed key; re-encoding that key gives a
      cursor with the same meaning. */
  lemma DecodedIsValid(cursor: string)
    requires DecodeCursor(cursor).Ok?
    ensures ValidKey(DecodeCursor(cursor).value)
    ensures DecodeCursor(EncodeCursor(DecodeCursor(cursor).value)) == DecodeCursor(cursor)
  {
    var raw := Text(Decode(Repad(cursor)).value).value;
    var h := DropHyphens(raw[FirstBar(raw) + 1..]);
    ValueBelow(h, Hex);
    StampOfNumber(FromIso(raw[..FirstBar(raw)]).value);
    CursorRoundTrip(DecodeCursor(cursor).value);
  }
}
