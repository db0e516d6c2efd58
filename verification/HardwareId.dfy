/** The hardware identifiers the bus prints for a child and the child driver parses back:
    a device ID that carries the GUID and an ID that carries the MTU. */
module HardwareId {
  import opened Wrappers

  datatype Guid = Guid(data1: nat, data2: nat, data3: nat, data4: seq<nat>)

  /** The field widths: 32, 16 and 16 bits and eight bytes. */
  predicate Legal(g: Guid) {
    && g.data1 < 0x1_0000_0000 && g.data2 < 0x1_0000 && g.data3 < 0x1_0000
    && |g.data4| == 8 && forall i :: 0 <= i < 8 ==> g.data4[i] < 256
  }

  const NUL: char := '\0'
  const DEVICE_PREFIX: string := "WINTAPBUS\\"
  const GUID_PREFIX: string := "WINTAPBUS\\{"
  const MTU_PREFIX: string := "WINTAPBUSMTU\\"
  const COMPATIBLE_ID: string := "WINTAPBUS\\WinTapChild"

  const DEFAULT_MTU: nat := 1_500
  const MINIMUM_MTU: nat := 1_500
  const MAXIMUM_MTU: nat := 65_521
  const USIZE_RANGE: nat := 0x1_0000_0000_0000_0000

  // ----- hexadecimal -----

  function HexDigit(value: nat): char
    requires value < 16
  {
    if value < 10 then ('0' as int + value) as char else ('A' as int + (value - 10)) as char
  }

  function HexNibble(c: char): Option<nat> {
    if '0' <= c <= '9' then Some(c as int - '0' as int)
    else if 'a' <= c <= 'f' then Some(c as int - 'a' as int + 10)
    else if 'A' <= c <= 'F' then Some(c as int - 'A' as int + 10)
    else None
  }

  predicate AreNibbles(values: seq<nat>) {
    forall i :: 0 <= i < |values| ==> values[i] < 16
  }

  /** The `width` low hexadecimal digits of a number, most significant first. */
  function Nibbles(value: nat, width: nat): (values: seq<nat>)
    ensures |values| == width && AreNibbles(values)
  {
    if width == 0 then [] else Nibbles(value / 16, width - 1) + [value % 16]
  }

  function Power16(width: nat): nat {
    if width == 0 then 1 else 16 * Power16(width - 1)
  }

  function Value(values: seq<nat>): nat {
    if values == [] then 0 else 16 * Value(values[..|values| - 1]) + values[|values| - 1]
  }

  lemma {:induction false} ValueOfNibbles(value: nat, width: nat)
    requires value < Power16(width)
    ensures Value(Nibbles(value, width)) == value
  {
    if width > 0 {
      ValueOfNibbles(value / 16, width - 1);
      assert Nibbles(value, width)[..width - 1] == Nibbles(value / 16, width - 1);
    }
  }

  function Hex(values: seq<nat>): (text: string)
    requires AreNibbles(values)
    ensures |text| == |values|
    ensures forall i :: 0 <= i < |text| ==> text[i] == HexDigit(values[i])
  {
    seq(|values|, i requires 0 <= i < |values| => HexDigit(values[i]))
  }

  /** The bytes of a GUID's tail, as nibbles. */
  function TailNibbles(bytes: seq<nat>): (values: seq<nat>)
    requires forall i :: 0 <= i < |bytes| ==> bytes[i] < 256
    ensures |values| == 2 * |bytes| && AreNibbles(values)
  {
    if bytes == [] then []
    else TailNibbles(bytes[..|bytes| - 1]) + [bytes[|bytes| - 1] / 16, bytes[|bytes| - 1] % 16]
  }

  /** The thirty-two digits of a GUID in printing order. */
  function Digits(g: Guid): (values: seq<nat>)
    requires Legal(g)
    ensures |values| == 32 && AreNibbles(values)
  {
    Nibbles(g.data1, 8) + Nibbles(g.data2, 4) + Nibbles(g.data3, 4) + TailNibbles(g.data4)
  }

  /** Five groups of digits between hyphens. */
  function Groups(d: seq<nat>, rest: string): (text: string)
    requires |d| == 32 && AreNibbles(d)
    ensures |text| == 36 + |rest|
  {
    Hex(d[0..8]) + "-" + (Hex(d[8..12]) + "-" + (Hex(d[12..16]) + "-" + (Hex(d[16..20]) + "-" + (Hex(d[20..32]) + rest))))
  }

  /** The registry form of section 3 of RFC 4122, in braces and upper case. */
  function Braced(g: Guid): (text: string)
    requires Legal(g)
    ensures |text| == 38
  {
    "{" + Groups(Digits(g), "}")
  }

  function DeviceId(g: Guid): string
    requires Legal(g)
  {
    DEVICE_PREFIX + Braced(g)
  }

  // ----- parsing a device ID -----

  /** A byte from two digits. */
  function ByteAt(d: seq<nat>, i: nat): nat
    requires i + 1 < |d|
  {
    d[i] * 16 + d[i + 1]
  }

  /** The GUID built from thirty-two digits, byte by byte. */
  function Assemble(d: seq<nat>): Guid
    requires |d| == 32
  {
    Guid(ByteAt(d, 0) * 0x100_0000 + ByteAt(d, 2) * 0x1_0000 + ByteAt(d, 4) * 0x100 + ByteAt(d, 6),
         ByteAt(d, 8) * 0x100 + ByteAt(d, 10),
         ByteAt(d, 12) * 0x100 + ByteAt(d, 14),
         [ByteAt(d, 16), ByteAt(d, 18), ByteAt(d, 20), ByteAt(d, 22), ByteAt(d, 24), ByteAt(d, 26), ByteAt(d, 28), ByteAt(d, 30)])
  }

  /** Reads digits up to the closing brace. Hyphens are skipped wherever they stand. */
  function ScanGuid(text: string, d: seq<nat>): Option<Guid>
    requires |d| <= 32
    decreases |text|
  {
    if text == [] then None
    else if text[0] == '}' then (if |d| == 32 then Some(Assemble(d)) else None)
    else if text[0] == '-' then ScanGuid(text[1..], d)
    else
      var value := HexNibble(text[0]);
      if value == None || |d| == 32 then None
      else ScanGuid(text[1..], d + [value.value])
  }

  function ParseGuid(id: string): Option<Guid> {
    if GUID_PREFIX <= id then ScanGuid(id[11..], []) else None
  }

  lemma HexRoundTrip(value: nat)
    requires value < 16
    ensures HexNibble(HexDigit(value)) == Some(value) && HexDigit(value) == "0123456789ABCDEF"[value]
    ensures HexDigit(value) != '}' && HexDigit(value) != '-' && HexDigit(value) != NUL
  {}

  /** Scanning printed digits adds them to those read so far. */
  lemma {:induction false} ScanHex(values: seq<nat>, rest: string, d: seq<nat>)
    requires AreNibbles(values) && |d| + |values| <= 32
    ensures ScanGuid(Hex(values) + rest, d) == ScanGuid(rest, d + values)
    decreases |values|
  {
    if values == [] {
      assert Hex(values) + rest == rest && d + values == d;
    } else {
      var text := Hex(values) + rest;
      HexRoundTrip(values[0]);
      assert text[1..] == Hex(values[1..]) + rest;
      assert (d + [values[0]]) + values[1..] == d + values;
      ScanHex(values[1..], rest, d + [values[0]]);
    }
  }

  lemma ScanHyphen(rest: string, d: seq<nat>)
    requires |d| <= 32
    ensures ScanGuid("-" + rest, d) == ScanGuid(rest, d)
  {
    assert ("-" + rest)[1..] == rest;
  }

  lemma HyphenFirst(group: string, rest: string)
    ensures group + "-" + rest == group + ("-" + rest)
  {}

  /** A hyphen-terminated group. */
  lemma ScanGroup(values: seq<nat>, rest: string, d: seq<nat>)
    requires AreNibbles(values) && |d| + |values| <= 32
    ensures ScanGuid(Hex(values) + "-" + rest, d) == ScanGuid(rest, d + values)
  {
    HyphenFirst(Hex(values), rest);
    ScanHex(values, "-" + rest, d);
    ScanHyphen(rest, d + values);
  }

  lemma ScanBraced(d: seq<nat>)
    requires |d| == 32 && AreNibbles(d)
    ensures ScanGuid(Groups(d, "}"), []) == Some(Assemble(d))
  {
    var e := Hex(d[20..32]) + "}";
    var c := Hex(d[16..20]) + "-" + e;
    var b := Hex(d[12..16]) + "-" + c;
    var a := Hex(d[8..12]) + "-" + b;
    ScanGroup(d[0..8], a, []);
    ScanGroup(d[8..12], b, [] + d[0..8]);
    assert [] + d[0..8] + d[8..12] == d[0..12];
    ScanGroup(d[12..16], c, d[0..12]);
    assert d[0..12] + d[12..16] == d[0..16];
    ScanGroup(d[16..20], e, d[0..16]);
    assert d[0..16] + d[16..20] == d[0..20];
    ScanHex(d[20..32], "}", d[0..20]);
    assert d[0..20] + d[20..32] == d;
  }

  lemma ValueOfEight(n: seq<nat>)
    requires |n| == 8
    ensures Value(n) == ByteAt(n, 0) * 0x100_0000 + ByteAt(n, 2) * 0x1_0000 + ByteAt(n, 4) * 0x100 + ByteAt(n, 6)
  {
    ValueOfFour(n[..4]);
    ValueAppend(n[..4], n[4..]);
    assert n[..4] + n[4..] == n;
    ValueOfFour(n[4..]);
    assert Power16(4) == 0x1_0000;
  }

  lemma ValueOfFour(n: seq<nat>)
    requires |n| == 4
    ensures Value(n) == ByteAt(n, 0) * 0x100 + ByteAt(n, 2)
  {
    assert n[..3][..2] == n[..2] && n[..2][..1] == n[..1] && n[..1][..0] == [];
    assert Value(n[..1]) == n[0];
    assert Value(n[..2]) == 16 * n[0] + n[1];
    assert Value(n[..3]) == 16 * (16 * n[0] + n[1]) + n[2];
  }

  lemma Scale(value: nat, power: nat)
    ensures 16 * (value * power) == value * (16 * power)
  {}

  lemma {:induction false} ValueAppend(a: seq<nat>, b: seq<nat>)
    ensures Value(a + b) == Value(a) * Power16(|b|) + Value(b)
  {
    if b == [] {
      assert a + b == a;
    } else {
      ValueAppend(a, b[..|b| - 1]);
      assert (a + b)[..|a + b| - 1] == a + b[..|b| - 1];
      Scale(Value(a), Power16(|b| - 1));
    }
  }

  lemma {:induction false} TailRoundTrip(bytes: seq<nat>, i: nat)
    requires i < |bytes| && forall k :: 0 <= k < |bytes| ==> bytes[k] < 256
    ensures ByteAt(TailNibbles(bytes), 2 * i) == bytes[i]
  {
    var shorter := bytes[..|bytes| - 1];
    if i < |bytes| - 1 {
      TailRoundTrip(shorter, i);
    }
  }

  lemma DigitGroups(g: Guid)
    requires Legal(g)
    ensures var d := Digits(g);
            && d[0..8] == Nibbles(g.data1, 8) && d[8..12] == Nibbles(g.data2, 4)
            && d[12..16] == Nibbles(g.data3, 4) && d[16..32] == TailNibbles(g.data4)
  {
    SliceGroups(Nibbles(g.data1, 8), Nibbles(g.data2, 4), Nibbles(g.data3, 4), TailNibbles(g.data4));
  }

  lemma SliceGroups(a: seq<nat>, b: seq<nat>, c: seq<nat>, e: seq<nat>)
    requires |a| == 8 && |b| == |c| == 4 && |e| == 16
    ensures var d := a + b + c + e; d[0..8] == a && d[8..12] == b && d[12..16] == c && d[16..32] == e
  {}

  /** A slice of the digits reads the same bytes as the whole. */
  lemma SliceBytes(d: seq<nat>, lo: nat, hi: nat, i: nat)
    requires lo <= hi <= |d| && lo + i + 1 < hi
    ensures ByteAt(d[lo..hi], i) == ByteAt(d, lo + i)
  {}

  lemma EightFromNibbles(d: seq<nat>, value: nat)
    requires |d| == 32 && value < 0x1_0000_0000 && d[0..8] == Nibbles(value, 8)
    ensures ByteAt(d, 0) * 0x100_0000 + ByteAt(d, 2) * 0x1_0000 + ByteAt(d, 4) * 0x100 + ByteAt(d, 6) == value
  {
    Powers();
    ValueOfNibbles(value, 8);
    ValueOfEight(d[0..8]);
    SliceBytes(d, 0, 8, 0);
    SliceBytes(d, 0, 8, 2);
    SliceBytes(d, 0, 8, 4);
    SliceBytes(d, 0, 8, 6);
  }

  lemma FourFromNibbles(d: seq<nat>, at: nat, value: nat)
    requires |d| == 32 && at <= 28 && value < 0x1_0000 && d[at..at + 4] == Nibbles(value, 4)
    ensures ByteAt(d, at) * 0x100 + ByteAt(d, at + 2) == value
  {
    Powers();
    ValueOfNibbles(value, 4);
    ValueOfFour(d[at..at + 4]);
    SliceBytes(d, at, at + 4, 0);
    SliceBytes(d, at, at + 4, 2);
  }

  lemma Powers()
    ensures Power16(4) == 0x1_0000 && Power16(8) == 0x1_0000_0000
  {
    assert Power16(4) == 0x1_0000;
  }

  lemma BytesFromNibbles(d: seq<nat>, bytes: seq<nat>, i: nat)
    requires |d| == 32 && |bytes| == 8 && i < 8 && forall k :: 0 <= k < 8 ==> bytes[k] < 256
    requires d[16..32] == TailNibbles(bytes)
    ensures ByteAt(d, 16 + 2 * i) == bytes[i]
  {
    TailRoundTrip(bytes, i);
    SliceBytes(d, 16, 32, 2 * i);
  }

  /** Assembling a GUID's own digits gives the GUID. */
  lemma AssembleDigits(g: Guid)
    requires Legal(g)
    ensures Assemble(Digits(g)) == g
  {
    var d := Digits(g);
    DigitGroups(g);
    EightFromNibbles(d, g.data1);
    FourFromNibbles(d, 8, g.data2);
    FourFromNibbles(d, 12, g.data3);
    forall i | 0 <= i < 8 ensures Assemble(d).data4[i] == g.data4[i] {
      BytesFromNibbles(d, g.data4, i);
    }
    assert Assemble(d).data4 == g.data4;
  }

  lemma PrefixSplits(prefix: string, rest: string)
    ensures prefix + "{" <= prefix + ("{" + rest)
    ensures (prefix + ("{" + rest))[|prefix| + 1..] == rest
  {}

  /** The driver reads back exactly the GUID the bus printed. */
  lemma GuidRoundTrip(g: Guid)
    requires Legal(g)
    ensures ParseGuid(DeviceId(g)) == Some(g)
  {
    PrefixSplits(DEVICE_PREFIX, Groups(Digits(g), "}"));
    ScanBraced(Digits(g));
    AssembleDigits(g);
  }

  /** Distinct GUIDs print differently. */
  lemma DeviceIdsDistinct(g: Guid, h: Guid)
    requires Legal(g) && Legal(h) && DeviceId(g) == DeviceId(h)
    ensures g == h
  {
    GuidRoundTrip(g);
    GuidRoundTrip(h);
  }

  // ----- the MTU ID -----

  /** The MTU a create request asks for: none means the default. */
  function EffectiveMtu(requested: nat): Option<nat> {
    if requested == 0 then Some(DEFAULT_MTU)
    else if MINIMUM_MTU <= requested <= MAXIMUM_MTU then Some(requested)
    else None
  }

  function DecimalDigit(value: nat): char
    requires value < 10
  {
    ('0' as int + value) as char
  }

  function Decimal(value: nat): (text: string)
    ensures |text| > 0
  {
    if value < 10 then [DecimalDigit(value)] else Decimal(value / 10) + [DecimalDigit(value % 10)]
  }

  function MtuId(mtu: nat): string {
    MTU_PREFIX + Decimal(mtu)
  }

  /** Accumulates decimal digits up to a NUL or the end; anything else, or overflow, fails. */
  function ScanDecimal(text: string, value: nat): Option<nat>
    decreases |text|
  {
    if text == [] || text[0] == NUL then Some(value)
    else if !('0' <= text[0] <= '9') then None
    else if value * 10 >= USIZE_RANGE || value * 10 + (text[0] as int - '0' as int) >= USIZE_RANGE then None
    else ScanDecimal(text[1..], value * 10 + (text[0] as int - '0' as int))
  }

  function ParseMtu(id: string): Option<nat> {
    if MTU_PREFIX <= id then
      var value := ScanDecimal(id[13..], 0);
      if value.Some? && DEFAULT_MTU <= value.value <= MAXIMUM_MTU then value else None
    else None
  }

  /** Reading the digits of a number after `high` others shifts those and adds it. */
  lemma {:induction false} ScanOfDecimal(value: nat, rest: string)
    requires value < USIZE_RANGE
    ensures ScanDecimal(Decimal(value) + rest, 0) == ScanDecimal(rest, value)
    decreases value
  {
    if value < 10 {
      assert (Decimal(value) + rest)[1..] == rest;
    } else {
      var last := [DecimalDigit(value % 10)];
      assert Decimal(value) + rest == Decimal(value / 10) + (last + rest);
      ScanOfDecimal(value / 10, last + rest);
      assert (last + rest)[1..] == rest;
    }
  }

  /** The driver reads back exactly the MTU the bus printed, for every MTU it accepts. */
  lemma MtuRoundTrip(requested: nat)
    requires EffectiveMtu(requested).Some?
    ensures ParseMtu(MtuId(EffectiveMtu(requested).value)) == EffectiveMtu(requested)
  {
    var mtu := EffectiveMtu(requested).value;
    var id := MtuId(mtu);
    assert id[..13] == MTU_PREFIX && id[13..] == Decimal(mtu) == Decimal(mtu) + [];
    ScanOfDecimal(mtu, []);
  }

  // ----- the list of IDs -----

  datatype Refusal = InvalidParameter

  /** Where the first NUL stands. */
  function FirstNul(text: string): (at: Option<nat>)
    ensures at.Some? ==> at.value < |text| && text[at.value] == NUL && NUL !in text[..at.value]
    ensures at == None ==> NUL !in text
  {
    if text == [] then None
    else if text[0] == NUL then Some(0)
    else
      var rest := FirstNul(text[1..]);
      assert text == [text[0]] + text[1..];
      if rest == None then None
      else
        assert text[..rest.value + 1] == [text[0]] + text[1..][..rest.value];
        Some(rest.value + 1)
  }

  function Finish(guid: Option<Guid>, mtu: Option<nat>): Result<(Guid, nat), Refusal> {
    if guid == None then Err(InvalidParameter)
    else Ok((guid.value, if mtu.Some? then mtu.value else DEFAULT_MTU))
  }

  /** The last GUID and the last MTU found in a list of NUL-terminated IDs that ends at an
      empty one. */
  function ScanList(text: string, guid: Option<Guid>, mtu: Option<nat>): Result<(Guid, nat), Refusal>
    decreases |text|
  {
    if text == [] then Finish(guid, mtu)
    else
      var length := FirstNul(text);
      if length == None then Err(InvalidParameter)
      else if length.value == 0 then Finish(guid, mtu)
      else
        var taken := Take(text[..length.value], guid, mtu);
        if taken == None then Err(InvalidParameter)
        else ScanList(text[length.value + 1..], taken.value.0, taken.value.1)
  }

  /** What one ID adds. An ID with the MTU prefix must parse. */
  function Take(id: string, guid: Option<Guid>, mtu: Option<nat>): Option<(Option<Guid>, Option<nat>)> {
    var guid' := if ParseGuid(id).Some? then ParseGuid(id) else guid;
    if MTU_PREFIX <= id then (if ParseMtu(id) == None then None else Some((guid', ParseMtu(id))))
    else Some((guid', mtu))
  }

  lemma {:induction false} FirstNulAfter(id: string, rest: string)
    requires NUL !in id
    ensures FirstNul(id + [NUL] + rest) == Some(|id|)
  {
    var text := id + [NUL] + rest;
    if id != [] {
      FirstNulAfter(id[1..], rest);
      assert text[1..] == id[1..] + [NUL] + rest;
    }
  }

  /** One ID off the front of a list. */
  lemma ScanOne(id: string, rest: string, guid: Option<Guid>, mtu: Option<nat>)
    requires id != [] && NUL !in id && (MTU_PREFIX <= id ==> ParseMtu(id).Some?)
    ensures ScanList(id + [NUL] + rest, guid, mtu) ==
            ScanList(rest, if ParseGuid(id).Some? then ParseGuid(id) else guid, if MTU_PREFIX <= id then ParseMtu(id) else mtu)
  {
    var text := id + [NUL] + rest;
    FirstNulAfter(id, rest);
    assert text[..|id|] == id && text[|id| + 1..] == rest;
  }

  lemma HexHasNoNul(values: seq<nat>)
    requires AreNibbles(values)
    ensures NUL !in Hex(values)
  {
    forall i | 0 <= i < |values| ensures Hex(values)[i] != NUL {
      HexRoundTrip(values[i]);
    }
  }

  lemma DeviceIdHasNoNul(g: Guid)
    requires Legal(g)
    ensures NUL !in DeviceId(g)
  {
    var d := Digits(g);
    HexHasNoNul(d[0..8]);
    HexHasNoNul(d[8..12]);
    HexHasNoNul(d[12..16]);
    HexHasNoNul(d[16..20]);
    HexHasNoNul(d[20..32]);
  }

  lemma {:induction false} DecimalHasNoNul(value: nat)
    ensures NUL !in Decimal(value)
  {
    if value >= 10 { DecimalHasNoNul(value / 10); }
  }

  /** The IDs differ where their prefixes do. */
  lemma PrefixesApart(g: Guid, mtu: nat)
    requires Legal(g)
    ensures !(MTU_PREFIX <= DeviceId(g)) && ParseGuid(MtuId(mtu)) == None
    ensures !(MTU_PREFIX <= COMPATIBLE_ID) && ParseGuid(COMPATIBLE_ID) == None
  {
    assert DeviceId(g)[9] == '\\' && MTU_PREFIX[9] == 'M';
    assert MtuId(mtu)[9] == 'M' && GUID_PREFIX[9] == '\\';
    assert COMPATIBLE_ID[9] == '\\' && COMPATIBLE_ID[10] == 'W' && GUID_PREFIX[10] == '{';
  }

  /** The hardware IDs of a child as the device property returns them. */
  function IdList(g: Guid, mtu: nat): string
    requires Legal(g)
  {
    DeviceId(g) + [NUL] + (MtuId(mtu) + [NUL] + (COMPATIBLE_ID + [NUL] + [NUL]))
  }

  lemma DecimalLength(value: nat)
    requires 1000 <= value < 100_000
    ensures |Decimal(value)| <= 5
  {
    assert |Decimal(value / 1000)| <= 2;
    assert value / 10 / 10 / 10 == value / 1000;
    assert |Decimal(value / 10 / 10)| <= 3;
    assert |Decimal(value / 10)| <= 4;
  }

  /** Parsing the whole list gives back the GUID and the MTU the child was created with,
      and the list fits the driver's buffer of 128 characters. */
  lemma IdListRoundTrip(g: Guid, requested: nat)
    requires Legal(g) && EffectiveMtu(requested).Some?
    ensures ScanList(IdList(g, EffectiveMtu(requested).value), None, None) == Ok((g, EffectiveMtu(requested).value))
    ensures |IdList(g, EffectiveMtu(requested).value)| <= 128
  {
    var mtu := EffectiveMtu(requested).value;
    GuidRoundTrip(g);
    MtuRoundTrip(requested);
    PrefixesApart(g, mtu);
    DeviceIdHasNoNul(g);
    DecimalHasNoNul(mtu);
    DecimalLength(mtu);
    ScanOne(DeviceId(g), MtuId(mtu) + [NUL] + (COMPATIBLE_ID + [NUL] + [NUL]), None, None);
    assert MTU_PREFIX <= MtuId(mtu);
    ScanOne(MtuId(mtu), COMPATIBLE_ID + [NUL] + [NUL], Some(g), None);
    ScanOne(COMPATIBLE_ID, [NUL], Some(g), Some(mtu));
  }

  // ----- the printers -----

  /** A hyphen follows these many digits. */
  predicate Hyphenated(k: nat) { k == 8 || k == 12 || k == 16 || k == 20 }

  function HyphensIn(k: nat): nat {
    (if k >= 8 then 1 else 0) + (if k >= 12 then 1 else 0) + (if k >= 16 then 1 else 0) + (if k >= 20 then 1 else 0)
  }

  /** The first `k` digits with their hyphens. */
  function Printed(d: seq<nat>, k: nat): (text: string)
    requires k <= |d| == 32 && AreNibbles(d)
    ensures |text| == k + HyphensIn(k)
  {
    if k == 0 then []
    else Printed(d, k - 1) + [HexDigit(d[k - 1])] + if Hyphenated(k) then "-" else ""
  }

  lemma HexSnoc(values: seq<nat>, value: nat)
    requires AreNibbles(values) && value < 16
    ensures Hex(values + [value]) == Hex(values) + [HexDigit(value)]
  {}

  lemma Snoc(done: string, group: string, last: string, hyphen: string)
    ensures (done + group + "") + last + hyphen == done + (group + last) + hyphen
  {
    assert done + group + "" == done + group;
    assert done + group + last == done + (group + last);
  }

  /** A run of digits up to the next hyphen or the end. */
  lemma {:induction false} PrintedRun(d: seq<nat>, a: nat, k: nat)
    requires a <= k <= |d| == 32 && AreNibbles(d)
    requires forall j :: a < j < k ==> !Hyphenated(j)
    ensures Printed(d, k) == Printed(d, a) + Hex(d[a..k]) + if a < k && Hyphenated(k) then "-" else ""
  {
    if a < k {
      PrintedRun(d, a, k - 1);
      HexSnoc(d[a..k - 1], d[k - 1]);
      assert d[a..k] == d[a..k - 1] + [d[k - 1]];
      Snoc(Printed(d, a), Hex(d[a..k - 1]), [HexDigit(d[k - 1])], if Hyphenated(k) then "-" else "");
    } else {
      assert Hex(d[a..k]) == [];
    }
  }

  /** Moving a group from the front of what is to come to the end of what is printed. */
  lemma MoveGroup(done: string, group: string, hyphen: string, rest: string)
    ensures (done + group + hyphen) + rest == done + (group + hyphen + rest)
  {}

  lemma PrintedIsGroups(d: seq<nat>)
    requires |d| == 32 && AreNibbles(d)
    ensures Printed(d, 32) + "}" == Groups(d, "}")
  {
    var g5 := Hex(d[20..32]) + "}";
    var g4 := Hex(d[16..20]) + "-" + g5;
    var g3 := Hex(d[12..16]) + "-" + g4;
    var g2 := Hex(d[8..12]) + "-" + g3;
    PrintedRun(d, 20, 32);
    MoveGroup(Printed(d, 20), Hex(d[20..32]), "", "}");
    assert Hex(d[20..32]) + "" + "}" == g5;
    PrintedRun(d, 16, 20);
    MoveGroup(Printed(d, 16), Hex(d[16..20]), "-", g5);
    PrintedRun(d, 12, 16);
    MoveGroup(Printed(d, 12), Hex(d[12..16]), "-", g4);
    PrintedRun(d, 8, 12);
    MoveGroup(Printed(d, 8), Hex(d[8..12]), "-", g3);
    PrintedRun(d, 0, 8);
    MoveGroup(Printed(d, 0), Hex(d[0..8]), "-", g2);
    assert Printed(d, 0) + Groups(d, "}") == Groups(d, "}");
  }

  /** The buffer shows these characters and is NUL from there on. */
  ghost predicate Shows(text: seq<char>, written: string) {
    && |written| <= |text| && text[..|written|] == written
    && forall i :: |written| <= i < |text| ==> text[i] == NUL
  }

  /** Writes one character at the end of what is written. */
  method Put(text: array<char>, offset: nat, c: char, ghost written: string)
    requires offset == |written| < text.Length && Shows(text[..], written)
    modifies text
    ensures Shows(text[..], written + [c])
  {
    text[offset] := c;
  }

  /** Writes a prefix into an empty buffer. */
  method PutPrefix(text: array<char>, prefix: string) returns (offset: nat)
    requires |prefix| <= text.Length && Shows(text[..], [])
    modifies text
    ensures offset == |prefix| && Shows(text[..], prefix)
  {
    offset := 0;
    while offset < |prefix|
      invariant offset <= |prefix| && Shows(text[..], prefix[..offset])
    {
      Put(text, offset, prefix[offset], prefix[..offset]);
      assert prefix[..offset] + [prefix[offset]] == prefix[..offset + 1];
      offset := offset + 1;
    }
    assert prefix[..offset] == prefix;
  }

  /** Writes one digit and the hyphen that may follow it. */
  method PutDigit(text: array<char>, offset: nat, d: seq<nat>, k: nat, ghost before: string) returns (next: nat)
    requires k < |d| == 32 && AreNibbles(d) && offset + 2 <= text.Length
    requires offset == |before + Printed(d, k)| && Shows(text[..], before + Printed(d, k))
    modifies text
    ensures next == |before + Printed(d, k + 1)| && Shows(text[..], before + Printed(d, k + 1))
  {
    Put(text, offset, HexDigit(d[k]), before + Printed(d, k));
    next := offset + 1;
    if Hyphenated(k + 1) {
      Put(text, next, '-', before + Printed(d, k) + [HexDigit(d[k])]);
      next := next + 1;
      assert before + Printed(d, k + 1) == before + Printed(d, k) + [HexDigit(d[k])] + ['-'];
    } else {
      assert before + Printed(d, k + 1) == before + Printed(d, k) + [HexDigit(d[k])];
    }
  }

  /** Writes the digits of a GUID in their groups. */
  method PutDigits(text: array<char>, start: nat, d: seq<nat>, ghost before: string) returns (offset: nat)
    requires |d| == 32 && AreNibbles(d) && start + 37 <= text.Length
    requires start == |before| && Shows(text[..], before)
    modifies text
    ensures offset == start + 36 && Shows(text[..], before + Printed(d, 32))
  {
    offset := start;
    assert before + Printed(d, 0) == before;
    for k := 0 to 32
      invariant offset == |before + Printed(d, k)| && Shows(text[..], before + Printed(d, k))
    {
      offset := PutDigit(text, offset, d, k, before);
    }
  }

  lemma DeviceIdParts(g: Guid)
    requires Legal(g)
    ensures DEVICE_PREFIX + ['{'] + Printed(Digits(g), 32) + ['}'] == DeviceId(g)
  {
    var d := Digits(g);
    PrintedIsGroups(d);
    Reassociate(DEVICE_PREFIX, "{", Printed(d, 32), "}");
  }

  lemma Reassociate(a: string, b: string, c: string, d: string)
    ensures a + b + c + d == a + (b + (c + d))
  {}

  /** Prints a device ID into a 64-character buffer; every write is inside it. */
  method PrintDeviceId(g: Guid) returns (text: array<char>)
    requires Legal(g)
    ensures fresh(text) && text.Length == 64 && Shows(text[..], DeviceId(g))
  {
    text := new char[64](_ => NUL);
    var offset := PutPrefix(text, DEVICE_PREFIX);
    Put(text, offset, '{', DEVICE_PREFIX);
    offset := PutDigits(text, offset + 1, Digits(g), DEVICE_PREFIX + ['{']);
    Put(text, offset, '}', DEVICE_PREFIX + ['{'] + Printed(Digits(g), 32));
    DeviceIdParts(g);
  }

  lemma BackwardSnoc(text: string, c: char)
    ensures Backward(text + [c]) == [c] + Backward(text)
  {
    assert (text + [c])[..|text|] == text;
  }

  /** One more digit taken off the front of what is left. */
  lemma TakeDigit(left: nat, seen: string)
    requires left > 0
    ensures Decimal(left) + Backward(seen) ==
            (if left / 10 == 0 then [] else Decimal(left / 10)) + Backward(seen + [DecimalDigit(left % 10)])
  {
    BackwardSnoc(seen, DecimalDigit(left % 10));
  }

  /** The digits of a number, least significant first, in a ten-character buffer. */
  method SplitDigits(value: nat) returns (digits: array<char>, count: nat)
    requires value < 0x1_0000_0000
    ensures fresh(digits) && digits.Length == 10
    ensures 0 < count <= 10 && Backward(digits[..count]) == Decimal(value)
  {
    digits := new char[10](_ => NUL);
    digits[0] := DecimalDigit(value % 10);
    count := 1;
    var left: nat := value / 10;
    assert digits[..1] == [DecimalDigit(value % 10)];
    assert Backward(digits[..1]) == digits[..1];
    NineDigits();
    while left != 0
      invariant 0 < count <= 10 && left < Power10(10 - count)
      invariant Decimal(value) == (if left == 0 then [] else Decimal(left)) + Backward(digits[..count])
      decreases left
    {
      ghost var seen := digits[..count];
      TakeDigit(left, seen);
      digits[count] := DecimalDigit(left % 10);
      assert digits[..count + 1] == seen + [DecimalDigit(left % 10)];
      count := count + 1;
      left := left / 10;
    }
  }

  lemma NineDigits()
    ensures Power10(9) == 1_000_000_000
  {
    assert Power10(5) == 100_000;
  }

  function Power10(width: nat): nat {
    if width == 0 then 1 else 10 * Power10(width - 1)
  }

  function Backward(text: string): (back: string)
    ensures |back| == |text|
  {
    if text == [] then [] else [text[|text| - 1]] + Backward(text[..|text| - 1])
  }

  /** Writes the digits of a buffer from the last to the first. */
  method PutBackward(text: array<char>, start: nat, digits: array<char>, total: nat, ghost before: string)
    requires text != digits && total <= digits.Length && start + total <= text.Length
    requires start == |before| && Shows(text[..], before)
    modifies text
    ensures Shows(text[..], before + Backward(digits[..total]))
  {
    var offset, count := start, total;
    ghost var written := before;
    ghost var goal := before + Backward(digits[..total]);
    while count != 0
      invariant 0 <= count <= total && offset == start + (total - count) == |written|
      invariant Shows(text[..], written)
      invariant written + Backward(digits[..count]) == goal
    {
      count := count - 1;
      assert digits[..count + 1] == digits[..count] + [digits[count]];
      BackwardSnoc(digits[..count], digits[count]);
      MoveOne(written, digits[count], Backward(digits[..count]));
      Put(text, offset, digits[count], written);
      written := written + [digits[count]];
      offset := offset + 1;
    }
    assert written + [] == written;
  }

  lemma MoveOne(done: string, c: char, rest: string)
    ensures done + ([c] + rest) == (done + [c]) + rest
  {}

  /** Prints an MTU ID into a 32-character buffer; every write is inside it. */
  method PrintMtuId(mtu: nat) returns (text: array<char>)
    requires mtu < 0x1_0000_0000
    ensures fresh(text) && text.Length == 32 && Shows(text[..], MtuId(mtu))
  {
    text := new char[32](_ => NUL);
    var offset := PutPrefix(text, MTU_PREFIX);
    var digits, count := SplitDigits(mtu);
    PutBackward(text, offset, digits, count, MTU_PREFIX);
  }

  // ----- the parsers -----

  /** The parser's loop over a device ID computes the scan. */
  method ParseGuidId(id: string) returns (r: Option<Guid>)
    ensures r == ParseGuid(id)
  {
    if !(GUID_PREFIX <= id) {
      return None;
    }
    var digits := new nat[32](_ => 0);
    var count, at := 0, 11;
    while at < |id|
      invariant 11 <= at <= |id| && count <= 32
      invariant ScanGuid(id[11..], []) == ScanGuid(id[at..], digits[..count])
    {
      ghost var rest := id[at..];
      assert rest[0] == id[at] && rest[1..] == id[at + 1..];
      if id[at] == '}' {
        if count != 32 {
          return None;
        }
        assert digits[..count] == digits[..];
        return Some(Assemble(digits[..]));
      }
      if id[at] != '-' {
        var value := HexNibble(id[at]);
        if value == None || count == 32 {
          return None;
        }
        ghost var seen := digits[..count];
        digits[count] := value.value;
        assert digits[..count + 1] == seen + [value.value];
        count := count + 1;
      }
      at := at + 1;
    }
    return None;
  }

  /** The parser's loop over an MTU ID, with checked arithmetic. */
  method ParseMtuId(id: string) returns (r: Option<nat>)
    ensures r == ParseMtu(id)
  {
    if !(MTU_PREFIX <= id) {
      return None;
    }
    var value: nat, at: nat := 0, 13;
    while at < |id| && id[at] != NUL
      invariant 13 <= at <= |id|
      invariant ScanDecimal(id[13..], 0) == ScanDecimal(id[at..], value)
    {
      ghost var rest := id[at..];
      assert rest[0] == id[at] && rest[1..] == id[at + 1..];
      if !('0' <= id[at] <= '9') {
        return None;
      }
      if value * 10 >= USIZE_RANGE || value * 10 + (id[at] as int - '0' as int) >= USIZE_RANGE {
        return None;
      }
      value, at := value * 10 + (id[at] as int - '0' as int), at + 1;
    }
    if DEFAULT_MTU <= value <= MAXIMUM_MTU {
      return Some(value);
    }
    return None;
  }

  /** The scan takes the first ID and goes on after its NUL. */
  lemma ScanStep(text: string, guid: Option<Guid>, mtu: Option<nat>, length: nat, taken: Option<(Option<Guid>, Option<nat>)>)
    requires FirstNul(text) == Some(length) && length > 0 && taken == Take(text[..length], guid, mtu)
    ensures ScanList(text, guid, mtu) ==
            if taken == None then Err(InvalidParameter) else ScanList(text[length + 1..], taken.value.0, taken.value.1)
  {}

  method TakeId(id: string, guid: Option<Guid>, mtu: Option<nat>) returns (r: Option<(Option<Guid>, Option<nat>)>)
    ensures r == Take(id, guid, mtu)
  {
    var found, size := guid, mtu;
    var parsed := ParseGuidId(id);
    if parsed.Some? {
      found := parsed;
    }
    if MTU_PREFIX <= id {
      size := ParseMtuId(id);
      if size == None {
        return None;
      }
    }
    return Some((found, size));
  }

  /** The driver's loop over the device property. */
  method ParseHardwareIds(ids: string) returns (r: Result<(Guid, nat), Refusal>)
    ensures r == ScanList(ids, None, None)
  {
    var guid: Option<Guid>, mtu: Option<nat> := None, None;
    var offset := 0;
    while offset < |ids|
      invariant offset <= |ids|
      invariant ScanList(ids, None, None) == ScanList(ids[offset..], guid, mtu)
    {
      var text := ids[offset..];
      var length := FirstNul(text);
      if length == None {
        return Err(InvalidParameter);
      }
      if length.value == 0 {
        break;
      }
      var taken := TakeId(text[..length.value], guid, mtu);
      ScanStep(text, guid, mtu, length.value, taken);
      if taken == None {
        return Err(InvalidParameter);
      }
      guid, mtu := taken.value.0, taken.value.1;
      offset := offset + length.value + 1;
      assert ids[offset..] == text[length.value + 1..];
    }
    return Finish(guid, mtu);
  }

  /** What the driver finds at start is what the manager asked for at creation, 1500 if it
      asked for none; an MTU outside 1500 to 65521 is refused. */
  method CreateThenStart(g: Guid, requested: nat) returns (r: Result<(Guid, nat), Refusal>)
    requires Legal(g)
    ensures r == if requested == 0 then Ok((g, 1500))
                 else if 1500 <= requested <= 65521 then Ok((g, requested))
                 else Err(InvalidParameter)
  {
    if EffectiveMtu(requested) == None {
      return Err(InvalidParameter);
    }
    var mtu := EffectiveMtu(requested).value;
    var device := PrintDeviceId(g);
    var mtuId := PrintMtuId(mtu);
    DeviceIdHasNoNul(g);
    DecimalHasNoNul(mtu);
    var first, second := UnicodeString(device[..], DeviceId(g)), UnicodeString(mtuId[..], MtuId(mtu));
    IdListRoundTrip(g, requested);
    r := ParseHardwareIds(first + [NUL] + (second + [NUL] + (COMPATIBLE_ID + [NUL] + [NUL])));
  }

  /** The characters before the first NUL of a buffer. */
  function UnicodeString(text: seq<char>, ghost written: string): (r: string)
    requires Shows(text, written) && NUL !in written
    ensures r == written
  {
    var length := FirstNul(text);
    UpToNul(text, written);
    if length == None then text else text[..length.value]
  }

  lemma UpToNul(text: seq<char>, written: string)
    requires Shows(text, written) && NUL !in written
    ensures FirstNul(text) == if |written| == |text| then None else Some(|written|)
  {
    if |written| == |text| {
      assert text == written;
    } else {
      assert text == written + [NUL] + text[|written| + 1..];
      FirstNulAfter(written, text[|written| + 1..]);
    }
  }
}
