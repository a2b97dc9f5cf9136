/** The output record of an event, as a CSV line or as a packed structure. */
module Records {
  import opened Bits
  import opened Decoder

  datatype Format = Csv | Binary

  const MAX_RECORD := 34

  /** Decimal digits, as ASCII codes. */
  function Digits(n: nat): (text: seq<Byte>)
    ensures text != []
  {
    if n < 10 then [48 + n] else Digits(n / 10) + [48 + n % 10]
  }

  function Pow10(k: nat): nat {
    if k == 0 then 1 else 10 * Pow10(k - 1)
  }

  lemma {:induction false} DigitsFit(n: nat, k: nat)
    requires 0 < k && n < Pow10(k)
    ensures |Digits(n)| <= k
  {
    if n >= 10 {
      DigitsFit(n / 10, k - 1);
    }
  }

  /** What the digits say, read back. */
  function ReadDigits(text: seq<Byte>): int {
    if text == [] then 0 else 10 * ReadDigits(text[..|text| - 1]) + (text[|text| - 1] as int - 48)
  }

  lemma {:induction false} ReadBackDigits(n: nat)
    ensures ReadDigits(Digits(n)) == n
    ensures forall i | 0 <= i < |Digits(n)| :: 48 <= Digits(n)[i] < 58
  {
    if n < 10 {
      assert Digits(n)[..0] == [];
    } else {
      ReadBackDigits(n / 10);
      assert Digits(n)[..|Digits(n)| - 1] == Digits(n / 10);
    }
  }

  const COMMA: Byte := 44
  const NEWLINE: Byte := 10

  /** Numbers separated by commas, with a newline at the end. */
  function Line(values: seq<nat>): seq<Byte>
    requires values != []
  {
    if |values| == 1 then Digits(values[0]) + [NEWLINE]
    else Digits(values[0]) + [COMMA] + Line(values[1..])
  }

  function Columns(f: Fields): seq<nat> {
    [f.channel, f.time16, f.coarse, f.tdc, f.tot, f.triggerEnd, f.energy]
  }

  function CsvLine(f: Fields): seq<Byte> {
    Line(Columns(f))
  }

  function TotalDigits(values: seq<nat>): nat {
    if values == [] then 0 else |Digits(values[0])| + TotalDigits(values[1..])
  }

  lemma {:induction false} LineLength(values: seq<nat>)
    requires values != []
    ensures |Line(values)| == TotalDigits(values) + |values|
  {
    if |values| == 1 {
      assert values[1..] == [];
    } else {
      LineLength(values[1..]);
    }
  }

  lemma ColumnDigits(f: Fields)
    ensures TotalDigits(Columns(f)) == |Digits(f.channel)| + |Digits(f.time16)| + |Digits(f.coarse)| + |Digits(f.tdc)|
                                       + |Digits(f.tot)| + |Digits(f.triggerEnd)| + |Digits(f.energy)|
  {
    FirstDigits(f.energy, []);
    FirstDigits(f.triggerEnd, [f.energy]);
    FirstDigits(f.tot, [f.triggerEnd, f.energy]);
    FirstDigits(f.tdc, [f.tot, f.triggerEnd, f.energy]);
    FirstDigits(f.coarse, [f.tdc, f.tot, f.triggerEnd, f.energy]);
    FirstDigits(f.time16, [f.coarse, f.tdc, f.tot, f.triggerEnd, f.energy]);
    FirstDigits(f.channel, [f.time16, f.coarse, f.tdc, f.tot, f.triggerEnd, f.energy]);
  }

  lemma FirstDigits(n: nat, rest: seq<nat>)
    ensures TotalDigits([n] + rest) == |Digits(n)| + TotalDigits(rest)
  {
    assert ([n] + rest)[1..] == rest;
  }

  lemma FirstSeparator(a: seq<Byte>, x: seq<Byte>, separator: Byte)
    requires separator !in a
    ensures var s := a + [separator] + x;
            s[|a|] == separator && forall i | 0 <= i < |a| :: s[i] != separator
  {
    var s := a + [separator] + x;
    assert forall i | 0 <= i < |a| :: s[i] == a[i];
  }

  /** Two texts split at their first separator in one way only. */
  lemma SplitIsUnique(a: seq<Byte>, x: seq<Byte>, b: seq<Byte>, y: seq<Byte>, separator: Byte)
    requires separator !in a && separator !in b
    requires a + [separator] + x == b + [separator] + y
    ensures a == b && x == y
  {
    var s, u := a + [separator] + x, b + [separator] + y;
    FirstSeparator(a, x, separator);
    FirstSeparator(b, y, separator);
    assert s[|a|] == u[|a|] && s[|b|] == u[|b|];
    assert a == s[..|a|] && b == u[..|b|];
    assert x == s[|a| + 1..] && y == u[|b| + 1..];
  }

  lemma {:induction false} LineDeterminesValues(v: seq<nat>, w: seq<nat>)
    requires |v| == |w| && v != [] && Line(v) == Line(w)
    ensures v == w
  {
    ReadBackDigits(v[0]);
    ReadBackDigits(w[0]);
    if |v| == 1 {
      assert Digits(v[0]) == Line(v)[..|Line(v)| - 1] == Digits(w[0]);
    } else {
      SplitIsUnique(Digits(v[0]), Line(v[1..]), Digits(w[0]), Line(w[1..]), COMMA);
      LineDeterminesValues(v[1..], w[1..]);
      assert v == [v[0]] + v[1..] && w == [w[0]] + w[1..];
    }
  }

  /** A CSV line determines the event it was written for. */
  lemma CsvLineIsLossless(f: Fields, g: Fields)
    requires CsvLine(f) == CsvLine(g)
    ensures f == g
  {
    LineDeterminesValues(Columns(f), Columns(g));
    var v, w := Columns(f), Columns(g);
    assert forall i | 0 <= i < 7 :: v[i] == w[i];
  }

  function LowByte(v: nat): Byte {
    v % 256
  }

  /** The packed record, in host (little-endian) order. */
  function PackedRecord(f: Fields): (r: seq<Byte>)
    ensures |r| == 12
  {
    [LowByte(f.channel),
     LowByte(f.time16), LowByte(f.time16 / 0x100),
     LowByte(f.coarse), LowByte(f.coarse / 0x100), LowByte(f.coarse / 0x1_0000), LowByte(f.coarse / 0x100_0000),
     LowByte(f.tdc), LowByte(f.tot), LowByte(f.triggerEnd),
     LowByte(f.energy), LowByte(f.energy / 0x100)]
  }

  function UnpackRecord(r: seq<Byte>): Fields
    requires |r| == 12
  {
    var b := (i: nat) requires i < 12 => r[i] as int;
    Fields(r[0], LittleEndian(r[1], r[2]), b(3) + 0x100 * b(4) + 0x1_0000 * b(5) + 0x100_0000 * b(6),
           r[8], r[9], r[7], LittleEndian(r[10], r[11]))
  }

  /** The narrowing casts of the packed record lose nothing of an event cut by get_bits. */
  lemma RecordIsLossless(f: Fields)
    requires InRange(f)
    ensures UnpackRecord(PackedRecord(f)) == f
  {
    FourBytes(f.coarse);
    TwoBytes(f.time16);
    TwoBytes(f.energy);
  }

  lemma TwoBytes(v: nat)
    requires v < 0x1_0000
    ensures v == v % 0x100 + 0x100 * (v / 0x100 % 0x100)
  {
  }

  lemma HighByte(v: nat)
    ensures v / 0x1_0000 / 0x100 == v / 0x100_0000
  {
  }

  lemma MiddleByte(v: nat)
    ensures v % 0x1_0000 % 0x100 == v % 0x100
    ensures v % 0x1_0000 / 0x100 == v / 0x100 % 0x100
  {
  }

  lemma FourBytes(v: nat)
    requires v < 0x1_0000_0000
    ensures v == v % 0x100 + 0x100 * (v / 0x100 % 0x100) + 0x1_0000 * (v / 0x1_0000 % 0x100) + 0x100_0000 * (v / 0x100_0000 % 0x100)
  {
    TwoBytes(v % 0x1_0000);
    TwoBytes(v / 0x1_0000);
    HighByte(v);
    MiddleByte(v);
  }

  function Encode(format: Format, f: Fields): seq<Byte> {
    if format == Csv then CsvLine(f) else PackedRecord(f)
  }

  /** From the widths of the fields: a CSV line is at most 34 bytes, a packed record 12. */
  lemma RecordFits(format: Format, f: Fields)
    requires InRange(f)
    ensures 0 < |Encode(format, f)| <= MAX_RECORD
  {
    assert Pow10(2) == 100;
    assert Pow10(5) == 100_000;
    assert Pow10(7) == 10_000_000;
    assert Pow10(9) == 1_000_000_000;
    LineLength(Columns(f));
    ColumnDigits(f);
    DigitsFit(f.channel, 2);
    DigitsFit(f.time16, 5);
    DigitsFit(f.coarse, 9);
    DigitsFit(f.tdc, 2);
    DigitsFit(f.tot, 2);
    DigitsFit(f.triggerEnd, 2);
    DigitsFit(f.energy, 5);
  }

  lemma FirstColumn(n: nat, rest: seq<nat>)
    requires rest != []
    ensures Line([n] + rest) == Digits(n) + [COMMA] + Line(rest)
  {
    assert ([n] + rest)[1..] == rest;
  }

  /** The order of the columns and their separators. */
  lemma ColumnsOfAnEvent(f: Fields)
    ensures CsvLine(f) ==
            Digits(f.channel) + [COMMA] + (Digits(f.time16) + [COMMA] + (Digits(f.coarse) + [COMMA] + (
            Digits(f.tdc) + [COMMA] + (Digits(f.tot) + [COMMA] + (Digits(f.triggerEnd) + [COMMA] + (
            Digits(f.energy) + [NEWLINE]))))))
  {
    FirstColumn(f.triggerEnd, [f.energy]);
    FirstColumn(f.tot, [f.triggerEnd, f.energy]);
    FirstColumn(f.tdc, [f.tot, f.triggerEnd, f.energy]);
    FirstColumn(f.coarse, [f.tdc, f.tot, f.triggerEnd, f.energy]);
    FirstColumn(f.time16, [f.coarse, f.tdc, f.tot, f.triggerEnd, f.energy]);
    FirstColumn(f.channel, [f.time16, f.coarse, f.tdc, f.tot, f.triggerEnd, f.energy]);
  }

  /** The bound is reached. */
  lemma LongestLine()
    ensures InRange(Fields(31, 65535, 268435455, 63, 31, 31, 16383))
    ensures |CsvLine(Fields(31, 65535, 268435455, 63, 31, 31, 16383))| == MAX_RECORD
  {
    LineLength(Columns(Fields(31, 65535, 268435455, 63, 31, 31, 16383)));
    ColumnDigits(Fields(31, 65535, 268435455, 63, 31, 31, 16383));
    LongestColumns();
  }

  lemma LongestColumns()
    ensures |Digits(31)| == 2 && |Digits(63)| == 2 && |Digits(65535)| == 5 && |Digits(16383)| == 5 && |Digits(268435455)| == 9
  {
    assert |Digits(655)| == 3;
    assert |Digits(163)| == 3;
    assert |Digits(268)| == 3 && |Digits(26843)| == 5 && |Digits(2684354)| == 7;
  }

  function Flatten(parts: seq<seq<Byte>>): seq<Byte> {
    if parts == [] then [] else Flatten(parts[..|parts| - 1]) + parts[|parts| - 1]
  }

  /** Events with a bad check byte, and all-zero ones, are skipped. */
  ghost predicate Accepted(event: seq<Byte>)
    requires |event| == EVENT_SIZE_BYTES
  {
    var f := FieldsOf(EventBits(event));
    Checked(EventBits(event)) && !(f.coarse == 0 && f.time16 == 0 && f.energy == 0)
  }

  /** What one event adds to the output. */
  ghost function Output(format: Format, event: seq<Byte>): seq<Byte>
    requires |event| == EVENT_SIZE_BYTES
  {
    if Accepted(event) then Encode(format, FieldsOf(EventBits(event))) else []
  }

  function EventAt(payload: seq<Byte>, e: nat): (event: seq<Byte>)
    requires EVENT_SIZE_BYTES * (e + 1) <= |payload|
    ensures |event| == EVENT_SIZE_BYTES
  {
    payload[EVENT_SIZE_BYTES * e..EVENT_SIZE_BYTES * (e + 1)]
  }

  /** The renderings of the first `n` events of a batch, one after the other. */
  ghost function Gather(render: seq<Byte> -> seq<Byte>, payload: seq<Byte>, n: nat): seq<Byte>
    requires EVENT_SIZE_BYTES * n <= |payload|
  {
    if n == 0 then [] else Gather(render, payload, n - 1) + render(EventAt(payload, n - 1))
  }

  ghost function Renderer(format: Format): seq<Byte> -> seq<Byte> {
    event => if |event| == EVENT_SIZE_BYTES then Output(format, event) else []
  }

  /** What the first `n` events of a batch add to the output. */
  ghost function Encodings(format: Format, payload: seq<Byte>, n: nat): seq<Byte>
    requires EVENT_SIZE_BYTES * n <= |payload|
  {
    Gather(Renderer(format), payload, n)
  }

  lemma EncodingsStep(format: Format, payload: seq<Byte>, n: nat, stream: seq<Byte>)
    requires EVENT_SIZE_BYTES * (n + 1) <= |payload|
    ensures stream + Encodings(format, payload, n) + Output(format, EventAt(payload, n))
            == stream + Encodings(format, payload, n + 1)
  {
  }

  // ---- what the output of events and batches is ----

  /** An accepted event that carries these fields is written as their record. */
  lemma PackedEventIsWritten(format: Format, event: seq<Byte>, f: Fields, frame: Frame)
    requires |event| == EVENT_SIZE_BYTES && InRange(f) && WellFormed(frame)
    requires EventBits(event) == Pack(f, frame) && Checked(EventBits(event))
    ensures Output(format, event) ==
            if f.coarse == 0 && f.time16 == 0 && f.energy == 0 then []
            else if format == Csv then CsvLine(f)
            else PackedRecord(f)
  {
    FieldsOfPack(f, frame);
  }

  /** Any one payload byte of it changed, and it is not written at all. */
  lemma CorruptedEventIsSkipped(format: Format, event: seq<Byte>, m: nat, value: Byte)
    requires |event| == EVENT_SIZE_BYTES && 2 <= m < 14 && Checked(EventBits(event)) && value != event[m]
    ensures Output(format, event[m := value]) == []
  {
    var k := if m % 2 == 1 then m - 3 else m - 1;
    assert PayloadIndex(k) == m;
    CorruptedPayloadIsRejected(event, k, value);
  }

  /** Where each field of an event lies in its 12-byte record, low byte first. */
  lemma RecordLayout(f: Fields)
    requires InRange(f)
    ensures var r := PackedRecord(f);
            && |r| == 12
            && r[0] as int == f.channel
            && r[1] as int + 0x100 * r[2] as int == f.time16
            && r[3] as int + 0x100 * r[4] as int + 0x1_0000 * r[5] as int + 0x100_0000 * r[6] as int == f.coarse
            && r[7] as int == f.tdc && r[8] as int == f.tot && r[9] as int == f.triggerEnd
            && r[10] as int + 0x100 * r[11] as int == f.energy
  {
    TwoBytes(f.time16);
    FourBytes(f.coarse);
    TwoBytes(f.energy);
  }

  // ---- what the output of a batch is ----

  ghost function Rendered(render: seq<Byte> -> seq<Byte>, payload: seq<Byte>): (outputs: seq<seq<Byte>>)
    ensures |outputs| == |payload| / 16
    ensures forall e | 0 <= e < |outputs| :: outputs[e] == render(payload[16 * e..16 * e + 16])
  {
    seq(|payload| / 16, e requires 0 <= e < |payload| / 16 => render(payload[16 * e..16 * e + 16]))
  }

  /** The output of the events of a batch, each cut from the payload at its place. */
  ghost function Outputs(format: Format, payload: seq<Byte>): (outputs: seq<seq<Byte>>)
    ensures |outputs| == |payload| / 16
    ensures forall e | 0 <= e < |outputs| :: outputs[e] == Output(format, payload[16 * e..16 * e + 16])
  {
    Rendered(Renderer(format), payload)
  }

  lemma {:induction false} GatherRendered(render: seq<Byte> -> seq<Byte>, payload: seq<Byte>, n: nat)
    requires n <= |payload| / 16
    ensures Gather(render, payload, n) == Flatten(Rendered(render, payload)[..n])
  {
    if n > 0 {
      GatherRendered(render, payload, n - 1);
      var first := Rendered(render, payload)[..n];
      assert first[..n - 1] == Rendered(render, payload)[..n - 1];
      assert first[n - 1] == render(EventAt(payload, n - 1));
    }
  }

  lemma EncodingsAreOutputs(format: Format, payload: seq<Byte>)
    ensures Encodings(format, payload, |payload| / 16) == Flatten(Outputs(format, payload))
  {
    var all := Rendered(Renderer(format), payload);
    GatherRendered(Renderer(format), payload, |payload| / 16);
    assert all[..|all|] == all;
  }

  lemma {:induction false} GatherFirst(render: seq<Byte> -> seq<Byte>, a: seq<Byte>, b: seq<Byte>, n: nat)
    requires EVENT_SIZE_BYTES * n <= |a|
    ensures Gather(render, a + b, n) == Gather(render, a, n)
  {
    if n > 0 {
      GatherFirst(render, a, b, n - 1);
      assert EventAt(a + b, n - 1) == EventAt(a, n - 1);
    }
  }

  lemma {:induction false} GatherLater(render: seq<Byte> -> seq<Byte>, a: seq<Byte>, b: seq<Byte>, m: nat, n: nat)
    requires |a| == EVENT_SIZE_BYTES * m && EVENT_SIZE_BYTES * n <= |b|
    ensures Gather(render, a + b, m + n) == Gather(render, a, m) + Gather(render, b, n)
  {
    if n == 0 {
      GatherFirst(render, a, b, m);
    } else {
      GatherLater(render, a, b, m, n - 1);
      assert EventAt(a + b, m + n - 1) == EventAt(b, n - 1);
    }
  }

  /** A batch of one event. */
  lemma OneEvent(format: Format, event: seq<Byte>)
    requires |event| == EVENT_SIZE_BYTES
    ensures Encodings(format, event, 1) == Output(format, event)
  {
    assert EventAt(event, 0) == event;
    assert Gather(Renderer(format), event, 0) == [];
  }

  /** Batches of whole events one after the other are written one after the other. */
  lemma BatchesFollow(format: Format, a: seq<Byte>, b: seq<Byte>)
    requires |a| % 16 == 0
    ensures Encodings(format, a + b, (|a| + |b|) / 16) == Encodings(format, a, |a| / 16) + Encodings(format, b, |b| / 16)
  {
    GatherBatches(Renderer(format), a, b);
  }

  lemma WholeEvents(m: nat, n: nat)
    requires m % 16 == 0
    ensures (m + n) / 16 == m / 16 + n / 16
    ensures m == 16 * (m / 16) && 16 * (n / 16) <= n
  {
  }

  lemma {:induction false} GatherBatches(render: seq<Byte> -> seq<Byte>, a: seq<Byte>, b: seq<Byte>)
    requires |a| % 16 == 0
    ensures Gather(render, a + b, (|a| + |b|) / 16) == Gather(render, a, |a| / 16) + Gather(render, b, |b| / 16)
  {
    WholeEvents(|a|, |b|);
    var m, n := |a| / 16, |b| / 16;
    GatherLater(render, a, b, m, n);
  }
}
