/** The run metadata on their way from the Python printer to the C tokenizer. */
module MetadataText {
  import opened Fsm

  type Entry = (string, string)

  const END := '\0'

  // ---- the printer ----

  function Field(e: Entry): string {
    e.0 + "=" + e.1
  }

  function Join(fields: seq<string>): string {
    if fields == [] then ""
    else if |fields| == 1 then fields[0]
    else fields[0] + ";" + Join(fields[1..])
  }

  function Fields(entries: seq<Entry>): (fields: seq<string>)
    ensures |fields| == |entries|
  {
    seq(|entries|, i requires 0 <= i < |entries| => Field(entries[i]))
  }

  predicate Printable(e: Entry) {
    ';' !in e.0 && '=' !in e.0 && ';' !in e.1 && '=' !in e.1
  }

  /** _serialize_metadata; None is the ValueError for a separator inside a key or a value. */
  method SerializeMetadata(entries: seq<Entry>) returns (text: Option<string>)
    ensures text == if forall e | e in entries :: Printable(e) then Some(Join(Fields(entries))) else None
  {
    var fields: seq<string> := [];
    for i := 0 to |entries|
      invariant fields == Fields(entries[..i])
      invariant forall e | e in entries[..i] :: Printable(e)
    {
      var key, value := entries[i].0, entries[i].1;
      assert entries[i] in entries;
      if ';' in key || '=' in key || ';' in value || '=' in value {
        return None;
      }
      fields := fields + [key + "=" + value];
      assert entries[..i + 1] == entries[..i] + [entries[i]];
    }
    assert entries[..|entries|] == entries;
    text := Some(Join(fields));
  }

  // ---- the tokenizer ----

  /** Length of the run of characters before the next separator. */
  function Span(s: string, d: char): (n: nat)
    ensures n <= |s| && d !in s[..n] && (n < |s| ==> s[n] == d)
  {
    if s == "" || s[0] == d then 0 else 1 + Span(s[1..], d)
  }

  /** Successive strtok_r calls: separators are skipped, so no token is empty. */
  function Tokens(s: string, d: char): seq<string>
    decreases |s|
  {
    if s == "" then []
    else if s[0] == d then Tokens(s[1..], d)
    else [s[..Span(s, d)]] + Tokens(s[Span(s, d)..], d)
  }

  /** A field is used only if it has a first and a second token. */
  function Pair(token: string): seq<Entry> {
    var parts := Tokens(token, '=');
    if |parts| >= 2 then [(parts[0], parts[1])] else []
  }

  function Pairs(tokens: seq<string>): seq<Entry> {
    if tokens == [] then [] else Pair(tokens[0]) + Pairs(tokens[1..])
  }

  /** The part of a buffer a C string function sees. */
  function CText(s: string): (t: string)
    ensures t == s[..Span(s, END)]
  {
    s[..Span(s, END)]
  }

  /** What populate_meta_struct finds in a metadata frame. */
  function Parse(text: string): seq<Entry> {
    Pairs(Tokens(CText(text), ';'))
  }

  // ---- what is recovered ----

  predicate Effective(e: Entry) {
    e.0 != "" && e.1 != ""
  }

  /** The entries with a key and a value, in order. */
  function Kept(entries: seq<Entry>): seq<Entry> {
    if entries == [] then [] else (if Effective(entries[0]) then [entries[0]] else []) + Kept(entries[1..])
  }

  /** The length before the first separator, told by what it is. */
  lemma {:induction false} SpanIs(s: string, d: char, n: nat)
    requires n <= |s| && (forall i | 0 <= i < n :: s[i] != d) && (n < |s| ==> s[n] == d)
    ensures Span(s, d) == n
  {
    if n > 0 {
      SpanIs(s[1..], d, n - 1);
    }
  }

  lemma SpanOf(a: string, b: string, d: char)
    requires d !in a && (b == "" || b[0] == d)
    ensures Span(a + b, d) == |a|
  {
    SpanIs(a + b, d, |a|);
  }

  lemma TokensOfOne(a: string, d: char)
    requires d !in a
    ensures Tokens(a, d) == if a == "" then [] else [a]
  {
    SpanOf(a, "", d);
    assert a + "" == a;
  }

  lemma TokensOfTwo(a: string, b: string, d: char)
    requires d !in a
    ensures Tokens(a + [d] + b, d) == (if a == "" then [] else [a]) + Tokens(b, d)
  {
    var s := a + [d] + b;
    assert s == a + ([d] + b);
    SpanOf(a, [d] + b, d);
    if a == "" {
      assert s[1..] == b;
    } else {
      assert s[..|a|] == a && s[|a|..] == [d] + b;
      assert ([d] + b)[1..] == b;
    }
  }

  ghost predicate AreTokens(fields: seq<string>) {
    forall i | 0 <= i < |fields| :: fields[i] != "" && ';' !in fields[i]
  }

  /** Splitting at the semicolons undoes the join. */
  lemma {:induction false} TokensOfJoin(fields: seq<string>)
    requires AreTokens(fields)
    ensures Tokens(Join(fields), ';') == fields
  {
    if |fields| == 1 {
      TokensOfOne(fields[0], ';');
    } else if fields != [] {
      TokensOfJoin(fields[1..]);
      TokensOfTwo(fields[0], Join(fields[1..]), ';');
    }
  }

  lemma Regroup(a: string, b: string, c: string)
    ensures (a + ";" + b) + ";" + c == a + ";" + (b + ";" + c)
  {
  }

  lemma RegroupTokens(fields: seq<string>, rest: seq<string>)
    requires fields != []
    ensures [fields[0]] + (fields[1..] + rest) == fields + rest
  {
  }

  lemma {:induction false} TokensOfLongerJoin(fields: seq<string>, rest: string)
    requires AreTokens(fields) && fields != []
    ensures Tokens(Join(fields) + ";" + rest, ';') == fields + Tokens(rest, ';')
  {
    if |fields| == 1 {
      TokensOfTwo(fields[0], rest, ';');
    } else {
      TokensOfLongerJoin(fields[1..], rest);
      TokensOfTwo(fields[0], Join(fields[1..]) + ";" + rest, ';');
      Regroup(fields[0], Join(fields[1..]), rest);
      RegroupTokens(fields, Tokens(rest, ';'));
    }
  }

  lemma PairOfField(e: Entry)
    requires Printable(e)
    ensures Pair(Field(e)) == if Effective(e) then [e] else []
  {
    TokensOfTwo(e.0, e.1, '=');
    TokensOfOne(e.1, '=');
  }

  lemma FieldsFirst(entries: seq<Entry>, rest: seq<string>)
    requires entries != []
    ensures Fields(entries) + rest == [Field(entries[0])] + (Fields(entries[1..]) + rest)
  {
  }

  lemma PairsFirst(token: string, rest: seq<string>)
    ensures Pairs([token] + rest) == Pair(token) + Pairs(rest)
  {
    assert ([token] + rest)[1..] == rest;
  }

  lemma Associate<T>(a: seq<T>, b: seq<T>, c: seq<T>)
    ensures a + (b + c) == (a + b) + c
  {
  }

  lemma {:induction false} PairsOfFields(entries: seq<Entry>, rest: seq<string>)
    requires forall e | e in entries :: Printable(e)
    ensures Pairs(Fields(entries) + rest) == Kept(entries) + Pairs(rest)
  {
    if entries == [] {
      assert Fields(entries) + rest == rest;
    } else {
      PairOfField(entries[0]);
      PairsOfFields(entries[1..], rest);
      FieldsFirst(entries, rest);
      PairsFirst(Field(entries[0]), Fields(entries[1..]) + rest);
      Associate(Pair(Field(entries[0])), Kept(entries[1..]), Pairs(rest));
    }
  }

  lemma FieldsAreTokens(entries: seq<Entry>)
    requires forall e | e in entries :: Printable(e)
    ensures AreTokens(Fields(entries))
  {
    forall i | 0 <= i < |entries|
      ensures Fields(entries)[i] != "" && ';' !in Fields(entries)[i]
    {
      assert entries[i] in entries;
    }
  }

  lemma {:induction false} JoinHasNoEnd(entries: seq<Entry>)
    requires forall e | e in entries :: END !in e.0 && END !in e.1
    ensures END !in Join(Fields(entries))
  {
    if |entries| > 1 {
      JoinHasNoEnd(entries[1..]);
      assert Fields(entries)[1..] == Fields(entries[1..]);
    }
  }

  /** Without zero bytes the receiver recovers exactly the entries with a key and a value. */
  lemma RoundTrip(entries: seq<Entry>)
    requires forall e | e in entries :: Printable(e) && END !in e.0 && END !in e.1
    ensures Parse(Join(Fields(entries))) == Kept(entries)
  {
    var text := Join(Fields(entries));
    JoinHasNoEnd(entries);
    assert CText(text) == text by { SpanOf(text, "", END); assert text + "" == text; }
    FieldsAreTokens(entries);
    TokensOfJoin(Fields(entries));
    PairsOfFields(entries, []);
    assert Fields(entries) + [] == Fields(entries);
    assert Kept(entries) + Pairs([]) == Kept(entries);
  }

  // ---- zero bytes ----

  predicate HasEnd(e: Entry) {
    END in e.0 || END in e.1
  }

  /** Up to the first zero byte, the buffer is the join of the clean entries and a cut field. */
  lemma {:induction false} CutAt(entries: seq<Entry>, i: nat)
    requires i < |entries| && HasEnd(entries[i]) && forall k | 0 <= k < i :: !HasEnd(entries[k])
    ensures CText(Join(Fields(entries))) ==
            (if i == 0 then "" else Join(Fields(entries[..i])) + ";") + CText(Field(entries[i]))
  {
    if i == 0 {
      CutAtFirst(entries);
    } else {
      var rest := Join(Fields(entries[1..]));
      var first := Field(entries[0]) + ";";
      assert Fields(entries)[1..] == Fields(entries[1..]);
      assert entries[1..][..i - 1] == entries[1..i];
      CutAt(entries[1..], i - 1);
      SkipSpan(first, rest, END);
      JoinOfPrefix(entries, i);
      Associate(first, if i == 1 then "" else Join(Fields(entries[1..i])) + ";", CText(Field(entries[i])));
    }
  }

  lemma {:induction false} SpanInside(s: string, d: char)
    requires d in s
    ensures Span(s, d) < |s|
  {
    if s[0] != d {
      SpanInside(s[1..], d);
    }
  }

  lemma CutAtFirst(entries: seq<Entry>)
    requires entries != [] && HasEnd(entries[0])
    ensures CText(Join(Fields(entries))) == CText(Field(entries[0]))
  {
    var f := Field(entries[0]);
    assert END in f;
    SpanInside(f, END);
    PrefixSpan(f, Join(Fields(entries)), END);
  }

  lemma JoinOfPrefix(entries: seq<Entry>, i: nat)
    requires 0 < i <= |entries|
    ensures Join(Fields(entries[..i])) + ";" ==
            Field(entries[0]) + ";" + if i == 1 then "" else Join(Fields(entries[1..i])) + ";"
  {
    assert Fields(entries[..i])[0] == Field(entries[0]);
    assert Fields(entries[..i])[1..] == Fields(entries[1..i]);
  }

  lemma PrefixSpan(f: string, text: string, d: char)
    requires f <= text && Span(f, d) < |f|
    ensures Span(text, d) == Span(f, d)
  {
    var n := Span(f, d);
    assert forall i | 0 <= i < n :: text[i] == f[..n][i];
    SpanIs(text, d, n);
  }

  lemma SkipSpan(a: string, b: string, d: char)
    requires d !in a
    ensures Span(a + b, d) == |a| + Span(b, d)
    ensures (a + b)[..Span(a + b, d)] == a + b[..Span(b, d)]
  {
    var n := Span(b, d);
    var text := a + b;
    assert forall i | |a| <= i < |a| + n :: text[i] == b[..n][i - |a|];
    SpanIs(text, d, |a| + n);
  }

  /** What is left of a field cut at a zero byte is never the entry it was printed for. */
  lemma PairOfCut(e: Entry)
    requires Printable(e) && HasEnd(e)
    ensures var p := Pair(CText(Field(e)));
            p == [] || (Effective(e) && |p| == 1 && p[0] != e)
    ensures ';' !in CText(Field(e))
  {
    assert ';' !in Field(e);
    if END in e.0 {
      var n := Span(e.0, END);
      assert n < |e.0| by { assert e.0[..|e.0|] == e.0; }
      PrefixSpan(e.0, Field(e), END);
      assert CText(Field(e)) == e.0[..n];
      TokensOfOne(e.0[..n], '=');
    } else {
      var n := Span(e.1, END);
      assert n < |e.1| by { assert e.1[..|e.1|] == e.1; }
      SkipSpan(e.0 + "=", e.1, END);
      assert CText(Field(e)) == e.0 + "=" + e.1[..n];
      TokensOfTwo(e.0, e.1[..n], '=');
      TokensOfOne(e.1[..n], '=');
    }
  }

  lemma {:induction false} KeptOfConcat(a: seq<Entry>, b: seq<Entry>)
    ensures Kept(a + b) == Kept(a) + Kept(b)
  {
    if a == [] {
      assert a + b == b;
    } else {
      KeptOfConcat(a[1..], b);
      assert (a + b)[1..] == a[1..] + b;
      Associate(if Effective(a[0]) then [a[0]] else [], Kept(a[1..]), Kept(b));
    }
  }

  lemma {:induction false} KeptIsEmpty(entries: seq<Entry>)
    ensures Kept(entries) == [] <==> forall i | 0 <= i < |entries| :: !Effective(entries[i])
  {
    if entries != [] {
      KeptIsEmpty(entries[1..]);
      if forall i | 0 <= i < |entries| :: !Effective(entries[i]) {
        assert forall i | 0 <= i < |entries[1..]| :: entries[1..][i] == entries[i + 1];
      } else {
        var i :| 0 <= i < |entries| && Effective(entries[i]);
        assert i > 0 ==> entries[1..][i - 1] == entries[i];
      }
    }
  }

  lemma ParseOfCut(entries: seq<Entry>, i: nat)
    requires forall e | e in entries :: Printable(e)
    requires i < |entries| && HasEnd(entries[i]) && forall k | 0 <= k < i :: !HasEnd(entries[k])
    ensures Parse(Join(Fields(entries))) == Kept(entries[..i]) + Pair(CText(Field(entries[i])))
  {
    var before, cut := entries[..i], CText(Field(entries[i]));
    assert entries[i] in entries;
    CutAt(entries, i);
    PairOfCut(entries[i]);
    TokensOfOne(cut, ';');
    var last := Tokens(cut, ';');
    assert Pairs(last) == Pair(cut);
    FieldsAreTokens(before);
    if i > 0 {
      TokensOfLongerJoin(Fields(before), cut);
      PairsOfFields(before, last);
    } else {
      assert "" + cut == cut && Kept(before) == [];
    }
  }

  lemma CancelPrefix(a: seq<Entry>, b: seq<Entry>, c: seq<Entry>)
    ensures a + b == a + c <==> b == c
  {
    assert b == (a + b)[|a|..] && c == (a + c)[|a|..];
  }

  /** From a cut entry on, the receiver finds what it should only if that is nothing. */
  lemma KeptFromCut(entries: seq<Entry>)
    requires entries != [] && Printable(entries[0]) && HasEnd(entries[0])
    ensures Pair(CText(Field(entries[0]))) == Kept(entries) <==>
            forall i | 0 <= i < |entries| :: !Effective(entries[i])
  {
    PairOfCut(entries[0]);
    KeptIsEmpty(entries);
    if Effective(entries[0]) {
      assert Kept(entries)[0] == entries[0];
    }
  }

  lemma ReceivedUpToCut(entries: seq<Entry>, i: nat)
    requires forall e | e in entries :: Printable(e)
    requires i < |entries| && HasEnd(entries[i]) && forall k | 0 <= k < i :: !HasEnd(entries[k])
    ensures Parse(Join(Fields(entries))) == Kept(entries) <==> Pair(CText(Field(entries[i]))) == Kept(entries[i..])
  {
    ParseOfCut(entries, i);
    assert entries == entries[..i] + entries[i..];
    KeptOfConcat(entries[..i], entries[i..]);
    CancelPrefix(Kept(entries[..i]), Pair(CText(Field(entries[i]))), Kept(entries[i..]));
  }

  lemma EffectiveFrom(entries: seq<Entry>, i: nat)
    requires i <= |entries|
    ensures (forall m | 0 <= m < |entries[i..]| :: !Effective(entries[i..][m])) <==>
            (forall m | i <= m < |entries| :: !Effective(entries[m]))
  {
    assert forall m | i <= m < |entries| :: entries[m] == entries[i..][m - i];
  }

  lemma ReceivedExactlyFrom(entries: seq<Entry>, i: nat)
    requires forall e | e in entries :: Printable(e)
    requires i < |entries| && HasEnd(entries[i]) && forall k | 0 <= k < i :: !HasEnd(entries[k])
    ensures Parse(Join(Fields(entries))) == Kept(entries) <==>
            forall m | i <= m < |entries| :: !Effective(entries[m])
  {
    assert entries[i] in entries && entries[i..][0] == entries[i];
    ReceivedUpToCut(entries, i);
    KeptFromCut(entries[i..]);
    EffectiveFrom(entries, i);
  }

  /** The receiver finds exactly the entries with a key and a value, in order, if and only if none
      of them comes with or after a zero byte. */
  lemma ReceivedExactly(entries: seq<Entry>)
    requires forall e | e in entries :: Printable(e)
    ensures Parse(Join(Fields(entries))) == Kept(entries) <==>
            forall j, i | 0 <= j <= i < |entries| && HasEnd(entries[j]) :: !Effective(entries[i])
  {
    if forall k | 0 <= k < |entries| :: !HasEnd(entries[k]) {
      RoundTrip(entries);
    } else {
      ReceivedExactlyFrom(entries, FirstEnd(entries));
    }
  }

  /** A value with a zero byte arrives cut, and the entries after it not at all. */
  lemma ZeroByteHidesWhatFollows(key: string, shown: string, hidden: string, rest: seq<Entry>)
    requires key != "" && shown != "" && END !in key && END !in shown
    requires var entries := [(key, shown + [END] + hidden)] + rest; forall e | e in entries :: Printable(e)
    ensures var entries := [(key, shown + [END] + hidden)] + rest;
            && Parse(Join(Fields(entries))) == [(key, shown)]
            && Kept(entries) == [entries[0]] + Kept(rest)
            && Parse(Join(Fields(entries))) != Kept(entries)
  {
    var value := shown + [END] + hidden;
    var entries := [(key, value)] + rest;
    assert entries[0] == (key, value) && entries[1..] == rest && entries[0] in entries;
    assert value[|shown|] == END;
    ParseOfCut(entries, 0);
    CutValue(key, shown, hidden);
    assert Printable((key, shown)) by { assert forall c | c in shown :: c in value; }
    PairOfField((key, shown));
    assert entries[..0] == [];
    assert Kept(entries)[0].1[|shown|] == END;
  }

  lemma CutValue(key: string, shown: string, hidden: string)
    requires END !in key && END !in shown
    ensures CText(Field((key, shown + [END] + hidden))) == Field((key, shown))
  {
    var value := shown + [END] + hidden;
    SpanIs(value, END, |shown|);
    SkipSpan(key + "=", value, END);
    assert value[..|shown|] == shown;
  }

  function FirstEnd(entries: seq<Entry>): (i: nat)
    requires exists k | 0 <= k < |entries| :: HasEnd(entries[k])
    ensures i < |entries| && HasEnd(entries[i]) && forall k | 0 <= k < i :: !HasEnd(entries[k])
  {
    if HasEnd(entries[0]) then 0
    else
      assert exists k | 0 <= k < |entries[1..]| :: HasEnd(entries[1..][k]) by {
        var k :| 0 <= k < |entries| && HasEnd(entries[k]);
        assert entries[1..][k - 1] == entries[k];
      }
      1 + FirstEnd(entries[1..])
  }

  // ---- the fields of the header ----

  datatype Kind = Whole | Real | Text(capacity: nat)

  /** A stored field: an integer, a text cut to its array, or the text handed to atof. */
  datatype Stored = Number(n: int) | Decimal(text: string) | Chars(text: string)

  predicate IsChannelKey(key: string, prefix: string) {
    prefix <= key && |key| == |prefix| + 1 && '0' <= key[|prefix|] <= '6'
  }

  const WHOLE_KEYS: set<string> := {
    "version", "timestamp_raw", "status_reg0", "status_reg1", "status_reg10", "status_reg15", "status_reg16",
    "status_reg18", "status_reg19", "status_reg31", "status_reg39", "fixed_bad_mask"}

  const TEXT_KEYS: map<string, nat> := map[
    "timestamp_utc" := 32, "acquisition_mode" := 16, "acquisition_type" := 32, "acq_type_param" := 32,
    "client_id" := 32, "multipmt_id" := 32, "batch_id" := 32, "run_id" := 64, "software_version" := 32]

  /** What a key of the frame fills, if anything. */
  function KindOf(key: string): Option<Kind> {
    if key in WHOLE_KEYS || IsChannelKey(key, "voltage_ch") || IsChannelKey(key, "threshold_mv_ch") then Some(Whole)
    else if IsChannelKey(key, "threshold_pe_ch") then Some(Real)
    else if key in TEXT_KEYS then Some(Text(TEXT_KEYS[key]))
    else if IsChannelKey(key, "serial_pmt") then Some(Text(32))
    else if IsChannelKey(key, "hv_channel_state_ch") || IsChannelKey(key, "hv_power_state_ch") then Some(Text(16))
    else None
  }

  /** reset_meta_struct: what a field holds when its key is missing. */
  function Default(key: string): Stored {
    match KindOf(key)
    case Some(Whole) =>
      if key == "fixed_bad_mask" || IsChannelKey(key, "voltage_ch") || IsChannelKey(key, "threshold_mv_ch")
      then Number(-1) else Number(0)
    case Some(Real) => Decimal("-1")
    case _ => Chars("")
  }

  predicate IsDigit(c: char) {
    '0' <= c <= '9'
  }

  function LeadingNumber(s: string, acc: nat): nat
    decreases |s|
  {
    if s == "" || !IsDigit(s[0]) then acc else LeadingNumber(s[1..], 10 * acc + (s[0] as int - '0' as int))
  }

  function Atoi(s: string): int
    decreases |s|
  {
    if s == "" then 0
    else if s[0] in {' ', '\t', '\n', '\r'} then Atoi(s[1..])
    else if s[0] == '-' then -(LeadingNumber(s[1..], 0) as int)
    else if s[0] == '+' then LeadingNumber(s[1..], 0)
    else LeadingNumber(s, 0)
  }

  function Convert(kind: Kind, value: string): Stored {
    match kind
    case Whole => Number(Atoi(value))
    case Real => Decimal(value)
    case Text(capacity) => Chars(if |value| < capacity || capacity == 0 then value else value[..capacity - 1])
  }

  function Populate(pairs: seq<Entry>): map<string, Stored> {
    if pairs == [] then map[]
    else
      var before := Populate(pairs[..|pairs| - 1]);
      var (key, value) := pairs[|pairs| - 1];
      if KindOf(key).Some? then before[key := Convert(KindOf(key).value, value)] else before
  }

  /** A field of the header: what was stored, or its reset default. */
  function HeaderField(pairs: seq<Entry>, key: string): Stored {
    if key in Populate(pairs) then Populate(pairs)[key] else Default(key)
  }

  ghost predicate DistinctKeys(entries: seq<Entry>) {
    forall i, j | 0 <= i < j < |entries| :: entries[i].0 != entries[j].0
  }

  lemma {:induction false} PopulateStores(pairs: seq<Entry>, key: string)
    requires DistinctKeys(pairs)
    ensures key in Populate(pairs) <==> KindOf(key).Some? && exists i | 0 <= i < |pairs| :: pairs[i].0 == key
    ensures forall i | 0 <= i < |pairs| && pairs[i].0 == key && KindOf(key).Some? ::
              Populate(pairs)[key] == Convert(KindOf(key).value, pairs[i].1)
  {
    if pairs != [] {
      var before := pairs[..|pairs| - 1];
      PopulateStores(before, key);
      assert forall i | 0 <= i < |before| :: before[i] == pairs[i];
      assert (exists i | 0 <= i < |before| :: before[i].0 == key) ==> exists i | 0 <= i < |pairs| :: pairs[i].0 == key;
    }
  }

  lemma {:induction false} KeptMembers(entries: seq<Entry>, e: Entry)
    ensures e in Kept(entries) <==> e in entries && Effective(e)
  {
    if entries != [] {
      assert entries == [entries[0]] + entries[1..];
      KeptMembers(entries[1..], e);
    }
  }

  lemma DistinctPrepend(e: Entry, rest: seq<Entry>)
    requires DistinctKeys(rest) && forall d | d in rest :: d.0 != e.0
    ensures DistinctKeys([e] + rest)
  {
  }

  lemma {:induction false} KeptDistinct(entries: seq<Entry>)
    requires DistinctKeys(entries)
    ensures DistinctKeys(Kept(entries))
  {
    if entries != [] {
      var rest := entries[1..];
      KeptDistinct(rest);
      forall d | d in Kept(rest)
        ensures d.0 != entries[0].0
      {
        KeptMembers(rest, d);
        var i :| 0 <= i < |rest| && rest[i] == d;
        assert entries[i + 1] == d;
      }
      DistinctPrepend(entries[0], Kept(rest));
    }
  }

  /** From the dictionary to the file header: a field holds the value that was sent, and a field
      that was missing or empty keeps its reset default. */
  lemma HeaderHoldsTheMetadata(entries: seq<Entry>, key: string)
    requires forall e | e in entries :: Printable(e) && END !in e.0 && END !in e.1
    requires DistinctKeys(entries) && KindOf(key).Some?
    ensures var field := HeaderField(Parse(Join(Fields(entries))), key);
            && (forall e | e in entries && e.0 == key && e.1 != "" :: field == Convert(KindOf(key).value, e.1))
            && ((forall e | e in entries && e.0 == key :: e.1 == "") ==> field == Default(key))
  {
    var kept := Kept(entries);
    RoundTrip(entries);
    forall e | e in entries && e.0 == key && e.1 != ""
      ensures HeaderField(kept, key) == Convert(KindOf(key).value, e.1)
    {
      FieldHoldsItsValue(entries, key, e);
    }
    if forall e | e in entries && e.0 == key :: e.1 == "" {
      MissingFieldIsDefault(entries, key);
    }
  }

  lemma FieldHoldsItsValue(entries: seq<Entry>, key: string, e: Entry)
    requires DistinctKeys(entries) && KindOf(key).Some? && e in entries && e.0 == key && e.1 != ""
    ensures HeaderField(Kept(entries), key) == Convert(KindOf(key).value, e.1)
  {
    var kept := Kept(entries);
    KeptDistinct(entries);
    PopulateStores(kept, key);
    assert e.0 != "" by { NoEmptyKey(key); }
    KeptMembers(entries, e);
    var i :| 0 <= i < |kept| && kept[i] == e;
  }

  lemma NoEmptyKey(key: string)
    requires KindOf(key).Some?
    ensures key != ""
  {
  }

  lemma MissingFieldIsDefault(entries: seq<Entry>, key: string)
    requires DistinctKeys(entries) && forall e | e in entries && e.0 == key :: e.1 == ""
    ensures HeaderField(Kept(entries), key) == Default(key)
  {
    KeptDistinct(entries);
    PopulateStores(Kept(entries), key);
    if key in Populate(Kept(entries)) {
      SomebodySentIt(entries, key);
    }
  }

  lemma SomebodySentIt(entries: seq<Entry>, key: string)
    requires exists i | 0 <= i < |Kept(entries)| :: Kept(entries)[i].0 == key
    ensures exists e :: e in entries && e.0 == key && e.1 != ""
  {
    var i :| 0 <= i < |Kept(entries)| && Kept(entries)[i].0 == key;
    KeptMembers(entries, Kept(entries)[i]);
  }

  // ---- what is stored ----

  function DigitOf(n: nat): char
    requires n < 10
  {
    ('0' as int + n) as char
  }

  /** A natural number as Python prints it. */
  function ShowNat(n: nat): (s: string)
    ensures s != "" && forall i | 0 <= i < |s| :: IsDigit(s[i])
  {
    if n < 10 then [DigitOf(n)] else ShowNat(n / 10) + [DigitOf(n % 10)]
  }

  function Show(n: int): string {
    if n < 0 then "-" + ShowNat(-n) else ShowNat(n)
  }

  lemma {:induction false} ReadOneMore(s: string, d: char, rest: string, acc: nat)
    requires (forall i | 0 <= i < |s| :: IsDigit(s[i])) && IsDigit(d) && (rest == "" || !IsDigit(rest[0]))
    ensures LeadingNumber(s + [d] + rest, acc) == 10 * LeadingNumber(s + rest, acc) + (d as int - '0' as int)
  {
    var text := s + [d] + rest;
    if s == "" {
      assert text[1..] == rest && s + rest == rest;
    } else {
      var next := 10 * acc + (s[0] as int - '0' as int);
      assert text[1..] == s[1..] + [d] + rest && (s + rest)[1..] == s[1..] + rest;
      ReadOneMore(s[1..], d, rest, next);
    }
  }

  /** Reading stops at the first character that is no digit. */
  lemma {:induction false} ReadBack(n: nat, rest: string)
    requires rest == "" || !IsDigit(rest[0])
    ensures LeadingNumber(ShowNat(n) + rest, 0) == n
  {
    if n < 10 {
      assert ([DigitOf(n)] + rest)[1..] == rest;
    } else {
      var s, d := ShowNat(n / 10), DigitOf(n % 10);
      ReadBack(n / 10, rest);
      ReadOneMore(s, d, rest, 0);
    }
  }

  /** atoi undoes the printing of every integer, whatever follows it that is no digit. */
  lemma {:induction false} AtoiReadsBack(n: int, rest: string)
    requires rest == "" || !IsDigit(rest[0])
    ensures Atoi(Show(n) + rest) == n
  {
    if n < 0 {
      NegativeReadsBack(-n, rest);
    } else {
      NaturalReadsBack(n, rest);
    }
  }

  lemma {:induction false} NaturalReadsBack(n: nat, rest: string)
    requires rest == "" || !IsDigit(rest[0])
    ensures Atoi(ShowNat(n) + rest) == n
  {
    var text := ShowNat(n);
    assert (text + rest)[0] == text[0];
    ReadBack(n, rest);
    AtoiOfDigits(text + rest);
  }

  lemma {:induction false} NegativeReadsBack(n: nat, rest: string)
    requires rest == "" || !IsDigit(rest[0])
    ensures Atoi("-" + ShowNat(n) + rest) == -(n as int)
  {
    var text := ShowNat(n);
    ReadBack(n, rest);
    AtoiOfMinus(text + rest);
    assert "-" + text + rest == "-" + (text + rest);
  }

  lemma {:induction false} AtoiOfDigits(s: string)
    requires s != "" && IsDigit(s[0])
    ensures Atoi(s) == LeadingNumber(s, 0)
  {
  }

  lemma {:induction false} AtoiOfMinus(s: string)
    ensures Atoi("-" + s) == -(LeadingNumber(s, 0) as int)
  {
    assert ("-" + s)[1..] == s;
  }

  /** A text is stored as it is, or cut so that it fits its array with the terminator. */
  lemma TextIsCut(capacity: nat, value: string)
    requires capacity > 0
    ensures exists text :: Convert(Text(capacity), value) == Chars(text) && text <= value
                           && |text| == if |value| < capacity then |value| else capacity - 1
  {
    if |value| < capacity {
      assert value <= value;
    } else {
      assert value[..capacity - 1] <= value;
    }
  }

  lemma ChannelKey(prefix: string, d: char)
    ensures IsChannelKey(prefix + [d], prefix) <==> '0' <= d <= '6'
  {
    assert prefix <= prefix + [d];
  }

  /** The arrays of the text fields. */
  lemma TextFields()
    ensures KindOf("timestamp_utc") == Some(Text(32)) && KindOf("acquisition_mode") == Some(Text(16))
    ensures KindOf("acquisition_type") == Some(Text(32))
  {
  }

  lemma TextFieldsOfIds()
    ensures KindOf("client_id") == Some(Text(32)) && KindOf("multipmt_id") == Some(Text(32))
    ensures KindOf("batch_id") == Some(Text(32)) && KindOf("run_id") == Some(Text(64))
  {
  }

  lemma TextFieldsOfProgram()
    ensures KindOf("acq_type_param") == Some(Text(32)) && KindOf("software_version") == Some(Text(32))
  {
  }

  lemma LongKeysAreNotWhole(key: string)
    requires |key| > 14
    ensures key !in WHOLE_KEYS
  {
    assert forall k | k in WHOLE_KEYS :: |k| <= 14;
  }

  lemma ThresholdPeField(d: char)
    requires '0' <= d <= '6'
    ensures KindOf("threshold_pe_ch" + [d]) == Some(Real)
  {
    var key := "threshold_pe_ch" + [d];
    ChannelKey("threshold_pe_ch", d);
    LongKeysAreNotWhole(key);
    assert key[0] == 't' && key[10] == 'p';
    assert !IsChannelKey(key, "voltage_ch") && !IsChannelKey(key, "threshold_mv_ch");
  }

  /** The fields without a value: -1 for the mask of bad channels, the voltages and the thresholds,
      0 for the other integers, nothing for a text. */
  lemma Defaults(d: char)
    requires '0' <= d <= '6'
    ensures KindOf("voltage_ch" + [d]) == Some(Whole) && KindOf("threshold_mv_ch" + [d]) == Some(Whole)
    ensures Default("fixed_bad_mask") == Number(-1)
    ensures Default("voltage_ch" + [d]) == Number(-1) && Default("threshold_mv_ch" + [d]) == Number(-1)
    ensures Default("threshold_pe_ch" + [d]) == Decimal("-1")
  {
    ChannelKey("voltage_ch", d);
    ChannelKey("threshold_mv_ch", d);
    ThresholdPeField(d);
  }

  lemma PlainDefaults(key: string)
    requires key in {"version", "timestamp_raw", "status_reg0", "status_reg1", "status_reg10", "status_reg15",
                     "status_reg16", "status_reg18", "status_reg19", "status_reg31", "status_reg39"}
    ensures Default(key) == Number(0)
  {
    assert key[0] == 's' || key[1] == 'e' || key[1] == 'i';
    assert !IsChannelKey(key, "voltage_ch") && !IsChannelKey(key, "threshold_mv_ch");
  }

  /** Every integer of the dictionary arrives in the header as that integer. */
  lemma IntegersArrive(entries: seq<Entry>, key: string, n: int)
    requires forall e | e in entries :: Printable(e) && END !in e.0 && END !in e.1
    requires DistinctKeys(entries) && KindOf(key) == Some(Whole) && (key, Show(n)) in entries
    ensures HeaderField(Parse(Join(Fields(entries))), key) == Number(n)
  {
    HeaderHoldsTheMetadata(entries, key);
    AtoiReadsBack(n, "");
    assert Show(n) + "" == Show(n);
    assert (key, Show(n)).1 != "";
  }
}
