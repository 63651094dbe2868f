/** The hand-written protobuf encoder for an SLS log group, and the decoder that inverts it.

    `VarintBytes`, `KeyValueBytes`, `LogBytes` and `GroupBytes` say which bytes the encoder
    writes; the methods of the same shape as the source are proved to write exactly those.
    The decoder below knows nothing of the encoder: it reads any sequence of protobuf fields
    (Protocol Buffers encoding guide, sections "Base 128 Varints" and "Length-Delimited
    Records"), skips fields it does not know and lets the last occurrence of a singular field
    win. */
module SlsCodec {
  import opened Wrappers
  import opened Seqs

  type Byte = x: int | 0 <= x < 256
  type Word = x: int | 0 <= x < TWO_32
  type Bytes = seq<Byte>
  /** A `Record<string, string>` in the order `Object.entries` lists it; strings are their bytes. */
  type Pairs = seq<(Bytes, Bytes)>

  const TWO_32: int := 0x1_0000_0000

  datatype LogEntry = LogEntry(timestamp: int, content: Pairs, nsPart: Option<int>)
  datatype LogGroup = LogGroup(
    logs: seq<LogEntry>, topic: Option<Bytes>, source: Option<Bytes>, tags: Option<seq<Pairs>>)

  // ---------------------------------------------------------------- varint

  function VarintBytes(n: nat): Bytes
  {
    if n < 0x80 then [n] else [n % 0x80 + 0x80] + VarintBytes(n / 0x80)
  }

  method Varint(value: nat) returns (out: Bytes)
    ensures out == VarintBytes(value)
  {
    out := [];
    var n := value;
    while n >= 0x80
      invariant out + VarintBytes(n) == VarintBytes(value)
    {
      assert out + ([n % 0x80 + 0x80] + VarintBytes(n / 0x80)) == (out + [n % 0x80 + 0x80]) + VarintBytes(n / 0x80);
      out := out + [n % 0x80 + 0x80];
      n := n / 0x80;
    }
    out := out + [n];
  }

  /** Base-128 decoding: the value and the number of bytes it took. */
  function ReadVarint(b: Bytes): Option<(nat, nat)>
  {
    if b == [] then None
    else if b[0] < 0x80 then Some((b[0], 1))
    else
      match ReadVarint(b[1..])
      case None => None
      case Some((high, used)) => Some((b[0] - 0x80 + 0x80 * high, used + 1))
  }

  /** Every natural number survives, and reading stops exactly at the end of its own bytes,
      whatever follows: the encoding is self-delimiting. */
  lemma {:induction false} VarintRoundTrip(n: nat, rest: Bytes)
    ensures ReadVarint(VarintBytes(n) + rest) == Some((n, |VarintBytes(n)|))
  {
    if n >= 0x80 {
      var tail := VarintBytes(n / 0x80);
      assert (VarintBytes(n) + rest)[1..] == tail + rest;
      VarintRoundTrip(n / 0x80, rest);
    }
  }

  /** No encoding of a number is shorter than the one the encoder writes, and an encoding of
      the same length is that one. */
  lemma {:induction false} VarintMinimal(b: Bytes)
    requires ReadVarint(b).Some?
    ensures var (n, used) := ReadVarint(b).value;
            && |VarintBytes(n)| <= used <= |b|
            && (used == |VarintBytes(n)| ==> b[..used] == VarintBytes(n))
  {
    if b[0] >= 0x80 {
      VarintMinimal(b[1..]);
      var (high, used) := ReadVarint(b[1..]).value;
      var n := b[0] - 0x80 + 0x80 * high;
      assert n / 0x80 == high && n % 0x80 == b[0] - 0x80;
      if used + 1 == |VarintBytes(n)| {
        assert b[..used + 1] == [b[0]] + b[1..][..used];
      }
    }
  }

  // ---------------------------------------------------------------- fields

  datatype Field =
    | VarintField(no: nat, value: nat)
    | Fixed32Field(no: nat, word: Word)
    | BytesField(no: nat, body: Bytes)

  function Fixed32Bytes(w: Word): (r: Bytes)
    ensures |r| == 4
  {
    [w % 256, w / 256 % 256, w / 65536 % 256, w / 16777216 % 256]
  }

  function Fixed32Value(b0: int, b1: int, b2: int, b3: int): Word
    requires 0 <= b0 < 256 && 0 <= b1 < 256 && 0 <= b2 < 256 && 0 <= b3 < 256
  {
    b0 + 256 * b1 + 65536 * b2 + 16777216 * b3
  }

  function WireType(f: Field): nat {
    match f case VarintField(_, _) => 0 case Fixed32Field(_, _) => 5 case BytesField(_, _) => 2
  }

  function BodyEncoding(f: Field): Bytes {
    match f
    case VarintField(_, v) => VarintBytes(v)
    case Fixed32Field(_, w) => Fixed32Bytes(w)
    case BytesField(_, body) => VarintBytes(|body|) + body
  }

  function FieldEncoding(f: Field): Bytes {
    VarintBytes(f.no * 8 + WireType(f)) + BodyEncoding(f)
  }

  /** `Buffer.concat`. */
  function Concat(parts: seq<Bytes>): Bytes {
    if parts == [] then [] else parts[0] + Concat(parts[1..])
  }

  function FieldsEncoding(fs: seq<Field>): Bytes { Concat(Map(FieldEncoding, fs)) }

  /** The body of field `no`, given its wire type, with the number of bytes it took. */
  function ReadBody(no: nat, wire: nat, b: Bytes): (r: Option<(Field, nat)>)
    ensures r.Some? ==> 0 <= r.value.1 <= |b|
  {
    if wire == 0 then
      (match ReadVarint(b)
       case None => None
       case Some((v, used)) => ReadVarintLength(b); Some((VarintField(no, v), used)))
    else if wire == 5 then
      if |b| < 4 then None else Some((Fixed32Field(no, Fixed32Value(b[0], b[1], b[2], b[3])), 4))
    else if wire == 2 then
      (match ReadVarint(b)
       case None => None
       case Some((n, used)) =>
         ReadVarintLength(b);
         if |b| < used + n then None else Some((BytesField(no, b[used..used + n]), used + n)))
    else None
  }

  /** One field from the front of `b`, with the number of bytes it took. */
  function ReadField(b: Bytes): (r: Option<(Field, nat)>)
    ensures r.Some? ==> 0 < r.value.1 <= |b|
  {
    match ReadVarint(b)
    case None => None
    case Some((tag, used)) =>
      ReadVarintLength(b);
      match ReadBody(tag / 8, tag % 8, b[used..])
      case None => None
      case Some((f, more)) => Some((f, used + more))
  }

  lemma {:induction false} ReadVarintLength(b: Bytes)
    ensures ReadVarint(b).Some? ==> 0 < ReadVarint(b).value.1 <= |b|
  {
    if b != [] && b[0] >= 0x80 { ReadVarintLength(b[1..]); }
  }

  function ReadFields(b: Bytes): Option<seq<Field>>
    decreases |b|
  {
    if b == [] then Some([])
    else
      match ReadField(b)
      case None => None
      case Some((f, used)) =>
        match ReadFields(b[used..])
        case None => None
        case Some(fs) => Some([f] + fs)
  }

  lemma {:induction false} WordRoundTrip(w: Word)
    ensures var b := Fixed32Bytes(w); Fixed32Value(b[0], b[1], b[2], b[3]) == w
  {
    var r0, q1, q2, q3 := w % 256, w / 256, w / 65536, w / 16777216;
    assert w == 256 * q1 + r0;
    SecondByte(w);
    ThirdByte(w);
    assert q3 % 256 == q3;
  }

  lemma {:induction false} SecondByte(w: nat)
    ensures w / 256 == 256 * (w / 65536) + w / 256 % 256
  {
    var q := w / 65536;
    assert 65536 * q <= w < 65536 * q + 65536;
    DigitIs(w / 256, q);
  }

  lemma {:induction false} ThirdByte(w: nat)
    ensures w / 65536 == 256 * (w / 16777216) + w / 65536 % 256
  {
    var q := w / 16777216;
    assert 16777216 * q <= w < 16777216 * q + 16777216;
    DigitIs(w / 65536, q);
  }

  lemma {:induction false} DigitIs(x: nat, q: nat)
    requires 256 * q <= x < 256 * q + 256
    ensures x % 256 == x - 256 * q
  {
  }

  lemma {:induction false} BodyRoundTrip(f: Field, rest: Bytes)
    ensures ReadBody(f.no, WireType(f), BodyEncoding(f) + rest) == Some((f, |BodyEncoding(f)|))
  {
    match f
    case VarintField(no, v) => VarintRoundTrip(v, rest);
    case Fixed32Field(no, w) =>
      var b := Fixed32Bytes(w) + rest;
      assert b[0] == Fixed32Bytes(w)[0] && b[1] == Fixed32Bytes(w)[1] && b[2] == Fixed32Bytes(w)[2] && b[3] == Fixed32Bytes(w)[3];
      WordRoundTrip(w);
    case BytesField(no, body) =>
      var len := VarintBytes(|body|);
      assert len + body + rest == len + (body + rest);
      VarintRoundTrip(|body|, body + rest);
      assert (len + (body + rest))[|len|..|len| + |body|] == body;
  }

  lemma {:induction false} TagRoundTrip(no: nat, wire: nat, f: Field, body: Bytes, rest: Bytes)
    requires wire < 8 && ReadBody(no, wire, body + rest) == Some((f, |body|))
    ensures ReadField(VarintBytes(no * 8 + wire) + body + rest) == Some((f, |VarintBytes(no * 8 + wire) + body|))
  {
    var tag := no * 8 + wire;
    var head := VarintBytes(tag);
    assert tag / 8 == no && tag % 8 == wire;
    assert head + body + rest == head + (body + rest);
    VarintRoundTrip(tag, body + rest);
    assert (head + (body + rest))[|head|..] == body + rest;
  }

  lemma {:induction false} FieldRoundTrip(f: Field, rest: Bytes)
    ensures ReadField(FieldEncoding(f) + rest) == Some((f, |FieldEncoding(f)|))
  {
    BodyRoundTrip(f, rest);
    TagRoundTrip(f.no, WireType(f), f, BodyEncoding(f), rest);
  }

  /** Any sequence of fields is recovered from the concatenation of its encodings. */
  lemma {:induction false} FieldsRoundTrip(fs: seq<Field>)
    ensures ReadFields(FieldsEncoding(fs)) == Some(fs)
  {
    if fs != [] {
      var first, rest := FieldEncoding(fs[0]), FieldsEncoding(fs[1..]);
      assert Map(FieldEncoding, fs)[1..] == Map(FieldEncoding, fs[1..]);
      FieldRoundTrip(fs[0], rest);
      assert (first + rest)[|first|..] == rest;
      FieldsRoundTrip(fs[1..]);
      assert first + rest != [];
      assert [fs[0]] + fs[1..] == fs;
    }
  }

  // ---------------------------------------------------------------- what the encoder writes

  /** `value >>> 0` on an integer. */
  function ToUint32(x: int): Word { x % TWO_32 }

  function KeyValueBytes(kv: (Bytes, Bytes)): Bytes {
    FieldsEncoding([BytesField(1, kv.0), BytesField(2, kv.1)])
  }

  function PairFields(no: nat, pairs: Pairs): (r: seq<Field>)
  {
    seq(|pairs|, i requires 0 <= i < |pairs| => BytesField(no, KeyValueBytes(pairs[i])))
  }

  function Flatten(tags: seq<Pairs>): Pairs {
    if tags == [] then [] else tags[0] + Flatten(tags[1..])
  }

  function NsFields(ns: Option<int>): (r: seq<Field>)
  {
    if ns.Some? then [Fixed32Field(4, ToUint32(ns.value))] else []
  }

  function LogFields(log: LogEntry): (r: seq<Field>)
  {
    [VarintField(1, ToUint32(log.timestamp))]
    + PairFields(2, log.content)
    + NsFields(log.nsPart)
  }

  function LogBytes(log: LogEntry): Bytes { FieldsEncoding(LogFields(log)) }

  function TextOr(text: Option<Bytes>): Bytes { text.GetOr([]) }

  function TagsOf(g: LogGroup): Pairs { Flatten(g.tags.GetOr([])) }

  function TextField(no: nat, text: Option<Bytes>): (r: seq<Field>)
  {
    if TextOr(text) == [] then [] else [BytesField(no, TextOr(text))]
  }

  function LogsFields(logs: seq<LogEntry>): (r: seq<Field>)
  {
    seq(|logs|, i requires 0 <= i < |logs| => BytesField(1, LogBytes(logs[i])))
  }

  function GroupFields(g: LogGroup): (r: seq<Field>)
  {
    LogsFields(g.logs) + TextField(3, g.topic) + TextField(4, g.source) + PairFields(6, TagsOf(g))
  }

  function GroupBytes(g: LogGroup): Bytes { FieldsEncoding(GroupFields(g)) }

  // ---------------------------------------------------------------- the encoder

  method FieldVarint(fieldNo: nat, value: nat) returns (r: Bytes)
    ensures r == FieldEncoding(VarintField(fieldNo, value))
  {
    var tag := Varint(fieldNo * 8);
    var v := Varint(value);
    r := tag + v;
  }

  method FieldBytes(fieldNo: nat, body: Bytes) returns (r: Bytes)
    ensures r == FieldEncoding(BytesField(fieldNo, body))
  {
    var tag := Varint(fieldNo * 8 + 2);
    var len := Varint(|body|);
    r := tag + len + body;
  }

  /** The tag goes out as one raw byte, cut to eight bits: that is the field's encoding exactly
      for the field numbers whose tag is a varint of one byte. */
  method FieldFixed32(fieldNo: nat, value: Word) returns (r: Bytes)
    ensures r == [(fieldNo * 8 + 5) % 256] + Fixed32Bytes(value)
    ensures r == FieldEncoding(Fixed32Field(fieldNo, value)) <==> fieldNo < 16
  {
    var out := new Byte[5];
    out[0] := (fieldNo * 8 + 5) % 256;
    out[1], out[2], out[3], out[4] := value % 256, value / 256 % 256, value / 65536 % 256, value / 16777216 % 256;
    r := out[..];
    Fixed32TagFits(fieldNo, value);
  }

  lemma {:induction false} Fixed32TagFits(fieldNo: nat, value: Word)
    ensures [(fieldNo * 8 + 5) % 256] + Fixed32Bytes(value) == FieldEncoding(Fixed32Field(fieldNo, value))
       <==> fieldNo < 16
  {
    var tag := fieldNo * 8 + 5;
    if tag >= 0x80 {
      assert |VarintBytes(tag)| == 1 + |VarintBytes(tag / 0x80)| && |VarintBytes(tag / 0x80)| >= 1;
    }
  }

  method EncodeKeyValue(key: Bytes, value: Bytes) returns (r: Bytes)
    ensures r == KeyValueBytes((key, value))
  {
    var k := FieldBytes(1, key);
    var v := FieldBytes(2, value);
    r := Concat([k, v]);
    assert Map(FieldEncoding, [BytesField(1, key), BytesField(2, value)]) == [k, v];
  }

  lemma {:induction false} PairFieldsSnoc(no: nat, pairs: Pairs, kv: (Bytes, Bytes))
    ensures PairFields(no, pairs + [kv]) == PairFields(no, pairs) + [BytesField(no, KeyValueBytes(kv))]
  {
  }

  method EncodeLog(log: LogEntry) returns (r: Bytes)
    ensures r == LogBytes(log)
  {
    var time := ToUint32(log.timestamp);
    var field := FieldVarint(1, time);
    var parts := [field];
    ghost var done: Pairs := [];
    assert Map(FieldEncoding, [VarintField(1, time)] + PairFields(2, done)) == parts;
    for i := 0 to |log.content|
      invariant done == log.content[..i]
      invariant parts == Map(FieldEncoding, [VarintField(1, time)] + PairFields(2, done))
    {
      var kv := log.content[i];
      field := EncodePair(2, kv);
      parts := parts + [field];
      MapSnoc(FieldEncoding, [VarintField(1, time)] + PairFields(2, done), BytesField(2, KeyValueBytes(kv)));
      PairFieldsSnoc(2, done, kv);
      done := done + [kv];
      AppendAssociates([VarintField(1, time)], PairFields(2, log.content[..i]), [BytesField(2, KeyValueBytes(kv))]);
    }
    assert done == log.content;
    ghost var fs := [VarintField(1, time)] + PairFields(2, done);
    if log.nsPart.Some? {
      field := FieldFixed32(4, ToUint32(log.nsPart.value));
      MapSnoc(FieldEncoding, fs, Fixed32Field(4, ToUint32(log.nsPart.value)));
      parts := parts + [field];
    } else {
      assert fs + [] == fs;
    }
    r := Concat(parts);
  }

  /** `fieldBytes(no, encodeKeyValue(key, value))`. */
  method EncodePair(no: nat, kv: (Bytes, Bytes)) returns (r: Bytes)
    ensures r == FieldEncoding(BytesField(no, KeyValueBytes(kv)))
  {
    var body := EncodeKeyValue(kv.0, kv.1);
    r := FieldBytes(no, body);
  }

  lemma {:induction false} FlattenSnoc(tags: seq<Pairs>, t: Pairs)
    ensures Flatten(tags + [t]) == Flatten(tags) + t
  {
    if tags == [] {
      assert tags + [t] == [t] && Flatten([t]) == t + Flatten([]);
    } else {
      assert (tags + [t])[1..] == tags[1..] + [t];
      FlattenSnoc(tags[1..], t);
    }
  }

  method EncodeSlsLogGroup(payload: LogGroup) returns (r: Bytes)
    ensures r == GroupBytes(payload)
  {
    var parts := PushLogs(payload.logs);
    ghost var done := LogsFields(payload.logs);
    parts := PushText(parts, done, 3, payload.topic);
    done := done + TextField(3, payload.topic);
    parts := PushText(parts, done, 4, payload.source);
    done := done + TextField(4, payload.source);
    parts := PushTags(parts, done, payload.tags.GetOr([]));
    r := Concat(parts);
  }

  /** The loop over the logs. */
  method PushLogs(logs: seq<LogEntry>) returns (parts: seq<Bytes>)
    ensures parts == Map(FieldEncoding, LogsFields(logs))
  {
    parts := [];
    ghost var done: seq<Field> := [];
    for i := 0 to |logs|
      invariant done == LogsFields(logs)[..i]
      invariant parts == Map(FieldEncoding, done)
    {
      var field := EncodeLogField(logs[i]);
      MapSnoc(FieldEncoding, done, LogsFields(logs)[i]);
      parts := parts + [field];
      done := done + [LogsFields(logs)[i]];
    }
    assert done == LogsFields(logs);
  }

  /** `fieldBytes(1, encodeLog(log))`. */
  method EncodeLogField(log: LogEntry) returns (field: Bytes)
    ensures field == FieldEncoding(BytesField(1, LogBytes(log)))
  {
    var body := EncodeLog(log);
    field := FieldBytes(1, body);
  }

  /** `if (text) parts.push(fieldBytes(no, text))`: absent and empty text are both falsy. */
  method PushText(parts: seq<Bytes>, ghost done: seq<Field>, no: nat, text: Option<Bytes>) returns (r: seq<Bytes>)
    requires parts == Map(FieldEncoding, done)
    ensures r == Map(FieldEncoding, done + TextField(no, text))
  {
    r := parts;
    if TextOr(text) == [] {
      assert done + [] == done;
    } else {
      var field := FieldBytes(no, TextOr(text));
      MapSnoc(FieldEncoding, done, BytesField(no, TextOr(text)));
      r := r + [field];
    }
  }

  /** The two nested loops over the tags. */
  method PushTags(parts: seq<Bytes>, ghost head: seq<Field>, tags: seq<Pairs>) returns (r: seq<Bytes>)
    requires parts == Map(FieldEncoding, head)
    ensures r == Map(FieldEncoding, head + PairFields(6, Flatten(tags)))
  {
    r := parts;
    assert head + PairFields(6, Flatten(tags[..0])) == head;
    for i := 0 to |tags|
      invariant r == Map(FieldEncoding, head + PairFields(6, Flatten(tags[..i])))
    {
      r := PushTag(r, head, Flatten(tags[..i]), tags[i]);
      FlattenSnoc(tags[..i], tags[i]);
      assert tags[..i + 1] == tags[..i] + [tags[i]];
    }
    assert tags[..|tags|] == tags;
  }

  method PushTag(parts: seq<Bytes>, ghost head: seq<Field>, ghost before: Pairs, tag: Pairs) returns (r: seq<Bytes>)
    requires parts == Map(FieldEncoding, head + PairFields(6, before))
    ensures r == Map(FieldEncoding, head + PairFields(6, before + tag))
  {
    r := parts;
    ghost var done := before;
    for j := 0 to |tag|
      invariant done == before + tag[..j]
      invariant r == Map(FieldEncoding, head + PairFields(6, done))
    {
      var kv := tag[j];
      var field := EncodePair(6, kv);
      MapSnoc(FieldEncoding, head + PairFields(6, done), BytesField(6, KeyValueBytes(kv)));
      PairFieldsSnoc(6, done, kv);
      AppendAssociates(head, PairFields(6, done), [BytesField(6, KeyValueBytes(kv))]);
      r := r + [field];
      done := done + [kv];
    }
    assert done == before + tag;
  }

  // ---------------------------------------------------------------- the decoder

  datatype DecodedLog = DecodedLog(time: nat, content: Pairs, nsPart: Option<Word>)
  datatype DecodedGroup = DecodedGroup(logs: seq<DecodedLog>, topic: Bytes, source: Bytes, tags: Pairs)

  function FoldKeyValue(fs: seq<Field>, kv: (Bytes, Bytes)): (Bytes, Bytes) {
    if fs == [] then kv
    else FoldKeyValue(fs[1..],
      match fs[0]
      case BytesField(1, body) => (body, kv.1)
      case BytesField(2, body) => (kv.0, body)
      case _ => kv)
  }

  function DecodeKeyValue(b: Bytes): Option<(Bytes, Bytes)> {
    match ReadFields(b)
    case None => None
    case Some(fs) => Some(FoldKeyValue(fs, ([], [])))
  }

  /** What one field contributes to a log; a known field with a malformed body is an error. */
  datatype LogItem = TimeItem(time: nat) | PairItem(kv: (Bytes, Bytes)) | NsItem(ns: Word) | OtherLogItem | BadLogItem

  function ToLogItem(f: Field): LogItem {
    match f
    case VarintField(1, v) => TimeItem(v)
    case BytesField(2, body) =>
      (match DecodeKeyValue(body)
       case None => BadLogItem
       case Some(kv) => PairItem(kv))
    case Fixed32Field(4, w) => NsItem(w)
    case _ => OtherLogItem
  }

  function FoldLog(items: seq<LogItem>, log: DecodedLog): Option<DecodedLog> {
    if items == [] then Some(log)
    else
      match items[0]
      case TimeItem(v) => FoldLog(items[1..], log.(time := v))
      case PairItem(kv) => FoldLog(items[1..], log.(content := log.content + [kv]))
      case NsItem(w) => FoldLog(items[1..], log.(nsPart := Some(w)))
      case OtherLogItem => FoldLog(items[1..], log)
      case BadLogItem => None
  }

  function DecodeLog(b: Bytes): Option<DecodedLog> {
    match ReadFields(b)
    case None => None
    case Some(fs) => FoldLog(Map(ToLogItem, fs), DecodedLog(0, [], None))
  }

  datatype GroupItem =
    | LogItemOf(log: DecodedLog) | TopicItem(text: Bytes) | SourceItem(text: Bytes) | TagItem(kv: (Bytes, Bytes))
    | OtherGroupItem | BadGroupItem

  function ToGroupItem(f: Field): GroupItem {
    match f
    case BytesField(1, body) =>
      (match DecodeLog(body)
       case None => BadGroupItem
       case Some(log) => LogItemOf(log))
    case BytesField(3, body) => TopicItem(body)
    case BytesField(4, body) => SourceItem(body)
    case BytesField(6, body) =>
      (match DecodeKeyValue(body)
       case None => BadGroupItem
       case Some(kv) => TagItem(kv))
    case _ => OtherGroupItem
  }

  function FoldGroup(items: seq<GroupItem>, g: DecodedGroup): Option<DecodedGroup> {
    if items == [] then Some(g)
    else
      match items[0]
      case LogItemOf(log) => FoldGroup(items[1..], g.(logs := g.logs + [log]))
      case TopicItem(text) => FoldGroup(items[1..], g.(topic := text))
      case SourceItem(text) => FoldGroup(items[1..], g.(source := text))
      case TagItem(kv) => FoldGroup(items[1..], g.(tags := g.tags + [kv]))
      case OtherGroupItem => FoldGroup(items[1..], g)
      case BadGroupItem => None
  }

  function DecodeGroup(b: Bytes): Option<DecodedGroup> {
    match ReadFields(b)
    case None => None
    case Some(fs) => FoldGroup(Map(ToGroupItem, fs), DecodedGroup([], [], [], []))
  }

  // ---------------------------------------------------------------- round trip

  function NormalLog(log: LogEntry): DecodedLog {
    DecodedLog(ToUint32(log.timestamp), log.content,
               if log.nsPart.Some? then Some(ToUint32(log.nsPart.value)) else None)
  }

  /** What the wire format can carry of a payload: 32-bit times, one flat tag list, and no
      difference between an absent and an empty topic or source. */
  function Normal(g: LogGroup): DecodedGroup {
    DecodedGroup(Map(NormalLog, g.logs), TextOr(g.topic), TextOr(g.source), TagsOf(g))
  }

  lemma {:induction false} KeyValueRoundTrip(kv: (Bytes, Bytes))
    ensures DecodeKeyValue(KeyValueBytes(kv)) == Some(kv)
  {
    var fs := [BytesField(1, kv.0), BytesField(2, kv.1)];
    FieldsRoundTrip(fs);
    assert fs[1..] == [BytesField(2, kv.1)];
    assert FoldKeyValue(fs, ([], [])) == FoldKeyValue(fs[1..], (kv.0, []));
    assert FoldKeyValue(fs[1..], (kv.0, [])) == FoldKeyValue([], kv);
  }

  lemma {:induction false} FoldLogPairs(pairs: Pairs, rest: seq<LogItem>, log: DecodedLog)
    ensures FoldLog(Map(kv => PairItem(kv), pairs) + rest, log) == FoldLog(rest, log.(content := log.content + pairs))
  {
    var items := Map(kv => PairItem(kv), pairs) + rest;
    if pairs == [] {
      assert items == rest && log.content + pairs == log.content;
    } else {
      assert items[1..] == Map(kv => PairItem(kv), pairs[1..]) + rest;
      FoldLogPairs(pairs[1..], rest, log.(content := log.content + [pairs[0]]));
      ConsConcat(log.content, pairs);
    }
  }

  function NsItems(ns: Option<int>): seq<LogItem> {
    if ns.Some? then [NsItem(ToUint32(ns.value))] else []
  }

  lemma {:induction false} PairFieldsAsItems(pairs: Pairs)
    ensures Map(ToLogItem, PairFields(2, pairs)) == Map(kv => PairItem(kv), pairs)
  {
    var fs := PairFields(2, pairs);
    forall i | 0 <= i < |pairs| ensures ToLogItem(fs[i]) == PairItem(pairs[i]) {
      KeyValueRoundTrip(pairs[i]);
    }
  }

  lemma {:induction false} LogFieldsAsItems(log: LogEntry)
    ensures Map(ToLogItem, LogFields(log))
         == [TimeItem(ToUint32(log.timestamp))] + (Map(kv => PairItem(kv), log.content) + NsItems(log.nsPart))
  {
    PairFieldsAsItems(log.content);
    MapConcat(ToLogItem, [VarintField(1, ToUint32(log.timestamp))] + PairFields(2, log.content), NsFields(log.nsPart));
    MapConcat(ToLogItem, [VarintField(1, ToUint32(log.timestamp))], PairFields(2, log.content));
    assert Map(ToLogItem, NsFields(log.nsPart)) == NsItems(log.nsPart);
    assert Map(ToLogItem, [VarintField(1, ToUint32(log.timestamp))]) == [TimeItem(ToUint32(log.timestamp))];
  }

  lemma {:induction false} FoldLogItems(time: nat, pairs: Pairs, ns: Option<int>)
    ensures FoldLog([TimeItem(time)] + (Map(kv => PairItem(kv), pairs) + NsItems(ns)), DecodedLog(0, [], None))
         == Some(DecodedLog(time, pairs, if ns.Some? then Some(ToUint32(ns.value)) else None))
  {
    FoldLogPairs(pairs, NsItems(ns), DecodedLog(time, [], None));
    assert ([TimeItem(time)] + (Map(kv => PairItem(kv), pairs) + NsItems(ns)))[1..] == Map(kv => PairItem(kv), pairs) + NsItems(ns);
    assert [] + pairs == pairs;
    if ns.Some? { assert NsItems(ns)[1..] == []; }
  }

  lemma {:induction false} LogRoundTrip(log: LogEntry)
    ensures DecodeLog(LogBytes(log)) == Some(NormalLog(log))
  {
    FieldsRoundTrip(LogFields(log));
    LogFieldsAsItems(log);
    FoldLogItems(ToUint32(log.timestamp), log.content, log.nsPart);
  }

  lemma {:induction false} FoldGroupLogs(logs: seq<DecodedLog>, rest: seq<GroupItem>, g: DecodedGroup)
    ensures FoldGroup(Map(log => LogItemOf(log), logs) + rest, g) == FoldGroup(rest, g.(logs := g.logs + logs))
  {
    var items := Map(log => LogItemOf(log), logs) + rest;
    if logs == [] {
      assert items == rest && g.logs + logs == g.logs;
    } else {
      assert items[1..] == Map(log => LogItemOf(log), logs[1..]) + rest;
      FoldGroupLogs(logs[1..], rest, g.(logs := g.logs + [logs[0]]));
      ConsConcat(g.logs, logs);
    }
  }

  lemma {:induction false} FoldGroupTags(pairs: Pairs, g: DecodedGroup)
    ensures FoldGroup(Map(kv => TagItem(kv), pairs), g) == Some(g.(tags := g.tags + pairs))
  {
    var items := Map(kv => TagItem(kv), pairs);
    if pairs == [] {
      assert g.tags + pairs == g.tags;
    } else {
      assert items[1..] == Map(kv => TagItem(kv), pairs[1..]);
      FoldGroupTags(pairs[1..], g.(tags := g.tags + [pairs[0]]));
      ConsConcat(g.tags, pairs);
    }
  }

  function TextItems(g: LogGroup): seq<GroupItem> {
    (if TextOr(g.topic) == [] then [] else [TopicItem(TextOr(g.topic))])
    + (if TextOr(g.source) == [] then [] else [SourceItem(TextOr(g.source))])
  }

  lemma {:induction false} FoldGroupText(g: LogGroup, rest: seq<GroupItem>, d: DecodedGroup)
    requires d.topic == [] && d.source == []
    ensures FoldGroup(TextItems(g) + rest, d) == FoldGroup(rest, d.(topic := TextOr(g.topic), source := TextOr(g.source)))
  {
    var items := TextItems(g) + rest;
    if |TextItems(g)| == 0 {
      assert items == rest;
    } else if |TextItems(g)| == 1 {
      assert items[1..] == rest;
    } else {
      assert items[1..][1..] == rest;
    }
  }

  lemma {:induction false} LogsFieldsAsItems(logs: seq<LogEntry>)
    ensures Map(ToGroupItem, LogsFields(logs)) == Map(log => LogItemOf(log), Map(NormalLog, logs))
  {
    var fs := LogsFields(logs);
    forall i | 0 <= i < |logs| ensures ToGroupItem(fs[i]) == LogItemOf(NormalLog(logs[i])) {
      LogRoundTrip(logs[i]);
    }
  }

  lemma {:induction false} TagFieldsAsItems(pairs: Pairs)
    ensures Map(ToGroupItem, PairFields(6, pairs)) == Map(kv => TagItem(kv), pairs)
  {
    var fs := PairFields(6, pairs);
    forall i | 0 <= i < |pairs| ensures ToGroupItem(fs[i]) == TagItem(pairs[i]) {
      KeyValueRoundTrip(pairs[i]);
    }
  }

  lemma {:induction false} TextFieldsAsItems(g: LogGroup)
    ensures Map(ToGroupItem, TextField(3, g.topic) + TextField(4, g.source)) == TextItems(g)
  {
  }

  lemma {:induction false} GroupFieldsAsItems(g: LogGroup)
    ensures Map(ToGroupItem, GroupFields(g))
         == Map(log => LogItemOf(log), Map(NormalLog, g.logs)) + (TextItems(g) + Map(kv => TagItem(kv), TagsOf(g)))
  {
    LogsFieldsAsItems(g.logs);
    TextFieldsAsItems(g);
    TagFieldsAsItems(TagsOf(g));
    var logs, text, tags := LogsFields(g.logs), TextField(3, g.topic) + TextField(4, g.source), PairFields(6, TagsOf(g));
    MapConcat(ToGroupItem, logs, text + tags);
    MapConcat(ToGroupItem, text, tags);
    AppendAssociates(logs, TextField(3, g.topic), TextField(4, g.source));
    AppendAssociates(logs, text, tags);
  }

  lemma {:induction false} FoldGroupItems(g: LogGroup, logs: seq<DecodedLog>)
    ensures FoldGroup(Map(log => LogItemOf(log), logs) + (TextItems(g) + Map(kv => TagItem(kv), TagsOf(g))),
                      DecodedGroup([], [], [], []))
         == Some(DecodedGroup(logs, TextOr(g.topic), TextOr(g.source), TagsOf(g)))
  {
    var tags := Map(kv => TagItem(kv), TagsOf(g));
    FoldGroupLogs(logs, TextItems(g) + tags, DecodedGroup([], [], [], []));
    var d1 := DecodedGroup([] + logs, [], [], []);
    FoldGroupText(g, tags, d1);
    FoldGroupTags(TagsOf(g), d1.(topic := TextOr(g.topic), source := TextOr(g.source)));
    assert [] + logs == logs && [] + TagsOf(g) == TagsOf(g);
  }

  /** Decoding what the encoder writes yields the payload in normal form. */
  lemma {:induction false} GroupRoundTrip(g: LogGroup)
    ensures DecodeGroup(GroupBytes(g)) == Some(Normal(g))
  {
    FieldsRoundTrip(GroupFields(g));
    GroupFieldsAsItems(g);
    FoldGroupItems(g, Map(NormalLog, g.logs));
  }

  lemma {:induction false} NormalLogDeterminesBytes(a: LogEntry, b: LogEntry)
    requires NormalLog(a) == NormalLog(b)
    ensures LogBytes(a) == LogBytes(b)
  {
    assert PairFields(2, a.content) == PairFields(2, b.content);
    assert LogFields(a) == LogFields(b);
  }

  /** Two payloads share their bytes exactly when they share their normal form. */
  lemma {:induction false} EncodingIsInjectiveOnNormalForms(a: LogGroup, b: LogGroup)
    ensures GroupBytes(a) == GroupBytes(b) <==> Normal(a) == Normal(b)
  {
    GroupRoundTrip(a);
    GroupRoundTrip(b);
    if Normal(a) == Normal(b) {
      assert |a.logs| == |Normal(a).logs| == |b.logs|;
      forall i | 0 <= i < |a.logs| ensures LogsFields(a.logs)[i] == LogsFields(b.logs)[i] {
        assert Normal(a).logs[i] == Normal(b).logs[i];
        NormalLogDeterminesBytes(a.logs[i], b.logs[i]);
      }
      assert LogsFields(a.logs) == LogsFields(b.logs);
      assert TagsOf(a) == TagsOf(b);
      assert PairFields(6, TagsOf(a)) == PairFields(6, TagsOf(b));
      assert GroupFields(a) == GroupFields(b);
    }
  }

  // ---------------------------------------------------------------- the payload itself comes back

  /** A number that came back is the one sent, cut to 32 bits; it is the one sent if that fits. */
  predicate Carries(sent: int, got: int) {
    0 <= got < 4294967296 && (sent - got) % 4294967296 == 0 && (0 <= sent < 4294967296 ==> got == sent)
  }

  predicate CarriesLog(sent: LogEntry, got: DecodedLog) {
    && Carries(sent.timestamp, got.time) && got.content == sent.content
    && (sent.nsPart.None? ==> got.nsPart.None?)
    && (sent.nsPart.Some? ==> got.nsPart.Some? && Carries(sent.nsPart.value, got.nsPart.value))
  }

  /** How many pairs the first `n` tag records have. */
  function PairCount(tags: seq<Pairs>, n: nat): nat
    requires n <= |tags|
  {
    if n == 0 then 0 else PairCount(tags, n - 1) + |tags[n - 1]|
  }

  /** Tag record `i` stands in the list right after the records before it. */
  predicate TagInPlace(sent: seq<Pairs>, got: Pairs, i: nat)
    requires i < |sent|
  {
    PairCount(sent, i) + |sent[i]| <= |got| && got[PairCount(sent, i)..PairCount(sent, i) + |sent[i]|] == sent[i]
  }

  lemma {:induction false} Uint32Carries(x: int)
    ensures Carries(x, ToUint32(x))
  {
    assert x == TWO_32 * (x / TWO_32) + x % TWO_32;
    assert (x - ToUint32(x)) == (x / TWO_32) * 4294967296;
    Multiple(x / TWO_32);
  }

  lemma {:induction false} Multiple(q: int)
    ensures (q * 4294967296) % 4294967296 == 0
  {
  }

  lemma {:induction false} FlattenLength(tags: seq<Pairs>, n: nat)
    requires n <= |tags|
    ensures |Flatten(tags[..n])| == PairCount(tags, n)
  {
    if n > 0 {
      FlattenLength(tags, n - 1);
      assert tags[..n] == tags[..n - 1] + [tags[n - 1]];
      FlattenSnoc(tags[..n - 1], tags[n - 1]);
    }
  }

  lemma {:induction false} FlattenInPlace(tags: seq<Pairs>, n: nat, i: nat)
    requires i < n <= |tags|
    ensures TagInPlace(tags, Flatten(tags[..n]), i)
    ensures |Flatten(tags[..n])| == PairCount(tags, n)
  {
    FlattenLength(tags, n);
    FlattenLength(tags, n - 1);
    assert tags[..n] == tags[..n - 1] + [tags[n - 1]];
    FlattenSnoc(tags[..n - 1], tags[n - 1]);
    if i < n - 1 { FlattenInPlace(tags, n - 1, i); }
  }

  /** What a reader of the bytes gets, said of the payload alone: every log with its own content
      and times, topic and source, and the tag records one after the other. */
  lemma {:induction false} PayloadComesBack(g: LogGroup)
    ensures var d := DecodeGroup(GroupBytes(g));
            && d.Some?
            && |d.value.logs| == |g.logs|
            && (forall i :: 0 <= i < |g.logs| ==> CarriesLog(g.logs[i], d.value.logs[i]))
            && d.value.topic == (if g.topic.Some? then g.topic.value else [])
            && d.value.source == (if g.source.Some? then g.source.value else [])
            && (g.tags.None? ==> d.value.tags == [])
            && (g.tags.Some? ==>
                  && |d.value.tags| == PairCount(g.tags.value, |g.tags.value|)
                  && forall i :: 0 <= i < |g.tags.value| ==> TagInPlace(g.tags.value, d.value.tags, i))
  {
    GroupRoundTrip(g);
    forall i | 0 <= i < |g.logs| ensures CarriesLog(g.logs[i], NormalLog(g.logs[i])) {
      Uint32Carries(g.logs[i].timestamp);
      if g.logs[i].nsPart.Some? { Uint32Carries(g.logs[i].nsPart.value); }
    }
    if g.tags.Some? {
      var tags := g.tags.value;
      assert tags[..|tags|] == tags;
      FlattenLength(tags, |tags|);
      forall i | 0 <= i < |tags| ensures TagInPlace(tags, Flatten(tags), i) { FlattenInPlace(tags, |tags|, i); }
    }
  }
}
