/**
 The Protocol Buffers wire format as a grammar, and pbFieldBytes, the cursor loop
 that looks one field up in arbitrary bytes.
 */
module Wire {
  import opened Wrappers

  type Byte = x: int | 0 <= x < 256
  type Bytes = seq<Byte>

  // ---------- varints ----------

  const MAX_VARINT_LEN := 10

  /** Little-endian base-128 value. */
  function Value(bs: Bytes): nat { if bs == [] then 0 else bs[0] % 128 + 128 * Value(bs[1..]) }

  /** At most ten bytes, the last one alone without the continuation bit, and nothing beyond 64 bits. */
  predicate IsVarint(bs: Bytes) {
    && 1 <= |bs| <= MAX_VARINT_LEN
    && (forall i :: 0 <= i < |bs| - 1 ==> bs[i] >= 128)
    && bs[|bs| - 1] < 128
    && (|bs| == MAX_VARINT_LEN ==> bs[|bs| - 1] <= 1)
  }

  /** The position of the first byte without the continuation bit, or the length when there is none. */
  function Terminator(bs: Bytes): nat { if bs == [] || bs[0] < 128 then 0 else 1 + Terminator(bs[1..]) }

  datatype Varint = Varint(value: nat, size: nat)

  /** binary.Uvarint; nothing stands for the non-positive sizes it reports on short or overlong input. */
  function Uvarint(buf: Bytes): Option<Varint> {
    var t := Terminator(buf);
    TerminatorWithin(buf);
    if t == |buf| || t >= MAX_VARINT_LEN || (t == MAX_VARINT_LEN - 1 && buf[t] > 1) then None
    else Some(Varint(Value(buf[..t + 1]), t + 1))
  }

  lemma TerminatorWithin(bs: Bytes)
    ensures Terminator(bs) <= |bs|
    ensures forall i :: 0 <= i < Terminator(bs) ==> bs[i] >= 128
    ensures Terminator(bs) < |bs| ==> bs[Terminator(bs)] < 128
  {
    if bs != [] && bs[0] >= 128 {
      TerminatorWithin(bs[1..]);
      assert forall i :: 1 <= i < |bs| ==> bs[i] == bs[1..][i - 1];
    }
  }

  /** A varint followed by anything is read back whole, and only a varint is read. */
  lemma UvarintReads(vs: Bytes, rest: Bytes)
    requires IsVarint(vs)
    ensures Uvarint(vs + rest) == Some(Varint(Value(vs), |vs|))
  {
    var buf := vs + rest;
    TerminatorWithin(buf);
    assert buf[|vs| - 1] == vs[|vs| - 1];
    assert forall i :: 0 <= i < |vs| - 1 ==> buf[i] == vs[i];
    assert Terminator(buf) == |vs| - 1;
    assert buf[..|vs|] == vs;
  }

  lemma UvarintIsVarint(buf: Bytes)
    requires Uvarint(buf).Some?
    ensures var v := Uvarint(buf).value;
            0 < v.size <= |buf| && IsVarint(buf[..v.size]) && v.value == Value(buf[..v.size])
  {
    TerminatorWithin(buf);
  }

  function Pow128(n: nat): nat { if n == 0 then 1 else 128 * Pow128(n - 1) }

  lemma {:induction false} ValueBelow(bs: Bytes)
    ensures Value(bs) < Pow128(|bs|)
  {
    if bs != [] { ValueBelow(bs[1..]); }
  }

  lemma {:induction false} ValueSplit(low: Bytes, high: Byte)
    ensures Value(low + [high]) == Value(low) + Pow128(|low|) * (high % 128)
  {
    if low == [] {
      assert low + [high] == [high];
    } else {
      ValueSplit(low[1..], high);
      assert (low + [high])[1..] == low[1..] + [high];
    }
  }

  /** What Uvarint returns fits 64 bits, so a field number fits an int. */
  lemma VarintFits(vs: Bytes)
    requires IsVarint(vs)
    ensures Value(vs) < 0x1_0000_0000_0000_0000 && Value(vs) / 8 < 0x8000_0000_0000_0000
  {
    var low, high := vs[..|vs| - 1], vs[|vs| - 1];
    assert vs == low + [high];
    ValueSplit(low, high);
    ValueBelow(low);
    ValueBelow(vs);
    Pow128Grows(|low|, 9);
    Pow128Nine();
    if |vs| <= 9 { Pow128Grows(|vs|, 9); }
  }

  lemma Pow128Nine()
    ensures Pow128(9) == 0x8000_0000_0000_0000
  {
    assert Pow128(3) == 0x20_0000;
    assert Pow128(6) == 0x400_0000_0000;
  }

  lemma {:induction false} Pow128Grows(m: nat, n: nat)
    requires m <= n
    ensures 1 <= Pow128(m) <= Pow128(n)
    decreases n
  {
    if m < n {
      Pow128Grows(m, n - 1);
    } else if n > 0 {
      Pow128Grows(n - 1, n - 1);
    }
  }

  // ---------- fields ----------

  /** Varints keep their bytes: the format allows many encodings of one value. */
  datatype Body = Scalar(raw: Bytes) | Fixed64(raw: Bytes) | Fixed32(raw: Bytes) | Block(length: Bytes, payload: Bytes)

  datatype Field = Field(number: nat, tag: Bytes, body: Body)

  function WireType(b: Body): nat {
    match b case Scalar(_) => 0 case Fixed64(_) => 1 case Block(_, _) => 2 case Fixed32(_) => 5
  }

  predicate WellFormed(f: Field) {
    && f.number > 0
    && IsVarint(f.tag) && Value(f.tag) == 8 * f.number + WireType(f.body)
    && WellFormedBody(f.body)
  }

  predicate WellFormedBody(b: Body) {
    match b
    case Scalar(raw) => IsVarint(raw)
    case Fixed64(raw) => |raw| == 8
    case Fixed32(raw) => |raw| == 4
    case Block(length, payload) => IsVarint(length) && Value(length) == |payload|
  }

  function PrintBody(b: Body): Bytes {
    match b
    case Scalar(raw) => raw
    case Fixed64(raw) => raw
    case Fixed32(raw) => raw
    case Block(length, payload) => length + payload
  }

  function Print(f: Field): Bytes { f.tag + PrintBody(f.body) }

  function PrintAll(fs: seq<Field>): Bytes { if fs == [] then [] else Print(fs[0]) + PrintAll(fs[1..]) }

  predicate AllWellFormed(fs: seq<Field>) { forall f :: f in fs ==> WellFormed(f) }

  /** The field pbFieldBytes looks for. */
  predicate Wanted(f: Field, number: nat) { f.number == number && f.body.Block? }

  predicate NoneWanted(fs: seq<Field>, number: nat) { forall f :: f in fs ==> !Wanted(f, number) }

  datatype WireError =
    | BadTag | FieldZero | BadVarint | ShortFixed64 | ShortFixed32 | BadLength | LengthOutOfRange
    | BadWireType(wire: nat) | NotFound(number: nat)

  /** What follows a tag of this wire type. */
  function ReadBody(rest: Bytes, wire: nat): Result<Body, WireError> {
    if wire == 0 then
      if Uvarint(rest).None? then Err(BadVarint)
      else UvarintIsVarint(rest); Ok(Scalar(rest[..Uvarint(rest).value.size]))
    else if wire == 1 then
      if |rest| < 8 then Err(ShortFixed64) else Ok(Fixed64(rest[..8]))
    else if wire == 5 then
      if |rest| < 4 then Err(ShortFixed32) else Ok(Fixed32(rest[..4]))
    else if wire == 2 then
      if Uvarint(rest).None? then Err(BadLength)
      else
        UvarintIsVarint(rest);
        var l := Uvarint(rest).value;
        if l.value > |rest| - l.size then Err(LengthOutOfRange)
        else Ok(Block(rest[..l.size], rest[l.size..l.size + l.value]))
    else Err(BadWireType(wire))
  }

  lemma BodyIsThere(rest: Bytes, wire: nat)
    requires ReadBody(rest, wire).Ok?
    ensures var b := ReadBody(rest, wire).value;
            WellFormedBody(b) && WireType(b) == wire && |PrintBody(b)| <= |rest|
            && PrintBody(b) == rest[..|PrintBody(b)|]
  {
    if Uvarint(rest).Some? { UvarintIsVarint(rest); }
  }

  lemma BodyPrinted(b: Body, rest: Bytes)
    requires WellFormedBody(b)
    ensures ReadBody(PrintBody(b) + rest, WireType(b)) == Ok(b)
  {
    match b
    case Scalar(raw) =>
      UvarintReads(raw, rest);
      assert (raw + rest)[..|raw|] == raw;
    case Fixed64(raw) => assert (raw + rest)[..8] == raw;
    case Fixed32(raw) => assert (raw + rest)[..4] == raw;
    case Block(length, payload) =>
      var buf := length + payload + rest;
      assert buf == length + (payload + rest);
      UvarintReads(length, payload + rest);
      assert buf[..|length|] == length;
      assert buf[|length|..|length| + |payload|] == payload;
  }

  /** One tag and what follows it; reading stops at the first malformed part. */
  function ReadField(buf: Bytes): Result<Field, WireError> {
    if Uvarint(buf).None? then Err(BadTag)
    else
      UvarintIsVarint(buf);
      var t := Uvarint(buf).value;
      if t.value / 8 == 0 then Err(FieldZero)
      else
        match ReadBody(buf[t.size..], t.value % 8)
        case Err(e) => Err(e)
        case Ok(body) => Ok(Field(t.value / 8, buf[..t.size], body))
  }

  lemma FieldIsThere(buf: Bytes)
    requires ReadField(buf).Ok?
    ensures var f := ReadField(buf).value; WellFormed(f) && 0 < |Print(f)| <= |buf| && Print(f) == buf[..|Print(f)|]
  {
    UvarintIsVarint(buf);
    var t := Uvarint(buf).value;
    var behind := buf[t.size..];
    BodyIsThere(behind, t.value % 8);
    TagSplits(t.value);
    TwoParts(buf, t.size, |PrintBody(ReadBody(behind, t.value % 8).value)|);
  }

  lemma TagSplits(v: nat)
    ensures v == 8 * (v / 8) + v % 8
  {
  }

  lemma TwoParts(buf: Bytes, n: nat, k: nat)
    requires n <= |buf| && k <= |buf[n..]|
    ensures buf[..n] + buf[n..][..k] == buf[..n + k]
  {
  }

  lemma TagReads(number: nat, wire: nat)
    requires wire < 8
    ensures (8 * number + wire) / 8 == number && (8 * number + wire) % 8 == wire
  {
  }

  /** A field printed in front of anything is what is read. */
  lemma FieldPrinted(f: Field, rest: Bytes)
    requires WellFormed(f)
    ensures ReadField(Print(f) + rest) == Ok(f)
  {
    hide Uvarint, IsVarint, Value, ReadBody, WellFormedBody;
    var buf := Print(f) + rest;
    var behind := PrintBody(f.body) + rest;
    assert buf == f.tag + behind;
    UvarintReads(f.tag, behind);
    assert buf[|f.tag|..] == behind && buf[..|f.tag|] == f.tag;
    BodyPrinted(f.body, rest);
    TagReads(f.number, WireType(f.body));
  }

  /** The payload of the first wanted field: read a field, stop or go on behind it. */
  function FieldBytes(buf: Bytes, number: nat): Result<Bytes, WireError>
    decreases |buf|
  {
    if buf == [] then Err(NotFound(number))
    else
      match ReadField(buf)
      case Err(e) => Err(e)
      case Ok(f) =>
        FieldIsThere(buf);
        if Wanted(f, number) then Ok(f.body.payload) else FieldBytes(buf[|Print(f)|..], number)
  }

  /** Each well-formed field in front is either the answer or skipped. */
  lemma FieldBytesPrinted(f: Field, rest: Bytes, number: nat)
    requires WellFormed(f)
    ensures FieldBytes(Print(f) + rest, number)
            == if Wanted(f, number) then Ok(f.body.payload) else FieldBytes(rest, number)
  {
    FieldPrinted(f, rest);
    assert (Print(f) + rest)[|Print(f)|..] == rest;
  }

  /** Unless the answer is an error of form, a field is in front. */
  lemma FieldInFront(buf: Bytes, number: nat) returns (f: Field, rest: Bytes)
    requires buf != [] && (FieldBytes(buf, number).Ok? || FieldBytes(buf, number) == Err(NotFound(number)))
    ensures WellFormed(f) && buf == Print(f) + rest && |rest| < |buf|
  {
    FieldIsThere(buf);
    f := ReadField(buf).value;
    rest := buf[|Print(f)|..];
  }

  // ---------- agreement with the grammar ----------

  /** The bytes are unwanted fields, then the wanted one, then anything. */
  ghost predicate Holds(buf: Bytes, number: nat, payload: Bytes) {
    exists fs, f, rest :: HoldsBy(buf, number, payload, fs, f, rest)
  }

  predicate HoldsBy(buf: Bytes, number: nat, payload: Bytes, fs: seq<Field>, f: Field, rest: Bytes) {
    && buf == PrintAll(fs) + Print(f) + rest
    && AllWellFormed(fs) && NoneWanted(fs, number)
    && WellFormed(f) && Wanted(f, number) && f.body.payload == payload
  }

  /** The bytes are a message without the wanted field. */
  ghost predicate Lacks(buf: Bytes, number: nat) {
    exists fs :: AllWellFormed(fs) && NoneWanted(fs, number) && buf == PrintAll(fs)
  }

  lemma {:induction false} FindsField(fs: seq<Field>, f: Field, rest: Bytes, number: nat)
    requires AllWellFormed(fs) && NoneWanted(fs, number) && WellFormed(f) && Wanted(f, number)
    ensures FieldBytes(PrintAll(fs) + Print(f) + rest, number) == Ok(f.body.payload)
    decreases |fs|
  {
    if fs == [] {
      assert PrintAll(fs) + Print(f) + rest == Print(f) + rest;
      FieldBytesPrinted(f, rest, number);
    } else {
      var tail := PrintAll(fs[1..]) + Print(f) + rest;
      assert PrintAll(fs) + Print(f) + rest == Print(fs[0]) + tail;
      assert fs[0] in fs && forall x :: x in fs[1..] ==> x in fs;
      FieldBytesPrinted(fs[0], tail, number);
      FindsField(fs[1..], f, rest, number);
    }
  }

  lemma {:induction false} FindsNothing(fs: seq<Field>, number: nat)
    requires AllWellFormed(fs) && NoneWanted(fs, number)
    ensures FieldBytes(PrintAll(fs), number) == Err(NotFound(number))
    decreases |fs|
  {
    if fs != [] {
      assert fs[0] in fs && forall x :: x in fs[1..] ==> x in fs;
      FieldBytesPrinted(fs[0], PrintAll(fs[1..]), number);
      FindsNothing(fs[1..], number);
    }
  }

  lemma HoldsMore(f: Field, buf: Bytes, number: nat, payload: Bytes, fs: seq<Field>, g: Field, tail: Bytes)
    requires WellFormed(f) && !Wanted(f, number) && HoldsBy(buf, number, payload, fs, g, tail)
    ensures HoldsBy(Print(f) + buf, number, payload, [f] + fs, g, tail)
  {
    hide WellFormed, Wanted, Print;
    assert PrintAll([f] + fs) == Print(f) + PrintAll(fs) by { assert ([f] + fs)[1..] == fs; }
    hide PrintAll;
    assert Print(f) + buf == PrintAll([f] + fs) + Print(g) + tail;
  }

  lemma {:induction false} FoundIsThere(buf: Bytes, number: nat)
    requires FieldBytes(buf, number).Ok?
    ensures Holds(buf, number, FieldBytes(buf, number).value)
    decreases |buf|
  {
    var f, rest := FieldInFront(buf, number);
    FieldBytesPrinted(f, rest, number);
    if Wanted(f, number) {
      assert buf == PrintAll([]) + Print(f) + rest;
      assert HoldsBy(buf, number, f.body.payload, [], f, rest);
    } else {
      FoundIsThere(rest, number);
      var fs, g, tail :| HoldsBy(rest, number, FieldBytes(rest, number).value, fs, g, tail);
      HoldsMore(f, rest, number, FieldBytes(rest, number).value, fs, g, tail);
    }
  }

  lemma {:induction false} MissingIsMessage(buf: Bytes, number: nat)
    requires FieldBytes(buf, number) == Err(NotFound(number))
    ensures Lacks(buf, number)
    decreases |buf|
  {
    if buf == [] {
      assert PrintAll([]) == buf;
    } else {
      var f, rest := FieldInFront(buf, number);
      FieldBytesPrinted(f, rest, number);
      MissingIsMessage(rest, number);
      var fs :| AllWellFormed(fs) && NoneWanted(fs, number) && rest == PrintAll(fs);
      assert PrintAll([f] + fs) == Print(f) + PrintAll(fs);
    }
  }

  /**
   On arbitrary bytes: a payload is found exactly when the bytes are well-formed fields
   up to and including the first length-delimited one with the number, and it is that
   field's payload; "not found" is answered exactly for whole messages without one;
   any other answer means the bytes are neither.
   */
  lemma FieldBytesAgrees(buf: Bytes, number: nat, payload: Bytes)
    ensures FieldBytes(buf, number) == Ok(payload) <==> Holds(buf, number, payload)
    ensures FieldBytes(buf, number) == Err(NotFound(number)) <==> Lacks(buf, number)
  {
    if FieldBytes(buf, number) == Ok(payload) { FoundIsThere(buf, number); }
    if FieldBytes(buf, number) == Err(NotFound(number)) { MissingIsMessage(buf, number); }
    if Holds(buf, number, payload) {
      var fs, f, rest :| HoldsBy(buf, number, payload, fs, f, rest);
      FindsField(fs, f, rest, number);
    }
    if Lacks(buf, number) {
      var fs :| AllWellFormed(fs) && NoneWanted(fs, number) && buf == PrintAll(fs);
      FindsNothing(fs, number);
    }
  }

  lemma Behind(buf: Bytes, i: nat, k: nat)
    requires i + k <= |buf|
    ensures buf[i..][k..] == buf[i + k..]
  {
  }

  /** Without a usable tag at the cursor the answer is the error. */
  lemma AtTag(buf: Bytes, i: nat, number: nat)
    requires i <= |buf|
    ensures i == |buf| ==> FieldBytes(buf[i..], number) == Err(NotFound(number))
    ensures i < |buf| && Uvarint(buf[i..]).None? ==> FieldBytes(buf[i..], number) == Err(BadTag)
    ensures Uvarint(buf[i..]).Some? && Uvarint(buf[i..]).value.value / 8 == 0 ==>
              FieldBytes(buf[i..], number) == Err(FieldZero)
  {
    if Uvarint(buf[i..]).Some? { UvarintIsVarint(buf[i..]); }
  }

  /** With one, it depends on the body behind the tag. */
  lemma AtField(buf: Bytes, i: nat, k: nat, number: nat, t: Varint)
    requires i < k <= |buf| && Uvarint(buf[i..]) == Some(t) && k == i + t.size && t.value / 8 > 0
    ensures var body := ReadBody(buf[k..], t.value % 8);
            FieldBytes(buf[i..], number) == if body.Err? then Err(body.error)
            else AfterBody(buf, k, number, t.value / 8, body.value)
  {
    hide Uvarint, Value, IsVarint, WellFormed, ReadBody;
    Behind(buf, i, t.size);
    var body := ReadBody(buf[k..], t.value % 8);
    if body.Ok? {
      BodyIsThere(buf[k..], t.value % 8);
      FieldIsThere(buf[i..]);
      var n := |PrintBody(body.value)|;
      assert |Print(ReadField(buf[i..]).value)| == t.size + n;
      Behind(buf, i, t.size + n);
    }
  }

  /** Stop at a wanted body, or go on behind this one, which always fits when it was read there. */
  function AfterBody(buf: Bytes, k: nat, number: nat, found: nat, body: Body): Result<Bytes, WireError> {
    if found == number && body.Block? then Ok(body.payload)
    else if k + |PrintBody(body)| > |buf| then Err(LengthOutOfRange)
    else FieldBytes(buf[k + |PrintBody(body)|..], number)
  }

  /** Bodies of a fixed or self-delimiting size are only skipped. */
  lemma AtScalar(buf: Bytes, k: nat, number: nat, found: nat, wire: nat, size: nat)
    requires k <= |buf| && (wire == 0 || wire == 1 || wire == 5)
    requires wire == 0 ==> Uvarint(buf[k..]).Some? && size == Uvarint(buf[k..]).value.size
    requires wire == 1 ==> size == 8
    requires wire == 5 ==> size == 4
    requires size <= |buf| - k
    ensures var body := ReadBody(buf[k..], wire);
            body.Ok? && AfterBody(buf, k, number, found, body.value) == FieldBytes(buf[k + size..], number)
  {
    if wire == 0 { UvarintIsVarint(buf[k..]); }
  }

  lemma AtBlock(buf: Bytes, k: nat, number: nat, found: nat, l: Varint)
    requires k <= |buf| && Uvarint(buf[k..]) == Some(l) && l.size + l.value <= |buf| - k
    ensures var body := ReadBody(buf[k..], 2);
            body.Ok? && AfterBody(buf, k, number, found, body.value) ==
              if found == number then Ok(buf[k + l.size..k + l.size + l.value])
              else FieldBytes(buf[k + l.size + l.value..], number)
  {
    hide Uvarint, FieldBytes, Value;
    UvarintIsVarint(buf[k..]);
    assert buf[k..][l.size..l.size + l.value] == buf[k + l.size..k + l.size + l.value];
  }

  /** Bodies that do not fit, or of an unknown wire type. */
  lemma AtNoBody(buf: Bytes, k: nat, wire: nat)
    requires k <= |buf|
    ensures wire == 0 && Uvarint(buf[k..]).None? ==> ReadBody(buf[k..], wire) == Err(BadVarint)
    ensures wire == 1 && |buf| - k < 8 ==> ReadBody(buf[k..], wire) == Err(ShortFixed64)
    ensures wire == 5 && |buf| - k < 4 ==> ReadBody(buf[k..], wire) == Err(ShortFixed32)
    ensures wire == 2 && Uvarint(buf[k..]).None? ==> ReadBody(buf[k..], wire) == Err(BadLength)
    ensures wire == 2 && Uvarint(buf[k..]).Some?
            && Uvarint(buf[k..]).value.value > |buf| - k - Uvarint(buf[k..]).value.size ==>
              ReadBody(buf[k..], wire) == Err(LengthOutOfRange)
    ensures wire != 0 && wire != 1 && wire != 2 && wire != 5 ==> ReadBody(buf[k..], wire) == Err(BadWireType(wire))
  {
    if Uvarint(buf[k..]).Some? { UvarintIsVarint(buf[k..]); }
  }

  /** pbFieldBytes: one cursor, checked before every advance. */
  method PbFieldBytes(buf: Bytes, field: nat) returns (found: Result<Bytes, WireError>)
    ensures found == FieldBytes(buf, field)
  {
    hide *;
    var i := 0;
    assert buf[0..] == buf;
    while i < |buf|
      invariant 0 <= i <= |buf|
      invariant FieldBytes(buf, field) == FieldBytes(buf[i..], field)
      decreases |buf| - i
    {
      var tag := Uvarint(buf[i..]);
      AtTag(buf, i, field);
      if tag.None? { return Err(BadTag); }
      UvarintIsVarint(buf[i..]);
      var fieldNum, wire := tag.value.value / 8, tag.value.value % 8;
      if fieldNum == 0 { return Err(FieldZero); }
      AtField(buf, i, i + tag.value.size, field, tag.value);
      i := i + tag.value.size;
      AtNoBody(buf, i, wire);
      if wire == 0 {
        var v := Uvarint(buf[i..]);
        if v.None? { return Err(BadVarint); }
        UvarintIsVarint(buf[i..]);
        AtScalar(buf, i, field, fieldNum, wire, v.value.size);
        i := i + v.value.size;
      } else if wire == 1 {
        if |buf| - i < 8 { return Err(ShortFixed64); }
        AtScalar(buf, i, field, fieldNum, wire, 8);
        i := i + 8;
      } else if wire == 5 {
        if |buf| - i < 4 { return Err(ShortFixed32); }
        AtScalar(buf, i, field, fieldNum, wire, 4);
        i := i + 4;
      } else if wire == 2 {
        var l := Uvarint(buf[i..]);
        if l.None? { return Err(BadLength); }
        UvarintIsVarint(buf[i..]);
        var start := i + l.value.size;
        if l.value.value > |buf| - start { return Err(LengthOutOfRange); }
        AtBlock(buf, i, field, fieldNum, l.value);
        if fieldNum == field { return Ok(buf[start..start + l.value.value]); }
        i := start + l.value.value;
      } else {
        return Err(BadWireType(wire));
      }
    }
    AtTag(buf, i, field);
    return Err(NotFound(field));
  }
}
