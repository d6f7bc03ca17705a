/**
 The crypt15 container: framing of the header, the IV inside it, and the three forms
 in which a root key is accepted.
 */
module Crypt15 {
  import opened Wrappers
  import opened Wire

  // ---------- framing ----------

  datatype FrameError = FileTooShort | HeaderExceedsFile | PayloadTooShort

  datatype Split = Split(header: Bytes, payload: Bytes)

  const FLAG: Byte := 1

  /** parseCrypt15. */
  function Parse(file: Bytes): Result<Split, FrameError> {
    if |file| < 2 then Err(FileTooShort)
    else
      var size := file[0];
      var off := if file[1] == FLAG then 2 else 1;
      if size <= 0 || off + size > |file| then Err(HeaderExceedsFile)
      else if |file[off + size..]| < 16 then Err(PayloadTooShort)
      else Ok(Split(file[off..off + size], file[off + size..]))
  }

  /** How WhatsApp writes the file. */
  function Frame(header: Bytes, payload: Bytes, flag: bool): Bytes
    requires |header| < 256
  {
    [|header|] + (if flag then [FLAG] else []) + header + payload
  }

  /** A file without the flag is misread exactly when its header starts like the flag. */
  lemma ParseInvertsFrame(header: Bytes, payload: Bytes, flag: bool)
    requires 0 < |header| < 256 && |payload| >= 16
    ensures Parse(Frame(header, payload, flag)) == Ok(Split(header, payload)) <==> flag || header[0] != FLAG
  {
    var file := Frame(header, payload, flag);
    var off := if flag then 2 else 1;
    assert file == [|header|] + (if flag then [FLAG] else []) + (header + payload);
    assert file[off..] == header + payload;
    assert file[0] == |header| && file[1] == if flag then FLAG else header[0];
    assert file[off..off + |header|] == header && file[off + |header|..] == payload;
  }

  /** Whatever is accepted is cut out of the file whole, after the size byte and at most one flag byte. */
  lemma ParseIsFraming(file: Bytes)
    requires Parse(file).Ok?
    ensures var s := Parse(file).value;
            && 0 < |s.header| < 256 && |s.payload| >= 16
            && (file == Frame(s.header, s.payload, true)
                || (file == Frame(s.header, s.payload, false) && s.header[0] != FLAG))
  {
    var s := Parse(file).value;
    var flag := file[1] == FLAG;
    var off := if flag then 2 else 1;
    assert file == file[..off] + file[off..];
    assert file[..off] == [|s.header|] + if flag then [FLAG] else [];
    assert file[off..] == s.header + s.payload;
    assert file == Frame(s.header, s.payload, flag);
  }

  // ---------- the IV ----------

  const FIELD_C15_IV: nat := 3
  const FIELD_IV: nat := 1

  datatype IVError = BadHeader(error: WireError) | WrongSize(size: nat)

  /** extractIV. */
  function ExtractIV(header: Bytes): Result<Bytes, IVError> {
    var outer := FieldBytes(header, FIELD_C15_IV);
    if outer.Err? then Err(BadHeader(outer.error))
    else
      var iv := FieldBytes(outer.value, FIELD_IV);
      if iv.Err? then Err(BadHeader(iv.error))
      else if |iv.value| != 16 then Err(WrongSize(|iv.value|))
      else Ok(iv.value)
  }

  /** The header's first c15_iv message has this as its first IV field. */
  ghost predicate Carries(header: Bytes, iv: Bytes) {
    exists inner :: Holds(header, FIELD_C15_IV, inner) && Holds(inner, FIELD_IV, iv)
  }

  lemma ExtractIVAgrees(header: Bytes, iv: Bytes)
    ensures ExtractIV(header) == Ok(iv) <==> |iv| == 16 && Carries(header, iv)
  {
    hide FieldBytes, Holds;
    var outer := FieldBytes(header, FIELD_C15_IV);
    if outer.Ok? {
      FieldBytesAgrees(header, FIELD_C15_IV, outer.value);
      FieldBytesAgrees(outer.value, FIELD_IV, iv);
    }
    if Carries(header, iv) {
      var inner :| Holds(header, FIELD_C15_IV, inner) && Holds(inner, FIELD_IV, iv);
      FieldBytesAgrees(header, FIELD_C15_IV, inner);
      FieldBytesAgrees(inner, FIELD_IV, iv);
    }
  }

  /** A field tag is at least 8, so no message starts with the flag byte. */
  lemma MessageIsNotFlag(f: Field, rest: Bytes)
    requires WellFormed(f)
    ensures Print(f) + rest != [] && (Print(f) + rest)[0] != FLAG
  {
    assert (Print(f) + rest)[0] == f.tag[0];
    TagStart(f.tag);
  }

  lemma TagStart(tag: Bytes)
    requires IsVarint(tag) && Value(tag) >= 8
    ensures tag[0] != FLAG
  {
    if |tag| == 1 { assert Value(tag[1..]) == 0; }
  }

  lemma HeaderIsNotFlag(header: Bytes, number: nat, payload: Bytes)
    requires Holds(header, number, payload)
    ensures header != [] && header[0] != FLAG
  {
    hide WellFormed, Wanted, Print;
    var fs, f, rest :| HoldsBy(header, number, payload, fs, f, rest);
    if fs == [] {
      assert header == Print(f) + rest;
      MessageIsNotFlag(f, rest);
    } else {
      assert fs[0] in fs;
      var tail := PrintAll(fs[1..]) + Print(f) + rest;
      assert header == Print(fs[0]) + tail;
      MessageIsNotFlag(fs[0], tail);
    }
  }

  /** With or without the flag, a framed file gives back its header, its payload and its IV. */
  lemma FileRoundTrip(header: Bytes, payload: Bytes, iv: Bytes, flag: bool)
    requires |header| < 256 && |payload| >= 16 && |iv| == 16 && Carries(header, iv)
    ensures Parse(Frame(header, payload, flag)) == Ok(Split(header, payload))
    ensures ExtractIV(header) == Ok(iv)
  {
    hide Parse, ExtractIV, FieldBytes, Holds;
    var inner :| Holds(header, FIELD_C15_IV, inner) && Holds(inner, FIELD_IV, iv);
    HeaderIsNotFlag(header, FIELD_C15_IV, inner);
    ParseInvertsFrame(header, payload, flag);
    ExtractIVAgrees(header, iv);
  }
}
