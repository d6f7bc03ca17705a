/**
 LoadRootKey: which key files are understood. Surrounding whitespace is trimmed before
 the form is looked at, so binary forms lose whitespace that belongs to the key.
 */
module RootKey {
  import opened Wrappers
  import opened Wire

  // ---------- bytes.TrimSpace ----------

  /** The UTF-8 encodings of the runes unicode.IsSpace accepts. */
  predicate IsSpace(rune: Bytes) {
    || (|rune| == 1 && (9 <= rune[0] <= 13 || rune[0] == 32))
    || (|rune| == 2 && rune[0] == 0xC2 && (rune[1] == 0x85 || rune[1] == 0xA0))
    || (|rune| == 3 && rune[0] == 0xE1 && rune[1] == 0x9A && rune[2] == 0x80)
    || (|rune| == 3 && rune[0] == 0xE2 && rune[1] == 0x80 &&
        (0x80 <= rune[2] <= 0x8A || rune[2] == 0xA8 || rune[2] == 0xA9 || rune[2] == 0xAF))
    || (|rune| == 3 && rune[0] == 0xE2 && rune[1] == 0x81 && rune[2] == 0x9F)
    || (|rune| == 3 && rune[0] == 0xE3 && rune[1] == 0x80 && rune[2] == 0x80)
  }

  predicate Leads(s: Bytes, n: nat) { n <= |s| && IsSpace(s[..n]) }

  predicate Trails(s: Bytes, n: nat) { n <= |s| && IsSpace(s[|s| - n..]) }

  /** Bytes of whitespace rune in front, none when there is no such rune. */
  function Leading(s: Bytes): nat { if Leads(s, 1) then 1 else if Leads(s, 2) then 2 else if Leads(s, 3) then 3 else 0 }

  function Trailing(s: Bytes): nat {
    if Trails(s, 1) then 1 else if Trails(s, 2) then 2 else if Trails(s, 3) then 3 else 0
  }

  function TrimLeft(s: Bytes): Bytes { if Leading(s) == 0 then s else TrimLeft(s[Leading(s)..]) }

  function TrimRight(s: Bytes): Bytes { if Trailing(s) == 0 then s else TrimRight(s[..|s| - Trailing(s)]) }

  function TrimSpace(s: Bytes): Bytes { TrimRight(TrimLeft(s)) }

  predicate Tight(s: Bytes) { Leading(s) == 0 && Trailing(s) == 0 }

  predicate Blank(runes: seq<Bytes>) { forall r :: r in runes ==> IsSpace(r) }

  function Join(runes: seq<Bytes>): Bytes { if runes == [] then [] else runes[0] + Join(runes[1..]) }

  lemma JoinLast(runes: seq<Bytes>, last: Bytes)
    ensures Join(runes + [last]) == Join(runes) + last
  {
    if runes == [] {
      assert runes + [last] == [last] && Join([last]) == last + Join([]);
    } else {
      JoinLast(runes[1..], last);
      assert (runes + [last])[1..] == runes[1..] + [last];
    }
  }

  /** No whitespace encoding is a proper prefix or suffix of another. */
  lemma LeadingIs(rune: Bytes, rest: Bytes)
    requires IsSpace(rune)
    ensures Leading(rune + rest) == |rune|
  {
    var s := rune + rest;
    assert s[..|rune|] == rune;
    assert s[0] == rune[0];
  }

  lemma TrailingIs(rest: Bytes, rune: Bytes)
    requires IsSpace(rune)
    ensures Trailing(rest + rune) == |rune|
  {
    var s := rest + rune;
    var n := |s|;
    assert s[n - |rune|..] == rune;
    assert s[n - 1] == rune[|rune| - 1];
    if |rune| >= 2 { assert s[n - 2] == rune[|rune| - 2]; }
  }

  lemma {:induction false} TrimLeftBlank(runes: seq<Bytes>, core: Bytes)
    requires Blank(runes) && Leading(core) == 0
    ensures TrimLeft(Join(runes) + core) == core
    decreases |runes|
  {
    hide IsSpace, Leading;
    if runes == [] {
      assert Join(runes) + core == core;
    } else {
      var tail := Join(runes[1..]) + core;
      assert runes[0] in runes && forall r :: r in runes[1..] ==> r in runes;
      assert Join(runes) + core == runes[0] + tail;
      SpaceSize(runes[0]);
      LeadingIs(runes[0], tail);
      assert (runes[0] + tail)[|runes[0]|..] == tail;
      TrimLeftBlank(runes[1..], core);
    }
  }

  lemma SpaceSize(rune: Bytes)
    requires IsSpace(rune)
    ensures 1 <= |rune| <= 3
  {
  }

  lemma {:induction false} TrimRightBlank(core: Bytes, runes: seq<Bytes>)
    requires Blank(runes) && Trailing(core) == 0
    ensures TrimRight(core + Join(runes)) == core
    decreases |runes|
  {
    hide IsSpace, Trailing;
    if runes == [] {
      assert core + Join(runes) == core;
    } else {
      var init, last := runes[..|runes| - 1], runes[|runes| - 1];
      assert runes == init + [last];
      JoinLast(init, last);
      var front := core + Join(init);
      assert last in runes && forall r :: r in init ==> r in runes;
      assert core + Join(runes) == front + last;
      SpaceSize(last);
      TrailingIs(front, last);
      assert (front + last)[..|front + last| - |last|] == front;
      TrimRightBlank(core, init);
    }
  }

  lemma LeadingFirstThree(core: Bytes, more: Bytes)
    requires |core| >= 3
    ensures Leading(core + more) == Leading(core)
  {
    hide IsSpace;
    var s := core + more;
    assert s[..1] == core[..1] && s[..2] == core[..2] && s[..3] == core[..3];
  }

  /** Whitespace runes around a core that neither starts nor ends with one are exactly what is cut away. */
  lemma TrimSpaceCuts(before: seq<Bytes>, core: Bytes, after: seq<Bytes>)
    requires Blank(before) && Blank(after) && Tight(core) && |core| >= 3
    ensures TrimSpace(Join(before) + core + Join(after)) == core
  {
    hide Leading, Trailing;
    LeadingFirstThree(core, Join(after));
    TrimLeftBlank(before, core + Join(after));
    assert Join(before) + core + Join(after) == Join(before) + (core + Join(after));
    TrimRightBlank(core, after);
  }

  lemma {:induction false} TrimRightShortens(s: Bytes)
    ensures TrimRight(s) <= s && Trailing(TrimRight(s)) == 0
    ensures TrimRight(s) == s <==> Trailing(s) == 0
    decreases |s|
  {
    if Trailing(s) != 0 { TrimRightShortens(s[..|s| - Trailing(s)]); }
  }

  lemma {:induction false} TrimLeftShortens(s: Bytes)
    ensures if Leading(s) == 0 then TrimLeft(s) == s else |TrimLeft(s)| < |s|
    decreases |s|
  {
    if Leading(s) != 0 { TrimLeftShortens(s[Leading(s)..]); }
  }

  /** Nothing is lost exactly when neither end is a whitespace rune; otherwise bytes are. */
  lemma TrimSpaceLoses(s: Bytes)
    ensures Tight(s) <==> TrimSpace(s) == s
    ensures !Tight(s) ==> |TrimSpace(s)| < |s|
  {
    hide IsSpace, Leading, Trailing, TrimLeft, TrimRight;
    TrimLeftShortens(s);
    TrimRightShortens(TrimLeft(s));
  }

  // ---------- hex ----------

  function Digit(c: Byte): Option<nat> {
    if 48 <= c <= 57 then Some(c - 48)
    else if 97 <= c <= 102 then Some(c - 87)
    else if 65 <= c <= 70 then Some(c - 55)
    else None
  }

  /** hex.DecodeString. */
  function DecodeHex(s: Bytes): Option<Bytes> {
    if s == [] then Some([])
    else if |s| == 1 || Digit(s[0]).None? || Digit(s[1]).None? then None
    else
      var tail := DecodeHex(s[2..]);
      if tail.None? then None else Nibbles(s[0], s[1]); Some([Digit(s[0]).value * 16 + Digit(s[1]).value] + tail.value)
  }

  lemma Nibbles(a: Byte, b: Byte)
    requires Digit(a).Some? && Digit(b).Some?
    ensures 0 <= Digit(a).value * 16 + Digit(b).value < 256
  {
  }

  /** Each byte is spelled by two digits, in either case. */
  predicate Spells(s: Bytes, bytes: Bytes) {
    && |s| == 2 * |bytes|
    && forall i | 0 <= i < |bytes| ::
        Digit(s[2 * i]) == Some(bytes[i] / 16) && Digit(s[2 * i + 1]) == Some(bytes[i] % 16)
  }

  lemma {:induction false} DecodesSpelling(s: Bytes, bytes: Bytes)
    ensures DecodeHex(s) == Some(bytes) <==> Spells(s, bytes)
    decreases |s|
  {
    if s != [] && |s| != 1 && bytes != [] {
      DecodesSpelling(s[2..], bytes[1..]);
      SpellsTail(s, bytes);
      if Digit(s[0]).Some? && Digit(s[1]).Some? {
        Nibbles(s[0], s[1]);
        if DecodeHex(s[2..]).Some? && DecodeHex(s).value == bytes {
          assert DecodeHex(s).value[1..] == DecodeHex(s[2..]).value;
        }
        if Spells(s, bytes) { assert bytes == [bytes[0]] + bytes[1..]; }
      }
    }
  }

  lemma SpellsTail(s: Bytes, bytes: Bytes)
    requires |s| >= 2 && bytes != []
    ensures Spells(s, bytes) <==>
              Digit(s[0]) == Some(bytes[0] / 16) && Digit(s[1]) == Some(bytes[0] % 16) && Spells(s[2..], bytes[1..])
  {
    hide Digit;
    var t, bs := s[2..], bytes[1..];
    if Spells(s, bytes) {
      forall i | 0 <= i < |bs| ensures Digit(t[2 * i]) == Some(bs[i] / 16) && Digit(t[2 * i + 1]) == Some(bs[i] % 16) {
        assert bs[i] == bytes[i + 1] && t[2 * i] == s[2 * (i + 1)] && t[2 * i + 1] == s[2 * (i + 1) + 1];
      }
    }
    if Digit(s[0]) == Some(bytes[0] / 16) && Digit(s[1]) == Some(bytes[0] % 16) && Spells(t, bs) {
      forall i | 0 <= i < |bytes|
        ensures Digit(s[2 * i]) == Some(bytes[i] / 16) && Digit(s[2 * i + 1]) == Some(bytes[i] % 16)
      {
        if i > 0 { assert bs[i - 1] == bytes[i] && t[2 * (i - 1)] == s[2 * i] && t[2 * (i - 1) + 1] == s[2 * i + 1]; }
      }
    }
  }

  // ---------- the three forms ----------

  const KEY_LENGTH := 32

  /** LoadRootKey; the error is the length it reports. */
  function LoadRootKey(arg: Bytes): (key: Result<Bytes, nat>)
    ensures key.Ok? ==> |key.value| == KEY_LENGTH
  {
    var trimmed := TrimSpace(arg);
    if |trimmed| == 64 && DecodeHex(trimmed).Some? && |DecodeHex(trimmed).value| == KEY_LENGTH
    then Ok(DecodeHex(trimmed).value)
    else if |trimmed| == KEY_LENGTH then Ok(trimmed)
    else if |trimmed| > KEY_LENGTH && trimmed[..2] == SERIAL then Ok(trimmed[|trimmed| - KEY_LENGTH..])
    else Err(|trimmed|)
  }

  /** The magic number of Java serialization. */
  const SERIAL: Bytes := [0xAC, 0xED]

  /** The 64 hex digits of a key, in either case and amid any whitespace, are the key. */
  lemma HexKeyLoads(before: seq<Bytes>, text: Bytes, after: seq<Bytes>, key: Bytes)
    requires Blank(before) && Blank(after) && |key| == KEY_LENGTH && Spells(text, key)
    ensures LoadRootKey(Join(before) + text + Join(after)) == Ok(key)
  {
    hide Tight, TrimSpace, DecodeHex, Blank, Join;
    SpellsEnds(text, key);
    HexIsTight(text);
    TrimSpaceCuts(before, text, after);
    DecodesSpelling(text, key);
  }

  lemma SpellsEnds(text: Bytes, key: Bytes)
    requires key != [] && Spells(text, key)
    ensures |text| == 2 * |key| && Digit(text[0]).Some? && Digit(text[|text| - 1]).Some?
  {
    hide Digit;
    var k := |key| - 1;
    assert Digit(text[2 * 0]).Some? && Digit(text[2 * k]) == Some(key[k] / 16) && Digit(text[2 * k + 1]).Some?;
  }

  lemma HexIsTight(text: Bytes)
    requires |text| > 0 && Digit(text[0]).Some? && Digit(text[|text| - 1]).Some?
    ensures Tight(text)
  {
  }

  /**
   A raw key is accepted exactly when neither end is a whitespace rune, and then as it is;
   otherwise it is refused, although the raw form is documented as always accepted.
   */
  lemma RawKeyLoads(key: Bytes)
    requires |key| == KEY_LENGTH
    ensures LoadRootKey(key) == Ok(key) <==> Tight(key)
    ensures LoadRootKey(key).Err? <==> !Tight(key)
  {
    hide Tight, TrimSpace, DecodeHex;
    TrimSpaceLoses(key);
  }

  /** Raw keys that are refused. */
  lemma RawKeyRefused(body: Bytes)
    requires |body| == KEY_LENGTH - 1
    ensures LoadRootKey(body + [10]).Err? && LoadRootKey([32] + body).Err?
  {
    hide TrimSpace, DecodeHex, LoadRootKey, Leading, Trailing;
    TrailingIs(body, [10]);
    LeadingIs([32], body);
    RawKeyLoads(body + [10]);
    RawKeyLoads([32] + body);
  }

  lemma SerialIsTight(file: Bytes)
    requires |file| >= 2 && file[..2] == SERIAL
    ensures Leading(file) == 0 && TrimLeft(file) == file && DecodeHex(file).None?
  {
    assert file[0] == SERIAL[0];
  }

  lemma TrailingLastThree(more: Bytes, core: Bytes)
    requires |core| >= 3
    ensures Trailing(more + core) == Trailing(core)
  {
    hide IsSpace;
    var s, n, k := more + core, |more + core|, |core|;
    assert s[n - 1..] == core[k - 1..] && s[n - 2..] == core[k - 2..] && s[n - 3..] == core[k - 3..];
  }

  /**
   A serialized key file gives its last 32 bytes exactly when those do not end in a
   whitespace rune; otherwise another key is derived from it, or none.
   */
  lemma SerializedKeyLoads(head: Bytes, key: Bytes)
    requires |head| >= 2 && head[..2] == SERIAL && |key| == KEY_LENGTH
    ensures LoadRootKey(head + key) == Ok(key) <==> Trailing(key) == 0
  {
    hide IsSpace, Leading, Trailing, TrimRight, DecodeHex, TrimLeft;
    var file := head + key;
    assert file[..2] == SERIAL;
    SerialIsTight(file);
    TrailingLastThree(head, key);
    var t := TrimRight(file);
    TrimRightShortens(file);
    if Trailing(key) == 0 {
      assert t == file && t[|t| - KEY_LENGTH..] == key;
    } else {
      if |t| >= KEY_LENGTH {
        assert t == t[..|t| - KEY_LENGTH] + t[|t| - KEY_LENGTH..];
        TrailingLastThree(t[..|t| - KEY_LENGTH], t[|t| - KEY_LENGTH..]);
        assert t[..2] == SERIAL by { assert file[..2] == t[..2]; }
        SerialIsTight(t);
        assert |t| == KEY_LENGTH ==> t[|t| - KEY_LENGTH..] == t;
      }
    }
  }

  /** Every key file there is: what is left of it after trimming is one of the three forms, or it is refused. */
  lemma KeyForms(arg: Bytes, key: Bytes)
    ensures var t := TrimSpace(arg);
            LoadRootKey(arg) == Ok(key) <==>
            && |key| == 32
            && (|| Spells(t, key)
                || (|t| == 32 && key == t)
                || (|t| > 32 && t[0] == 0xAC && t[1] == 0xED && key == t[|t| - 32..]))
  {
    hide TrimSpace, DecodeHex;
    var t := TrimSpace(arg);
    DecodesSpelling(t, key);
    if Spells(t, key) && |key| == 32 { SpellsEnds(t, key); }
    if |t| > 32 { assert t[..2] == SERIAL <==> t[0] == 0xAC && t[1] == 0xED by { TwoBytes(t); } }
    if |t| == 64 && DecodeHex(t).Some? {
      DecodesSpelling(t, DecodeHex(t).value);
      SpellsEnds(t, DecodeHex(t).value);
    }
  }

  lemma TwoBytes(t: Bytes)
    requires |t| >= 2
    ensures t[..2] == SERIAL <==> t[0] == 0xAC && t[1] == 0xED
  {
    assert t[..2][0] == t[0] && t[..2][1] == t[1];
    if t[0] == 0xAC && t[1] == 0xED { assert t[..2] == SERIAL; }
  }
}
