// Save slots and the username codec the router uses: 64 lower-case hex digits of a
// key fingerprint, a dot, and a sanitised slot.
module Identity {
  import opened Common

  const MAX_SLOT := 32

  type Byte = x: int | 0 <= x < 256

  // What the standard library says about characters outside the slot alphabet is a
  // parameter; on the alphabet itself it is fixed.
  datatype Unicode = Unicode(lower: char -> char, space: char -> bool)

  predicate SlotChar(c: char) {
    'a' <= c <= 'z' || '0' <= c <= '9' || c == '-' || c == '_'
  }

  ghost predicate Standard(u: Unicode) {
    forall c :: SlotChar(c) ==> u.lower(c) == c && !u.space(c)
  }

  // ---- SanitizeSlot ----

  function TrimLeft(u: Unicode, s: string): string {
    if s != "" && u.space(s[0]) then TrimLeft(u, s[1..]) else s
  }

  function TrimRight(u: Unicode, s: string): string {
    if s != "" && u.space(s[|s| - 1]) then TrimRight(u, s[..|s| - 1]) else s
  }

  function Lower(u: Unicode, s: string): (t: string)
    ensures |t| == |s| && forall i :: 0 <= i < |s| ==> t[i] == u.lower(s[i])
  {
    if s == "" then "" else [u.lower(s[0])] + Lower(u, s[1..])
  }

  function Keep(s: string): string {
    if s == "" then "" else (if SlotChar(s[0]) then [s[0]] else "") + Keep(s[1..])
  }

  // Trimmed, lower-cased, other characters dropped, the first 32 of what is left.
  function Sanitized(u: Unicode, raw: string): string {
    var kept := Keep(Lower(u, TrimRight(u, TrimLeft(u, raw))));
    if |kept| > MAX_SLOT then kept[..MAX_SLOT] else kept
  }

  predicate IsSlot(s: string) {
    1 <= |s| <= MAX_SLOT && forall i :: 0 <= i < |s| ==> SlotChar(s[i])
  }

  lemma {:induction false} KeepAppend(a: string, b: string)
    ensures Keep(a + b) == Keep(a) + Keep(b)
  {
    if a == "" {
      assert a + b == b;
    } else {
      assert (a + b)[1..] == a[1..] + b;
      KeepAppend(a[1..], b);
    }
  }

  lemma {:induction false} KeepIsSlotChars(s: string)
    ensures forall i :: 0 <= i < |Keep(s)| ==> SlotChar(Keep(s)[i])
    ensures (forall i :: 0 <= i < |s| ==> SlotChar(s[i])) ==> Keep(s) == s
  {
    if s != "" {
      KeepIsSlotChars(s[1..]);
    }
  }

  lemma KeepOne(c: char)
    ensures Keep([c]) == if SlotChar(c) then [c] else ""
  {
    assert [c][1..] == "";
  }

  lemma KeepSnoc(a: string, c: char, b: string)
    ensures Keep(a + [c]) == Keep(a) + (if SlotChar(c) then [c] else "")
    ensures Keep(a + [c]) <= Keep(a + [c] + b)
  {
    KeepOne(c);
    KeepAppend(a, [c]);
    KeepAppend(a + [c], b);
  }

  lemma SplitAt(s: string, i: nat)
    requires i < |s|
    ensures s[..i] + [s[i]] == s[..i + 1] && s[..i] + [s[i]] + s[i + 1..] == s
  {
  }

  method SanitizeSlot(u: Unicode, raw: string) returns (slot: string)
    ensures slot == Sanitized(u, raw)
    ensures slot == "" || IsSlot(slot)
  {
    var s := Lower(u, TrimRight(u, TrimLeft(u, raw)));
    slot := "";
    if s == "" {
      return;
    }
    KeepIsSlotChars(s);
    for i := 0 to |s|
      invariant slot == Keep(s[..i]) && slot <= Keep(s) && |slot| < MAX_SLOT
    {
      SplitAt(s, i);
      KeepSnoc(s[..i], s[i], s[i + 1..]);
      if SlotChar(s[i]) {
        slot := slot + [s[i]];
      } else {
        continue;
      }
      if |slot| >= MAX_SLOT {
        return;
      }
    }
    assert s[..|s|] == s;
  }

  // A slot is exactly a fixed point: sanitising changes nothing but what is not one.
  lemma SlotsAreTheFixedPoints(u: Unicode, s: string)
    requires Standard(u)
    ensures IsSlot(s) <==> s != "" && Sanitized(u, s) == s
    ensures IsSlot(s) ==> Sanitized(u, s) == s
  {
    var kept := Keep(Lower(u, TrimRight(u, TrimLeft(u, s))));
    KeepIsSlotChars(Lower(u, TrimRight(u, TrimLeft(u, s))));
    if IsSlot(s) {
      assert Lower(u, s) == s;
      KeepIsSlotChars(s);
    }
  }

  lemma SanitizeIsIdempotent(u: Unicode, raw: string)
    requires Standard(u)
    ensures Sanitized(u, Sanitized(u, raw)) == Sanitized(u, raw)
  {
    var s := Lower(u, TrimRight(u, TrimLeft(u, raw)));
    KeepIsSlotChars(s);
    SlotsAreTheFixedPoints(u, Sanitized(u, raw));
  }

  // ---- Hex ----

  predicate HexChar(c: char) {
    '0' <= c <= '9' || 'a' <= c <= 'f'
  }

  function HexDigit(n: int): (c: char)
    requires 0 <= n < 16
    ensures HexChar(c)
  {
    if n < 10 then '0' + n as char else 'a' + (n - 10) as char
  }

  function HexValue(c: char): (n: int)
    requires HexChar(c)
    ensures 0 <= n < 16 && HexDigit(n) == c
  {
    if c <= '9' then c as int - '0' as int else c as int - 'a' as int + 10
  }

  function HexEncode(bytes: seq<Byte>): (s: string)
    ensures |s| == 2 * |bytes| && forall i :: 0 <= i < |s| ==> HexChar(s[i])
  {
    if bytes == [] then "" else [HexDigit(bytes[0] / 16), HexDigit(bytes[0] % 16)] + HexEncode(bytes[1..])
  }

  function HexDecode(s: string): (bytes: seq<Byte>)
    requires |s| % 2 == 0 && forall i :: 0 <= i < |s| ==> HexChar(s[i])
    ensures 2 * |bytes| == |s|
  {
    if s == "" then [] else [(16 * HexValue(s[0]) + HexValue(s[1])) as Byte] + HexDecode(s[2..])
  }

  lemma {:induction false} DecodeEncode(bytes: seq<Byte>)
    ensures HexDecode(HexEncode(bytes)) == bytes
  {
    if bytes != [] {
      var s := HexEncode(bytes);
      assert s[2..] == HexEncode(bytes[1..]);
      assert HexValue(s[0]) == bytes[0] / 16 && HexValue(s[1]) == bytes[0] % 16;
      DecodeEncode(bytes[1..]);
    }
  }

  lemma {:induction false} EncodeDecode(s: string)
    requires |s| % 2 == 0 && forall i :: 0 <= i < |s| ==> HexChar(s[i])
    ensures HexEncode(HexDecode(s)) == s
  {
    if s != "" {
      var bytes := HexDecode(s);
      assert bytes[1..] == HexDecode(s[2..]);
      assert bytes[0] / 16 == HexValue(s[0]) && bytes[0] % 16 == HexValue(s[1]);
      EncodeDecode(s[2..]);
    }
  }

  // ---- The codec ----

  datatype ParseError = TooShort | MissingSeparator | TooLong | InvalidHex | EmptySlot | InvalidSlot

  function ParseProxiedUsername(u: Unicode, name: string): Result<(seq<Byte>, string), ParseError> {
    if |name| < 66 then Err(TooShort)
    else if name[64] != '.' then Err(MissingSeparator)
    else if |name| > 97 then Err(TooLong)
    else if exists i :: 0 <= i < 64 && !HexChar(name[i]) then Err(InvalidHex)
    else if name[65..] == "" then Err(EmptySlot)
    else
      var slot := Sanitized(u, name[65..]);
      if slot == "" || slot != name[65..] then Err(InvalidSlot)
      else Ok((HexDecode(name[..64]), slot))
  }

  // The fingerprint is the 32-byte digest of the key.
  function EncodeProxiedUsername(u: Unicode, digest: seq<Byte>, slot: string): Option<string> {
    var clean := Sanitized(u, slot);
    if clean == "" then None else Some(HexEncode(digest) + "." + clean)
  }

  // Encoding then parsing gives back the digest and the sanitised slot.
  lemma ParseUndoesEncode(u: Unicode, digest: seq<Byte>, slot: string)
    requires Standard(u) && |digest| == 32
    ensures EncodeProxiedUsername(u, digest, slot).Some? <==> Sanitized(u, slot) != ""
    ensures EncodeProxiedUsername(u, digest, slot).Some? ==>
              ParseProxiedUsername(u, EncodeProxiedUsername(u, digest, slot).value) == Ok((digest, Sanitized(u, slot)))
  {
    var clean := Sanitized(u, slot);
    if clean != "" {
      var name := HexEncode(digest) + "." + clean;
      assert name[..64] == HexEncode(digest) && name[65..] == clean;
      KeepIsSlotChars(Lower(u, TrimRight(u, TrimLeft(u, slot))));
      SanitizeIsIdempotent(u, slot);
      DecodeEncode(digest);
    }
  }

  // Any username that parses is exactly the encoding of what it parsed to.
  lemma EncodeUndoesParse(u: Unicode, name: string)
    requires Standard(u) && ParseProxiedUsername(u, name).Ok?
    ensures var (digest, slot) := ParseProxiedUsername(u, name).value;
      |digest| == 32 && IsSlot(slot) && EncodeProxiedUsername(u, digest, slot) == Some(name)
  {
    SlotsAreTheFixedPoints(u, name[65..]);
    EncodeDecode(name[..64]);
    assert name == name[..64] + "." + name[65..];
  }

  // So two accepted usernames never name the same save.
  lemma AcceptedUsernamesNeverCollide(u: Unicode, a: string, b: string)
    requires Standard(u) && ParseProxiedUsername(u, a).Ok?
    requires ParseProxiedUsername(u, a) == ParseProxiedUsername(u, b)
    ensures a == b
  {
    EncodeUndoesParse(u, a);
    EncodeUndoesParse(u, b);
  }

  // Acceptance is a matter of shape alone, whatever Unicode does elsewhere.
  lemma AcceptedExactlyWhenWellFormed(u: Unicode, name: string)
    requires Standard(u)
    ensures ParseProxiedUsername(u, name).Ok? <==>
              && 66 <= |name| && name[64] == '.' && IsSlot(name[65..])
              && forall i :: 0 <= i < 64 ==> HexChar(name[i])
  {
    if |name| >= 66 {
      SlotsAreTheFixedPoints(u, name[65..]);
    }
  }
}
