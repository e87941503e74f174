/**
 * Request ids (middleware/requestid.go): a version-4 UUID built from sixteen
 * random bytes, with the version and variant fields set as section 4.4 of
 * RFC 4122 prescribes, rendered 8-4-4-4-12 in lowercase hex; and the
 * middleware that reuses an incoming id or generates one.
 */
module RequestId {
  import opened Wrappers
  import Http
  import Gin

  const RequestIdHeader := "X-Request-ID"
  const RequestIdKey := "request_id"

  /** The version field (RFC 4122 section 4.1.3): high nibble of byte 6 becomes 4. */
  function WithVersion(b: bv8): (r: bv8)
    ensures r >> 4 == 4 && r & 0x0f == b & 0x0f
  {
    (b & 0x0f) | 0x40
  }

  /** The variant field (RFC 4122 section 4.1.1): top two bits of byte 8 become 10. */
  function WithVariant(b: bv8): (r: bv8)
    ensures r >> 6 == 2 && r & 0x3f == b & 0x3f
  {
    (b & 0x3f) | 0x80
  }

  /** The sixteen random bytes after the two in-place updates. */
  function Stamped(bs: seq<bv8>): (r: seq<bv8>)
    requires |bs| == 16
    ensures |r| == 16
    ensures r[6] >> 4 == 4 && r[6] & 0x0f == bs[6] & 0x0f
    ensures r[8] >> 6 == 2 && r[8] & 0x3f == bs[8] & 0x3f
    ensures forall i :: 0 <= i < 16 && i != 6 && i != 8 ==> r[i] == bs[i]
  {
    bs[6 := WithVersion(bs[6])][8 := WithVariant(bs[8])]
  }

  predicate IsLowerHex(c: char) {
    '0' <= c <= '9' || 'a' <= c <= 'f'
  }

  /** The lowercase hex digit for a nibble. */
  function HexDigit(n: bv8): (c: char)
    requires n < 16
    ensures IsLowerHex(c)
  {
    if n < 10 then ('0' as int + n as int) as char else ('a' as int + n as int - 10) as char
  }

  /** The nibble a lowercase hex digit stands for. */
  function HexValue(c: char): (n: bv8)
    requires IsLowerHex(c)
    ensures n < 16
  {
    if c <= '9' then (c as int - '0' as int) as bv8 else (c as int - 'a' as int + 10) as bv8
  }

  lemma HexDigitValue(n: bv8)
    requires n < 16
    ensures HexValue(HexDigit(n)) == n
  {
  }

  /** `%x` applied to a byte slice: two lowercase hex digits per byte, high nibble first. */
  function Hex(bs: seq<bv8>): (s: string)
    ensures |s| == 2 * |bs|
    ensures forall i :: 0 <= i < |s| ==> IsLowerHex(s[i])
  {
    if bs == [] then "" else [HexDigit(bs[0] >> 4), HexDigit(bs[0] & 0x0f)] + Hex(bs[1..])
  }

  lemma {:induction false} HexAt(bs: seq<bv8>, i: nat)
    requires i < |bs|
    ensures Hex(bs)[2 * i] == HexDigit(bs[i] >> 4)
    ensures Hex(bs)[2 * i + 1] == HexDigit(bs[i] & 0x0f)
  {
    if i > 0 {
      HexAt(bs[1..], i - 1);
    }
  }

  /** `fmt.Sprintf("%x-%x-%x-%x-%x", b[0:4], b[4:6], b[6:8], b[8:10], b[10:])`. */
  function FormatUuid(bs: seq<bv8>): (s: string)
    requires |bs| == 16
  {
    Hex(bs[0..4]) + "-" + Hex(bs[4..6]) + "-" + Hex(bs[6..8]) + "-" + Hex(bs[8..10]) + "-" + Hex(bs[10..])
  }

  /** Positions of the four dashes in the 8-4-4-4-12 layout. */
  predicate IsDashPosition(i: int) {
    i == 8 || i == 13 || i == 18 || i == 23
  }

  /** The 8-4-4-4-12 shape: 36 characters, dashes at 8, 13, 18, 23, lowercase hex elsewhere. */
  predicate UuidShaped(s: string) {
    && |s| == 36
    && (forall i :: 0 <= i < 36 && IsDashPosition(i) ==> s[i] == '-')
    && (forall i :: 0 <= i < 36 && !IsDashPosition(i) ==> IsLowerHex(s[i]))
  }

  lemma FormatUuidShape(bs: seq<bv8>)
    requires |bs| == 16
    ensures UuidShaped(FormatUuid(bs))
  {
    var s := FormatUuid(bs);
    var h0, h1, h2, h3, h4 := Hex(bs[0..4]), Hex(bs[4..6]), Hex(bs[6..8]), Hex(bs[8..10]), Hex(bs[10..]);
    forall i | 0 <= i < 36
      ensures IsDashPosition(i) ==> s[i] == '-'
      ensures !IsDashPosition(i) ==> IsLowerHex(s[i])
    {
      if i < 8 { assert s[i] == h0[i]; }
      else if i == 8 { }
      else if i < 13 { assert s[i] == h1[i - 9]; }
      else if i == 13 { }
      else if i < 18 { assert s[i] == h2[i - 14]; }
      else if i == 18 { }
      else if i < 23 { assert s[i] == h3[i - 19]; }
      else if i == 23 { }
      else { assert s[i] == h4[i - 24]; }
    }
  }

  /** Where byte `k`'s two hex digits start in the 8-4-4-4-12 layout. */
  function Offset(k: int): int {
    if k < 4 then 2 * k
    else if k < 6 then 2 * k + 1
    else if k < 8 then 2 * k + 2
    else if k < 10 then 2 * k + 3
    else 2 * k + 4
  }

  /** The byte spelled by the two hex digits at `i` and `i + 1`. */
  function ByteAt(s: string, i: int): bv8 {
    if 0 <= i && i + 1 < |s| && IsLowerHex(s[i]) && IsLowerHex(s[i + 1]) then
      (HexValue(s[i]) << 4) | HexValue(s[i + 1])
    else 0
  }

  /** Reads back a UUID in the 8-4-4-4-12 layout as its sixteen bytes. */
  function ParseUuid(s: string): Option<seq<bv8>> {
    if UuidShaped(s) then Some(seq(16, k => ByteAt(s, Offset(k)))) else None
  }

  /** The characters at `o` and `o + 1` of `s` spell byte `i` of `seg`, where `seg`'s hex starts at `start`. */
  predicate SpellsByte(s: string, o: int, seg: seq<bv8>, i: int)
    requires 0 <= i < |seg|
  {
    0 <= o && o + 1 < |s| && s[o] == HexDigit(seg[i] >> 4) && s[o + 1] == HexDigit(seg[i] & 0x0f)
  }

  lemma SegmentAt(s: string, start: int, bs: seq<bv8>, lo: int, hi: int, k: int)
    requires 0 <= lo <= k < hi <= |bs| && 0 <= start && start + 2 * (hi - lo) <= |s|
    requires s[start..start + 2 * (hi - lo)] == Hex(bs[lo..hi])
    ensures SpellsByte(s, start + 2 * (k - lo), bs, k)
  {
    var seg := bs[lo..hi];
    var i := k - lo;
    HexAt(seg, i);
    assert seg[i] == bs[k];
    assert s[start + 2 * i] == Hex(seg)[2 * i];
    assert s[start + 2 * i + 1] == Hex(seg)[2 * i + 1];
  }

  lemma FormatSegments(bs: seq<bv8>)
    requires |bs| == 16
    ensures var s := FormatUuid(bs);
      && |s| == 36
      && s[0..8] == Hex(bs[0..4]) && s[9..13] == Hex(bs[4..6]) && s[14..18] == Hex(bs[6..8])
      && s[19..23] == Hex(bs[8..10]) && s[24..36] == Hex(bs[10..16])
  {
    assert bs[10..] == bs[10..16];
  }

  lemma FormatAt(bs: seq<bv8>, k: int)
    requires |bs| == 16 && 0 <= k < 16
    ensures SpellsByte(FormatUuid(bs), Offset(k), bs, k)
  {
    var s := FormatUuid(bs);
    FormatSegments(bs);
    if k < 4 {
      SegmentAt(s, 0, bs, 0, 4, k);
    } else if k < 6 {
      SegmentAt(s, 9, bs, 4, 6, k);
    } else if k < 8 {
      SegmentAt(s, 14, bs, 6, 8, k);
    } else if k < 10 {
      SegmentAt(s, 19, bs, 8, 10, k);
    } else {
      SegmentAt(s, 24, bs, 10, 16, k);
    }
  }

  lemma NibblesJoin(b: bv8)
    ensures ((b >> 4) << 4) | (b & 0x0f) == b
  {
  }

  /** The rendered id loses nothing: it reads back as the bytes it was made from. */
  lemma UuidRoundTrip(bs: seq<bv8>)
    requires |bs| == 16
    ensures ParseUuid(FormatUuid(bs)) == Some(bs)
  {
    var s := FormatUuid(bs);
    FormatUuidShape(bs);
    var p := seq(16, k => ByteAt(s, Offset(k)));
    forall k | 0 <= k < 16 ensures p[k] == bs[k] {
      FormatAt(bs, k);
      HexDigitValue(bs[k] >> 4);
      HexDigitValue(bs[k] & 0x0f);
      NibblesJoin(bs[k]);
    }
    assert p == bs;
  }

  /**
   * `generateUUID`, with the sixteen bytes `crypto/rand` would supply given as
   * `random`: the buffer is filled, bytes 6 and 8 are updated in place, and
   * the buffer is rendered. The result reads back as the stamped bytes, is
   * 8-4-4-4-12 shaped, has '4' at index 14 and one of 8, 9, a, b at index 19.
   */
  method GenerateUuid(random: seq<bv8>) returns (id: string)
    requires |random| == 16
    ensures id == FormatUuid(Stamped(random))
    ensures ParseUuid(id) == Some(Stamped(random))
    ensures UuidShaped(id)
    ensures id[14] == '4' && id[19] in "89ab"
  {
    var b := new bv8[16](i => if 0 <= i < |random| then random[i] else 0);
    b[6] := (b[6] & 0x0f) | 0x40;
    b[8] := (b[8] & 0x3f) | 0x80;
    var stamped := b[..];
    assert stamped == Stamped(random) by {
      assert forall i :: 0 <= i < 16 && i != 6 && i != 8 ==> stamped[i] == random[i];
    }
    id := FormatUuid(stamped);
    UuidFacts(stamped);
  }

  /** What every rendering of stamped bytes satisfies. */
  lemma UuidFacts(bs: seq<bv8>)
    requires |bs| == 16 && bs[6] >> 4 == 4 && bs[8] >> 6 == 2
    ensures ParseUuid(FormatUuid(bs)) == Some(bs)
    ensures UuidShaped(FormatUuid(bs))
    ensures FormatUuid(bs)[14] == '4' && FormatUuid(bs)[19] in "89ab"
  {
    UuidRoundTrip(bs);
    FormatUuidShape(bs);
    VersionAndVariantDigits(bs);
  }

  lemma VersionAndVariantDigits(bs: seq<bv8>)
    requires |bs| == 16 && bs[6] >> 4 == 4 && bs[8] >> 6 == 2
    ensures FormatUuid(bs)[14] == '4' && FormatUuid(bs)[19] in "89ab"
  {
    var s := FormatUuid(bs);
    HexAt(bs[6..8], 0);
    HexAt(bs[8..10], 0);
    assert s[14] == Hex(bs[6..8])[0];
    assert s[19] == Hex(bs[8..10])[0];
    var n := bs[8] >> 4;
    assert n == 8 || n == 9 || n == 10 || n == 11;
  }

  /**
   * `RequestID`: a non-empty incoming X-Request-ID is reused verbatim, an
   * empty one is replaced by a generated UUID; the same id is stored under
   * "request_id" and sent back in the X-Request-ID response header.
   */
  method RequestID(ctx: Gin.Context, random: seq<bv8>)
    requires |random| == 16
    modifies ctx
    ensures var incoming := ctx.GetHeader(RequestIdHeader);
      var id := if incoming != "" then incoming else FormatUuid(Stamped(random));
      && ctx.keys == old(ctx.keys)[RequestIdKey := Gin.Str(id)]
      && ctx.responseHeader == Http.Set(old(ctx.responseHeader), RequestIdHeader, id)
    ensures ctx.status == old(ctx.status) && ctx.written == old(ctx.written) && ctx.bodies == old(ctx.bodies)
    ensures ctx.aborted == old(ctx.aborted) && ctx.path == old(ctx.path) && ctx.requestUser == old(ctx.requestUser)
  {
    var requestId := ctx.GetHeader(RequestIdHeader);
    if requestId == "" {
      requestId := GenerateUuid(random);
    }
    ctx.Set(RequestIdKey, Gin.Str(requestId));
    ctx.Header(RequestIdHeader, requestId);
  }
}
