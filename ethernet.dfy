/** The Ethernet II frame codec (vendor/github.com/mdlayher/ethernet/ethernet.go):
    IEEE 802.3 frames with zero or more IEEE 802.1Q VLAN tags, marshalled into
    a buffer at a moving offset and unmarshalled by scanning tags until an
    EtherType other than VLAN. */
module Ethernet {
  import opened Common

  newtype uint8 = x: int | 0 <= x < 0x100
  newtype uint16 = x: int | 0 <= x < 0x1_0000
  newtype uint32 = x: int | 0 <= x < 0x1_0000_0000

  /** The smallest payload of an untagged frame; shorter ones are zero-padded. */
  const MinPayload: nat := 46

  const EtherTypeVLAN: uint16 := 0x8100

  /** The errors the codec returns: io.ErrUnexpectedEOF, ErrInvalidVLAN and ErrInvalidFCS. */
  datatype FrameError = UnexpectedEOF | InvalidVLAN | InvalidFCS

  function ErrorText(e: FrameError): (r: string)
    ensures e == InvalidFCS <==> r == "invalid frame check sequence"
  {
    match e
    case UnexpectedEOF => "unexpected EOF"
    case InvalidVLAN => "invalid VLAN"
    case InvalidFCS => "invalid frame check sequence"
  }

  /** An 802.1Q tag: priority code point, drop eligible indicator and VLAN ID. */
  datatype Vlan = Vlan(priority: uint8, dropEligible: bool, id: uint16)

  /** A tag can be marshalled when its priority fits 3 bits and its ID is below
      the reserved 0xfff. */
  predicate Valid(v: Vlan)
  {
    v.priority <= 7 && v.id <= 4094
  }

  predicate AllValid(tags: seq<Vlan>)
  {
    forall j :: 0 <= j < |tags| ==> Valid(tags[j])
  }

  /** The index of the first tag that cannot be marshalled. */
  function FirstInvalid(tags: seq<Vlan>): (k: nat)
    requires !AllValid(tags)
    ensures k < |tags| && !Valid(tags[k])
    ensures forall j :: 0 <= j < k ==> Valid(tags[j])
  {
    if !Valid(tags[0]) then 0 else 1 + FirstInvalid(tags[1..])
  }

  // ---- big-endian integers ----

  function Be16(hi: uint8, lo: uint8): uint16
  {
    (hi as int * 0x100 + lo as int) as uint16
  }

  function Be16Bytes(v: uint16): (r: seq<uint8>)
    ensures |r| == 2
  {
    [(v as int / 0x100) as uint8, (v as int % 0x100) as uint8]
  }

  function Be32(b: seq<uint8>): uint32
    requires |b| == 4
  {
    (((b[0] as int * 0x100 + b[1] as int) * 0x100 + b[2] as int) * 0x100 + b[3] as int) as uint32
  }

  function Be32Bytes(v: uint32): (r: seq<uint8>)
    ensures |r| == 4
  {
    var x := v as int;
    [(x / 0x100_0000) as uint8, (x / 0x1_0000 % 0x100) as uint8, (x / 0x100 % 0x100) as uint8, (x % 0x100) as uint8]
  }

  lemma Be16Inverse(hi: uint8, lo: uint8)
    ensures Be16Bytes(Be16(hi, lo)) == [hi, lo]
  {
    var v := hi as int * 0x100 + lo as int;
    assert v / 0x100 == hi as int && v % 0x100 == lo as int;
  }

  lemma Be16BytesInverse(v: uint16)
    ensures var b := Be16Bytes(v); Be16(b[0], b[1]) == v
  {
  }

  /** Reading back the four big-endian bytes written for a checksum gives it back. */
  lemma Be32BytesInverse(v: uint32)
    ensures Be32(Be32Bytes(v)) == v
  {
    var x := v as int;
    var b := Be32Bytes(v);
    var a := x / 0x100;
    var c := a / 0x100;
    assert x == a * 0x100 + x % 0x100;
    assert a == c * 0x100 + a % 0x100;
    assert c == x / 0x1_0000;
    assert c / 0x100 == x / 0x100_0000;
    assert c == (x / 0x100_0000) * 0x100 + c % 0x100;
    assert b[0] as int * 0x100 + b[1] as int == c;
    assert (b[0] as int * 0x100 + b[1] as int) * 0x100 + b[2] as int == a;
  }

  // ---- the 802.1Q tag control information ----

  /** The 2-byte tag body: 3 bits of priority, 1 drop eligible bit, 12 bits of ID
      (section 9.6 of IEEE 802.1Q). */
  function EncodeTag(v: Vlan): (r: seq<uint8>)
    requires Valid(v)
    ensures |r| == 2
  {
    Be16Bytes((v.priority as int * 0x2000 + (if v.dropEligible then 0x1000 else 0) + v.id as int) as uint16)
  }

  /** Reading a tag body; the reserved ID 0xfff is refused (ErrInvalidVLAN). */
  function DecodeTag(hi: uint8, lo: uint8): (r: Option<Vlan>)
    ensures r.Some? ==> Valid(r.value)
  {
    var ub := Be16(hi, lo) as int;
    var id := ub % 0x1000;
    if id >= 0xfff then None
    else Some(Vlan((ub / 0x2000) as uint8, ub / 0x1000 % 2 == 1, id as uint16))
  }

  /** The 12-bit ID field and what lies above it. */
  lemma SplitAtId(high: int, id: int)
    requires 0 <= id < 0x1000
    ensures (high * 0x1000 + id) % 0x1000 == id && (high * 0x1000 + id) / 0x1000 == high
  {
  }

  /** The 3-bit priority field and what lies below it. */
  lemma SplitAtPriority(priority: int, low: int)
    requires 0 <= low < 0x2000
    ensures (priority * 0x2000 + low) / 0x2000 == priority
  {
  }

  /** Every tag that can be marshalled reads back unchanged. */
  lemma TagRoundTrip(v: Vlan)
    requires Valid(v)
    ensures var b := EncodeTag(v); DecodeTag(b[0], b[1]) == Some(v)
  {
    var dei := if v.dropEligible then 1 else 0;
    var ub := v.priority as int * 0x2000 + dei * 0x1000 + v.id as int;
    var b := EncodeTag(v);
    Be16BytesInverse(ub as uint16);
    assert Be16(b[0], b[1]) as int == ub;
    SplitAtId(v.priority as int * 2 + dei, v.id as int);
    SplitAtPriority(v.priority as int, dei * 0x1000 + v.id as int);
    assert (v.priority as int * 2 + dei) % 2 == dei;
  }

  /** Every tag body that reads back is the encoding of what it reads. */
  lemma TagBytesRoundTrip(hi: uint8, lo: uint8)
    requires DecodeTag(hi, lo).Some?
    ensures EncodeTag(DecodeTag(hi, lo).value) == [hi, lo]
  {
    var ub := Be16(hi, lo) as int;
    var v := DecodeTag(hi, lo).value;
    var d := if v.dropEligible then 0x1000 else 0;
    assert ub == (ub / 0x2000) * 0x2000 + (ub / 0x1000 % 2) * 0x1000 + ub % 0x1000;
    assert v.priority as int * 0x2000 + d + v.id as int == ub;
    Be16Inverse(hi, lo);
  }

  // ---- layout ----

  /** length(): header, four bytes per tag, EtherType and the payload padded to
      the minimum. */
  function FrameLength(tagCount: nat, payloadLength: nat): nat
  {
    6 + 6 + 4 * tagCount + 2 + (if payloadLength < MinPayload then MinPayload else payloadLength)
  }

  function Zeros(n: nat): (r: seq<uint8>)
    ensures |r| == n && forall i :: 0 <= i < n ==> r[i] == 0
  {
    seq(n, _ => 0)
  }

  /** The four bytes of one tag on the wire: the VLAN EtherType, then the body. */
  function TagWire(v: Vlan): (r: seq<uint8>)
    requires Valid(v)
    ensures |r| == 4
  {
    [0x81, 0x00] + EncodeTag(v)
  }

  function TagsWire(tags: seq<Vlan>): (r: seq<uint8>)
    requires AllValid(tags)
    ensures |r| == 4 * |tags|
  {
    if tags == [] then [] else TagWire(tags[0]) + TagsWire(tags[1..])
  }

  lemma {:induction false} TagsWireSnoc(tags: seq<Vlan>, v: Vlan)
    requires AllValid(tags) && Valid(v)
    ensures AllValid(tags + [v]) && TagsWire(tags + [v]) == TagsWire(tags) + TagWire(v)
  {
    assert AllValid(tags + [v]);
    if tags != [] {
      assert (tags + [v])[1..] == tags[1..] + [v];
      TagsWireSnoc(tags[1..], v);
    }
  }

  /** The buffer after read has copied both addresses and the first k tags: a
      hardware address is copied as far as it and its six bytes both go. */
  function Prefilled(buf: seq<uint8>, dst: seq<uint8>, src: seq<uint8>, tags: seq<Vlan>, k: nat): (r: seq<uint8>)
    requires k <= |tags| && AllValid(tags[..k]) && 12 + 4 * k <= |buf|
    ensures |r| == |buf|
  {
    var w := TagsWire(tags[..k]);
    seq(|buf|, i requires 0 <= i < |buf| =>
      if i < 6 then (if i < |dst| then dst[i] else buf[i])
      else if i < 12 then (if i - 6 < |src| then src[i - 6] else buf[i])
      else if i < 12 + 4 * k then w[i - 12]
      else buf[i])
  }

  /** The buffer read leaves behind at the first invalid tag k: the VLAN
      EtherType of that tag is written, its body is not. */
  function Rejected(buf: seq<uint8>, dst: seq<uint8>, src: seq<uint8>, tags: seq<Vlan>, k: nat): (r: seq<uint8>)
    requires k < |tags| && AllValid(tags[..k]) && 12 + 4 * k + 4 <= |buf|
    ensures |r| == |buf|
  {
    Prefilled(buf, dst, src, tags, k)[12 + 4 * k := 0x81][13 + 4 * k := 0x00]
  }

  /** The buffer after a successful read: the EtherType follows the tags and
      the payload is copied after it as far as the buffer goes. */
  function Marshalled(buf: seq<uint8>, dst: seq<uint8>, src: seq<uint8>, tags: seq<Vlan>, et: uint16,
                      payload: seq<uint8>): (r: seq<uint8>)
    requires AllValid(tags) && 14 + 4 * |tags| <= |buf|
    ensures |r| == |buf|
  {
    assert tags[..|tags|] == tags;
    var p := Prefilled(buf, dst, src, tags, |tags|);
    var n := 12 + 4 * |tags|;
    var e := Be16Bytes(et);
    seq(|buf|, i requires 0 <= i < |buf| =>
      if i < n then p[i]
      else if i < n + 2 then e[i - n]
      else if i - n - 2 < |payload| then payload[i - n - 2]
      else buf[i])
  }

  /** MarshalBinary's bytes, when every tag is valid. */
  function Encode(dst: seq<uint8>, src: seq<uint8>, tags: seq<Vlan>, et: uint16, payload: seq<uint8>): (r: seq<uint8>)
    requires AllValid(tags)
    ensures |r| == FrameLength(|tags|, |payload|)
  {
    Marshalled(Zeros(FrameLength(|tags|, |payload|)), dst, src, tags, et, payload)
  }

  /** MarshalFCS's bytes: the frame followed by the checksum of the frame, big-endian. */
  function EncodeFCS(dst: seq<uint8>, src: seq<uint8>, tags: seq<Vlan>, et: uint16, payload: seq<uint8>,
                     crc: seq<uint8> -> uint32): (r: seq<uint8>)
    requires AllValid(tags)
    ensures |r| == FrameLength(|tags|, |payload|) + 4
    ensures r[..|r| - 4] == Encode(dst, src, tags, et, payload)
    ensures Be32(r[|r| - 4..]) == crc(r[..|r| - 4])
  {
    var body := Encode(dst, src, tags, et, payload);
    Be32BytesInverse(crc(body));
    assert (body + Be32Bytes(crc(body)))[..|body|] == body;
    body + Be32Bytes(crc(body))
  }

  /** The frame laid out field after field, for six-byte addresses. */
  function Wire(dst: seq<uint8>, src: seq<uint8>, tags: seq<Vlan>, et: uint16, data: seq<uint8>): (r: seq<uint8>)
    requires AllValid(tags)
    ensures |r| == |dst| + |src| + 4 * |tags| + 2 + |data|
  {
    dst + src + TagsWire(tags) + Be16Bytes(et) + data
  }

  /** An address cut or zero-filled to six bytes, as read's copy leaves it. */
  function Fit6(a: seq<uint8>): (r: seq<uint8>)
    ensures |r| == 6
  {
    seq(6, i requires 0 <= i < 6 => if i < |a| then a[i] else 0)
  }

  /** The payload zero-padded to the minimum. */
  function Padded(payload: seq<uint8>): (r: seq<uint8>)
    ensures |r| >= MinPayload && |r| >= |payload| && r[..|payload|] == payload
  {
    var r := payload + Zeros(if |payload| < MinPayload then MinPayload - |payload| else 0);
    assert r[..|payload|] == payload;
    r
  }

  /** The marshalled bytes are the fields in order: the addresses fitted to six
      bytes, each tag, the EtherType, and the payload padded to the minimum. */
  lemma EncodeIsWire(dst: seq<uint8>, src: seq<uint8>, tags: seq<Vlan>, et: uint16, payload: seq<uint8>)
    requires AllValid(tags)
    ensures Encode(dst, src, tags, et, payload) == Wire(Fit6(dst), Fit6(src), tags, et, Padded(payload))
  {
    var e := Encode(dst, src, tags, et, payload);
    var w := Wire(Fit6(dst), Fit6(src), tags, et, Padded(payload));
    var n := 12 + 4 * |tags|;
    assert tags[..|tags|] == tags;
    var p := Prefilled(Zeros(|e|), dst, src, tags, |tags|);
    var t := TagsWire(tags);
    var pad := Padded(payload);
    assert |e| == |w|;
    forall i | 0 <= i < |e|
      ensures e[i] == w[i]
    {
      if i < 6 {
        assert w[i] == Fit6(dst)[i];
      } else if i < 12 {
        assert w[i] == Fit6(src)[i - 6];
      } else if i < n {
        assert e[i] == p[i] == t[i - 12];
        assert w[i] == t[i - 12];
      } else if i < n + 2 {
        assert w[i] == Be16Bytes(et)[i - n];
      } else {
        assert w[i] == pad[i - n - 2];
        if i - n - 2 < |payload| {
          assert pad[i - n - 2] == pad[..|payload|][i - n - 2];
        }
      }
    }
  }

  /** The checksummed buffer holds the plain frame in front: the payload's copy
      never reaches the last four bytes. */
  lemma MarshalledPrefix(dst: seq<uint8>, src: seq<uint8>, tags: seq<Vlan>, et: uint16, payload: seq<uint8>)
    requires AllValid(tags)
    ensures var l := FrameLength(|tags|, |payload|);
      Marshalled(Zeros(l + 4), dst, src, tags, et, payload)[..l] == Encode(dst, src, tags, et, payload)
  {
  }

  // ---- scanning ----

  /** What the tag scan of UnmarshalBinary found: the tags read, an error if one
      stopped it, the offset after the final EtherType, and that EtherType. */
  datatype Scan = Scan(tags: seq<Vlan>, error: Option<FrameError>, end: nat, et: uint16)

  /** The scan from offset n, where the EtherType just read sits in front of n. */
  function ScanTags(b: seq<uint8>, n: nat): (s: Scan)
    requires 14 <= n <= |b|
    ensures s.error.None? ==> n <= s.end <= |b| && s.et != EtherTypeVLAN && AllValid(s.tags)
    decreases |b| - n
  {
    var et := Be16(b[n - 2], b[n - 1]);
    if et != EtherTypeVLAN then Scan([], None, n, et)
    else if |b| - n < 4 then Scan([], Some(UnexpectedEOF), n, et)
    else
      match DecodeTag(b[n], b[n + 1])
      case None => Scan([], Some(InvalidVLAN), n, et)
      case Some(v) =>
        var rest := ScanTags(b, n + 4);
        Scan([v] + rest.tags, rest.error, rest.end, rest.et)
  }

  /** What UnmarshalBinary makes of a buffer: the tags it appends (also up to
      an error) and, without an error, the other fields. */
  datatype Decoded = Decoded(tags: seq<Vlan>, error: Option<FrameError>, dst: seq<uint8>, src: seq<uint8>,
                             et: uint16, payload: seq<uint8>)

  function Decode(b: seq<uint8>): (d: Decoded)
    ensures |b| < 14 ==> d.error == Some(UnexpectedEOF) && d.tags == []
    ensures d.error.None? ==> |d.dst| == 6 && |d.src| == 6 && d.et != EtherTypeVLAN && AllValid(d.tags)
  {
    if |b| < 14 then Decoded([], Some(UnexpectedEOF), [], [], 0, [])
    else
      var s := ScanTags(b, 14);
      if s.error.Some? then Decoded(s.tags, s.error, [], [], 0, [])
      else Decoded(s.tags, None, b[..6], b[6..12], s.et, b[s.end..])
  }

  /** UnmarshalFCS: the last four bytes must be the checksum of the others,
      which are then read as a frame. */
  function DecodeFCS(b: seq<uint8>, crc: seq<uint8> -> uint32): (d: Decoded)
    ensures |b| < 4 ==> d.error == Some(UnexpectedEOF) && d.tags == []
    ensures |b| >= 4 && Be32(b[|b| - 4..]) != crc(b[..|b| - 4]) ==> d.error == Some(InvalidFCS) && d.tags == []
    ensures |b| >= 4 && Be32(b[|b| - 4..]) == crc(b[..|b| - 4]) ==> d == Decode(b[..|b| - 4])
  {
    if |b| < 4 then Decoded([], Some(UnexpectedEOF), [], [], 0, [])
    else if Be32(b[|b| - 4..]) != crc(b[..|b| - 4]) then Decoded([], Some(InvalidFCS), [], [], 0, [])
    else Decode(b[..|b| - 4])
  }

  /** The scan over tags laid out by the marshaller reads exactly those tags
      and the EtherType after them. */
  lemma {:induction false} ScanWire(x: seq<uint8>, tags: seq<Vlan>, et: uint16, data: seq<uint8>)
    requires 12 <= |x| && AllValid(tags) && et != EtherTypeVLAN
    ensures var b := x + TagsWire(tags) + Be16Bytes(et) + data;
      ScanTags(b, |x| + 2) == Scan(tags, None, |x| + 2 + 4 * |tags|, et)
    decreases |tags|
  {
    var b := x + TagsWire(tags) + Be16Bytes(et) + data;
    var n := |x| + 2;
    if tags == [] {
      assert b[|x|..n] == Be16Bytes(et);
      Be16BytesInverse(et);
    } else {
      var v := tags[0];
      var y := x + TagWire(v);
      assert b == y + TagsWire(tags[1..]) + Be16Bytes(et) + data;
      assert b[|x|..|x| + 4] == TagWire(v);
      assert Be16(b[n - 2], b[n - 1]) == EtherTypeVLAN;
      TagRoundTrip(v);
      assert DecodeTag(b[n], b[n + 1]) == Some(v);
      assert AllValid(tags[1..]);
      ScanWire(y, tags[1..], et, data);
      assert [v] + tags[1..] == tags;
    }
  }

  /** Whatever scans without error is laid out as the marshaller lays it out. */
  lemma {:induction false} ScanSplits(b: seq<uint8>, n: nat)
    requires 14 <= n <= |b| && ScanTags(b, n).error.None?
    ensures var s := ScanTags(b, n);
      b[n - 2..] == TagsWire(s.tags) + Be16Bytes(s.et) + b[s.end..]
    decreases |b| - n
  {
    var s := ScanTags(b, n);
    var et := Be16(b[n - 2], b[n - 1]);
    if et != EtherTypeVLAN {
      Be16Inverse(b[n - 2], b[n - 1]);
      assert b[n - 2..] == [b[n - 2], b[n - 1]] + b[n..];
    } else {
      var v := DecodeTag(b[n], b[n + 1]).value;
      ScanSplits(b, n + 4);
      var s' := ScanTags(b, n + 4);
      TagBytesRoundTrip(b[n], b[n + 1]);
      Be16Inverse(b[n - 2], b[n - 1]);
      assert s.tags == [v] + s'.tags;
      assert TagsWire(s.tags) == TagWire(v) + TagsWire(s'.tags);
      assert TagWire(v) == [b[n - 2], b[n - 1], b[n], b[n + 1]];
      assert b[n - 2..] == [b[n - 2], b[n - 1], b[n], b[n + 1]] + b[n + 2..];
    }
  }

  /** Round trip from fields: six-byte addresses, valid tags and a non-VLAN
      EtherType laid out read back unchanged, payload included. */
  lemma WireRoundTrip(dst: seq<uint8>, src: seq<uint8>, tags: seq<Vlan>, et: uint16, data: seq<uint8>)
    requires |dst| == 6 && |src| == 6 && AllValid(tags) && et != EtherTypeVLAN
    ensures Decode(Wire(dst, src, tags, et, data)) == Decoded(tags, None, dst, src, et, data)
  {
    var b := Wire(dst, src, tags, et, data);
    ScanWire(dst + src, tags, et, data);
    assert b == (dst + src) + TagsWire(tags) + Be16Bytes(et) + data;
    assert b[..6] == dst && b[6..12] == src;
    assert b[14 + 4 * |tags|..] == data;
  }

  /** Round trip from bytes: whatever reads without error is the layout of
      what it reads. */
  lemma DecodeRoundTrip(b: seq<uint8>)
    requires Decode(b).error.None?
    ensures var d := Decode(b); b == Wire(d.dst, d.src, d.tags, d.et, d.payload)
  {
    ScanSplits(b, 14);
    assert b == b[..12] + b[12..];
    assert b[..12] == b[..6] + b[6..12];
  }

  /** The marshalled frame unmarshals to its fields, with the addresses fitted
      to six bytes and the payload zero-padded to the minimum. */
  lemma MarshalRoundTrip(dst: seq<uint8>, src: seq<uint8>, tags: seq<Vlan>, et: uint16, payload: seq<uint8>)
    requires AllValid(tags) && et != EtherTypeVLAN
    ensures Decode(Encode(dst, src, tags, et, payload)) == Decoded(tags, None, Fit6(dst), Fit6(src), et, Padded(payload))
    ensures |dst| == 6 && |src| == 6 ==> Fit6(dst) == dst && Fit6(src) == src
  {
    EncodeIsWire(dst, src, tags, et, payload);
    WireRoundTrip(Fit6(dst), Fit6(src), tags, et, Padded(payload));
  }

  /** The checksummed frame passes UnmarshalFCS's check and reads back as the
      plain frame does. */
  lemma MarshalFCSRoundTrip(dst: seq<uint8>, src: seq<uint8>, tags: seq<Vlan>, et: uint16, payload: seq<uint8>,
                            crc: seq<uint8> -> uint32)
    requires AllValid(tags) && et != EtherTypeVLAN
    ensures DecodeFCS(EncodeFCS(dst, src, tags, et, payload, crc), crc) ==
            Decoded(tags, None, Fit6(dst), Fit6(src), et, Padded(payload))
  {
    MarshalRoundTrip(dst, src, tags, et, payload);
  }

  /** A scan with more tags read in front of it. */
  function Prepend(tags: seq<Vlan>, s: Scan): (r: Scan)
    ensures r.tags == tags + s.tags && r.error == s.error && r.end == s.end && r.et == s.et
  {
    s.(tags := tags + s.tags)
  }

  lemma PrependTwice(a: seq<Vlan>, b: seq<Vlan>, s: Scan)
    ensures Prepend(a, Prepend(b, s)) == Prepend(a + b, s)
  {
    assert a + (b + s.tags) == (a + b) + s.tags;
  }

  /** One step of the scan from offset n, case by case. */
  lemma ScanUnfold(b: seq<uint8>, n: nat)
    requires 14 <= n <= |b|
    ensures var s := ScanTags(b, n); var et := Be16(b[n - 2], b[n - 1]);
      (et != EtherTypeVLAN ==> s == Scan([], None, n, et)) &&
      (et == EtherTypeVLAN && |b| - n < 4 ==> s == Scan([], Some(UnexpectedEOF), n, et)) &&
      (et == EtherTypeVLAN && |b| - n >= 4 && DecodeTag(b[n], b[n + 1]).None? ==>
         s == Scan([], Some(InvalidVLAN), n, et)) &&
      (et == EtherTypeVLAN && |b| - n >= 4 && DecodeTag(b[n], b[n + 1]).Some? ==>
         s == Prepend([DecodeTag(b[n], b[n + 1]).value], ScanTags(b, n + 4)))
  {
  }

  /** Decode, once the scan from offset 14 is known to be `got` followed by the scan from n. */
  lemma DecodeAt(b: seq<uint8>, n: nat, got: seq<Vlan>)
    requires 14 <= n <= |b|
    requires ScanTags(b, 14) == Prepend(got, ScanTags(b, n))
    ensures var d := Decode(b); var s := ScanTags(b, n);
      d.tags == got + s.tags && d.error == s.error &&
      (s.error.None? ==> d.dst == b[..6] && d.src == b[6..12] && d.et == s.et && d.payload == b[s.end..])
  {
  }

  /** A frame whose fields are updated in place by UnmarshalBinary. */
  class Frame {
    var destination: seq<uint8>
    var source: seq<uint8>
    var vlan: seq<Vlan>
    var etherType: uint16
    var payload: seq<uint8>

    constructor ()
      ensures destination == [] && source == [] && vlan == [] && etherType == 0 && payload == []
    {
      destination, source, vlan, etherType, payload := [], [], [], 0, [];
    }

    /** length(). */
    function Length(): (r: nat)
      reads this
      ensures r >= 14 + 4 * |vlan| + MinPayload && r >= 14 + 4 * |vlan| + |payload|
      ensures r == 14 + 4 * |vlan| + MinPayload || r == 14 + 4 * |vlan| + |payload|
    {
      FrameLength(|vlan|, |payload|)
    }

    /** read: the frame written into b at a moving offset; the first invalid
        tag stops it after its VLAN EtherType. */
    method Read(b: array<uint8>) returns (n: int, err: Option<FrameError>)
      requires Length() <= b.Length
      modifies b
      ensures err.None? <==> AllValid(vlan)
      ensures err.None? ==> n == b.Length && b[..] == Marshalled(old(b[..]), destination, source, vlan, etherType, payload)
      ensures err.Some? ==> err == Some(InvalidVLAN) && n == 0 &&
                            b[..] == Rejected(old(b[..]), destination, source, vlan, FirstInvalid(vlan))
    {
      ghost var buf := b[..];
      CopyAddresses(b);
      n := 12;
      var k := 0;
      while k < |vlan|
        invariant 0 <= k <= |vlan| && n == 12 + 4 * k
        invariant AllValid(vlan[..k])
        invariant b[..] == Prefilled(buf, destination, source, vlan, k)
      {
        var e := PutTag(b, k, buf);
        if e.Some? {
          return 0, e;
        }
        n := n + 4;
        k := k + 1;
      }
      PutEtherTypeAndPayload(b, buf);
      return b.Length, None;
    }

    /** The two copies of hardware addresses at the start of read. */
    method CopyAddresses(b: array<uint8>)
      requires 12 <= b.Length
      modifies b
      ensures vlan[..0] == [] && b[..] == Prefilled(old(b[..]), destination, source, vlan, 0)
    {
      forall i | 0 <= i < 6 && i < |destination| {
        b[i] := destination[i];
      }
      forall i | 6 <= i < 12 && i - 6 < |source| {
        b[i] := source[i - 6];
      }
      assert vlan[..0] == [];
    }

    /** One pass of read's loop: the VLAN EtherType at 12+4k, then the body of
        tag k, unless the tag is invalid. */
    method PutTag(b: array<uint8>, k: nat, ghost buf: seq<uint8>) returns (err: Option<FrameError>)
      requires k < |vlan| && AllValid(vlan[..k]) && 12 + 4 * k + 4 <= b.Length == |buf|
      requires b[..] == Prefilled(buf, destination, source, vlan, k)
      modifies b
      ensures err.None? <==> Valid(vlan[k])
      ensures err.Some? ==> err == Some(InvalidVLAN) && b[..] == Rejected(buf, destination, source, vlan, k)
      ensures err.None? ==> AllValid(vlan[..k + 1]) && b[..] == Prefilled(buf, destination, source, vlan, k + 1)
    {
      var n := 12 + 4 * k;
      b[n] := 0x81;
      b[n + 1] := 0x00;
      if !Valid(vlan[k]) {
        return Some(InvalidVLAN);
      }
      var e := EncodeTag(vlan[k]);
      b[n + 2] := e[0];
      b[n + 3] := e[1];
      PrefilledStep(buf, destination, source, vlan, k);
      err := None;
    }

    /** The EtherType after the tags and the copy of the payload at the end of read. */
    method PutEtherTypeAndPayload(b: array<uint8>, ghost buf: seq<uint8>)
      requires AllValid(vlan) && 14 + 4 * |vlan| <= b.Length == |buf|
      requires vlan[..|vlan|] == vlan && b[..] == Prefilled(buf, destination, source, vlan, |vlan|)
      modifies b
      ensures b[..] == Marshalled(buf, destination, source, vlan, etherType, payload)
    {
      var n := 12 + 4 * |vlan|;
      var e := Be16Bytes(etherType);
      b[n] := e[0];
      b[n + 1] := e[1];
      forall i | n + 2 <= i < b.Length && i - n - 2 < |payload| {
        b[i] := payload[i - n - 2];
      }
    }

    /** MarshalBinary: exactly length() bytes, the frame's encoding when every
        tag is valid. */
    method MarshalBinary() returns (b: seq<uint8>, err: Option<FrameError>)
      ensures |b| == Length()
      ensures err.None? <==> AllValid(vlan)
      ensures err.None? ==> b == Encode(destination, source, vlan, etherType, payload)
      ensures err.Some? ==> err == Some(InvalidVLAN) &&
                            b == Rejected(Zeros(Length()), destination, source, vlan, FirstInvalid(vlan))
    {
      var a := new uint8[Length()];
      forall i | 0 <= i < a.Length {
        a[i] := 0;
      }
      assert a[..] == Zeros(Length());
      var _, e := Read(a);
      return a[..], e;
    }

    /** MarshalFCS: length()+4 bytes, the checksum of the frame big-endian in
        the last four; nothing when a tag is invalid. */
    method MarshalFCS(crc: seq<uint8> -> uint32) returns (b: seq<uint8>, err: Option<FrameError>)
      ensures err.None? <==> AllValid(vlan)
      ensures err.None? ==> b == EncodeFCS(destination, source, vlan, etherType, payload, crc)
      ensures err.Some? ==> err == Some(InvalidVLAN) && b == []
    {
      var a := new uint8[Length() + 4];
      forall i | 0 <= i < a.Length {
        a[i] := 0;
      }
      assert a[..] == Zeros(Length() + 4);
      var _, e := Read(a);
      if e.Some? {
        return [], e;
      }
      var l := a.Length - 4;
      ghost var body := a[..l];
      assert body == Encode(destination, source, vlan, etherType, payload) by {
        MarshalledPrefix(destination, source, vlan, etherType, payload);
      }
      var sum := Be32Bytes(crc(a[..l]));
      a[l] := sum[0];
      a[l + 1] := sum[1];
      a[l + 2] := sum[2];
      a[l + 3] := sum[3];
      assert a[..l] == body;
      assert a[..] == body + sum;
      return a[..], None;
    }

    /** UnmarshalBinary: tags are appended to the frame's own as they are read,
        up to an error, and the other fields are set only on success. */
    method UnmarshalBinary(b: seq<uint8>) returns (err: Option<FrameError>)
      modifies this
      ensures var d := Decode(b);
        err == d.error && vlan == old(vlan) + d.tags &&
        (err.None? ==> destination == d.dst && source == d.src && etherType == d.et && payload == d.payload) &&
        (err.Some? ==> destination == old(destination) && source == old(source) &&
                       etherType == old(etherType) && payload == old(payload))
    {
      if |b| < 14 {
        return Some(UnexpectedEOF);
      }
      var n := 14;
      var et := Be16(b[12], b[13]);
      ghost var got: seq<Vlan> := [];
      while et == EtherTypeVLAN
        invariant 14 <= n <= |b| && et == Be16(b[n - 2], b[n - 1])
        invariant vlan == old(vlan) + got
        invariant ScanTags(b, 14) == Prepend(got, ScanTags(b, n))
        invariant destination == old(destination) && source == old(source)
        invariant etherType == old(etherType) && payload == old(payload)
        decreases |b| - n
      {
        ScanUnfold(b, n);
        if |b| - n < 4 {
          DecodeAt(b, n, got);
          return Some(UnexpectedEOF);
        }
        var tag := DecodeTag(b[n], b[n + 1]);
        if tag.None? {
          DecodeAt(b, n, got);
          return Some(InvalidVLAN);
        }
        PrependTwice(got, [tag.value], ScanTags(b, n + 4));
        vlan := vlan + [tag.value];
        got := got + [tag.value];
        et := Be16(b[n + 2], b[n + 3]);
        n := n + 4;
      }
      ScanUnfold(b, n);
      DecodeAt(b, n, got);
      etherType := et;
      destination := b[..6];
      source := b[6..12];
      payload := b[n..];
      return None;
    }

    /** UnmarshalFCS: a short buffer or a wrong checksum leaves the frame as it
        was; otherwise the frame is read from all but the last four bytes. */
    method UnmarshalFCS(b: seq<uint8>, crc: seq<uint8> -> uint32) returns (err: Option<FrameError>)
      modifies this
      ensures var d := DecodeFCS(b, crc);
        err == d.error && vlan == old(vlan) + d.tags &&
        (err.None? ==> destination == d.dst && source == d.src && etherType == d.et && payload == d.payload) &&
        (err.Some? ==> destination == old(destination) && source == old(source) &&
                       etherType == old(etherType) && payload == old(payload))
    {
      if |b| < 4 {
        return Some(UnexpectedEOF);
      }
      var want := Be32(b[|b| - 4..]);
      var got := crc(b[..|b| - 4]);
      if want != got {
        return Some(InvalidFCS);
      }
      err := UnmarshalBinary(b[..|b| - 4]);
    }
  }

  /** One more tag copied extends the prefilled buffer by that tag's four bytes. */
  lemma PrefilledStep(buf: seq<uint8>, dst: seq<uint8>, src: seq<uint8>, tags: seq<Vlan>, k: nat)
    requires k < |tags| && AllValid(tags[..k]) && Valid(tags[k]) && 12 + 4 * k + 4 <= |buf|
    ensures AllValid(tags[..k + 1])
    ensures var e := EncodeTag(tags[k]); var n := 12 + 4 * k;
      Prefilled(buf, dst, src, tags, k + 1) ==
      Prefilled(buf, dst, src, tags, k)[n := 0x81][n + 1 := 0x00][n + 2 := e[0]][n + 3 := e[1]]
  {
    assert tags[..k + 1] == tags[..k] + [tags[k]];
    TagsWireSnoc(tags[..k], tags[k]);
  }
}
