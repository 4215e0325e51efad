/** The byte string a relay descriptor's signature covers, and a parser that inverts it.
  *
  * Strings, addresses among them, are given as the UTF-8 bytes of their printed form.
  */
module Descriptor {
  import opened Common

  type Hash32 = b: Bytes | |b| == 32 witness seq(32, _ => 0)
  type Key48 = b: Bytes | |b| == 48 witness seq(48, _ => 0)

  datatype RelayDescriptor = RelayDescriptor(
    peerIdSpkiHash: Hash32,
    blsPub: Key48,
    addresses: seq<Bytes>,
    networkId: Bytes,
    did: Option<Bytes>)

  /** The bytes of ASCII text. */
  function Ascii(text: string): Bytes {
    seq(|text|, i requires 0 <= i < |text| => text[i] as int % 0x80)
  }

  const SIG_CONTEXT: Bytes := Ascii("dig-nat/relay-descriptor/v1")

  // ---------------------------------------------------------------- the encoding

  /** `n as u32` in little-endian order; the cast drops the high bits. */
  function LittleEndian32(n: nat): Bytes {
    [n % 0x100, n / 0x100 % 0x100, n / 0x1_0000 % 0x100, n / 0x100_0000 % 0x100]
  }

  function Prefixed(s: Bytes): Bytes {
    LittleEndian32(|s|) + s
  }

  function PrefixedAll(xs: seq<Bytes>): Bytes {
    if xs == [] then [] else PrefixedAll(xs[..|xs| - 1]) + Prefixed(xs[|xs| - 1])
  }

  function DidBytes(did: Option<Bytes>): Bytes {
    if did.None? then [0] else [1] + Prefixed(did.value)
  }

  function Encoding(d: RelayDescriptor): Bytes {
    SIG_CONTEXT + d.peerIdSpkiHash + d.blsPub + LittleEndian32(|d.addresses|) + PrefixedAll(d.addresses)
    + Prefixed(d.networkId) + DidBytes(d.did)
  }

  lemma AppendsPrefixed(out: Bytes, s: Bytes)
    ensures out + LittleEndian32(|s|) + s == out + Prefixed(s)
  {
  }

  lemma AppendsDid(out: Bytes, did: Bytes)
    ensures out + [1] + LittleEndian32(|did|) + did == out + DidBytes(Some(did))
  {
  }

  /** Appends each address behind its length. */
  method AppendAddresses(start: Bytes, addresses: seq<Bytes>) returns (out: Bytes)
    ensures out == start + PrefixedAll(addresses)
  {
    out := start;
    for i := 0 to |addresses|
      invariant out == start + PrefixedAll(addresses[..i])
    {
      var s := addresses[i];
      AppendsPrefixed(out, s);
      out := out + LittleEndian32(|s|);
      out := out + s;
      assert addresses[..i + 1][..i] == addresses[..i];
      assert start + PrefixedAll(addresses[..i]) + Prefixed(s) == start + (PrefixedAll(addresses[..i]) + Prefixed(s));
    }
    assert addresses[..|addresses|] == addresses;
  }

  /** What is signed: every field but the signature, each behind its length. */
  method SigningBytes(d: RelayDescriptor) returns (out: Bytes)
    ensures out == Encoding(d)
  {
    out := SIG_CONTEXT;
    out := out + d.peerIdSpkiHash;
    out := out + d.blsPub;
    out := out + LittleEndian32(|d.addresses|);
    out := AppendAddresses(out, d.addresses);
    AppendsPrefixed(out, d.networkId);
    out := out + LittleEndian32(|d.networkId|);
    out := out + d.networkId;
    match d.did
    case None => out := out + [0];
    case Some(did) =>
      AppendsDid(out, did);
      out := out + [1];
      out := out + LittleEndian32(|did|);
      out := out + did;
  }

  // ---------------------------------------------------------------- the parser

  function Take32(b: Bytes): Option<(nat, Bytes)> {
    if |b| < 4 then None
    else Some(((b[0] as int) + (b[1] as int) * 0x100 + (b[2] as int) * 0x1_0000 + (b[3] as int) * 0x100_0000, b[4..]))
  }

  function TakeString(b: Bytes): Option<(Bytes, Bytes)> {
    match Take32(b)
    case None => None
    case Some((n, rest)) => if |rest| < n then None else Some((rest[..n], rest[n..]))
  }

  function TakeStrings(b: Bytes, n: nat): Option<(seq<Bytes>, Bytes)> {
    if n == 0 then Some(([], b))
    else
      match TakeString(b)
      case None => None
      case Some((s, rest)) =>
        match TakeStrings(rest, n - 1)
        case None => None
        case Some((more, left)) => Some(([s] + more, left))
  }

  function TakeDid(b: Bytes): Option<Option<Bytes>> {
    if b == [0] then Some(None)
    else if b == [] || b[0] != 1 then None
    else
      match TakeString(b[1..])
      case None => None
      case Some((s, left)) => if left == [] then Some(Some(s)) else None
  }

  /** Reads a whole encoding back, refusing anything left over. */
  function Parse(b: Bytes): Option<RelayDescriptor> {
    var head := |SIG_CONTEXT|;
    if |b| < head + 80 || b[..head] != SIG_CONTEXT then None
    else
      match Take32(b[head + 80..])
      case None => None
      case Some((count, afterCount)) =>
        match TakeStrings(afterCount, count)
        case None => None
        case Some((addresses, afterAddresses)) =>
          match TakeString(afterAddresses)
          case None => None
          case Some((networkId, afterNetwork)) =>
            match TakeDid(afterNetwork)
            case None => None
            case Some(did) =>
              Some(RelayDescriptor(b[head..head + 32], b[head + 32..head + 80], addresses, networkId, did))
  }

  // ---------------------------------------------------------------- inversion

  predicate FitsU32(n: nat) {
    n < 0x1_0000_0000
  }

  /** Counts and lengths that survive the cast to 32 bits. */
  predicate Representable(d: RelayDescriptor) {
    && FitsU32(|d.addresses|)
    && (forall i :: 0 <= i < |d.addresses| ==> FitsU32(|d.addresses[i]|))
    && FitsU32(|d.networkId|)
    && (d.did.Some? ==> FitsU32(|d.did.value|))
  }

  lemma DigitsBase256(n: nat)
    requires FitsU32(n)
    ensures n
      == n % 0x100 + n / 0x100 % 0x100 * 0x100 + n / 0x1_0000 % 0x100 * 0x1_0000 + n / 0x100_0000 % 0x100 * 0x100_0000
  {
    assert n / 0x100 == n / 0x1_0000 * 0x100 + n / 0x100 % 0x100;
    assert n / 0x1_0000 == n / 0x100_0000 * 0x100 + n / 0x1_0000 % 0x100;
  }

  lemma Take32Inverts(n: nat, rest: Bytes)
    requires FitsU32(n)
    ensures Take32(LittleEndian32(n) + rest) == Some((n, rest))
  {
    DigitsBase256(n);
    assert (LittleEndian32(n) + rest)[4..] == rest;
  }

  lemma TakeStringInverts(s: Bytes, rest: Bytes)
    requires FitsU32(|s|)
    ensures TakeString(Prefixed(s) + rest) == Some((s, rest))
  {
    Take32Inverts(|s|, s + rest);
    assert Prefixed(s) + rest == LittleEndian32(|s|) + (s + rest);
    assert (s + rest)[..|s|] == s && (s + rest)[|s|..] == rest;
  }

  lemma {:induction false} PrefixedAllFromFront(xs: seq<Bytes>)
    requires xs != []
    ensures PrefixedAll(xs) == Prefixed(xs[0]) + PrefixedAll(xs[1..])
  {
    var init, last := xs[..|xs| - 1], xs[|xs| - 1];
    if |xs| == 1 {
    } else {
      PrefixedAllFromFront(init);
      assert xs[1..][..|xs| - 2] == init[1..];
      assert Prefixed(xs[0]) + PrefixedAll(init[1..]) + Prefixed(last)
        == Prefixed(xs[0]) + (PrefixedAll(init[1..]) + Prefixed(last));
    }
  }

  lemma {:induction false} TakeStringsInverts(xs: seq<Bytes>, rest: Bytes)
    requires forall i :: 0 <= i < |xs| ==> FitsU32(|xs[i]|)
    ensures TakeStrings(PrefixedAll(xs) + rest, |xs|) == Some((xs, rest))
  {
    hide TakeString, Prefixed;
    if xs == [] {
      assert [] + rest == rest;
    } else {
      var tail := PrefixedAll(xs[1..]) + rest;
      assert TakeString(PrefixedAll(xs) + rest) == Some((xs[0], tail)) by {
        PrefixedAllFromFront(xs);
        assert PrefixedAll(xs) + rest == Prefixed(xs[0]) + tail;
        TakeStringInverts(xs[0], tail);
      }
      assert TakeStrings(tail, |xs| - 1) == Some((xs[1..], rest)) by {
        TakeStringsInverts(xs[1..], rest);
      }
      assert [xs[0]] + xs[1..] == xs;
    }
  }

  lemma TakeDidInverts(did: Option<Bytes>)
    requires did.Some? ==> FitsU32(|did.value|)
    ensures TakeDid(DidBytes(did)) == Some(did)
  {
    if did.Some? {
      assert DidBytes(did)[1..] == Prefixed(did.value) + [];
      TakeStringInverts(did.value, []);
    }
  }

  lemma Regroup(x: Bytes, a: Bytes, b: Bytes, c: Bytes, d: Bytes)
    ensures x + a + b + c + d == x + (a + (b + (c + d)))
  {
  }

  /** The fields of fixed length, in front of everything else. */
  function Fixed(d: RelayDescriptor): Bytes {
    SIG_CONTEXT + d.peerIdSpkiHash + d.blsPub
  }

  function Variable(d: RelayDescriptor): Bytes {
    LittleEndian32(|d.addresses|) + (PrefixedAll(d.addresses) + (Prefixed(d.networkId) + DidBytes(d.did)))
  }

  lemma FixedSplits(d: RelayDescriptor)
    ensures var f, head := Fixed(d), |SIG_CONTEXT|;
      && |f| == head + 80
      && f[..head] == SIG_CONTEXT
      && f[head..head + 32] == d.peerIdSpkiHash
      && f[head + 32..] == d.blsPub
  {
    var head := |SIG_CONTEXT|;
    Cut(SIG_CONTEXT + d.peerIdSpkiHash, d.blsPub);
    Cut(SIG_CONTEXT, d.peerIdSpkiHash);
    var f := Fixed(d);
    assert f[..head + 32] == SIG_CONTEXT + d.peerIdSpkiHash;
    SliceOfSlice(f, 0, head + 32, 0, head);
    SliceOfSlice(f, 0, head + 32, head, head + 32);
    assert f[0..head + 32] == f[..head + 32] && f[0..head] == f[..head];
  }

  lemma EncodingSplits(d: RelayDescriptor)
    ensures var b, head := Encoding(d), |SIG_CONTEXT|;
      && |b| >= head + 80
      && b[..head] == SIG_CONTEXT
      && b[head..head + 32] == d.peerIdSpkiHash
      && b[head + 32..head + 80] == d.blsPub
      && b[head + 80..] == Variable(d)
  {
    var b, f, head := Encoding(d), Fixed(d), |SIG_CONTEXT|;
    Regroup(f, LittleEndian32(|d.addresses|), PrefixedAll(d.addresses), Prefixed(d.networkId), DidBytes(d.did));
    FixedSplits(d);
    Cut(f, Variable(d));
    assert b == f + Variable(d);
    hide Encoding, Fixed, Variable;
    assert b[0..head + 80] == f && b[0..head] == b[..head] && f[0..head] == f[..head];
    SliceOfSlice(b, 0, head + 80, 0, head);
    SliceOfSlice(b, 0, head + 80, head, head + 32);
    SliceOfSlice(b, 0, head + 80, head + 32, head + 80);
  }

  /** The record begins with the name of its context in ASCII. */
  lemma EncodingBeginsWithItsContext(d: RelayDescriptor)
    ensures |Encoding(d)| >= 27
    ensures Encoding(d)[..27] == [
        100, 105, 103, 45, 110, 97, 116, 47, 114, 101, 108, 97, 121, 45,
        100, 101, 115, 99, 114, 105, 112, 116, 111, 114, 47, 118, 49]
  {
    EncodingSplits(d);
    hide Encoding;
    assert |SIG_CONTEXT| == 27;
    assert SIG_CONTEXT == [
        100, 105, 103, 45, 110, 97, 116, 47, 114, 101, 108, 97, 121, 45,
        100, 101, 115, 99, 114, 105, 112, 116, 111, 114, 47, 118, 49];
  }

  /** Then come the hash, the key and the number of addresses, least significant byte first. */
  lemma EncodingLayout(d: RelayDescriptor)
    requires FitsU32(|d.addresses|)
    ensures var b := Encoding(d);
      && |b| >= 111
      && b[27..59] == d.peerIdSpkiHash
      && b[59..107] == d.blsPub
      && |d.addresses|
        == b[107] as int + 256 * b[108] as int + 65_536 * b[109] as int + 16_777_216 * b[110] as int
  {
    EncodingSplits(d);
    DigitsBase256(|d.addresses|);
    hide Encoding, PrefixedAll, Prefixed, DidBytes, Ascii;
    var b := Encoding(d);
    assert b[107..] == Variable(d);
    assert forall i :: 0 <= i < 4 ==> b[107..][i] == LittleEndian32(|d.addresses|)[i];
  }

  /** One string in the encoding: four bytes of length, least significant first, and its bytes. */
  lemma PrefixedLayout(s: Bytes)
    requires FitsU32(|s|)
    ensures var b := Prefixed(s);
      && |b| == 4 + |s| && b[4..] == s
      && |s| == b[0] as int + 256 * b[1] as int + 65_536 * b[2] as int + 16_777_216 * b[3] as int
  {
    DigitsBase256(|s|);
  }

  /** What follows the addresses: the network id, and one byte telling whether there is a DID. */
  lemma EncodingEnds(d: RelayDescriptor)
    ensures d.did.None? ==>
      var tail := Prefixed(d.networkId) + [0];
      |tail| <= |Encoding(d)| && Encoding(d)[|Encoding(d)| - |tail|..] == tail
    ensures d.did.Some? ==>
      var tail := Prefixed(d.networkId) + [1] + Prefixed(d.did.value);
      |tail| <= |Encoding(d)| && Encoding(d)[|Encoding(d)| - |tail|..] == tail
  {
    var front := SIG_CONTEXT + d.peerIdSpkiHash + d.blsPub + LittleEndian32(|d.addresses|) + PrefixedAll(d.addresses);
    var tail := Prefixed(d.networkId) + DidBytes(d.did);
    assert Encoding(d) == front + tail;
    assert d.did.Some? ==> tail == Prefixed(d.networkId) + [1] + Prefixed(d.did.value);
    Cut(front, tail);
  }

  /** The parser is a left inverse of the encoding on every representable descriptor. */
  lemma ParseInvertsEncoding(d: RelayDescriptor)
    requires Representable(d)
    ensures Parse(Encoding(d)) == Some(d)
  {
    var tail := Prefixed(d.networkId) + DidBytes(d.did);
    EncodingSplits(d);
    Take32Inverts(|d.addresses|, PrefixedAll(d.addresses) + tail);
    TakeStringsInverts(d.addresses, tail);
    TakeStringInverts(d.networkId, DidBytes(d.did));
    TakeDidInverts(d.did);
  }

  /** The signed bytes determine every field: a signature over one record covers no other. */
  lemma EncodingIsInjective(d: RelayDescriptor, e: RelayDescriptor)
    requires Representable(d) && Representable(e) && Encoding(d) == Encoding(e)
    ensures d == e
  {
    ParseInvertsEncoding(d);
    ParseInvertsEncoding(e);
  }
}
