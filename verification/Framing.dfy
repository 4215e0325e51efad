/** Length-prefixed framing: what a stream of encoded messages decodes to, whole or cut short.
  *
  * The body codec is a parameter: `print` turns a message into a body, or fails, and `parse`
  * turns a body back, or fails. The only assumption is that parsing inverts printing.
  */
module Framing {
  import opened Common

  const MAX_FRAMED_BODY: nat := 65_536

  datatype FrameError = Unprintable | BodyTooLarge(size: nat) | TruncatedBody | Malformed

  datatype Codec<!T> = Codec(printBody: T -> Option<Bytes>, parseBody: Bytes -> Option<T>)

  ghost predicate Inverts<T(!new)>(c: Codec<T>) {
    forall t :: c.printBody(t).Some? ==> c.parseBody(c.printBody(t).value) == Some(t)
  }

  // ---------------------------------------------------------------- the prefix

  function BigEndian(n: nat): Bytes
    requires n < 0x1_0000_0000
  {
    [n / 0x100_0000, n / 0x1_0000 % 0x100, n / 0x100 % 0x100, n % 0x100]
  }

  function FromBigEndian(b: Bytes): nat
    requires |b| == 4
  {
    (b[0] as int) * 0x100_0000 + (b[1] as int) * 0x1_0000 + (b[2] as int) * 0x100 + b[3] as int
  }

  lemma BigEndianInverts(n: nat)
    requires n < 0x1_0000_0000
    ensures FromBigEndian(BigEndian(n)) == n
  {
    assert n == n / 0x100 * 0x100 + n % 0x100;
    assert n / 0x100 == n / 0x1_0000 * 0x100 + n / 0x100 % 0x100;
    assert n / 0x1_0000 == n / 0x100_0000 * 0x100 + n / 0x1_0000 % 0x100;
  }

  // ---------------------------------------------------------------- encoding and decoding

  function EncodeFramed<T>(c: Codec<T>, t: T): Result<Bytes, FrameError> {
    var body := c.printBody(t);
    if body.None? then Err(Unprintable)
    else if |body.value| > MAX_FRAMED_BODY then Err(BodyTooLarge(|body.value|))
    else Ok(BigEndian(|body.value|) + body.value)
  }

  /** One read from a stream: end of stream, an error, or a message and what is left. A prefix
    * cut short counts as end of stream; a body cut short does not.
    */
  datatype Decoded<T> = End | Failed(error: FrameError) | Message(message: T, rest: Bytes)

  function DecodeFirst<T>(c: Codec<T>, s: Bytes): Decoded<T> {
    if |s| < 4 then End
    else
      var size := FromBigEndian(s[..4]);
      if size > MAX_FRAMED_BODY then Failed(BodyTooLarge(size))
      else if |s| < 4 + size then Failed(TruncatedBody)
      else
        match c.parseBody(s[4..4 + size])
        case None => Failed(Malformed)
        case Some(t) => Message(t, s[4 + size..])
  }

  datatype Ending = AtEnd | InError(error: FrameError)

  /** Reading messages until the stream ends or fails. */
  function DecodeAll<T>(c: Codec<T>, s: Bytes): (seq<T>, Ending)
    decreases |s|
  {
    match DecodeFirst(c, s)
    case End => ([], AtEnd)
    case Failed(e) => ([], InError(e))
    case Message(t, rest) =>
      var (more, ending) := DecodeAll(c, rest);
      ([t] + more, ending)
  }

  ghost predicate AllEncodable<T>(c: Codec<T>, ts: seq<T>) {
    forall i :: 0 <= i < |ts| ==> EncodeFramed(c, ts[i]).Ok?
  }

  function EncodeAll<T>(c: Codec<T>, ts: seq<T>): Bytes {
    if ts == [] then []
    else (if EncodeFramed(c, ts[0]).Ok? then EncodeFramed(c, ts[0]).value else []) + EncodeAll(c, ts[1..])
  }

  /** An encoded message is read back first, whatever follows it. */
  lemma DecodesFirst<T(!new)>(c: Codec<T>, t: T, rest: Bytes)
    requires Inverts(c) && EncodeFramed(c, t).Ok?
    ensures DecodeFirst(c, EncodeFramed(c, t).value + rest) == Message(t, rest)
  {
    var body := c.printBody(t).value;
    var s := EncodeFramed(c, t).value + rest;
    BigEndianInverts(|body|);
    assert s[..4] == BigEndian(|body|);
    assert s[4..4 + |body|] == body;
    assert s[4 + |body|..] == rest;
  }

  /** The four bytes in front of a body say its length, most significant byte first. */
  lemma PrefixIsBigEndian<T>(c: Codec<T>, t: T)
    requires EncodeFramed(c, t).Ok?
    ensures var frame, body := EncodeFramed(c, t).value, c.printBody(t);
      && body.Some? && |body.value| <= 65_536
      && |frame| == 4 + |body.value| && frame[4..] == body.value
      && |body.value|
        == 16_777_216 * frame[0] as int + 65_536 * frame[1] as int + 256 * frame[2] as int + frame[3] as int
  {
    BigEndianInverts(|c.printBody(t).value|);
  }

  /** A message is refused exactly when it cannot be printed or its body exceeds 65,536 bytes. */
  lemma EncodingRefusal<T>(c: Codec<T>, t: T)
    ensures EncodeFramed(c, t) == Err(Unprintable) <==> c.printBody(t).None?
    ensures c.printBody(t).Some? ==>
      var size := |c.printBody(t).value|;
      && (EncodeFramed(c, t).Ok? <==> size <= 65_536)
      && (size > 65_536 ==> EncodeFramed(c, t) == Err(BodyTooLarge(size)))
  {
  }

  /** What a reader makes of any four bytes and what follows them: a length above 65,536 is refused
    * before anything is read, a body cut short or malformed is an error, and a stream that ends
    * inside the four bytes has simply ended.
    */
  lemma ReaderOutcome<T>(c: Codec<T>, s: Bytes)
    ensures |s| < 4 ==> DecodeFirst(c, s) == End
    ensures |s| >= 4 ==>
      var size := 16_777_216 * s[0] as int + 65_536 * s[1] as int + 256 * s[2] as int + s[3] as int;
      && (size > 65_536 ==> DecodeFirst(c, s) == Failed(BodyTooLarge(size)))
      && (size <= 65_536 && |s| - 4 < size ==> DecodeFirst(c, s) == Failed(TruncatedBody))
      && (size <= 65_536 && |s| - 4 >= size && c.parseBody(s[4..4 + size]) == None ==>
          DecodeFirst(c, s) == Failed(Malformed))
      && (size <= 65_536 && |s| - 4 >= size && c.parseBody(s[4..4 + size]).Some? ==>
          DecodeFirst(c, s) == Message(c.parseBody(s[4..4 + size]).value, s[4 + size..]))
  {
  }

  /** A strict prefix of one frame ends the stream inside the length prefix and fails in the body. */
  lemma CutFrameNeverDecodes<T(!new)>(c: Codec<T>, t: T, k: nat)
    requires EncodeFramed(c, t).Ok? && k < |EncodeFramed(c, t).value|
    ensures DecodeFirst(c, EncodeFramed(c, t).value[..k]) == if k < 4 then End else Failed(TruncatedBody)
  {
    var frame := EncodeFramed(c, t).value;
    if k >= 4 {
      BigEndianInverts(|c.printBody(t).value|);
      assert frame[..k][..4] == BigEndian(|c.printBody(t).value|);
    }
  }

  /** Framing round trip: the concatenation of any encodable messages decodes to that list and
    * then end of stream.
    */
  lemma {:induction false} StreamRoundTrip<T(!new)>(c: Codec<T>, ts: seq<T>)
    requires Inverts(c) && AllEncodable(c, ts)
    ensures DecodeAll(c, EncodeAll(c, ts)) == (ts, AtEnd)
  {
    if ts == [] {
    } else {
      DecodesFirst(c, ts[0], EncodeAll(c, ts[1..]));
      StreamRoundTrip(c, ts[1..]);
      assert ts == [ts[0]] + ts[1..];
    }
  }

  /** How many of the frames of `ts` fit whole in the first `k` bytes. */
  function WholeFrames<T>(c: Codec<T>, ts: seq<T>, k: nat): (n: nat)
    requires k <= |EncodeAll(c, ts)|
    ensures n <= |ts|
  {
    if ts == [] then 0
    else
      var size := |EncodeAll(c, ts)| - |EncodeAll(c, ts[1..])|;
      if k < size then 0 else 1 + WholeFrames(c, ts[1..], k - size)
  }

  lemma EncodeAllPrefix<T(!new)>(c: Codec<T>, ts: seq<T>, n: nat)
    requires ts != [] && n < |ts| && EncodeFramed(c, ts[0]).Ok?
    ensures ts[..n + 1] == [ts[0]] + ts[1..][..n]
    ensures |EncodeAll(c, ts[..n + 1])| == |EncodeFramed(c, ts[0]).value| + |EncodeAll(c, ts[1..][..n])|
  {
    assert ts[..n + 1][1..] == ts[1..][..n];
  }

  /** What a stream of `ts` cut to `k` bytes decodes to. */
  function CutOutcome<T>(c: Codec<T>, ts: seq<T>, k: nat): (seq<T>, Ending)
    requires k <= |EncodeAll(c, ts)|
  {
    var whole := ts[..WholeFrames(c, ts, k)];
    (whole, if k - |EncodeAll(c, whole)| < 4 then AtEnd else InError(TruncatedBody))
  }

  lemma CutInFirstFrame<T(!new)>(c: Codec<T>, ts: seq<T>, k: nat)
    requires ts != [] && EncodeFramed(c, ts[0]).Ok? && k < |EncodeFramed(c, ts[0]).value|
    ensures k <= |EncodeAll(c, ts)| && WholeFrames(c, ts, k) == 0
    ensures DecodeAll(c, EncodeAll(c, ts)[..k]) == CutOutcome(c, ts, k)
  {
    CutFrameNeverDecodes(c, ts[0], k);
    assert EncodeAll(c, ts)[..k] == EncodeFramed(c, ts[0]).value[..k];
    assert ts[..0] == [];
  }

  lemma NothingToCut<T(!new)>(c: Codec<T>)
    ensures EncodeAll(c, []) == [] && WholeFrames(c, [], 0) == 0
    ensures DecodeAll(c, EncodeAll(c, [])[..0]) == CutOutcome(c, [], 0)
  {
  }

  lemma CutLater<T(!new)>(c: Codec<T>, ts: seq<T>, k: nat, left: nat)
    requires Inverts(c) && ts != [] && EncodeFramed(c, ts[0]).Ok? && k <= |EncodeAll(c, ts)|
    requires left <= |EncodeAll(c, ts[1..])| && k == |EncodeFramed(c, ts[0]).value| + left
    requires |EncodeAll(c, ts[1..][..WholeFrames(c, ts[1..], left)])| <= left
    requires DecodeAll(c, EncodeAll(c, ts[1..])[..left]) == CutOutcome(c, ts[1..], left)
    ensures |EncodeAll(c, ts[..WholeFrames(c, ts, k)])| <= k
    ensures DecodeAll(c, EncodeAll(c, ts)[..k]) == CutOutcome(c, ts, k)
  {
    hide EncodeFramed, DecodeFirst, Inverts;
    var frame, rest := EncodeFramed(c, ts[0]).value, EncodeAll(c, ts[1..]);
    assert EncodeAll(c, ts)[..k] == frame + rest[..left];
    DecodesFirst(c, ts[0], rest[..left]);
    assert WholeFrames(c, ts, k) == 1 + WholeFrames(c, ts[1..], left);
    EncodeAllPrefix(c, ts, WholeFrames(c, ts[1..], left));
  }

  /** A stream cut anywhere decodes to exactly the messages that arrived whole. What follows is
    * end of stream when fewer than four bytes are left over, and otherwise an error.
    */
  lemma {:induction false} CutStreamDecodesToAPrefix<T(!new)>(c: Codec<T>, ts: seq<T>, k: nat)
    requires Inverts(c) && AllEncodable(c, ts) && k <= |EncodeAll(c, ts)|
    ensures |EncodeAll(c, ts[..WholeFrames(c, ts, k)])| <= k
    ensures DecodeAll(c, EncodeAll(c, ts)[..k]) == CutOutcome(c, ts, k)
  {
    hide DecodeAll, DecodeFirst, CutOutcome, EncodeFramed, Inverts;
    if ts == [] {
      NothingToCut(c);
    } else {
      var frame := EncodeFramed(c, ts[0]).value;
      if k < |frame| {
        CutInFirstFrame(c, ts, k);
        assert ts[..0] == [];
      } else {
        CutStreamDecodesToAPrefix(c, ts[1..], k - |frame|);
        CutLater(c, ts, k, k - |frame|);
      }
    }
  }

  // ---------------------------------------------------------------- the stream reader

  /** A byte stream that has delivered `data` and then closed. */
  class ByteStream {
    const data: Bytes
    var pos: nat

    ghost predicate Valid()
      reads this
    {
      pos <= |data|
    }

    function Left(): Bytes
      requires Valid()
      reads this
    {
      data[pos..]
    }

    constructor (data: Bytes)
      ensures Valid() && Left() == data
    {
      this.data := data;
      pos := 0;
    }

    /** Reads `n` bytes, or consumes what is left and reports an unexpected end. */
    method ReadExact(n: nat) returns (r: Option<Bytes>)
      requires Valid()
      modifies this
      ensures Valid()
      ensures r.Some? <==> n <= |old(Left())|
      ensures r.Some? ==> r.value == old(Left())[..n] && Left() == old(Left())[n..]
      ensures r.None? ==> Left() == []
    {
      if n <= |data| - pos {
        r := Some(data[pos..pos + n]);
        pos := pos + n;
      } else {
        r := None;
        pos := |data|;
      }
    }

    method DecodeFramedOpt<T>(c: Codec<T>) returns (r: Result<Option<T>, FrameError>)
      requires Valid()
      modifies this
      ensures Valid()
      ensures match DecodeFirst(c, old(Left()))
              case End => r == Ok(None)
              case Failed(e) => r == Err(e)
              case Message(t, rest) => r == Ok(Some(t)) && Left() == rest
    {
      ghost var before := Left();
      var prefix := ReadExact(4);
      if prefix.None? {
        return Ok(None);
      }
      var size := FromBigEndian(prefix.value);
      if size > MAX_FRAMED_BODY {
        return Err(BodyTooLarge(size));
      }
      var body := ReadExact(size);
      if body.None? {
        return Err(TruncatedBody);
      }
      assert body.value == before[4..4 + size] && Left() == before[4 + size..];
      match c.parseBody(body.value)
      case None => return Err(Malformed);
      case Some(t) => return Ok(Some(t));
    }
  }
}
