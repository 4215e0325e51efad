/** The size budget of one range frame: the printed JSON body and its zero-slack bound.
  *
  * Text is modelled as UTF-8, one `char` per byte, so lengths are byte lengths.
  */
module FrameBudget {
  import opened Common
  import opened ChunkLens
  import Framing

  const MAX_RANGE_FRAME_PAYLOAD: nat := 32_768
  const MAX_INCLUSION_PROOF_B64: nat := 4_096
  const MAX_FIRST_FRAME_CHUNK_LENS: nat := 2_486

  datatype RangeFrame = RangeFrame(
    offset: u64,
    length: u64,
    bytes: Bytes,
    complete: bool,
    totalLength: Option<u64>,
    chunkLens: Option<seq<u64>>,
    chunkIndex: Option<u64>,
    inclusionProof: Option<string>,
    root: Option<string>,
    chunkCount: Option<u64>,
    chunkLensOffset: Option<u64>)

  datatype EncodeError = PayloadTooLarge(size: nat) | ProofTooLarge(size: nat) | BodyTooLarge(size: nat)

  // ---------------------------------------------------------------- decimal

  function Digit(d: nat): char
    requires d < 10
  {
    "0123456789"[d]
  }

  function Decimal(n: nat): string {
    if n < 10 then [Digit(n)] else Decimal(n / 10) + [Digit(n % 10)]
  }

  function Pow10(k: nat): (p: nat)
    ensures p >= 1
  {
    if k == 0 then 1 else 10 * Pow10(k - 1)
  }

  /** A number prints in `k` digits exactly when it lies below 10^k and not below 10^(k-1). */
  lemma {:induction false} DecimalWidth(n: nat, k: nat)
    requires k >= 1
    ensures |Decimal(n)| >= 1
    ensures n < Pow10(k) <==> |Decimal(n)| <= k
  {
    assert Pow10(k) == 10 * Pow10(k - 1);
    if n >= 10 {
      DecimalWidth(n / 10, if k > 1 then k - 1 else 1);
    }
  }

  lemma U64Width(n: u64)
    ensures 1 <= |Decimal(n)| <= 20
  {
    assert Pow10(5) == 100_000;
    assert Pow10(10) == 10_000_000_000;
    assert Pow10(15) == 1_000_000_000_000_000;
    assert Pow10(20) == 100_000_000_000_000_000_000;
    DecimalWidth(n, 20);
  }

  // ---------------------------------------------------------------- base64, section 4 of RFC 4648

  function Symbol(i: nat): (c: char)
    requires i < 64
    ensures !NeedsEscape(c)
  {
    if i < 26 then 'A' + i as char
    else if i < 52 then 'a' + (i - 26) as char
    else if i < 62 then '0' + (i - 52) as char
    else if i == 62 then '+'
    else '/'
  }

  function Group(a: byte, b: byte, c: byte): (s: string)
    ensures |s| == 4 && EscapeFree(s)
  {
    [Symbol(a / 4), Symbol(a % 4 * 16 + b / 16), Symbol(b % 16 * 4 + c / 64), Symbol(c % 64)]
  }

  function Base64(bytes: Bytes): string {
    if |bytes| == 0 then ""
    else if |bytes| == 1 then Group(bytes[0], 0, 0)[..2] + "=="
    else if |bytes| == 2 then Group(bytes[0], bytes[1], 0)[..3] + "="
    else Group(bytes[0], bytes[1], bytes[2]) + Base64(bytes[3..])
  }

  /** Four characters for every three bytes, the last group padded. */
  lemma {:induction false} Base64Length(bytes: Bytes)
    ensures |Base64(bytes)| == (|bytes| + 2) / 3 * 4
  {
    if |bytes| <= 2 {
    } else {
      var rest := bytes[3..];
      Base64Length(rest);
      assert |Base64(bytes)| == 4 + |Base64(rest)|;
      assert (|bytes| + 2) / 3 == 1 + (|rest| + 2) / 3;
    }
  }

  // ---------------------------------------------------------------- JSON strings

  function HexDigit(d: nat): char
    requires d < 16
  {
    "0123456789abcdef"[d]
  }

  predicate NeedsEscape(c: char) {
    c < ' ' || c == '\"' || c == '\\'
  }

  function EscapeChar(c: char): string {
    if c == '\"' then "\\\""
    else if c == '\\' then "\\\\"
    else if c as int == 8 then "\\b"
    else if c == '\t' then "\\t"
    else if c == '\n' then "\\n"
    else if c as int == 12 then "\\f"
    else if c == '\r' then "\\r"
    else if c < ' ' then "\\u00" + [HexDigit(c as int / 16), HexDigit(c as int % 16)]
    else [c]
  }

  function Escape(s: string): string {
    if s == "" then "" else EscapeChar(s[0]) + Escape(s[1..])
  }

  predicate EscapeFree(s: string) {
    forall i :: 0 <= i < |s| ==> !NeedsEscape(s[i])
  }

  lemma {:induction false} EscapeFreeIsVerbatim(s: string)
    requires EscapeFree(s)
    ensures Escape(s) == s
  {
    if s == "" {
    } else {
      EscapeFreeIsVerbatim(s[1..]);
      assert s == [s[0]] + s[1..];
    }
  }

  lemma {:induction false} Base64IsEscapeFree(bytes: Bytes)
    ensures EscapeFree(Base64(bytes))
  {
    if |bytes| <= 2 {
    } else {
      Base64IsEscapeFree(bytes[3..]);
    }
  }

  // ---------------------------------------------------------------- the printed frame

  function Quoted(s: string): string {
    "\"" + Escape(s) + "\""
  }

  function Listed(xs: seq<u64>): string {
    if xs == [] then ""
    else if |xs| == 1 then Decimal(xs[0])
    else Decimal(xs[0]) + "," + Listed(xs[1..])
  }

  function Truth(b: bool): string {
    if b then "true" else "false"
  }

  /** A field name and its separators; the names of this struct need no escaping. */
  function Key(name: string): string {
    ",\"" + name + "\":"
  }

  function NumberField(key: string, value: Option<u64>): string {
    if value.None? then "" else Key(key) + Decimal(value.value)
  }

  function TextField(key: string, value: Option<string>): string {
    if value.None? then "" else Key(key) + Quoted(value.value)
  }

  function ListField(key: string, value: Option<seq<u64>>): string {
    if value.None? then "" else Key(key) + "[" + Listed(value.value) + "]"
  }

  function Span(f: RangeFrame): string {
    "{\"offset\":" + Decimal(f.offset) + Key("length") + Decimal(f.length)
  }

  function Window(f: RangeFrame): string {
    Key("bytes") + Quoted(Base64(f.bytes)) + Key("complete") + Truth(f.complete)
  }

  function Layout(f: RangeFrame): string {
    NumberField("total_length", f.totalLength)
    + ListField("chunk_lens", f.chunkLens)
    + NumberField("chunk_index", f.chunkIndex)
  }

  function Commitment(f: RangeFrame): string {
    TextField("inclusion_proof", f.inclusionProof)
    + TextField("root", f.root)
    + NumberField("chunk_count", f.chunkCount)
    + NumberField("chunk_lens_offset", f.chunkLensOffset)
  }

  /** The compact JSON body, fields in declaration order, absent options omitted. */
  function Body(f: RangeFrame): string {
    Span(f) + Window(f) + Layout(f) + Commitment(f) + "}"
  }

  function Encode(f: RangeFrame): Result<string, EncodeError> {
    if |f.bytes| > MAX_RANGE_FRAME_PAYLOAD then Err(PayloadTooLarge(|f.bytes|))
    else if f.inclusionProof.Some? && |f.inclusionProof.value| > MAX_INCLUSION_PROOF_B64 then
      Err(ProofTooLarge(|f.inclusionProof.value|))
    else if |Body(f)| > Framing.MAX_FRAMED_BODY then Err(BodyTooLarge(|Body(f)|))
    else Ok(Body(f))
  }

  // ---------------------------------------------------------------- the four premises

  predicate SixDigits(xs: seq<u64>) {
    forall i :: 0 <= i < |xs| ==> xs[i] < 1_000_000
  }

  function Entries(f: RangeFrame): seq<u64> {
    if f.chunkLens.Some? then f.chunkLens.value else []
  }

  predicate IsHexRoot(root: string) {
    |root| == 64 && forall i :: 0 <= i < |root| ==> '0' <= root[i] <= '9' || 'a' <= root[i] <= 'f'
  }

  predicate WithinPremises(f: RangeFrame) {
    && |f.bytes| <= MAX_RANGE_FRAME_PAYLOAD
    && (f.inclusionProof.Some? ==>
        |f.inclusionProof.value| <= MAX_INCLUSION_PROOF_B64 && EscapeFree(f.inclusionProof.value))
    && (f.root.Some? ==> IsHexRoot(f.root.value))
    && SixDigits(Entries(f))
  }

  predicate Widest(n: u64) {
    |Decimal(n)| == 20
  }

  predicate WidestOption(n: Option<u64>) {
    n.Some? && Widest(n.value)
  }

  /** Every premise at its maximum at once. */
  predicate AtMaxima(f: RangeFrame) {
    && WithinPremises(f)
    && |f.bytes| == MAX_RANGE_FRAME_PAYLOAD
    && f.inclusionProof.Some? && |f.inclusionProof.value| == MAX_INCLUSION_PROOF_B64
    && f.root.Some? && f.chunkLens.Some? && f.chunkLens.value != []
    && (forall i :: 0 <= i < |Entries(f)| ==> 100_000 <= Entries(f)[i])
    && !f.complete
    && Widest(f.offset) && Widest(f.length)
    && WidestOption(f.totalLength) && WidestOption(f.chunkIndex)
    && WidestOption(f.chunkCount) && WidestOption(f.chunkLensOffset)
  }

  // ---------------------------------------------------------------- sizes

  lemma {:induction false} ListedLength(xs: seq<u64>)
    requires SixDigits(xs) && xs != []
    ensures |Listed(xs)| <= 7 * |xs| - 1
    ensures (forall i :: 0 <= i < |xs| ==> 100_000 <= xs[i]) ==> |Listed(xs)| == 7 * |xs| - 1
  {
    assert Pow10(6) == 1_000_000 && Pow10(5) == 100_000;
    DecimalWidth(xs[0], 6);
    DecimalWidth(xs[0], 5);
    if |xs| == 1 {
    } else {
      ListedLength(xs[1..]);
    }
  }

  lemma NumberFieldLength(key: string, value: Option<u64>)
    ensures |NumberField(key, value)| <= |key| + 24
    ensures WidestOption(value) ==> |NumberField(key, value)| == |key| + 24
  {
    if value.Some? {
      U64Width(value.value);
    }
  }

  lemma TextFieldLength(key: string, value: Option<string>)
    requires value.Some? ==> EscapeFree(value.value)
    ensures |TextField(key, value)| == if value.Some? then |key| + |value.value| + 6 else 0
  {
    if value.Some? {
      EscapeFreeIsVerbatim(value.value);
    }
  }

  lemma PayloadLength(bytes: Bytes)
    requires |bytes| <= MAX_RANGE_FRAME_PAYLOAD
    ensures |Quoted(Base64(bytes))| <= 43_694
    ensures |bytes| == MAX_RANGE_FRAME_PAYLOAD ==> |Quoted(Base64(bytes))| == 43_694
  {
    hide Base64, Escape;
    Base64Length(bytes);
    Base64IsEscapeFree(bytes);
    EscapeFreeIsVerbatim(Base64(bytes));
  }

  lemma HexIsEscapeFree(root: string)
    requires IsHexRoot(root)
    ensures EscapeFree(root)
  {
  }

  lemma ListFieldLength(f: RangeFrame)
    requires SixDigits(Entries(f))
    ensures |ListField("chunk_lens", f.chunkLens)| <= if |Entries(f)| == 0 then 16 else 15 + 7 * |Entries(f)|
    ensures AtMaxima(f) ==> |ListField("chunk_lens", f.chunkLens)| == 15 + 7 * |Entries(f)|
  {
    if Entries(f) != [] {
      ListedLength(Entries(f));
    }
  }

  lemma SpanLength(f: RangeFrame)
    ensures |Span(f)| <= 60
    ensures Widest(f.offset) && Widest(f.length) ==> |Span(f)| == 60
  {
    U64Width(f.offset);
    U64Width(f.length);
  }

  lemma WindowLength(f: RangeFrame)
    requires |f.bytes| <= MAX_RANGE_FRAME_PAYLOAD
    ensures |Window(f)| <= 43_720
    ensures |f.bytes| == MAX_RANGE_FRAME_PAYLOAD && !f.complete ==> |Window(f)| == 43_720
  {
    PayloadLength(f.bytes);
  }

  lemma LayoutLength(f: RangeFrame)
    requires SixDigits(Entries(f))
    ensures |Layout(f)| <= if |Entries(f)| == 0 then 87 else 86 + 7 * |Entries(f)|
    ensures AtMaxima(f) ==> |Layout(f)| == 86 + 7 * |Entries(f)|
  {
    NumberFieldLength("total_length", f.totalLength);
    ListFieldLength(f);
    NumberFieldLength("chunk_index", f.chunkIndex);
  }

  lemma CommitmentLength(f: RangeFrame)
    requires WithinPremises(f)
    ensures |Commitment(f)| <= 4_267
    ensures AtMaxima(f) ==> |Commitment(f)| == 4_267
  {
    TextFieldLength("inclusion_proof", f.inclusionProof);
    if f.root.Some? {
      HexIsEscapeFree(f.root.value);
    }
    TextFieldLength("root", f.root);
    NumberFieldLength("chunk_count", f.chunkCount);
    NumberFieldLength("chunk_lens_offset", f.chunkLensOffset);
  }

  /** The derivation of the bound: 48,134 bytes and 7 more per entry, attained at the maxima. */
  lemma BodyBound(f: RangeFrame)
    requires WithinPremises(f)
    ensures |Body(f)| <= if |Entries(f)| == 0 then 48_135 else 48_134 + 7 * |Entries(f)|
    ensures AtMaxima(f) ==> |Body(f)| == 48_134 + 7 * |Entries(f)|
  {
    SpanLength(f);
    WindowLength(f);
    LayoutLength(f);
    CommitmentLength(f);
  }

  /** Which frames are refused, and why: a payload above 32 KiB or a proof above 4 KiB even if the body
    * would fit, and otherwise a body above 64 KiB.
    */
  lemma EncodeRefusesExactly(f: RangeFrame)
    ensures |f.bytes| > 32_768 ==> Encode(f) == Err(PayloadTooLarge(|f.bytes|))
    ensures |f.bytes| <= 32_768 && f.inclusionProof.Some? && |f.inclusionProof.value| > 4_096 ==>
      Encode(f) == Err(ProofTooLarge(|f.inclusionProof.value|))
    ensures |f.bytes| <= 32_768 && (f.inclusionProof.Some? ==> |f.inclusionProof.value| <= 4_096) ==>
      Encode(f) == if |Body(f)| <= 65_536 then Ok(Body(f)) else Err(BodyTooLarge(|Body(f)|))
  {
    hide Body;
  }

  /** Every frame within the premises that states at most 2,486 entries can be sent. */
  lemma BoundedFrameEncodes(f: RangeFrame)
    requires WithinPremises(f) && |Entries(f)| <= MAX_FIRST_FRAME_CHUNK_LENS
    ensures Encode(f) == Ok(Body(f)) && |Body(f)| <= Framing.MAX_FRAMED_BODY
  {
    BodyBound(f);
  }

  /** The bound has no slack: with every premise at its maximum a frame can be sent if and
    * only if it states at most 2,486 entries, and 2,486 fills the body to the last byte.
    */
  lemma BoundIsExactAtTheMaxima(f: RangeFrame)
    requires AtMaxima(f)
    ensures Encode(f).Ok? <==> |Entries(f)| <= MAX_FIRST_FRAME_CHUNK_LENS
    ensures |Entries(f)| == MAX_FIRST_FRAME_CHUNK_LENS ==> |Body(f)| == Framing.MAX_FRAMED_BODY
    ensures |Entries(f)| > MAX_FIRST_FRAME_CHUNK_LENS ==> Encode(f) == Err(BodyTooLarge(48_134 + 7 * |Entries(f)|))
  {
    BodyBound(f);
  }

  const WIDEST: u64 := 10_000_000_000_000_000_000

  function MaxFrame(n: nat): RangeFrame {
    RangeFrame(
      WIDEST, WIDEST, seq(MAX_RANGE_FRAME_PAYLOAD, _ => 0), false, Some(WIDEST), Some(seq(n, _ => 262_144)),
      Some(WIDEST), Some(seq(MAX_INCLUSION_PROOF_B64, _ => 'A')), Some(seq(64, _ => 'f')), Some(WIDEST), Some(WIDEST))
  }

  /** Frames at the maxima exist for every entry count. */
  lemma MaximaAreAttained(n: nat)
    requires n > 0
    ensures AtMaxima(MaxFrame(n)) && |Entries(MaxFrame(n))| == n
  {
    assert Pow10(5) == 100_000;
    assert Pow10(10) == 10_000_000_000;
    assert Pow10(15) == 1_000_000_000_000_000;
    assert Pow10(19) == 10_000_000_000_000_000_000;
    U64Width(WIDEST);
    DecimalWidth(WIDEST, 19);
  }

  /** Every page of a split layout fits on a frame beside a full payload and a full proof. */
  lemma EveryPageFitsAFullFrame(lens: seq<u64>, page: Page, f: RangeFrame)
    requires Addressable(lens) && SixDigits(lens)
    requires page in SplitChunkLensPages(lens)
    requires WithinPremises(f.(chunkLens := None))
    ensures Encode(f.(chunkLens := Some(page.entries), chunkLensOffset := Some(page.offset))).Ok?
  {
    SplitHasNoDuplicates(lens);
    assert IsPageOf(lens, page);
    BoundedFrameEncodes(f.(chunkLens := Some(page.entries), chunkLensOffset := Some(page.offset)));
  }
}
