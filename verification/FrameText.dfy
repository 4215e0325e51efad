/** Reading a printed range frame back: the JSON body determines every field of the frame.
  *
  * The reader takes the fields of one flat object in any order, as a reader of named fields does.
  */
module FrameText {
  import opened Common
  import opened ChunkLens
  import opened FrameBudget
  import Framing

  datatype Name =
    | Offset | Length | Payload | Complete | TotalLength | Lens | Index | Proof | Root | Count | LensOffset

  datatype Value = Number(n: u64) | Text(s: string) | Flag(b: bool) | Numbers(ns: seq<u64>)

  datatype Member = Member(name: Name, value: Value)

  // ---------------------------------------------------------------- decimal

  predicate IsDigit(c: char) {
    '0' <= c <= '9'
  }

  function DigitValue(c: char): nat
    requires IsDigit(c)
  {
    c as int - '0' as int
  }

  /** Reads digits as far as they go. */
  function TakeDigits(s: string, value: nat): (nat, string) {
    if s != "" && IsDigit(s[0]) then TakeDigits(s[1..], 10 * value + DigitValue(s[0])) else (value, s)
  }

  lemma DigitIsRead(d: nat)
    requires d < 10
    ensures IsDigit(Digit(d)) && DigitValue(Digit(d)) == d
  {
  }

  lemma OneDigitIsRead(c: char, rest: string, value: nat)
    requires IsDigit(c)
    ensures TakeDigits([c] + rest, value) == TakeDigits(rest, 10 * value + DigitValue(c))
  {
    assert ([c] + rest)[1..] == rest;
  }

  lemma ShiftAndAdd(value: nat, p: nat, n: nat)
    ensures 10 * (value * p + n / 10) + n % 10 == value * (10 * p) + n
  {
    assert 10 * (value * p) == value * (10 * p);
  }

  lemma {:induction false} DecimalIsRead(n: nat, rest: string, value: nat)
    ensures |Decimal(n)| >= 1
    ensures TakeDigits(Decimal(n) + rest, value) == TakeDigits(rest, value * Pow10(|Decimal(n)|) + n)
  {
    hide TakeDigits, Digit, DigitValue, IsDigit;
    DigitIsRead(n % 10);
    OneDigitIsRead(Digit(n % 10), rest, if n < 10 then value else value * Pow10(|Decimal(n / 10)|) + n / 10);
    if n < 10 {
      assert Pow10(1) == 10;
      assert value * 10 == 10 * value;
    } else {
      var last := [Digit(n % 10)];
      DecimalIsRead(n / 10, last + rest, value);
      ShiftAndAdd(value, Pow10(|Decimal(n / 10)|), n);
      assert Decimal(n) + rest == Decimal(n / 10) + (last + rest);
    }
  }

  lemma NoDigits(rest: string, value: nat)
    requires rest == "" || !IsDigit(rest[0])
    ensures TakeDigits(rest, value) == (value, rest)
  {
  }

  /** A number in front of something that is no digit. */
  lemma NumberIsRead(n: nat, rest: string)
    requires rest == "" || !IsDigit(rest[0])
    ensures TakeDigits(Decimal(n) + rest, 0) == (n, rest)
    ensures Decimal(n) != "" && IsDigit(Decimal(n)[0])
  {
    hide TakeDigits, Decimal, Pow10;
    DecimalIsRead(n, rest, 0);
    assert 0 * Pow10(|Decimal(n)|) + n == n;
    FirstIsDigit(n);
    NoDigits(rest, n);
  }

  lemma {:induction false} FirstIsDigit(n: nat)
    ensures Decimal(n) != "" && IsDigit(Decimal(n)[0])
  {
    if n < 10 {
      DigitIsRead(n);
    } else {
      FirstIsDigit(n / 10);
    }
  }

  // ---------------------------------------------------------------- strings

  function HexValue(c: char): Option<nat> {
    if '0' <= c <= '9' then Some(c as int - '0' as int)
    else if 'a' <= c <= 'f' then Some(c as int - 'a' as int + 10)
    else None
  }

  /** The character an escape stands for. */
  function Unescaped(c: char): Option<char> {
    if c == '\"' || c == '\\' then Some(c)
    else if c == 'b' then Some(8 as char)
    else if c == 't' then Some('\t')
    else if c == 'n' then Some('\n')
    else if c == 'f' then Some(12 as char)
    else if c == 'r' then Some('\r')
    else None
  }

  /** Reads one character of a string. */
  function TakeChar(s: string): Option<(char, string)>
    requires s != ""
  {
    if s[0] != '\\' then Some((s[0], s[1..]))
    else if |s| >= 2 && Unescaped(s[1]).Some? then Some((Unescaped(s[1]).value, s[2..]))
    else if |s| >= 6 && s[1] == 'u' && s[2] == '0' && s[3] == '0' && HexValue(s[4]).Some? && HexValue(s[5]).Some? then
      Some(((16 * HexValue(s[4]).value + HexValue(s[5]).value) as char, s[6..]))
    else None
  }

  /** Reads a string up to its closing quote. */
  function TakeChars(s: string): Option<(string, string)>
    decreases |s|
  {
    if s == "" then None
    else if s[0] == '\"' then Some(("", s[1..]))
    else
      match TakeChar(s)
      case None => None
      case Some((c, rest)) =>
        match TakeChars(rest)
        case None => None
        case Some((more, left)) => Some(([c] + more, left))
  }

  lemma HexDigitIsRead(d: nat)
    requires d < 16
    ensures HexValue(HexDigit(d)) == Some(d)
  {
  }

  lemma CharIsRead(c: char, rest: string)
    ensures EscapeChar(c) != "" && EscapeChar(c)[0] != '\"'
    ensures TakeChar(EscapeChar(c) + rest) == Some((c, rest))
  {
    var s := EscapeChar(c) + rest;
    if |EscapeChar(c)| == 1 {
      assert s[1..] == rest;
    } else if |EscapeChar(c)| == 2 {
      assert s[2..] == rest;
    } else {
      HexDigitIsRead(c as int / 16);
      HexDigitIsRead(c as int % 16);
      assert EscapeChar(c) == ['\\', 'u', '0', '0', HexDigit(c as int / 16), HexDigit(c as int % 16)];
      assert s[6..] == rest;
    }
  }

  lemma {:induction false} StringIsRead(t: string, rest: string)
    ensures TakeChars(Escape(t) + ("\"" + rest)) == Some((t, rest))
  {
    hide TakeChar, EscapeChar;
    var tail := "\"" + rest;
    if t == "" {
      assert Escape(t) + tail == tail && tail[1..] == rest;
    } else {
      StringIsRead(t[1..], rest);
      CharIsRead(t[0], Escape(t[1..]) + tail);
      assert Escape(t) + tail == EscapeChar(t[0]) + (Escape(t[1..]) + tail);
      assert [t[0]] + t[1..] == t;
    }
  }

  // ---------------------------------------------------------------- values

  function PrintValue(v: Value): string {
    match v
    case Number(n) => Decimal(n)
    case Text(s) => Quoted(s)
    case Flag(b) => Truth(b)
    case Numbers(ns) => "[" + Listed(ns) + "]"
  }

  predicate FitsU64(n: nat) {
    n < 0x1_0000_0000_0000_0000
  }

  /** Reads the numbers of a list up to its closing bracket; there is at least one. */
  function TakeNumbers(s: string): Option<(seq<u64>, string)>
    decreases |s|
  {
    var (n, rest) := TakeDigits(s, 0);
    if !FitsU64(n) || rest == "" || |rest| >= |s| then None
    else if rest[0] == ']' then Some(([n], rest[1..]))
    else if rest[0] != ',' then None
    else
      match TakeNumbers(rest[1..])
      case None => None
      case Some((more, left)) => Some(([n] + more, left))
  }

  function TakeValue(s: string): Option<(Value, string)> {
    if s == "" then None
    else if s[0] == '\"' then
      match TakeChars(s[1..])
      case None => None
      case Some((t, rest)) => Some((Text(t), rest))
    else if s[0] == '[' then
      if |s| >= 2 && s[1] == ']' then Some((Numbers([]), s[2..]))
      else
        match TakeNumbers(s[1..])
        case None => None
        case Some((ns, rest)) => Some((Numbers(ns), rest))
    else if "true" <= s then Some((Flag(true), s[4..]))
    else if "false" <= s then Some((Flag(false), s[5..]))
    else if IsDigit(s[0]) then
      var (n, rest) := TakeDigits(s, 0);
      if FitsU64(n) then Some((Number(n), rest)) else None
    else None
  }

  lemma LastNumberIsRead(n: u64, rest: string)
    ensures TakeNumbers(Decimal(n) + ("]" + rest)) == Some(([n], rest))
  {
    var tail := "]" + rest;
    NumberIsRead(n, tail);
    hide TakeDigits, Decimal;
    assert tail[1..] == rest;
    assert |Decimal(n) + tail| > |tail|;
  }

  lemma NextNumberIsRead(n: u64, later: string)
    requires TakeNumbers(later).Some?
    ensures TakeNumbers(Decimal(n) + ("," + later))
      == Some(([n] + TakeNumbers(later).value.0, TakeNumbers(later).value.1))
  {
    var tail := "," + later;
    NumberIsRead(n, tail);
    hide TakeDigits, Decimal;
    assert tail[1..] == later;
    assert |Decimal(n) + tail| > |tail|;
  }

  lemma {:induction false} ListIsRead(ns: seq<u64>, rest: string)
    requires ns != []
    ensures TakeNumbers(Listed(ns) + ("]" + rest)) == Some((ns, rest))
  {
    hide TakeNumbers, Decimal;
    var tail := "]" + rest;
    if |ns| == 1 {
      LastNumberIsRead(ns[0], rest);
      assert [ns[0]] == ns;
    } else {
      var later := Listed(ns[1..]) + tail;
      ListIsRead(ns[1..], rest);
      NextNumberIsRead(ns[0], later);
      assert Listed(ns) + tail == Decimal(ns[0]) + ("," + later);
      assert [ns[0]] + ns[1..] == ns;
    }
  }

  lemma {:induction false} ListedStarts(ns: seq<u64>)
    requires ns != []
    ensures Listed(ns) != "" && IsDigit(Listed(ns)[0])
  {
    FirstIsDigit(ns[0]);
  }

  lemma NumbersAreRead(ns: seq<u64>, rest: string)
    ensures TakeValue(PrintValue(Numbers(ns)) + rest) == Some((Numbers(ns), rest))
  {
    var s := PrintValue(Numbers(ns)) + rest;
    if ns == [] {
      assert s == "[]" + rest && s[2..] == rest;
    } else {
      ListIsRead(ns, rest);
      ListedStarts(ns);
      assert s[1..] == Listed(ns) + ("]" + rest);
      assert s[1] == Listed(ns)[0];
    }
  }

  lemma TextIsRead(t: string, rest: string)
    ensures TakeValue(PrintValue(Text(t)) + rest) == Some((Text(t), rest))
  {
    var s := PrintValue(Text(t)) + rest;
    StringIsRead(t, rest);
    hide TakeChars, Escape;
    assert s[1..] == Escape(t) + ("\"" + rest);
  }

  lemma FlagIsRead(b: bool, rest: string)
    ensures TakeValue(PrintValue(Flag(b)) + rest) == Some((Flag(b), rest))
  {
    var s := Truth(b) + rest;
    assert s[0] == if b then 't' else 'f';
    assert s[|Truth(b)|..] == rest;
  }

  lemma NumberValueIsRead(n: u64, rest: string)
    requires rest == "" || !IsDigit(rest[0])
    ensures TakeValue(PrintValue(Number(n)) + rest) == Some((Number(n), rest))
  {
    var s := Decimal(n) + rest;
    NumberIsRead(n, rest);
    assert IsDigit(s[0]);
    assert "true"[0] != s[0] && "false"[0] != s[0];
  }

  lemma ValueIsRead(v: Value, rest: string)
    requires rest == "" || !IsDigit(rest[0])
    ensures TakeValue(PrintValue(v) + rest) == Some((v, rest))
  {
    hide TakeValue, PrintValue;
    match v
    case Number(n) => NumberValueIsRead(n, rest);
    case Text(t) => TextIsRead(t, rest);
    case Flag(b) => FlagIsRead(b, rest);
    case Numbers(ns) => NumbersAreRead(ns, rest);
  }

  // ---------------------------------------------------------------- objects

  function Spelled(name: Name): string {
    match name
    case Offset => "offset"
    case Length => "length"
    case Payload => "bytes"
    case Complete => "complete"
    case TotalLength => "total_length"
    case Lens => "chunk_lens"
    case Index => "chunk_index"
    case Proof => "inclusion_proof"
    case Root => "root"
    case Count => "chunk_count"
    case LensOffset => "chunk_lens_offset"
  }

  function NameOf(key: string): Option<Name> {
    if key == "offset" then Some(Offset)
    else if key == "length" then Some(Length)
    else if key == "bytes" then Some(Payload)
    else if key == "complete" then Some(Complete)
    else if key == "total_length" then Some(TotalLength)
    else if key == "chunk_lens" then Some(Lens)
    else if key == "chunk_index" then Some(Index)
    else if key == "inclusion_proof" then Some(Proof)
    else if key == "root" then Some(Root)
    else if key == "chunk_count" then Some(Count)
    else if key == "chunk_lens_offset" then Some(LensOffset)
    else None
  }

  /** No two names are spelled alike, and none needs escaping. */
  lemma NameIsRead(name: Name)
    ensures NameOf(Spelled(name)) == Some(name)
    ensures EscapeFree(Spelled(name))
  {
    assert "offset"[0] != "length"[0];
    assert "chunk_index"[6] != "chunk_count"[6];
  }

  function PrintMember(m: Member): string {
    "\"" + Spelled(m.name) + "\":" + PrintValue(m.value)
  }

  /** Members, each behind a comma. */
  function PrintMore(ms: seq<Member>): string {
    if ms == [] then "" else "," + PrintMember(ms[0]) + PrintMore(ms[1..])
  }

  function PrintObject(ms: seq<Member>): string
    requires ms != []
  {
    "{" + PrintMember(ms[0]) + PrintMore(ms[1..]) + "}"
  }

  /** Reads one member; a field of another name is skipped. */
  function TakeMember(s: string): Option<(seq<Member>, string)> {
    if s == "" || s[0] != '\"' then None
    else
      match TakeChars(s[1..])
      case None => None
      case Some((key, rest)) =>
        if rest == "" || rest[0] != ':' then None
        else
          match TakeValue(rest[1..])
          case None => None
          case Some((v, left)) =>
            match NameOf(key)
            case None => Some(([], left))
            case Some(name) => Some(([Member(name, v)], left))
  }

  /** Reads the members of an object up to its closing brace, where the text ends. */
  function ParseMembers(s: string): Option<seq<Member>>
    decreases |s|
  {
    match TakeMember(s)
    case None => None
    case Some((m, rest)) =>
      if rest == "}" then Some(m)
      else if rest == "" || rest[0] != ',' || |rest| > |s| then None
      else
        match ParseMembers(rest[1..])
        case None => None
        case Some(more) => Some(m + more)
  }

  function ParseObject(s: string): Option<seq<Member>> {
    if s == "" || s[0] != '{' then None else ParseMembers(s[1..])
  }

  lemma KeyIsRead(name: Name, rest: string)
    ensures TakeChars(Spelled(name) + ("\"" + rest)) == Some((Spelled(name), rest))
  {
    NameIsRead(name);
    hide Spelled, NameOf, TakeChars, Escape;
    EscapeFreeIsVerbatim(Spelled(name));
    StringIsRead(Spelled(name), rest);
  }

  lemma MemberIsRead(m: Member, rest: string)
    requires rest == "" || !IsDigit(rest[0])
    ensures TakeMember(PrintMember(m) + rest) == Some(([m], rest))
  {
    hide TakeValue, TakeChars, NameOf, Spelled, PrintValue;
    var s, behind := PrintMember(m) + rest, PrintValue(m.value) + rest;
    NameIsRead(m.name);
    KeyIsRead(m.name, ":" + behind);
    ValueIsRead(m.value, rest);
    assert s[1..] == Spelled(m.name) + ("\"" + (":" + behind));
    assert (":" + behind)[1..] == behind;
  }

  lemma {:induction false} MembersAreRead(ms: seq<Member>)
    requires ms != []
    ensures ParseMembers(PrintMember(ms[0]) + (PrintMore(ms[1..]) + "}")) == Some(ms)
  {
    hide TakeMember, PrintMember;
    var rest := PrintMore(ms[1..]) + "}";
    if |ms| == 1 {
      assert ms[1..] == [] && rest == "}";
      MemberIsRead(ms[0], rest);
      assert ms == [ms[0]];
    } else {
      var later := PrintMember(ms[1]) + (PrintMore(ms[1..][1..]) + "}");
      assert rest == "," + later && rest[1..] == later;
      MemberIsRead(ms[0], rest);
      MembersAreRead(ms[1..]);
      assert [ms[0]] + ms[1..] == ms;
    }
  }

  lemma InBraces(a: string, b: string)
    ensures var s := "{" + a + b + "}";
      s[0] == '{' && s[1..] == a + (b + "}")
  {
  }

  lemma ObjectIsRead(ms: seq<Member>)
    requires ms != []
    ensures ParseObject(PrintObject(ms)) == Some(ms)
  {
    MembersAreRead(ms);
    hide ParseMembers, PrintMember, PrintMore;
    InBraces(PrintMember(ms[0]), PrintMore(ms[1..]));
  }

  // ---------------------------------------------------------------- base64

  function SymbolValue(c: char): Option<nat> {
    if 'A' <= c <= 'Z' then Some(c as int - 'A' as int)
    else if 'a' <= c <= 'z' then Some(c as int - 'a' as int + 26)
    else if '0' <= c <= '9' then Some(c as int - '0' as int + 52)
    else if c == '+' then Some(62)
    else if c == '/' then Some(63)
    else None
  }

  lemma SymbolIsRead(i: nat)
    requires i < 64
    ensures SymbolValue(Symbol(i)) == Some(i) && Symbol(i) != '='
  {
  }

  /** The three bytes of four symbols. */
  function Ungroup(w: nat, x: nat, y: nat, z: nat): Bytes
    requires w < 64 && x < 64 && y < 64 && z < 64
  {
    [w * 4 + x / 16, x % 16 * 16 + y / 4, y % 4 * 64 + z]
  }

  /** The bytes of a base64 string, four characters at a time, the last group padded. */
  function Unbase64(s: string): Option<Bytes> {
    if s == "" then Some([])
    else if |s| < 4 || SymbolValue(s[0]).None? || SymbolValue(s[1]).None? then None
    else
      var w, x := SymbolValue(s[0]).value, SymbolValue(s[1]).value;
      if s[2] == '=' then
        if s[3] == '=' && |s| == 4 then Some(Ungroup(w, x, 0, 0)[..1]) else None
      else if SymbolValue(s[2]).None? then None
      else
        var y := SymbolValue(s[2]).value;
        if s[3] == '=' then
          if |s| == 4 then Some(Ungroup(w, x, y, 0)[..2]) else None
        else if SymbolValue(s[3]).None? then None
        else
          match Unbase64(s[4..])
          case None => None
          case Some(more) => Some(Ungroup(w, x, y, SymbolValue(s[3]).value) + more)
  }

  lemma BitsRegroup(a: byte, b: byte, c: byte)
    ensures a / 4 * 4 + (a % 4 * 16 + b / 16) / 16 == a
    ensures (a % 4 * 16 + b / 16) % 16 * 16 + (b % 16 * 4 + c / 64) / 4 == b
    ensures (b % 16 * 4 + c / 64) % 4 * 64 + c % 64 == c
  {
  }

  lemma GroupIsRead(a: byte, b: byte, c: byte)
    ensures var g := Group(a, b, c);
      && SymbolValue(g[0]) == Some(a / 4)
      && SymbolValue(g[1]) == Some(a % 4 * 16 + b / 16)
      && SymbolValue(g[2]) == Some(b % 16 * 4 + c / 64)
      && SymbolValue(g[3]) == Some(c % 64)
      && g[2] != '=' && g[3] != '='
    ensures Ungroup(a / 4, a % 4 * 16 + b / 16, b % 16 * 4 + c / 64, c % 64) == [a, b, c]
  {
    SymbolIsRead(a / 4);
    SymbolIsRead(a % 4 * 16 + b / 16);
    SymbolIsRead(b % 16 * 4 + c / 64);
    SymbolIsRead(c % 64);
    hide Symbol, SymbolValue;
    BitsRegroup(a, b, c);
  }

  lemma {:induction false} Base64IsRead(bytes: Bytes)
    ensures Unbase64(Base64(bytes)) == Some(bytes)
  {
    hide Symbol, SymbolValue, Group, Ungroup;
    if |bytes| == 0 {
    } else if |bytes| == 1 {
      GroupIsRead(bytes[0], 0, 0);
      assert bytes == [bytes[0], 0, 0][..1];
    } else if |bytes| == 2 {
      GroupIsRead(bytes[0], bytes[1], 0);
      assert bytes == [bytes[0], bytes[1], 0][..2];
    } else {
      var g, rest := Group(bytes[0], bytes[1], bytes[2]), Base64(bytes[3..]);
      GroupIsRead(bytes[0], bytes[1], bytes[2]);
      Base64IsRead(bytes[3..]);
      assert (g + rest)[4..] == rest;
      assert bytes == [bytes[0], bytes[1], bytes[2]] + bytes[3..];
    }
  }

  // ---------------------------------------------------------------- frames

  function Lookup(ms: seq<Member>, name: Name): Option<Value> {
    if ms == [] then None
    else if ms[0].name == name then Some(ms[0].value)
    else Lookup(ms[1..], name)
  }

  function NumberIn(ms: seq<Member>, name: Name): Option<u64> {
    match Lookup(ms, name)
    case Some(Number(n)) => Some(n)
    case _ => None
  }

  function TextIn(ms: seq<Member>, name: Name): Option<string> {
    match Lookup(ms, name)
    case Some(Text(t)) => Some(t)
    case _ => None
  }

  function NumbersIn(ms: seq<Member>, name: Name): Option<seq<u64>> {
    match Lookup(ms, name)
    case Some(Numbers(ns)) => Some(ns)
    case _ => None
  }

  /** The frame that the members describe; the first four fields have to be there. */
  function FrameFrom(ms: seq<Member>): Option<RangeFrame> {
    match (NumberIn(ms, Offset), NumberIn(ms, Length), TextIn(ms, Payload), Lookup(ms, Complete))
    case (Some(offset), Some(length), Some(payload), Some(Flag(complete))) =>
      (match Unbase64(payload)
       case None => None
       case Some(bytes) =>
         Some(RangeFrame(
           offset, length, bytes, complete,
           NumberIn(ms, TotalLength), NumbersIn(ms, Lens), NumberIn(ms, Index),
           TextIn(ms, Proof), TextIn(ms, Root), NumberIn(ms, Count), NumberIn(ms, LensOffset))))
    case _ => None
  }

  function DecodeBody(body: string): Option<RangeFrame> {
    match ParseObject(body)
    case None => None
    case Some(ms) => FrameFrom(ms)
  }

  function NumberMember(name: Name, n: Option<u64>): seq<Member> {
    if n.None? then [] else [Member(name, Number(n.value))]
  }

  function TextMember(name: Name, t: Option<string>): seq<Member> {
    if t.None? then [] else [Member(name, Text(t.value))]
  }

  function NumbersMember(name: Name, ns: Option<seq<u64>>): seq<Member> {
    if ns.None? then [] else [Member(name, Numbers(ns.value))]
  }

  function Required(f: RangeFrame): seq<Member> {
    [Member(Offset, Number(f.offset)), Member(Length, Number(f.length)),
     Member(Payload, Text(Base64(f.bytes))), Member(Complete, Flag(f.complete))]
  }

  function LayoutMembers(f: RangeFrame): seq<Member> {
    NumberMember(TotalLength, f.totalLength) + NumbersMember(Lens, f.chunkLens) + NumberMember(Index, f.chunkIndex)
  }

  function CommitmentMembers(f: RangeFrame): seq<Member> {
    TextMember(Proof, f.inclusionProof) + TextMember(Root, f.root)
    + NumberMember(Count, f.chunkCount) + NumberMember(LensOffset, f.chunkLensOffset)
  }

  function Members(f: RangeFrame): seq<Member> {
    Required(f) + (LayoutMembers(f) + CommitmentMembers(f))
  }

  lemma {:induction false} LookupAppend(a: seq<Member>, b: seq<Member>, name: Name)
    ensures Lookup(a + b, name) == if Lookup(a, name).Some? then Lookup(a, name) else Lookup(b, name)
  {
    if a == [] {
      assert a + b == b;
    } else {
      LookupAppend(a[1..], b, name);
      assert (a + b)[1..] == a[1..] + b;
    }
  }

  lemma LayoutIsFound(f: RangeFrame, name: Name)
    ensures Lookup(LayoutMembers(f), name) ==
      match name
      case TotalLength => if f.totalLength.None? then None else Some(Number(f.totalLength.value))
      case Lens => if f.chunkLens.None? then None else Some(Numbers(f.chunkLens.value))
      case Index => if f.chunkIndex.None? then None else Some(Number(f.chunkIndex.value))
      case _ => None
  {
    var a, b, c :=
      NumberMember(TotalLength, f.totalLength), NumbersMember(Lens, f.chunkLens), NumberMember(Index, f.chunkIndex);
    LookupAppend(a, b, name);
    LookupAppend(a + b, c, name);
  }

  lemma CommitmentIsFound(f: RangeFrame, name: Name)
    ensures Lookup(CommitmentMembers(f), name) ==
      match name
      case Proof => if f.inclusionProof.None? then None else Some(Text(f.inclusionProof.value))
      case Root => if f.root.None? then None else Some(Text(f.root.value))
      case Count => if f.chunkCount.None? then None else Some(Number(f.chunkCount.value))
      case LensOffset => if f.chunkLensOffset.None? then None else Some(Number(f.chunkLensOffset.value))
      case _ => None
  {
    var a, b := TextMember(Proof, f.inclusionProof), TextMember(Root, f.root);
    var c, d := NumberMember(Count, f.chunkCount), NumberMember(LensOffset, f.chunkLensOffset);
    LookupAppend(a, b, name);
    LookupAppend(a + b, c, name);
    LookupAppend(a + b + c, d, name);
  }

  lemma RequiredIsFound(f: RangeFrame, name: Name)
    ensures Lookup(Required(f), name) ==
      match name
      case Offset => Some(Number(f.offset))
      case Length => Some(Number(f.length))
      case Payload => Some(Text(Base64(f.bytes)))
      case Complete => Some(Flag(f.complete))
      case _ => None
  {
    var m0, m1 := Member(Offset, Number(f.offset)), Member(Length, Number(f.length));
    var m2, m3 := Member(Payload, Text(Base64(f.bytes))), Member(Complete, Flag(f.complete));
    hide Base64;
    LookupAppend([m0], [m1], name);
    LookupAppend([m2], [m3], name);
    LookupAppend([m0] + [m1], [m2] + [m3], name);
    assert Required(f) == ([m0] + [m1]) + ([m2] + [m3]);
  }

  lemma MemberIsFound(f: RangeFrame, name: Name)
    ensures Lookup(Members(f), name) ==
      if Lookup(Required(f), name).Some? then Lookup(Required(f), name)
      else if Lookup(LayoutMembers(f), name).Some? then Lookup(LayoutMembers(f), name)
      else Lookup(CommitmentMembers(f), name)
  {
    LookupAppend(LayoutMembers(f), CommitmentMembers(f), name);
    LookupAppend(Required(f), LayoutMembers(f) + CommitmentMembers(f), name);
  }

  lemma FieldIsFound(f: RangeFrame, name: Name)
    ensures Lookup(Members(f), name) ==
      match name
      case Offset => Some(Number(f.offset))
      case Length => Some(Number(f.length))
      case Payload => Some(Text(Base64(f.bytes)))
      case Complete => Some(Flag(f.complete))
      case TotalLength => if f.totalLength.None? then None else Some(Number(f.totalLength.value))
      case Lens => if f.chunkLens.None? then None else Some(Numbers(f.chunkLens.value))
      case Index => if f.chunkIndex.None? then None else Some(Number(f.chunkIndex.value))
      case Proof => if f.inclusionProof.None? then None else Some(Text(f.inclusionProof.value))
      case Root => if f.root.None? then None else Some(Text(f.root.value))
      case Count => if f.chunkCount.None? then None else Some(Number(f.chunkCount.value))
      case LensOffset => if f.chunkLensOffset.None? then None else Some(Number(f.chunkLensOffset.value))
  {
    hide Members, Required, LayoutMembers, CommitmentMembers, Lookup;
    MemberIsFound(f, name);
    RequiredIsFound(f, name);
    LayoutIsFound(f, name);
    CommitmentIsFound(f, name);
  }

  lemma MembersDescribeTheFrame(f: RangeFrame)
    ensures FrameFrom(Members(f)) == Some(f)
  {
    hide Members, Lookup, Base64, Unbase64;
    Base64IsRead(f.bytes);
    FieldIsFound(f, Offset);
    FieldIsFound(f, Length);
    FieldIsFound(f, Payload);
    FieldIsFound(f, Complete);
    FieldIsFound(f, TotalLength);
    FieldIsFound(f, Lens);
    FieldIsFound(f, Index);
    FieldIsFound(f, Proof);
    FieldIsFound(f, Root);
    FieldIsFound(f, Count);
    FieldIsFound(f, LensOffset);
  }

  // ---------------------------------------------------------------- what is printed is read back

  lemma Associates(a: string, b: string, c: string)
    ensures a + b + c == a + (b + c)
  {
  }

  lemma {:induction false} MoreAppends(a: seq<Member>, b: seq<Member>)
    ensures PrintMore(a + b) == PrintMore(a) + PrintMore(b)
  {
    hide PrintMember;
    if a == [] {
      assert a + b == b;
    } else {
      MoreAppends(a[1..], b);
      assert (a + b)[1..] == a[1..] + b;
      Associates("," + PrintMember(a[0]), PrintMore(a[1..]), PrintMore(b));
    }
  }

  lemma OneMore(m: Member)
    ensures PrintMore([m]) == "," + PrintMember(m)
  {
    assert [m][1..] == [];
  }

  lemma NumberFieldIsMember(name: Name, n: Option<u64>)
    ensures NumberField(Spelled(name), n) == PrintMore(NumberMember(name, n))
  {
    hide Decimal, Spelled;
    if n.Some? {
      OneMore(Member(name, Number(n.value)));
    }
  }

  lemma TextFieldIsMember(name: Name, t: Option<string>)
    ensures TextField(Spelled(name), t) == PrintMore(TextMember(name, t))
  {
    hide Escape, Spelled;
    if t.Some? {
      OneMore(Member(name, Text(t.value)));
    }
  }

  lemma ListFieldIsMember(name: Name, ns: Option<seq<u64>>)
    ensures ListField(Spelled(name), ns) == PrintMore(NumbersMember(name, ns))
  {
    hide Listed, Spelled, Decimal;
    if ns.Some? {
      OneMore(Member(name, Numbers(ns.value)));
    }
  }

  lemma LayoutIsMembers(f: RangeFrame)
    ensures Layout(f) == PrintMore(LayoutMembers(f))
  {
    NumberFieldIsMember(TotalLength, f.totalLength);
    ListFieldIsMember(Lens, f.chunkLens);
    NumberFieldIsMember(Index, f.chunkIndex);
    hide NumberField, ListField, PrintMore;
    MoreAppends(NumberMember(TotalLength, f.totalLength), NumbersMember(Lens, f.chunkLens));
    MoreAppends(
      NumberMember(TotalLength, f.totalLength) + NumbersMember(Lens, f.chunkLens), NumberMember(Index, f.chunkIndex));
  }

  lemma CommitmentIsMembers(f: RangeFrame)
    ensures Commitment(f) == PrintMore(CommitmentMembers(f))
  {
    var a, b := TextMember(Proof, f.inclusionProof), TextMember(Root, f.root);
    var c, d := NumberMember(Count, f.chunkCount), NumberMember(LensOffset, f.chunkLensOffset);
    TextFieldIsMember(Proof, f.inclusionProof);
    TextFieldIsMember(Root, f.root);
    NumberFieldIsMember(Count, f.chunkCount);
    NumberFieldIsMember(LensOffset, f.chunkLensOffset);
    hide TextField, NumberField, PrintMore;
    MoreAppends(a, b);
    MoreAppends(a + b, c);
    MoreAppends(a + b + c, d);
  }

  lemma KeyedIsMember(m: Member)
    ensures Key(Spelled(m.name)) + PrintValue(m.value) == "," + PrintMember(m)
  {
    hide Spelled, PrintValue;
    Associates(",", "\"" + Spelled(m.name) + "\":", PrintValue(m.value));
    assert ",\"" + Spelled(m.name) + "\":" == "," + ("\"" + Spelled(m.name) + "\":");
  }

  lemma SpanIsMembers(f: RangeFrame)
    ensures Span(f) == "{" + PrintMember(Required(f)[0]) + ("," + PrintMember(Required(f)[1]))
  {
    var d, e := Decimal(f.offset), Decimal(f.length);
    KeyedIsMember(Required(f)[1]);
    hide Decimal, Base64;
    assert "{\"offset\":" == "{" + ("\"" + "offset" + "\":");
    Associates("{", "\"" + "offset" + "\":", d);
    Associates("{" + PrintMember(Required(f)[0]), Key("length"), e);
  }

  lemma WindowIsMembers(f: RangeFrame)
    ensures Window(f) == "," + PrintMember(Required(f)[2]) + ("," + PrintMember(Required(f)[3]))
  {
    KeyedIsMember(Required(f)[2]);
    KeyedIsMember(Required(f)[3]);
    hide Decimal, Base64, Quoted, PrintMember;
    Associates(Key("bytes") + Quoted(Base64(f.bytes)), Key("complete"), Truth(f.complete));
  }

  lemma ThreeMore(a: Member, b: Member, c: Member)
    ensures PrintMore([a, b, c]) == "," + PrintMember(a) + ("," + PrintMember(b) + ("," + PrintMember(c)))
  {
    hide PrintMember;
    OneMore(a);
    OneMore(b);
    OneMore(c);
    MoreAppends([b], [c]);
    MoreAppends([a], [b] + [c]);
    hide PrintMore;
    assert [a, b, c] == [a] + ([b] + [c]);
  }

  lemma RequiredIsMembers(f: RangeFrame)
    ensures Span(f) + Window(f) == "{" + PrintMember(Required(f)[0]) + PrintMore(Required(f)[1..])
  {
    var ms := Required(f);
    SpanIsMembers(f);
    WindowIsMembers(f);
    ThreeMore(ms[1], ms[2], ms[3]);
    assert ms[1..] == [ms[1], ms[2], ms[3]];
    hide PrintMore, PrintMember, Span, Window, Required;
    Associates("{" + PrintMember(ms[0]), "," + PrintMember(ms[1]), Window(f));
  }

  lemma Assemble(head: string, r: string, l: string, c: string, end: string)
    ensures head + r + l + c + end == head + (r + (l + c)) + end
  {
  }

  lemma MembersSplit(f: RangeFrame)
    ensures Members(f) != [] && Required(f) != [] && Members(f)[0] == Required(f)[0]
    ensures Members(f)[1..] == Required(f)[1..] + (LayoutMembers(f) + CommitmentMembers(f))
  {
    hide LayoutMembers, CommitmentMembers, Base64;
  }

  lemma BodyIsObject(f: RangeFrame)
    ensures Body(f) == PrintObject(Members(f))
  {
    hide Span, Window, Layout, Commitment, PrintMember, PrintMore, Members, LayoutMembers, CommitmentMembers, Required;
    var required, layout, commitment := Required(f), LayoutMembers(f), CommitmentMembers(f);
    RequiredIsMembers(f);
    LayoutIsMembers(f);
    CommitmentIsMembers(f);
    MembersSplit(f);
    MoreAppends(layout, commitment);
    MoreAppends(required[1..], layout + commitment);
    Assemble(
      "{" + PrintMember(required[0]), PrintMore(required[1..]), PrintMore(layout), PrintMore(commitment), "}");
  }

  /** The frame round trip: whatever a frame holds, its printed body reads back as that frame. */
  lemma BodyReadsBack(f: RangeFrame)
    ensures DecodeBody(Body(f)) == Some(f)
  {
    hide Body, Members, PrintObject, ParseObject, FrameFrom;
    BodyIsObject(f);
    MembersAreSome(f);
    ObjectIsRead(Members(f));
    MembersDescribeTheFrame(f);
  }

  lemma MembersAreSome(f: RangeFrame)
    ensures Members(f) != []
  {
  }

  /** Two frames that encode alike are alike. */
  lemma EncodingIsInjective(f: RangeFrame, g: RangeFrame)
    requires Encode(f).Ok? && Encode(f) == Encode(g)
    ensures f == g
  {
    hide Body, DecodeBody;
    BodyReadsBack(f);
    BodyReadsBack(g);
  }

  // ---------------------------------------------------------------- frames on a stream

  /** A text given as bytes, one character each. */
  function AsBytes(s: string): Option<Bytes> {
    if forall i :: 0 <= i < |s| ==> s[i] as int < 256 then
      Some(seq(|s|, i requires 0 <= i < |s| => s[i] as int % 256))
    else None
  }

  function AsText(b: Bytes): string {
    seq(|b|, i requires 0 <= i < |b| => b[i] as char)
  }

  lemma TextIsRecovered(s: string)
    requires AsBytes(s).Some?
    ensures AsText(AsBytes(s).value) == s
  {
  }

  function FrameCodec(): Framing.Codec<RangeFrame> {
    Framing.Codec((f: RangeFrame) => AsBytes(Body(f)), (b: Bytes) => DecodeBody(AsText(b)))
  }

  /** The assumption that the framing proofs make of a codec holds of range frames. */
  lemma FrameCodecInverts()
    ensures Framing.Inverts(FrameCodec())
  {
    forall f: RangeFrame | FrameCodec().printBody(f).Some?
      ensures FrameCodec().parseBody(FrameCodec().printBody(f).value) == Some(f)
    {
      hide Body, DecodeBody, AsBytes, AsText;
      TextIsRecovered(Body(f));
      BodyReadsBack(f);
    }
  }

  /** A stream of range frames reads back as those frames, and cut anywhere as those that arrived whole. */
  lemma FramesReadBack(fs: seq<RangeFrame>, k: nat)
    requires Framing.AllEncodable(FrameCodec(), fs) && k <= |Framing.EncodeAll(FrameCodec(), fs)|
    ensures Framing.DecodeAll(FrameCodec(), Framing.EncodeAll(FrameCodec(), fs)) == (fs, Framing.AtEnd)
    ensures Framing.DecodeAll(FrameCodec(), Framing.EncodeAll(FrameCodec(), fs)[..k])
      == Framing.CutOutcome(FrameCodec(), fs, k)
  {
    hide *;
    FrameCodecInverts();
    Framing.StreamRoundTrip(FrameCodec(), fs);
    Framing.CutStreamDecodesToAPrefix(FrameCodec(), fs, k);
  }
}
