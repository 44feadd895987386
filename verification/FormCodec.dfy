/** The `application/x-www-form-urlencoded` body: what is sent, and how an answer is read. */
module FormCodec {
  import opened Common
  import opened Text

  type Byte = b: int | 0 <= b < 256 witness 0
  type Bytes = seq<Byte>

  const PERCENT: Byte := 37
  const AMPERSAND: Byte := 38
  const PLUS: Byte := 43
  const EQUALS: Byte := 61
  const QUESTION: Byte := 63
  const SPACE: Byte := 32

  /** Letters, digits and `- _ . ~` travel as they are. */
  predicate Unreserved(b: Byte)
  {
    65 <= b <= 90 || 97 <= b <= 122 || 48 <= b <= 57 || b == 45 || b == 95 || b == 46 || b == 126
  }

  function HexDigit(n: int): Byte
    requires 0 <= n < 16
  {
    if n < 10 then 48 + n else 55 + n
  }

  function EncodeByte(b: Byte): Bytes
  {
    if Unreserved(b) then [b]
    else if b == SPACE then [PLUS]
    else [PERCENT, HexDigit(b / 16), HexDigit(b % 16)]
  }

  function Encoded(s: Bytes): Bytes
  {
    if s == [] then [] else EncodeByte(s[0]) + Encoded(s[1..])
  }

  function HexValue(b: Byte): Option<int>
  {
    if 48 <= b <= 57 then Some(b - 48)
    else if 65 <= b <= 70 then Some(b - 55)
    else if 97 <= b <= 102 then Some(b - 87)
    else None
  }

  /** `u8::from_str_radix` of two characters; it takes a leading plus sign. */
  function TwoHex(a: Byte, b: Byte): Option<Byte>
  {
    match (HexValue(a), HexValue(b))
    case (Some(x), Some(y)) => Some(16 * x + y)
    case (None, Some(y)) => if a == PLUS then Some(y) else None
    case _ => None
  }

  /** A byte inside a multi-byte character: a string may not be cut in front of it. */
  predicate Continuation(b: Byte)
  {
    128 <= b < 192
  }

  /** Does cutting two bytes after the percent sign at `i` split a character? */
  predicate Splits(s: Bytes, i: nat)
  {
    i + 3 < |s| && Continuation(s[i + 3])
  }

  /** What the bytes from here on decode to; `None` is the panic of a cut through a character. */
  function Decoded(s: Bytes): Option<Bytes>
    decreases |s|
  {
    if s == [] then Some([])
    else if s[0] == PLUS then Then([SPACE], Decoded(s[1..]))
    else if s[0] == PERCENT && |s| > 2 then
      if Splits(s, 0) then None
      else
        match TwoHex(s[1], s[2])
        case Some(b) => Then([b], Decoded(s[3..]))
        case None => Then([PERCENT], Decoded(s[1..]))
    else Then([s[0]], Decoded(s[1..]))
  }

  function Then(a: Bytes, rest: Option<Bytes>): Option<Bytes>
  {
    match rest
    case None => None
    case Some(b) => Some(a + b)
  }

  method UrlEncode(s: Bytes) returns (out: Bytes)
    ensures out == Encoded(s)
  {
    out := [];
    var i := 0;
    assert s[0..] == s;
    while i < |s|
      invariant 0 <= i <= |s|
      invariant out + Encoded(s[i..]) == Encoded(s)
    {
      var b := s[i];
      EncodedFrom(s, i, out);
      hide Encoded;
      if Unreserved(b) {
        out := out + [b];
      } else if b == SPACE {
        out := out + [PLUS];
      } else {
        out := out + [PERCENT, HexDigit(b / 16), HexDigit(b % 16)];
      }
      i := i + 1;
    }
  }

  lemma EncodedFrom(s: Bytes, i: nat, out: Bytes)
    requires i < |s|
    ensures out + Encoded(s[i..]) == out + EncodeByte(s[i]) + Encoded(s[i + 1..])
  {
    assert s[i..][0] == s[i] && s[i..][1..] == s[i + 1..];
    hide EncodeByte;
    assert out + (EncodeByte(s[i]) + Encoded(s[i + 1..])) == out + EncodeByte(s[i]) + Encoded(s[i + 1..]);
  }

  /** `None` where the original would panic. */
  method PercentDecode(s: Bytes) returns (r: Option<Bytes>)
    ensures r == Decoded(s)
  {
    var out: Bytes := [];
    var i := 0;
    assert s[0..] == s && forall b: Bytes :: out + b == b;
    while i < |s|
      invariant 0 <= i <= |s|
      invariant Then(out, Decoded(s[i..])) == Decoded(s)
    {
      var rest := s[i..];
      assert rest[0] == s[i] && rest[1..] == s[i + 1..];
      if s[i] == PLUS {
        ThenJoins(out, [SPACE], Decoded(s[i + 1..]));
        out := out + [SPACE];
        i := i + 1;
      } else if s[i] == PERCENT && i + 2 < |s| {
        assert rest[1] == s[i + 1] && rest[2] == s[i + 2] && rest[3..] == s[i + 3..];
        assert Splits(rest, 0) <==> Splits(s, i);
        if Splits(s, i) {
          return None;
        }
        var byte := TwoHex(s[i + 1], s[i + 2]);
        if byte.Some? {
          ThenJoins(out, [byte.value], Decoded(s[i + 3..]));
          out := out + [byte.value];
          i := i + 3;
        } else {
          ThenJoins(out, [PERCENT], Decoded(s[i + 1..]));
          out := out + [PERCENT];
          i := i + 1;
        }
      } else {
        ThenJoins(out, [s[i]], Decoded(s[i + 1..]));
        out := out + [s[i]];
        i := i + 1;
      }
    }
    assert s[i..] == [] && out + [] == out;
    r := Some(out);
  }

  lemma ThenJoins(a: Bytes, b: Bytes, rest: Option<Bytes>)
    ensures Then(a, Then(b, rest)) == Then(a + b, rest)
  {
    if rest.Some? {
      assert a + (b + rest.value) == a + b + rest.value;
    }
  }

  // ---- round trip of one value ------------------------------------------------------

  /** The bytes an encoder writes: none of them white space, `?`, `&` or `=`, and all ASCII. */
  predicate Written(b: Byte)
  {
    Unreserved(b) || b == PLUS || b == PERCENT
  }

  lemma HexWritten(b: Byte)
    ensures Unreserved(HexDigit(b / 16)) && Unreserved(HexDigit(b % 16))
    ensures TwoHex(HexDigit(b / 16), HexDigit(b % 16)) == Some(b)
  {
  }

  lemma {:induction false} EncodedIsWritten(s: Bytes)
    ensures forall i :: 0 <= i < |Encoded(s)| ==> Written(Encoded(s)[i])
  {
    if s != [] {
      HexWritten(s[0]);
      EncodedIsWritten(s[1..]);
    }
  }

  /** Decoding what was encoded gives it back, for every string of bytes. */
  lemma {:induction false} DecodeEncoded(s: Bytes)
    ensures Decoded(Encoded(s)) == Some(s)
  {
    if s != [] {
      DecodeEncoded(s[1..]);
      HexWritten(s[0]);
      var head, tail := EncodeByte(s[0]), Encoded(s[1..]);
      EncodedIsWritten(s[1..]);
      assert (head + tail)[|head|..] == tail;
      assert [s[0]] + s[1..] == s;
      if |head| == 3 {
        assert 3 < |head + tail| ==> (head + tail)[3] == tail[0];
        assert !Splits(head + tail, 0);
      } else {
        assert (head + tail)[1..] == tail;
      }
    }
  }

  // ---- what is written and read, character by character ----------------------------------

  predicate TravelsAsItIs(c: char)
  {
    'A' <= c <= 'Z' || 'a' <= c <= 'z' || '0' <= c <= '9' || c in "-_.~"
  }

  /** What travels as it is, a space, and everything else by its code. */
  lemma BytesAreWritten(b: Byte)
    ensures Encoded([b]) ==
              if TravelsAsItIs(b as char) then [b]
              else if b as char == ' ' then ['+' as int]
              else ['%' as int, "0123456789ABCDEF"[b / 16] as int, "0123456789ABCDEF"[b % 16] as int]
  {
    assert [b][1..] == [];
    HexDigitIs(b / 16);
    HexDigitIs(b % 16);
    hide HexDigit;
  }

  lemma HexDigitIs(n: int)
    requires 0 <= n < 16
    ensures HexDigit(n) == "0123456789ABCDEF"[n] as int
  {
  }

  /** A digit of an escape, in either case. */
  predicate IsHex(b: Byte, v: int)
  {
    0 <= v < 16 && (b as char == "0123456789ABCDEF"[v] || b as char == "0123456789abcdef"[v])
  }

  lemma HexIs(b: Byte, v: int)
    ensures HexValue(b) == Some(v) <==> IsHex(b, v)
  {
  }

  /** No byte after this escape is the inside of a character. */
  predicate CutsCleanly(rest: Bytes)
  {
    rest != [] ==> !Continuation(rest[0])
  }

  lemma EscapeDecodes(a: Byte, b: Byte, rest: Bytes)
    requires CutsCleanly(rest)
    ensures Decoded([PERCENT, a, b] + rest) ==
              match TwoHex(a, b)
              case Some(x) => Then([x], Decoded(rest))
              case None => Then([PERCENT], Decoded([a, b] + rest))
  {
    var s := [PERCENT, a, b] + rest;
    assert s[3..] == rest && s[1..] == [a, b] + rest;
    assert rest != [] ==> s[3] == rest[0];
    hide TwoHex;
  }

  /**
   How escapes are read: two digits after a percent sign are the byte they name,
   in either case, and so is one after a plus; before anything else the percent
   sign stands for itself.
   */
  lemma EscapesAreRead(a: Byte, b: Byte, x: int, y: int, rest: Bytes)
    requires CutsCleanly(rest)
    ensures IsHex(a, x) && IsHex(b, y) ==> Decoded([PERCENT, a, b] + rest) == Then([16 * x + y], Decoded(rest))
    ensures a as char == '+' && IsHex(b, y) ==> Decoded([PERCENT, a, b] + rest) == Then([y], Decoded(rest))
    ensures (forall v :: !IsHex(b, v)) || (a as char != '+' && forall v :: !IsHex(a, v)) ==>
              Decoded([PERCENT, a, b] + rest) == Then([PERCENT], Decoded([a, b] + rest))
  {
    EscapeDecodes(a, b, rest);
    HexIs(a, x);
    HexIs(b, y);
    if HexValue(b).Some? {
      HexIs(b, HexValue(b).value);
    }
    if HexValue(a).Some? {
      HexIs(a, HexValue(a).value);
    }
    assert IsHex(a, x) ==> a as char != '+';
    hide Decoded, HexValue, IsHex, Then;
  }

  /** And everything else: a plus is a space, a percent sign too near the end and every other byte is itself. */
  lemma OtherBytesAreRead(a: Byte, rest: Bytes)
    ensures Decoded([PLUS] + rest) == Then([' ' as int], Decoded(rest))
    ensures a as char != '+' && a as char != '%' ==> Decoded([a] + rest) == Then([a], Decoded(rest))
    ensures |rest| < 2 ==> Decoded([PERCENT] + rest) == Then([PERCENT], Decoded(rest))
  {
    assert ([PLUS] + rest)[1..] == rest && ([a] + rest)[1..] == rest && ([PERCENT] + rest)[1..] == rest;
    hide TwoHex, Then;
  }

  // ---- a whole form -----------------------------------------------------------------

  datatype Pair = Pair(key: Bytes, value: Bytes)

  type Form = map<Bytes, Bytes>

  function EncodePair(p: Pair): Bytes
  {
    Encoded(p.key) + [EQUALS] + Encoded(p.value)
  }

  /** The body of a request: the pairs encoded and joined. */
  function Join(pairs: seq<Pair>): Bytes
  {
    if pairs == [] then []
    else if |pairs| == 1 then EncodePair(pairs[0])
    else EncodePair(pairs[0]) + [AMPERSAND] + Join(pairs[1..])
  }

  predicate Blank(b: Byte)
  {
    b == SPACE || 9 <= b <= 13
  }

  predicate Question(b: Byte)
  {
    b == QUESTION
  }

  /** A body without the white space around it and without question marks before it. */
  function Bare(body: Bytes): Bytes
  {
    DropStart(Stripped(body, Blank), Question)
  }

  /** Where a byte first occurs, or the length. */
  function Find(s: Bytes, b: Byte): (i: nat)
    ensures i <= |s|
    ensures i < |s| ==> s[i] == b
    ensures forall j :: 0 <= j < i ==> s[j] != b
  {
    if s == [] || s[0] == b then 0 else 1 + Find(s[1..], b)
  }

  function Split(s: Bytes, b: Byte): seq<Bytes>
    decreases |s|
  {
    var i := Find(s, b);
    if i == |s| then [s] else [s[..i]] + Split(s[i + 1..], b)
  }

  /** Key and value at the first `=`; a part without one is a key with an empty value. */
  function ReadPair(part: Bytes): Option<Pair>
  {
    var i := Find(part, EQUALS);
    match (Decoded(part[..i]), if i == |part| then Decoded([]) else Decoded(part[i + 1..]))
    case (Some(k), Some(v)) => Some(Pair(k, v))
    case _ => None
  }

  /** The parts that are not empty, read left to right; a later key replaces an earlier one. */
  function ReadAll(parts: seq<Bytes>, form: Form): Option<Form>
    decreases |parts|
  {
    if parts == [] then Some(form)
    else if parts[0] == [] then ReadAll(parts[1..], form)
    else
      match ReadPair(parts[0])
      case None => None
      case Some(p) => ReadAll(parts[1..], form[p.key := p.value])
  }

  function ParseQuery(body: Bytes): Option<Form>
  {
    ReadAll(Split(Bare(body), AMPERSAND), map[])
  }

  /** The form the pairs mean: the last value of each key. */
  function LastWins(pairs: seq<Pair>, form: Form): Form
    decreases |pairs|
  {
    if pairs == [] then form else LastWins(pairs[1..], form[pairs[0].key := pairs[0].value])
  }

  /** A form as it is written: names and values joined by `=`, pairs by `&`. */
  lemma FormsAreWritten(p: Pair, rest: seq<Pair>)
    ensures Join([p] + rest) ==
              Encoded(p.key) + ['=' as int] + Encoded(p.value) + if rest == [] then [] else ['&' as int] + Join(rest)
  {
    assert ([p] + rest)[1..] == rest;
    if rest != [] {
      assert EncodePair(p) + ['&' as int] + Join(rest) == EncodePair(p) + (['&' as int] + Join(rest));
    }
  }

  /** White space around a body and question marks before it change nothing. */
  lemma PaddingIsIgnored(before: Bytes, marks: Bytes, body: Bytes, after: Bytes)
    requires forall i :: 0 <= i < |before| ==> IsSpace(before[i] as char)
    requires forall i :: 0 <= i < |after| ==> IsSpace(after[i] as char)
    requires forall i :: 0 <= i < |marks| ==> marks[i] as char == '?'
    requires body != [] && body[0] as char != '?' && !IsSpace(body[0] as char) && !IsSpace(body[|body| - 1] as char)
    ensures ParseQuery(before + (marks + body) + after) == ParseQuery(body)
  {
    forall b: Byte ensures Blank(b) <==> IsSpace(b as char) {
    }
    StripsTheEnds(before, marks + body, after, Blank);
    StripsTheEnds([], body, [], Blank);
    assert [] + body + [] == body;
    DropsAll(marks, body, Question);
  }

  lemma FindIn(a: Bytes, b: Byte, rest: Bytes)
    requires forall i :: 0 <= i < |a| ==> a[i] != b
    ensures Find(a + [b] + rest, b) == |a|
    ensures Find(a, b) == |a|
  {
    var s := a + [b] + rest;
    assert s[|a|] == b && forall i :: 0 <= i < |a| ==> s[i] == a[i];
  }

  lemma ReadsBack(p: Pair)
    ensures ReadPair(EncodePair(p)) == Some(p) && EncodePair(p) != []
    ensures forall i :: 0 <= i < |EncodePair(p)| ==> Written(EncodePair(p)[i]) || EncodePair(p)[i] == EQUALS
  {
    var k, v := Encoded(p.key), Encoded(p.value);
    EncodedIsWritten(p.key);
    EncodedIsWritten(p.value);
    FindIn(k, EQUALS, v);
    assert EncodePair(p)[..|k|] == k && EncodePair(p)[|k| + 1..] == v;
    DecodeEncoded(p.key);
    DecodeEncoded(p.value);
  }

  lemma {:induction false} SplitJoined(pairs: seq<Pair>, form: Form)
    requires pairs != []
    ensures ReadAll(Split(Join(pairs), AMPERSAND), form) == Some(LastWins(pairs, form))
    decreases |pairs|
  {
    var first := EncodePair(pairs[0]);
    ReadsBack(pairs[0]);
    var form' := form[pairs[0].key := pairs[0].value];
    hide EncodePair, ReadPair;
    if |pairs| == 1 {
      FindIn(first, AMPERSAND, []);
      assert Split(first, AMPERSAND) == [first];
      assert ReadAll([first], form) == ReadAll([], form');
    } else {
      var rest := Join(pairs[1..]);
      FindIn(first, AMPERSAND, rest);
      var whole := first + [AMPERSAND] + rest;
      assert whole[..|first|] == first && whole[|first| + 1..] == rest;
      SplitJoined(pairs[1..], form');
      var parts := Split(rest, AMPERSAND);
      assert ([first] + parts)[1..] == parts;
    }
  }

  lemma {:induction false} JoinedBytes(pairs: seq<Pair>)
    ensures forall i :: 0 <= i < |Join(pairs)| ==> !Blank(Join(pairs)[i]) && Join(pairs)[i] != QUESTION
    decreases |pairs|
  {
    if pairs != [] {
      ReadsBack(pairs[0]);
      JoinedBytes(pairs[1..]);
    }
  }

  /**
   Whatever the keys and values hold, the form read from a body is the form it
   was written from, the last of repeated keys winning.
   */
  lemma FormRoundTrip(pairs: seq<Pair>)
    ensures ParseQuery(Join(pairs)) == Some(LastWins(pairs, map[]))
  {
    var body := Join(pairs);
    JoinedBytes(pairs);
    assert Bare(body) == body;
    if pairs == [] {
      assert Split([], AMPERSAND) == [[]];
      assert ReadAll([[]], map[]) == ReadAll([], map[]);
    } else {
      SplitJoined(pairs, map[]);
    }
  }

  // ---- where decoding stops -----------------------------------------------------------

  /** A percent sign three bytes before the inside of a character. */
  predicate StopsAt(s: Bytes, i: int)
  {
    0 <= i && i + 3 < |s| && s[i] as char == '%' && s[i + 3] / 64 == 2
  }

  predicate Stops(s: Bytes)
  {
    exists i :: 0 <= i < |s| && StopsAt(s, i)
  }

  /** Whatever the first `n` bytes are, if no percent sign is among them, the bytes after them decide. */
  lemma StopsLater(s: Bytes, n: nat)
    requires n <= |s| && forall i :: 0 <= i < n ==> !StopsAt(s, i)
    ensures Stops(s) <==> Stops(s[n..])
  {
    if i :| StopsAt(s, i) {
      assert StopsAt(s[n..], i - n);
    }
    if i :| StopsAt(s[n..], i) {
      assert StopsAt(s, i + n);
    }
  }

  /**
   The decoder panics exactly on the inputs in which some percent sign stands
   three bytes before the inside of a character: no valid escape ever skips a
   percent sign, so every one of them is reached, and tried.
   */
  lemma {:induction false} DecodingStopsExactly(s: Bytes)
    ensures Decoded(s) == None <==> Stops(s)
    decreases |s|
  {
    if s != [] {
      if s[0] == PERCENT && |s| > 2 {
        if Splits(s, 0) {
          assert StopsAt(s, 0);
        } else if TwoHex(s[1], s[2]).Some? {
          DecodingStopsExactly(s[3..]);
          StopsLater(s, 3);
        } else {
          DecodingStopsExactly(s[1..]);
          StopsLater(s, 1);
        }
      } else {
        DecodingStopsExactly(s[1..]);
        StopsLater(s, 1);
      }
    }
  }

  /** A part of a form whose key or value stops the decoder. */
  predicate PartStops(part: Bytes)
  {
    var i := Find(part, EQUALS);
    Stops(part[..i]) || (i < |part| && Stops(part[i + 1..]))
  }

  predicate SomeStops(parts: seq<Bytes>)
  {
    exists j :: 0 <= j < |parts| && PartStops(parts[j])
  }

  lemma ReadPairStops(part: Bytes)
    ensures ReadPair(part) == None <==> PartStops(part)
  {
    var i := Find(part, EQUALS);
    DecodingStopsExactly(part[..i]);
    DecodingStopsExactly(if i == |part| then [] else part[i + 1..]);
  }

  lemma {:induction false} ReadAllStops(parts: seq<Bytes>, form: Form)
    ensures ReadAll(parts, form) == None <==> SomeStops(parts)
    decreases |parts|
  {
    if parts != [] {
      var rest := parts[1..];
      ReadPairStops(parts[0]);
      ReadAllStops(rest, if ReadPair(parts[0]).Some? then form[ReadPair(parts[0]).value.key := ReadPair(parts[0]).value.value] else form);
      ReadAllStops(rest, form);
      hide PartStops, ReadPair;
      assert parts[0] == [] ==> !PartStops(parts[0]) by {
        EmptyPartReads();
      }
      assert SomeStops(parts) <==> PartStops(parts[0]) || SomeStops(rest) by {
        if j :| 0 <= j < |parts| && PartStops(parts[j]) && j > 0 {
          assert PartStops(rest[j - 1]);
        }
        if j :| 0 <= j < |rest| && PartStops(rest[j]) {
          assert PartStops(parts[j + 1]);
        }
      }
    }
  }

  lemma EmptyPartReads()
    ensures !PartStops([])
  {
    assert !Stops([]);
  }

  /**
   Reading a body panics exactly when, between the ampersands, a key or a value
   has a percent sign three bytes before the inside of a character. A notification
   body can be checked for that before it is read; one of ASCII never has it.
   */
  lemma ParsingStopsExactly(body: Bytes)
    ensures ParseQuery(body) == None <==>
              SomeStops(Split(Bare(body), AMPERSAND))
  {
    ReadAllStops(Split(Bare(body), AMPERSAND), map[]);
  }

  /** ASCII is always decoded. */
  lemma AsciiAlwaysDecodes(s: Bytes)
    requires forall i :: 0 <= i < |s| ==> s[i] < 128
    ensures Decoded(s).Some?
  {
    DecodingStopsExactly(s);
  }
}
