/** The few string operations the service relies on, on ASCII white space and digits. */
module Text {
  import opened Common

  predicate IsSpace(c: char)
  {
    c == ' ' || '\t' <= c <= '\r'
  }

  /** What is left when everything of a kind is taken off the front. */
  function DropStart<T>(s: seq<T>, kind: T -> bool): seq<T>
  {
    if s != [] && kind(s[0]) then DropStart(s[1..], kind) else s
  }

  function DropEnd<T>(s: seq<T>, kind: T -> bool): seq<T>
  {
    if s != [] && kind(s[|s| - 1]) then DropEnd(s[..|s| - 1], kind) else s
  }

  function Stripped<T>(s: seq<T>, kind: T -> bool): seq<T>
  {
    DropEnd(DropStart(s, kind), kind)
  }

  function Trim(s: string): string
  {
    Stripped(s, IsSpace)
  }

  predicate Bounded<T>(s: seq<T>, kind: T -> bool)
  {
    s != [] ==> !kind(s[0]) && !kind(s[|s| - 1])
  }

  predicate All<T>(s: seq<T>, kind: T -> bool)
  {
    forall i :: 0 <= i < |s| ==> kind(s[i])
  }

  predicate Trimmed(s: string)
  {
    Bounded(s, IsSpace)
  }

  /** SQLite's `TRIM` takes spaces off, and no other white space. */
  predicate IsBlank(c: char)
  {
    c == ' '
  }

  function SqlTrim(s: string): string
  {
    Stripped(s, IsBlank)
  }

  lemma {:induction false} DropsAll<T>(s: seq<T>, rest: seq<T>, kind: T -> bool)
    requires All(s, kind)
    ensures DropStart(s + rest, kind) == DropStart(rest, kind)
    ensures DropEnd(rest + s, kind) == DropEnd(rest, kind)
    decreases |s|
  {
    if s == [] {
      assert s + rest == rest && rest + s == rest;
    } else {
      var n := |s| - 1;
      assert (s + rest)[1..] == s[1..] + rest && (rest + s)[..|rest| + n] == rest + s[..n];
      DropsAll(s[1..], rest, kind);
      DropsAll(s[..n], rest, kind);
    }
  }

  /**
   What is taken off is everything of the kind at either end and nothing inside:
   whatever surrounds a text that neither begins nor ends with it, the text is left.
   */
  lemma StripsTheEnds<T>(before: seq<T>, text: seq<T>, after: seq<T>, kind: T -> bool)
    requires All(before, kind) && All(after, kind) && Bounded(text, kind)
    ensures Stripped(before + text + after, kind) == text
  {
    assert before + text + after == before + (text + after);
    DropsAll(before, text + after, kind);
    if text == [] {
      assert text + after == after && after + [] == after;
      DropsAll(after, [], kind);
    } else {
      assert (text + after)[0] == text[0];
      DropsAll(after, text, kind);
    }
  }

  /** Which characters count as white space, and what is left of a text that has no others. */
  lemma SpacesAre(c: char, s: string)
    ensures IsSpace(c) <==> c in " \t\n\U{0B}\U{0C}\r"
    ensures Trim(s) == "" <==> All(s, IsSpace)
    ensures SqlTrim(s) == "" <==> s == seq(|s|, _ => ' ')
  {
    StripsNothingExactly(s, IsSpace);
    StripsNothingExactly(s, IsBlank);
  }

  lemma StripsNothingExactly<T>(s: seq<T>, kind: T -> bool)
    ensures Stripped(s, kind) == [] <==> All(s, kind)
  {
    if All(s, kind) {
      assert s == s + [] + [];
      StripsTheEnds(s, [], [], kind);
    } else {
      KeepsOthers(s, kind);
    }
  }

  lemma {:induction false} KeepsOthers<T>(s: seq<T>, kind: T -> bool)
    requires !All(s, kind)
    ensures Stripped(s, kind) != []
    decreases |s|
  {
    if kind(s[0]) {
      var i :| 0 <= i < |s| && !kind(s[i]);
      assert s[1..][i - 1] == s[i];
      KeepsOthers(s[1..], kind);
    } else {
      KeepsFirst(s, kind);
    }
  }

  lemma {:induction false} KeepsFirst<T>(s: seq<T>, kind: T -> bool)
    requires s != [] && !kind(s[0])
    ensures DropEnd(s, kind) != []
    decreases |s|
  {
    if kind(s[|s| - 1]) {
      KeepsFirst(s[..|s| - 1], kind);
    }
  }

  lemma {:induction false} DroppedStart<T>(s: seq<T>, kind: T -> bool)
    ensures var rest := DropStart(s, kind); rest == [] || !kind(rest[0])
  {
    if s != [] && kind(s[0]) {
      DroppedStart(s[1..], kind);
    }
  }

  lemma {:induction false} DroppedEnd<T>(s: seq<T>, kind: T -> bool)
    ensures var rest := DropEnd(s, kind); rest <= s && (rest == [] || !kind(rest[|rest| - 1]))
  {
    if s != [] && kind(s[|s| - 1]) {
      DroppedEnd(s[..|s| - 1], kind);
    }
  }

  lemma TrimTrims(s: string)
    ensures Trimmed(Trim(s))
  {
    DroppedStart(s, IsSpace);
    DroppedEnd(DropStart(s, IsSpace), IsSpace);
  }

  lemma TrimKeepsTrimmed(s: string)
    requires Trimmed(s)
    ensures Trim(s) == s
  {
  }

  function Without(s: string, c: char): string
  {
    if s == "" then "" else (if s[0] == c then "" else [s[0]]) + Without(s[1..], c)
  }

  predicate IsDigit(c: char)
  {
    '0' <= c <= '9'
  }

  /** The number a non-empty run of digits writes. */
  function Digits(s: string): (n: Option<nat>)
  {
    if s == "" then None
    else if !IsDigit(s[|s| - 1]) then None
    else
      var low := s[|s| - 1] as int - '0' as int;
      if |s| == 1 then Some(low)
      else match Digits(s[..|s| - 1])
        case None => None
        case Some(high) => Some(10 * high + low)
  }

  const I64_MAX: int := 0x7fff_ffff_ffff_ffff

  /** `str::parse::<i64>`: an optional sign, digits, and a value that fits. */
  function ParseI64(s: string): (n: Option<int>)
  {
    var negative := s != "" && s[0] == '-';
    var body := if s != "" && (s[0] == '-' || s[0] == '+') then s[1..] else s;
    match Digits(body)
    case None => None
    case Some(n) =>
      var v := if negative then 0 - n else n as int;
      if -I64_MAX - 1 <= v <= I64_MAX then Some(v) else None
  }

  // ---- numbers ------------------------------------------------------------------------

  lemma {:induction false} WithoutJoins(a: string, b: string, c: char)
    ensures Without(a + b, c) == Without(a, c) + Without(b, c)
    decreases |a|
  {
    if a == "" {
      assert a + b == b;
    } else {
      assert (a + b)[1..] == a[1..] + b;
      WithoutJoins(a[1..], b, c);
    }
  }

  /** Only the character is left out: what has none of it stays, and it alone leaves nothing. */
  lemma {:induction false} WithoutKeepsOthers(s: string, c: char)
    ensures c !in Without(s, c)
    ensures c !in s ==> Without(s, c) == s
    ensures Without([c], c) == ""
    decreases |s|
  {
    if s != "" {
      WithoutKeepsOthers(s[1..], c);
    }
  }

  /** A number as it is written. */
  function Decimal(n: nat): (s: string)
    ensures s != ""
  {
    var low := ['0' + (n % 10) as char];
    if n < 10 then low else Decimal(n / 10) + low
  }

  lemma {:induction false} DigitsExactly(s: string)
    ensures Digits(s).Some? <==> s != "" && All(s, IsDigit)
    ensures s != "" ==> Digits("0" + s) == Digits(s)
    decreases |s|
  {
    if s != "" {
      var n := |s| - 1;
      var padded := "0" + s;
      assert padded[..|padded| - 1] == "0" + s[..n];
      if n == 0 {
        assert Digits("0") == Some(0);
        assert "0" + s[..n] == "0";
      } else {
        DigitsExactly(s[..n]);
        assert s == s[..n] + [s[n]];
      }
    }
  }

  lemma {:induction false} DecimalReads(n: nat)
    ensures Digits(Decimal(n)) == Some(n) && All(Decimal(n), IsDigit)
  {
    if n >= 10 {
      DecimalReads(n / 10);
      var s := Decimal(n);
      assert s[..|s| - 1] == Decimal(n / 10);
    }
    DigitsExactly(Decimal(n));
  }

  /** Every number that fits is read as it is written, with or without a sign, and no other is. */
  lemma NumbersReadBack(n: nat)
    ensures ParseI64(Decimal(n)) == ParseI64("+" + Decimal(n)) == if n < 0x8000_0000_0000_0000 then Some(n) else None
    ensures ParseI64("-" + Decimal(n)) == if n <= 0x8000_0000_0000_0000 then Some(0 - n) else None
  {
    var s := Decimal(n);
    DecimalReads(n);
    assert IsDigit(s[0]);
    assert ("-" + s)[1..] == s && ("+" + s)[1..] == s;
  }

  /** What is read as a number at all: digits after an optional sign. */
  lemma OnlyNumbersRead(s: string)
    ensures ParseI64(s).Some? ==>
              var body := if s[0] == '-' || s[0] == '+' then s[1..] else s;
              s != "" && body != "" && All(body, IsDigit)
  {
    DigitsExactly(if s != "" && (s[0] == '-' || s[0] == '+') then s[1..] else s);
  }
}
