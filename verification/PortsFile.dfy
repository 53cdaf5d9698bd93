/** The ports file: the records servers print with "%d %s\n", and the scan of them with the same
    format, after sections 7.21.6.1 and 7.21.6.2 of ISO C11.
 */
module PortsFile {
  import opened Wrappers

  datatype Record = Record(rank: int, address: string)

  // ---- characters ----

  predicate IsSpace(c: char) {
    c == ' ' || '\t' <= c <= '\r'
  }

  predicate IsDigit(c: char) {
    '0' <= c <= '9'
  }

  function Digit(d: nat): char
    requires d < 10
  {
    (d + '0' as int) as char
  }

  // ---- fprintf ----

  function Decimal(n: nat): string {
    if n < 10 then [Digit(n)] else Decimal(n / 10) + [Digit(n % 10)]
  }

  function PrintInt(n: int): string {
    if n < 0 then "-" + Decimal(-n) else Decimal(n)
  }

  function PrintRecord(r: Record): string {
    PrintInt(r.rank) + " " + r.address + "\n"
  }

  function Print(records: seq<Record>): string {
    if records == [] then "" else PrintRecord(records[0]) + Print(records[1..])
  }

  // ---- fscanf ----

  /** A white-space directive, and what %d and %s do first. */
  function SkipSpaces(s: string): (r: string)
    ensures |r| <= |s| && (r == [] || !IsSpace(r[0]))
  {
    if s != [] && IsSpace(s[0]) then SkipSpaces(s[1..]) else s
  }

  function DigitsOf(s: string): (r: string)
    ensures r <= s
  {
    if s != [] && IsDigit(s[0]) then
      assert s == [s[0]] + s[1..];
      [s[0]] + DigitsOf(s[1..])
    else []
  }

  function Value(digits: string): nat
    requires forall c <- digits :: IsDigit(c)
  {
    if digits == [] then 0 else
      assert IsDigit(digits[|digits| - 1]);
      10 * Value(digits[..|digits| - 1]) + (digits[|digits| - 1] as int - '0' as int)
  }

  lemma {:induction false} DigitsAreDigits(s: string)
    ensures forall c <- DigitsOf(s) :: IsDigit(c)
  {
    if s != [] && IsDigit(s[0]) { DigitsAreDigits(s[1..]); }
  }

  /** %d */
  function ScanInt(s: string): (r: Option<(int, string)>)
    ensures r.Some? ==> |r.value.1| < |s|
  {
    var t := SkipSpaces(s);
    var signed := t != [] && (t[0] == '-' || t[0] == '+');
    var u := if signed then t[1..] else t;
    var digits := DigitsOf(u);
    if digits == [] then None else
      DigitsAreDigits(u);
      var value: int := Value(digits);
      Some((if signed && t[0] == '-' then -value else value, u[|digits|..]))
  }

  function WordOf(s: string): (r: string)
    ensures r <= s
  {
    if s != [] && !IsSpace(s[0]) then
      assert s == [s[0]] + s[1..];
      [s[0]] + WordOf(s[1..])
    else []
  }

  /** One fscanf: None unless both conversions succeed, otherwise the record and the unread text. */
  function ScanRecord(s: string): (r: Option<(Record, string)>)
    ensures r.Some? ==> |r.value.1| < |s|
  {
    match ScanInt(s)
    case None => None
    case Some((rank, rest)) =>
      var t := SkipSpaces(rest);
      var word := WordOf(t);
      if word == [] then None else Some((Record(rank, word), SkipSpaces(t[|word|..])))
  }

  /** The records the scan loop sees before fscanf first falls short. */
  function Scan(s: string): seq<Record>
    decreases |s|
  {
    match ScanRecord(s)
    case None => []
    case Some((record, rest)) => [record] + Scan(rest)
  }

  // ---- the round trip ----

  /** What a server writes: an address is one word. */
  predicate IsWord(s: string) {
    s != [] && forall c <- s :: !IsSpace(c)
  }

  predicate Writable(records: seq<Record>) {
    forall r <- records :: IsWord(r.address)
  }

  lemma {:induction false} ValueDecimal(n: nat)
    ensures Decimal(n) != [] && (forall c <- Decimal(n) :: IsDigit(c)) && Value(Decimal(n)) == n
  {
    if n < 10 {
      assert Decimal(n)[..|Decimal(n)| - 1] == [];
    } else {
      ValueDecimal(n / 10);
      assert Decimal(n)[..|Decimal(n)| - 1] == Decimal(n / 10);
    }
  }

  lemma {:induction false} DigitsUpTo(digits: string, rest: string)
    requires forall c <- digits :: IsDigit(c)
    requires rest == [] || !IsDigit(rest[0])
    ensures DigitsOf(digits + rest) == digits
  {
    if digits == [] {
      assert digits + rest == rest;
    } else {
      assert (digits + rest)[1..] == digits[1..] + rest;
      DigitsUpTo(digits[1..], rest);
    }
  }

  lemma {:induction false} WordUpTo(word: string, rest: string)
    requires forall c <- word :: !IsSpace(c)
    requires rest == [] || IsSpace(rest[0])
    ensures WordOf(word + rest) == word
  {
    if word == [] {
      assert word + rest == rest;
    } else {
      assert (word + rest)[1..] == word[1..] + rest;
      WordUpTo(word[1..], rest);
    }
  }

  /** Spaces, tabs, line ends and the two page controls. */
  predicate Blank(s: string) {
    forall i | 0 <= i < |s| :: s[i] == ' ' || 9 <= s[i] as int <= 13
  }

  lemma {:induction false} SkipBlank(blank: string, rest: string)
    requires Blank(blank) && (rest == [] || !IsSpace(rest[0]))
    ensures SkipSpaces(blank + rest) == rest
  {
    if blank == [] {
      assert blank + rest == rest;
    } else {
      assert IsSpace(blank[0]) && (blank + rest)[1..] == blank[1..] + rest;
      SkipBlank(blank[1..], rest);
    }
  }

  lemma ScanSigned(lead: string, sign: string, digits: string, rest: string)
    requires Blank(lead) && (sign == "" || sign == "+" || sign == "-")
    requires digits != [] && forall c <- digits :: IsDigit(c)
    requires rest != [] && !IsDigit(rest[0])
    ensures var rank := if sign == "-" then 0 - Value(digits) else Value(digits);
            ScanInt(lead + (sign + digits + rest)) == Some((rank, rest))
  {
    hide Value;
    var t := sign + digits + rest;
    assert IsDigit(digits[0]);
    assert t[0] == if sign == "" then digits[0] else sign[0];
    SkipBlank(lead, t);
    DigitsUpTo(digits, rest);
    assert t[|sign|..] == digits + rest && (digits + rest)[|digits|..] == rest;
    hide DigitsOf, SkipSpaces;
  }

  /** A printed number, negative ones included, is read back, up to the space after it. */
  lemma ScanPrintedInt(n: int, rest: string)
    requires rest != [] && rest[0] == ' '
    ensures ScanInt(PrintInt(n) + rest) == Some((n, rest))
  {
    hide ScanInt, Value, Decimal;
    ValueDecimal(if n < 0 then -n else n);
    var digits := Decimal(if n < 0 then -n else n);
    ScanSigned("", if n < 0 then "-" else "", digits, rest);
    assert PrintInt(n) + rest == "" + ((if n < 0 then "-" else "") + digits + rest);
  }

  /** A printed text starts with a digit or a sign, or is empty. */
  lemma PrintStarts(records: seq<Record>)
    ensures SkipSpaces(Print(records)) == Print(records)
  {
    if records != [] {
      var n := records[0].rank;
      var digits := Decimal(if n < 0 then -n else n);
      ValueDecimal(if n < 0 then -n else n);
      assert IsDigit(digits[0]);
      assert !IsSpace(PrintInt(n)[0]);
      assert Print(records)[0] == PrintInt(n)[0];
    }
  }

  /** After the number: the space, the word, and the line end. */
  lemma ScanPrintedWord(address: string, records: seq<Record>)
    requires IsWord(address)
    ensures var t := address + ("\n" + Print(records));
            && SkipSpaces(" " + t) == t
            && WordOf(t) == address
            && SkipSpaces(t[|address|..]) == Print(records)
  {
    hide Print;
    var tail := "\n" + Print(records);
    var t := address + tail;
    assert (" " + t)[1..] == t && t[0] == address[0];
    WordUpTo(address, tail);
    assert t[|address|..] == tail && tail[1..] == Print(records);
    PrintStarts(records);
  }

  lemma ScanPrintedRecord(r: Record, records: seq<Record>)
    requires IsWord(r.address)
    ensures ScanRecord(PrintRecord(r) + Print(records)) == Some((r, Print(records)))
  {
    hide Print, PrintInt, ScanInt, SkipSpaces, WordOf, IsWord;
    var rest := " " + (r.address + ("\n" + Print(records)));
    assert PrintRecord(r) + Print(records) == PrintInt(r.rank) + rest;
    ScanPrintedInt(r.rank, rest);
    ScanPrintedWord(r.address, records);
    WordNotEmpty(r.address);
  }

  lemma WordNotEmpty(s: string)
    requires IsWord(s)
    ensures s != []
  {
  }

  /** The scan loop over a printed text finds exactly the printed records. */
  lemma {:induction false} RoundTrip(records: seq<Record>)
    requires Writable(records)
    ensures Scan(Print(records)) == records
  {
    if records != [] {
      ScanPrintedRecord(records[0], records[1..]);
      RoundTrip(records[1..]);
    }
  }

  lemma {:induction false} PrintAppends(records: seq<Record>, r: Record)
    ensures Print(records + [r]) == Print(records) + PrintRecord(r)
  {
    if records == [] {
      assert records + [r] == [r];
      assert Print([r]) == PrintRecord(r) + "";
    } else {
      assert (records + [r])[1..] == records[1..] + [r];
      PrintAppends(records[1..], r);
    }
  }

  // ---- the text itself ----

  /** Divide by ten k times and take the last digit. */
  function DigitAt(n: nat, k: nat): (d: nat)
    ensures d < 10
  {
    if k == 0 then n % 10 else DigitAt(n / 10, k - 1)
  }

  /** What is printed for a number is its decimal numeral, without leading zeros. */
  lemma {:induction false} DecimalIs(n: nat, k: nat)
    requires k < |Decimal(n)|
    ensures Decimal(n)[|Decimal(n)| - 1 - k] == "0123456789"[DigitAt(n, k)]
    ensures Decimal(n)[0] == '0' ==> n == 0
  {
    assert forall d | 0 <= d < 10 :: Digit(d) == "0123456789"[d];
    if n >= 10 {
      var high := Decimal(n / 10);
      assert high != [] by { ValueDecimal(n / 10); }
      assert Decimal(n) == high + [Digit(n % 10)];
      DecimalIs(n / 10, if k == 0 then 0 else k - 1);
    }
  }

  /** A printed record: sign and numeral, a space, the address and a line end. */
  lemma RecordIs(r: Record)
    ensures PrintRecord(r) == (if r.rank < 0 then "-" + Decimal(-r.rank) else Decimal(r.rank)) + [' '] + r.address + ['\n']
  {
    hide Decimal;
  }

  /** The scan of any line of the format, however it is spaced, signed or padded with zeros. */
  lemma ScanIs(lead: string, sign: string, digits: string, gap: string, word: string, tail: string)
    requires Blank(lead) && Blank(gap) && gap != [] && (sign == "" || sign == "+" || sign == "-")
    requires digits != [] && forall c <- digits :: IsDigit(c)
    requires IsWord(word) && (tail == [] || IsSpace(tail[0]))
    ensures var rank := if sign == "-" then 0 - Value(digits) else Value(digits);
            ScanRecord(lead + (sign + digits + (gap + (word + tail)))) == Some((Record(rank, word), SkipSpaces(tail)))
  {
    hide Value, SkipSpaces, ScanInt;
    var rest := gap + (word + tail);
    assert rest[0] == gap[0] && !IsDigit(gap[0]);
    hide Blank;
    ScanSigned(lead, sign, digits, rest);
    assert word != [] && !IsSpace(word[0]) && (word + tail)[0] == word[0];
    SkipBlank(gap, word + tail);
    WordUpTo(word, tail);
    hide WordOf, IsWord;
    assert (word + tail)[|word|..] == tail;
  }
}
