/**
  devices.txt: one line per device node, printed by the runtime with Go's fmt and scanned by the
  container hook with C's fscanf.
 */
module Devices {
  import opened Options

  // typ is one character on the scanner's side.
  datatype Record = Record(path: string, typ: char, major: int, minor: int, mode: nat, uid: int, gid: int)

  const BUFFER: nat := 256
  const MAX_INT: int := 0x7fff_ffff
  const MAX_UINT: int := 0xffff_ffff

  // isspace.
  predicate IsSpace(c: char) {
    c == ' ' || c == '\t' || c == '\n' || c == '\r' || c == 11 as char || c == 12 as char
  }

  // ---------------------------------------------------------------- numbers

  function Digit(d: nat): char
    requires d < 10
  {
    ('0' as int + d) as char
  }

  predicate IsDigit(c: char, base: nat) {
    '0' as int <= c as int < '0' as int + base
  }

  // The number in the given base, without leading zeros.
  function Digits(n: nat, base: nat): (s: string)
    requires 2 <= base <= 10
    ensures s != [] && forall i | 0 <= i < |s| :: IsDigit(s[i], base)
    decreases n
  {
    if n < base then [Digit(n)] else
    Divided(n, base);
    Digits(n / base, base) + [Digit(n % base)]
  }

  lemma Divided(n: nat, base: nat)
    requires 2 <= base <= n
    ensures n / base < n && n % base < base
  {
  }

  function Decimal(n: int): string {
    if n < 0 then "-" + Digits(-n, 10) else Digits(n, 10)
  }

  function Octal(n: nat): string {
    Digits(n, 8)
  }

  // The value of a string of digits after some digits of value `so far`.
  function ValueFrom(soFar: nat, s: string, base: nat): nat
    requires 2 <= base <= 10 && forall i | 0 <= i < |s| :: IsDigit(s[i], base)
    decreases |s|
  {
    if s == "" then soFar else ValueFrom(Shifted(soFar, s[0], base), s[1..], base)
  }

  function Shifted(soFar: nat, c: char, base: nat): nat
    requires IsDigit(c, base)
  {
    soFar * base + (c as int - '0' as int)
  }

  // The longest prefix of digits.
  function DigitsOf(s: string, base: nat): (n: nat)
    ensures n <= |s| && (forall i | 0 <= i < n :: IsDigit(s[i], base)) && (n < |s| ==> !IsDigit(s[n], base))
  {
    if s == "" || !IsDigit(s[0], base) then 0 else 1 + DigitsOf(s[1..], base)
  }

  // ---------------------------------------------------------------- the scanner

  // What a conversion does: the value and what is left, no match, or a value that does not fit.
  datatype Scan<+T> = Got(value: T, rest: string) | NoMatch | Undefined

  function Skip(s: string): (r: string)
    ensures |r| <= |s| && (r != "" ==> !IsSpace(r[0]))
  {
    if s != "" && IsSpace(s[0]) then Skip(s[1..]) else s
  }

  function WordLength(s: string): (n: nat)
    ensures n <= |s| && forall i | 0 <= i < n :: !IsSpace(s[i])
  {
    if s == "" || IsSpace(s[0]) then 0 else 1 + WordLength(s[1..])
  }

  // %s into a buffer of BUFFER bytes.
  function ScanWord(s: string): (r: Scan<string>)
    ensures r.Got? ==> |r.rest| < |s|
  {
    var t := Skip(s);
    var n := WordLength(t);
    if n == 0 then NoMatch else if n >= BUFFER then Undefined else Got(t[..n], t[n..])
  }

  // %c.
  function ScanChar(s: string): (r: Scan<char>)
    ensures r.Got? ==> |r.rest| < |s|
  {
    if s == "" then NoMatch else Got(s[0], s[1..])
  }

  // %d and %o: spaces, a sign, digits.
  function ScanNumber(s: string, base: nat, low: int, high: int): (r: Scan<int>)
    requires 2 <= base <= 10
    ensures r.Got? ==> |r.rest| < |s|
  {
    var t := Skip(s);
    var sign := t != "" && (t[0] == '-' || t[0] == '+');
    var u := if sign then t[1..] else t;
    var n := DigitsOf(u, base);
    if n == 0 then NoMatch else
    var v: int := ValueFrom(0, u[..n], base);
    var w := if sign && t[0] == '-' then -v else v;
    if low <= w <= high then Got(w, u[n..]) else Undefined
  }

  function ScanInt(s: string): (r: Scan<int>)
    ensures r.Got? ==> |r.rest| < |s|
  {
    ScanNumber(s, 10, -MAX_INT - 1, MAX_INT)
  }

  function ScanColon(s: string): (r: Scan<char>)
    ensures r.Got? ==> |r.rest| < |s|
  {
    if s != "" && s[0] == ':' then Got(':', s[1..]) else NoMatch
  }

  function Lost<T, U>(r: Scan<T>): Scan<U>
    requires !r.Got?
  {
    if r.NoMatch? then NoMatch else Undefined
  }

  // " %d:%d".
  function ScanOwner(s: string): (r: Scan<(int, int)>)
    ensures r.Got? ==> |r.rest| < |s|
  {
    var uid := ScanInt(Skip(s));
    if !uid.Got? then Lost(uid) else
    var colon := ScanColon(uid.rest);
    if !colon.Got? then Lost(colon) else
    var gid := ScanInt(colon.rest);
    if !gid.Got? then Lost(gid) else Got((uid.value, gid.value), gid.rest)
  }

  // " %d %d %o".
  function ScanNumbers(s: string): (r: Scan<(int, int, int)>)
    ensures r.Got? ==> |r.rest| < |s| && r.value.2 >= 0
  {
    var major := ScanInt(Skip(s));
    if !major.Got? then Lost(major) else
    var minor := ScanInt(Skip(major.rest));
    if !minor.Got? then Lost(minor) else
    var mode := ScanNumber(Skip(minor.rest), 8, 0, MAX_UINT);
    if !mode.Got? then Lost(mode) else Got((major.value, minor.value, mode.value), mode.rest)
  }

  // "%s %c".
  function ScanHead(s: string): (r: Scan<(string, char)>)
    ensures r.Got? ==> |r.rest| < |s|
  {
    var path := ScanWord(s);
    if !path.Got? then Lost(path) else
    var typ := ScanChar(Skip(path.rest));
    if !typ.Got? then Lost(typ) else Got((path.value, typ.value), typ.rest)
  }

  // "%s %c %d %d %o %d:%d\n".
  function ScanRecord(s: string): (r: Scan<Record>)
    ensures r.Got? ==> |r.rest| < |s|
  {
    var head := ScanHead(s);
    if !head.Got? then Lost(head) else
    var numbers := ScanNumbers(head.rest);
    if !numbers.Got? then Lost(numbers) else
    var owner := ScanOwner(numbers.rest);
    if !owner.Got? then Lost(owner) else
    Got(Record(head.value.0, head.value.1, numbers.value.0, numbers.value.1, numbers.value.2, owner.value.0,
        owner.value.1),
        Skip(owner.rest))
  }

  // The records of the whole file: None when a line does not match or a value does not fit.
  function ScanAll(s: string): Option<seq<Record>>
    decreases |s|
  {
    if Skip(s) == "" then Some([]) else
    match ScanRecord(s)
    case Got(record, rest) =>
      (match ScanAll(rest) case None => None case Some(more) => Some([record] + more))
    case _ => None
  }

  // ---------------------------------------------------------------- the printer

  // "%s %s %d %d %o %d:%d\n".
  function Print(r: Record): string {
    r.path + " " + [r.typ] + " " + Decimal(r.major) + " " + Decimal(r.minor) + " " + Octal(r.mode) + " " +
      Decimal(r.uid) + ":" + Decimal(r.gid) + "\n"
  }

  function PrintAll(records: seq<Record>): string {
    if records == [] then "" else Print(records[0]) + PrintAll(records[1..])
  }

  predicate IsWord(s: string) {
    s != "" && |s| < BUFFER && forall i | 0 <= i < |s| :: !IsSpace(s[i])
  }

  predicate FitsInt(n: int) {
    -MAX_INT - 1 <= n <= MAX_INT
  }

  // A path without white space that fits the buffer, and numbers that fit C's types.
  predicate Scannable(r: Record) {
    && IsWord(r.path) && !IsSpace(r.typ)
    && FitsInt(r.major) && FitsInt(r.minor) && r.mode <= MAX_UINT && FitsInt(r.uid) && FitsInt(r.gid)
  }

  // ---------------------------------------------------------------- numbers are read as printed

  lemma {:induction false} ValueConcat(soFar: nat, s: string, c: char, base: nat)
    requires 2 <= base <= 10 && IsDigit(c, base) && forall i | 0 <= i < |s| :: IsDigit(s[i], base)
    ensures ValueFrom(soFar, s + [c], base) == Shifted(ValueFrom(soFar, s, base), c, base)
    decreases |s|
  {
    if s == "" {
      assert s + [c] == [c] && [c][1..] == "";
    } else {
      assert (s + [c])[1..] == s[1..] + [c];
      ValueConcat(Shifted(soFar, s[0], base), s[1..], c, base);
    }
  }

  lemma {:induction false} DigitsHaveValue(n: nat, base: nat)
    requires 2 <= base <= 10
    ensures ValueFrom(0, Digits(n, base), base) == n
    decreases n
  {
    if n < base {
      assert [Digit(n)][1..] == "" && Shifted(0, Digit(n), base) == n;
    } else {
      DigitsHaveValue(n / base, base);
      ValueConcat(0, Digits(n / base, base), Digit(n % base), base);
      LastDigit(n, base);
    }
  }

  lemma LastDigit(n: nat, base: nat)
    requires 2 <= base <= 10
    ensures n % base < base && IsDigit(Digit(n % base), base) && Shifted(n / base, Digit(n % base), base) == n
  {
  }

  // Something that no number goes on with.
  predicate EndsNumber(s: string) {
    s != "" ==> !IsDigit(s[0], 10)
  }

  lemma {:induction false} DigitsEnd(s: string, rest: string, base: nat)
    requires base <= 10 && EndsNumber(rest) && forall i | 0 <= i < |s| :: IsDigit(s[i], base)
    ensures DigitsOf(s + rest, base) == |s|
    decreases |s|
  {
    if s == "" {
      assert s + rest == rest;
    } else {
      assert (s + rest)[1..] == s[1..] + rest;
      DigitsEnd(s[1..], rest, base);
    }
  }

  // A printed number is what the longest prefix of digits is worth.
  lemma DigitsRead(n: nat, rest: string, base: nat)
    requires 2 <= base <= 10 && EndsNumber(rest)
    ensures var s := Digits(n, base) + rest; var k := DigitsOf(s, base);
            k > 0 && s[k..] == rest && ValueFrom(0, s[..k], base) == n
    ensures var s := Digits(n, base) + rest; s != "" && IsDigit(s[0], 10)
  {
    var s := Digits(n, base);
    DigitsEnd(s, rest, base);
    DigitsHaveValue(n, base);
    assert (s + rest)[..|s|] == s && (s + rest)[|s|..] == rest && (s + rest)[0] == s[0];
  }

  lemma UnsignedRead(n: nat, rest: string, base: nat, low: int, high: int)
    requires 2 <= base <= 10 && EndsNumber(rest) && low <= n <= high
    ensures ScanNumber(Digits(n, base) + rest, base, low, high) == Got(n, rest)
  {
    DigitsRead(n, rest, base);
  }

  lemma SignedRead(u: string, n: int, rest: string, low: int, high: int)
    requires var k := DigitsOf(u, 10); k > 0 && u[k..] == rest && ValueFrom(0, u[..k], 10) == n
    requires low <= -n <= high
    ensures ScanNumber("-" + u, 10, low, high) == Got(-n, rest)
  {
    assert ("-" + u)[1..] == u;
  }

  lemma NegativeRead(n: int, rest: string, low: int, high: int)
    requires n > 0 && EndsNumber(rest) && low <= -n <= high
    ensures ScanNumber("-" + Digits(n, 10) + rest, 10, low, high) == Got(-n, rest)
  {
    var u := Digits(n, 10) + rest;
    assert "-" + Digits(n, 10) + rest == "-" + u;
    DigitsRead(n, rest, 10);
    SignedRead(u, n, rest, low, high);
  }

  lemma DecimalRead(n: int, rest: string)
    requires FitsInt(n) && EndsNumber(rest)
    ensures ScanInt(Decimal(n) + rest) == Got(n, rest)
    ensures Decimal(n) != "" && !IsSpace(Decimal(n)[0])
  {
    if n >= 0 { UnsignedRead(n, rest, 10, -MAX_INT - 1, MAX_INT); }
    else { NegativeRead(-n, rest, -MAX_INT - 1, MAX_INT); }
  }

  // ---------------------------------------------------------------- records are read as printed

  lemma {:induction false} WordRead(w: string, rest: string)
    requires IsWord(w) && (rest != "" ==> IsSpace(rest[0]))
    ensures ScanWord(w + rest) == Got(w, rest)
  {
    WordEnds(w, rest);
    assert (w + rest)[0] == w[0] && (w + rest)[..|w|] == w && (w + rest)[|w|..] == rest;
  }

  lemma {:induction false} WordEnds(w: string, rest: string)
    requires (forall i | 0 <= i < |w| :: !IsSpace(w[i])) && (rest != "" ==> IsSpace(rest[0]))
    ensures WordLength(w + rest) == |w|
  {
    if w == "" {
      assert w + rest == rest;
    } else {
      assert (w + rest)[1..] == w[1..] + rest;
      WordEnds(w[1..], rest);
    }
  }

  lemma SkipOne(c: char, rest: string)
    requires IsSpace(c) && (rest != "" ==> !IsSpace(rest[0]))
    ensures Skip([c] + rest) == rest
  {
    assert ([c] + rest)[1..] == rest;
  }

  // Skipping before a printed number.
  lemma SpacedDecimal(n: int, rest: string)
    requires FitsInt(n) && EndsNumber(rest)
    ensures ScanInt(Skip(" " + (Decimal(n) + rest))) == Got(n, rest)
  {
    DecimalRead(n, rest);
    SkipOne(' ', Decimal(n) + rest);
  }

  lemma SpacedOctal(n: nat, rest: string)
    requires n <= MAX_UINT && EndsNumber(rest)
    ensures ScanNumber(Skip(" " + (Octal(n) + rest)), 8, 0, MAX_UINT) == Got(n, rest)
  {
    UnsignedRead(n, rest, 8, 0, MAX_UINT);
    SkipOne(' ', Octal(n) + rest);
  }

  // The numbers of a line, from the major number on.
  function NumbersThen(r: Record, rest: string): string {
    " " + (Decimal(r.major) + (" " + (Decimal(r.minor) + (" " + (Octal(r.mode) + OwnerThen(r, rest))))))
  }

  function OwnerThen(r: Record, rest: string): string {
    " " + (Decimal(r.uid) + (":" + (Decimal(r.gid) + ("\n" + rest))))
  }

  // A line as the scanner meets it, with the rest of the file behind.
  function LineThen(r: Record, rest: string): string {
    r.path + (" " + ([r.typ] + NumbersThen(r, rest)))
  }

  lemma PrintedLine(r: Record, rest: string)
    ensures Print(r) + rest == LineThen(r, rest)
  {
  }

  lemma OwnerRead(r: Record, rest: string)
    requires Scannable(r)
    ensures ScanOwner(OwnerThen(r, rest)) == Got((r.uid, r.gid), "\n" + rest)
  {
    var gid := Decimal(r.gid) + ("\n" + rest);
    SpacedDecimal(r.uid, ":" + gid);
    assert (":" + gid)[1..] == gid;
    DecimalRead(r.gid, "\n" + rest);
  }

  lemma NumbersRead(r: Record, rest: string)
    requires Scannable(r)
    ensures ScanNumbers(NumbersThen(r, rest)) == Got((r.major, r.minor, r.mode), OwnerThen(r, rest))
  {
    var mode := " " + (Octal(r.mode) + OwnerThen(r, rest));
    var minor := " " + (Decimal(r.minor) + mode);
    SpacedDecimal(r.major, minor);
    SpacedDecimal(r.minor, mode);
    SpacedOctal(r.mode, OwnerThen(r, rest));
  }

  lemma HeadRead(r: Record, tail: string)
    requires Scannable(r)
    ensures ScanHead(r.path + (" " + ([r.typ] + tail))) == Got((r.path, r.typ), tail)
  {
    WordRead(r.path, " " + ([r.typ] + tail));
    SkipOne(' ', [r.typ] + tail);
    assert ([r.typ] + tail)[1..] == tail;
  }

  lemma LineRead(r: Record, rest: string)
    requires Scannable(r) && (rest != "" ==> !IsSpace(rest[0]))
    ensures ScanRecord(LineThen(r, rest)) == Got(r, rest)
  {
    HeadRead(r, NumbersThen(r, rest));
    NumbersRead(r, rest);
    OwnerRead(r, rest);
    SkipOne('\n', rest);
  }

  // Scanning what was printed gives back the records, for any number of them.
  lemma {:induction false} ScanInvertsPrint(records: seq<Record>)
    requires forall i | 0 <= i < |records| :: Scannable(records[i])
    ensures ScanAll(PrintAll(records)) == Some(records)
    decreases |records|
  {
    if records != [] {
      var rest := PrintAll(records[1..]);
      FirstIsWord(records[1..]);
      FirstIsWord(records);
      PrintedLine(records[0], rest);
      LineRead(records[0], rest);
      ScanInvertsPrint(records[1..]);
      assert [records[0]] + records[1..] == records;
    }
  }

  lemma FirstIsWord(records: seq<Record>)
    requires forall i | 0 <= i < |records| :: Scannable(records[i])
    ensures records == [] || (PrintAll(records) != "" && !IsSpace(PrintAll(records)[0]))
  {
    if records != [] { PrintedLine(records[0], PrintAll(records[1..])); }
  }
}
