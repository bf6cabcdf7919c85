/** The text of DWARF expressions in the dump: operations separated by ", DW_OP_" up to a terminator
    (`parse_dwarf_exp`, src/x_dwarf.c). None stands for the deliberate stop after an error message. */
module DwarfText {
  import opened Options
  import opened Dwarf

  const SEPARATOR := ", DW_OP_"
  const TWO31 := 0x8000_0000
  const TWO32 := 0x1_0000_0000

  // ---- Numbers ----

  /** Numbers are decimal or hexadecimal. */
  type Base = b: nat | b == 10 || b == 16 witness 10

  function DigitValue(c: char): Option<nat> {
    if '0' <= c <= '9' then Some((c - '0') as nat)
    else if 'a' <= c <= 'f' then Some((c - 'a') as nat + 10)
    else if 'A' <= c <= 'F' then Some((c - 'A') as nat + 10)
    else None
  }

  function DigitChar(d: nat): (c: char)
    requires d < 16
    ensures DigitValue(c) == Some(d)
  {
    if d < 10 then '0' + d as char else 'a' + (d - 10) as char
  }

  predicate Digit(c: char, base: Base) {
    DigitValue(c).Some? && DigitValue(c).value < base
  }

  function Push(acc: nat, base: Base, d: nat): nat {
    if base == 10 then acc * 10 + d else acc * 16 + d
  }

  /** Digits from the front of the text: the number so far, and what is left. */
  function Scan(s: string, base: Base, acc: nat): (nat, string) {
    if s != [] && Digit(s[0], base) then Scan(s[1..], base, Push(acc, base, DigitValue(s[0]).value)) else (acc, s)
  }

  /** A number of at least one digit that fits 32 bits. */
  function ScanNumber(s: string, base: Base): Option<(nat, string)> {
    if s == [] || !Digit(s[0], base) || Scan(s, base, 0).0 >= TWO32 then None else Some(Scan(s, base, 0))
  }

  function Front(n: nat, base: Base): (f: nat)
    requires base <= n
    ensures f < n
  {
    if base == 10 then n / 10 else n / 16
  }

  function Last(n: nat, base: Base): (d: nat)
    ensures d < base
  {
    if base == 10 then n % 10 else n % 16
  }

  function Digits(n: nat, base: Base): (s: string)
    ensures s != [] && forall k | 0 <= k < |s| :: Digit(s[k], base)
    decreases n
  {
    if n < base then [DigitChar(n)] else Digits(Front(n, base), base) + [DigitChar(Last(n, base))]
  }

  lemma ScanFirst(c: char, rest: string, base: Base, acc: nat)
    requires Digit(c, base)
    ensures Scan([c] + rest, base, acc) == Scan(rest, base, Push(acc, base, DigitValue(c).value))
  {
    assert ([c] + rest)[1..] == rest;
  }

  lemma {:induction false} ScanDigits(n: nat, base: Base, rest: string)
    ensures Scan(Digits(n, base) + rest, base, 0) == Scan(rest, base, n)
    decreases n
  {
    hide Scan, DigitValue, Push, Front, Last;
    Recompose(n, base);
    if n < base {
      ScanFirst(DigitChar(n), rest, base, 0);
    } else {
      var front, last := Digits(Front(n, base), base), DigitChar(Last(n, base));
      assert front + [last] + rest == front + ([last] + rest);
      ScanDigits(Front(n, base), base, [last] + rest);
      ScanFirst(last, rest, base, Front(n, base));
    }
  }

  lemma Recompose(n: nat, base: Base)
    ensures base <= n ==> Push(Front(n, base), base, Last(n, base)) == n
    ensures Push(0, base, n) == n
  {
  }

  predicate Ends(rest: string, base: Base) {
    rest == [] || !Digit(rest[0], base)
  }

  lemma ScanPrinted(n: nat, base: Base, rest: string)
    requires n < TWO32 && Ends(rest, base)
    ensures ScanNumber(Digits(n, base) + rest, base) == Some((n, rest))
  {
    ScanDigits(n, base, rest);
    assert (Digits(n, base) + rest)[0] == Digits(n, base)[0];
  }

  // ---- Operations ----

  /** What is left after an operation must not be empty. */
  function Left(op: Op, rest: string): Option<(Op, string)> {
    if rest == [] then None else Some((op, rest))
  }

  /** A signed number, with its sign. */
  function ScanSigned(s: string): Option<(int, string)> {
    if s == [] || (s[0] != '+' && s[0] != '-') then None
    else match ScanNumber(s[1..], 10)
      case None => None
      case Some((n, rest)) =>
        var value := if s[0] == '+' then n as int else -(n as int);
        if -TWO31 <= value < TWO31 then Some((value, rest)) else None
  }

  /** A register is named twice; the second name counts. */
  function ParseBreg(s: string): Option<(Op, string)> {
    match ScanNumber(s, 10)
    case None => None
    case Some((_, named)) =>
      if !(" R" <= named) then None
      else match ScanNumber(named[2..], 10)
        case None => None
        case Some((reg, signed)) =>
          match ScanSigned(signed)
          case None => None
          case Some((offset, rest)) => Left(Breg(reg, offset), rest)
  }

  function ParseLit(s: string): Option<(Op, string)> {
    match ScanNumber(s, 10)
    case None => None
    case Some((value, rest)) => Left(Lit(value), rest)
  }

  /** In hexadecimal, with or without a prefix. */
  function ParseUconst(s: string): Option<(Op, string)> {
    if !(" " <= s) then None
    else
      var digits := if " 0x" <= s then s[3..] else s[1..];
      match ScanNumber(digits, 16)
      case None => None
      case Some((value, rest)) => Left(PlusUconst(value), rest)
  }

  /** One operation at the front of the text, by its name. */
  function ParseOp(s: string): Option<(Op, string)> {
    if "and" <= s then Left(And, s[3..])
    else if "breg" <= s then ParseBreg(s[4..])
    else if "deref" <= s then Left(Deref, s[5..])
    else if "ge" <= s then Left(Ge, s[2..])
    else if "lit" <= s then ParseLit(s[3..])
    else if "mul" <= s then Left(Mul, s[3..])
    else if "plus_uconst" <= s then ParseUconst(s[11..])
    else if "plus" <= s then Left(Plus, s[4..])
    else if "shl" <= s then Left(Shl, s[3..])
    else None
  }

  /** All operations up to the terminator, no more than the stack has slots; and the rest of the line
      from the terminator on. */
  function ParseOps(s: string, terminator: char, room: nat): (r: Option<(seq<Op>, string)>)
    ensures r.Some? ==> |r.value.0| <= room
    decreases room
  {
    match ParseOp(s)
    case None => None
    case Some((op, rest)) =>
      if room == 0 then None
      else if rest == [] then None
      else if rest[0] == ',' then
        if |rest| < |SEPARATOR| || rest[2..8] != SEPARATOR[2..8] then None
        else match ParseOps(rest[8..], terminator, room - 1)
          case None => None
          case Some((ops, end)) => Some(([op] + ops, end))
      else if rest[0] == terminator then Some(([op], rest))
      else None
  }

  function Parse(line: string, terminator: char): (r: Option<(seq<Op>, string)>)
    ensures r.Some? ==> |r.value.0| <= 63
  {
    ParseOps(line, terminator, MAX_STACK - 1)
  }

  /** `parse_dwarf_exp`: one buffer is read, the other takes what is left, and they swap. */
  method ParseLine(line: string, terminator: char) returns (r: Option<(seq<Op>, string)>)
    ensures r == Parse(line, terminator)
  {
    hide ParseOp;
    var a, ops := line, [];
    ThenThen([], [], Parse(line, terminator));
    while true
      invariant |ops| < MAX_STACK
      invariant Parse(line, terminator) == Then(ops, ParseOps(a, terminator, MAX_STACK - 1 - |ops|))
      decreases MAX_STACK - |ops|
    {
      var parsed := ParseOp(a);
      if parsed.None? {
        return None;
      }
      var (op, b) := parsed.value;
      if |ops| + 1 >= MAX_STACK {
        return None;
      }
      if b == [] {
        return None;
      }
      if b[0] == ',' {
        if |b| < |SEPARATOR| || b[2..8] != SEPARATOR[2..8] {
          return None;
        }
        ThenThen(ops, [op], ParseOps(b[8..], terminator, MAX_STACK - 2 - |ops|));
        a, ops := b[8..], ops + [op];
      } else if b[0] == terminator {
        return Some((ops + [op], b));
      } else {
        return None;
      }
    }
  }

  /** A digit is read by its place among the sixteen, in either case. */
  lemma DigitMeans(c: char, d: nat)
    ensures DigitValue(c) == Some(d) <==> d < 16 && (c == "0123456789abcdef"[d] || c == "0123456789ABCDEF"[d])
  {
  }

  // ---- Printing ----

  predicate Printable(op: Op) {
    match op
    case Breg(reg, offset) => reg < TWO32 && -TWO31 <= offset < TWO31
    case Lit(value) => value < TWO32
    case PlusUconst(addend) => addend < TWO32
    case _ => true
  }

  function PrintSigned(x: int): string {
    if x >= 0 then "+" + Digits(x, 10) else "-" + Digits(-x, 10)
  }

  function PrintOp(op: Op): string {
    match op
    case And => "and"
    case Breg(reg, offset) =>
      "breg" + Digits(reg, 10) + " R" + Digits(reg, 10) + PrintSigned(offset)
    case Deref => "deref"
    case Ge => "ge"
    case Lit(value) => "lit" + Digits(value, 10)
    case Mul => "mul"
    case PlusUconst(addend) => "plus_uconst 0x" + Digits(addend, 16)
    case Plus => "plus"
    case Shl => "shl"
  }

  function Print(ops: seq<Op>): string
    requires ops != []
  {
    PrintOp(ops[0]) + if |ops| == 1 then [] else SEPARATOR + Print(ops[1..])
  }

  /** What may follow an operation. */
  predicate Follows(rest: string) {
    rest != [] && (rest[0] == ',' || rest[0] == ':' || rest[0] == ']')
  }

  lemma After(word: string, tail: string)
    ensures word <= word + tail && (word + tail)[|word|..] == tail
  {
  }

  lemma BregByName(text: string)
    ensures ParseOp("breg" + text) == ParseBreg(text)
  {
    After("breg", text);
    assert ("breg" + text)[0] == 'b';
  }

  lemma ScanPrintedSigned(offset: int, rest: string)
    requires -TWO31 <= offset < TWO31 && Follows(rest)
    ensures ScanSigned(PrintSigned(offset) + rest) == Some((offset, rest))
  {
    var sign := if offset >= 0 then "+" else "-";
    hide ScanNumber, Digits;
    var digits := Digits(if offset >= 0 then offset else -offset, 10);
    assert PrintSigned(offset) + rest == sign + (digits + rest);
    After(sign, digits + rest);
    ScanPrinted(if offset >= 0 then offset else -offset, 10, rest);
  }

  lemma Regroup(a: string, b: string, c: string, d: string, e: string, f: string)
    ensures a + b + c + d + e + f == a + (b + (c + (d + (e + f))))
  {
  }

  lemma ParseBregFields(reg: nat, offset: int, rest: string)
    requires Printable(Breg(reg, offset)) && Follows(rest)
    ensures ParseBreg(Digits(reg, 10) + (" R" + (Digits(reg, 10) + (PrintSigned(offset) + rest))))
            == Some((Breg(reg, offset), rest))
  {
    var signed := PrintSigned(offset) + rest;
    var named := " R" + (Digits(reg, 10) + signed);
    assert signed[0] == '+' || signed[0] == '-';
    assert named[0] == ' ';
    After(" R", Digits(reg, 10) + signed);
    hide ScanNumber, ScanSigned, PrintSigned, Digits;
    ScanPrinted(reg, 10, named);
    ScanPrinted(reg, 10, signed);
    ScanPrintedSigned(offset, rest);
  }

  lemma ParsePrintedBreg(reg: nat, offset: int, rest: string)
    requires Printable(Breg(reg, offset)) && Follows(rest)
    ensures ParseOp(PrintOp(Breg(reg, offset)) + rest) == Some((Breg(reg, offset), rest))
  {
    hide ParseOp, ParseBreg, PrintSigned, Digits;
    Regroup("breg", Digits(reg, 10), " R", Digits(reg, 10), PrintSigned(offset), rest);
    BregByName(Digits(reg, 10) + (" R" + (Digits(reg, 10) + (PrintSigned(offset) + rest))));
    ParseBregFields(reg, offset, rest);
  }

  lemma ParsePrintedLit(value: nat, rest: string)
    requires value < TWO32 && Follows(rest)
    ensures ParseOp(PrintOp(Lit(value)) + rest) == Some((Lit(value), rest))
  {
    var text := Digits(value, 10) + rest;
    assert PrintOp(Lit(value)) + rest == "lit" + text;
    After("lit", text);
    assert ("lit" + text)[0] == 'l';
    ScanPrinted(value, 10, rest);
  }

  lemma ParsePrintedUconst(addend: nat, rest: string)
    requires addend < TWO32 && Follows(rest)
    ensures ParseOp(PrintOp(PlusUconst(addend)) + rest) == Some((PlusUconst(addend), rest))
  {
    var digits := Digits(addend, 16) + rest;
    assert PrintOp(PlusUconst(addend)) + rest == "plus_uconst" + (" 0x" + digits);
    After("plus_uconst", " 0x" + digits);
    assert ("plus_uconst" + (" 0x" + digits))[0] == 'p';
    After(" 0x", digits);
    hide ScanNumber, Digits;
    ScanPrinted(addend, 16, rest);
  }

  lemma ParsePrintedWord(op: Op, rest: string)
    requires !op.Breg? && !op.Lit? && !op.PlusUconst? && Follows(rest)
    ensures ParseOp(PrintOp(op) + rest) == Some((op, rest))
  {
    var word := PrintOp(op);
    After(word, rest);
    assert (word + rest)[0] == word[0];
    if op.Plus? {
      assert (word + rest)[4] == rest[0];
    }
  }

  /** Any printed operation is parsed back, whatever may follow it. */
  lemma ParsePrinted(op: Op, rest: string)
    requires Printable(op) && Follows(rest)
    ensures ParseOp(PrintOp(op) + rest) == Some((op, rest))
  {
    hide ParseOp, PrintOp;
    match op {
      case Breg(reg, offset) => ParsePrintedBreg(reg, offset, rest);
      case Lit(value) => ParsePrintedLit(value, rest);
      case PlusUconst(addend) => ParsePrintedUconst(addend, rest);
      case _ => ParsePrintedWord(op, rest);
    }
  }

  /** Any expression of at most 63 operations is parsed back from its printed form. */
  lemma {:induction false} TextRoundTrip(ops: seq<Op>, terminator: char, tail: string, room: nat)
    requires 1 <= |ops| <= room && (terminator == ':' || terminator == ']') && forall op | op in ops :: Printable(op)
    ensures ParseOps(Print(ops) + [terminator] + tail, terminator, room) == Some((ops, [terminator] + tail))
    decreases |ops|
  {
    hide ParseOp, PrintOp;
    var end := [terminator] + tail;
    assert ops[0] in ops;
    if |ops| == 1 {
      assert Print(ops) + [terminator] + tail == PrintOp(ops[0]) + end;
      ParsePrinted(ops[0], end);
      assert ops == [ops[0]];
    } else {
      var more := Print(ops[1..]) + [terminator] + tail;
      var rest := SEPARATOR + more;
      assert Print(ops) + [terminator] + tail == PrintOp(ops[0]) + rest;
      ParsePrinted(ops[0], rest);
      After(SEPARATOR, more);
      assert rest[2..8] == SEPARATOR[2..8];
      TextRoundTrip(ops[1..], terminator, tail, room - 1);
      assert [ops[0]] + ops[1..] == ops;
    }
  }

  /** From a tree to text and back to its value: printing the postfix form of a tree of at most 63
      operations, parsing the text and executing the result gives the value of the tree. */
  lemma TreeThroughText(m: Machine, t: Tree, terminator: char, tail: string)
    requires Proper(t) && |Postfix(t)| <= 63 && (terminator == ':' || terminator == ']')
    requires forall op | op in Postfix(t) :: Printable(op)
    ensures var r := Parse(Print(Postfix(t)) + [terminator] + tail, terminator);
            && r.Some? && r.value.1 == [terminator] + tail
            && Execute(m, r.value.0) == Eval(m, t)
  {
    hide ParseOps, Print, Execute;
    TextRoundTrip(Postfix(t), terminator, tail, MAX_STACK - 1);
    PostfixExecutes(m, t);
  }

  /** Of the two names of a register the second counts. */
  lemma SecondNameCounts(first: nat, second: nat, offset: int, rest: string)
    requires first < TWO32 && Printable(Breg(second, offset)) && Follows(rest)
    ensures var sign := if offset >= 0 then "+" else "-";
            ParseOp("breg" + (Digits(first, 10) + (" R" + (Digits(second, 10)
                    + (sign + Digits(if offset >= 0 then offset else -offset, 10) + rest)))))
            == Some((Breg(second, offset), rest))
  {
    var signed := PrintSigned(offset) + rest;
    var named := " R" + (Digits(second, 10) + signed);
    BregByName(Digits(first, 10) + named);
    assert signed[0] == '+' || signed[0] == '-';
    assert named[0] == ' ';
    After(" R", Digits(second, 10) + signed);
    hide ScanNumber, ScanSigned, Digits, ParseOp;
    ScanPrinted(first, 10, named);
    ScanPrinted(second, 10, signed);
    ScanPrintedSigned(offset, rest);
  }

  /** An addend may come without its prefix, and is hexadecimal all the same. */
  lemma PrefixIsOptional(addend: nat, rest: string)
    requires addend < TWO32 && Follows(rest)
    ensures ParseOp("plus_uconst" + (" " + (Digits(addend, 16) + rest))) == Some((PlusUconst(addend), rest))
  {
    var digits := Digits(addend, 16) + rest;
    After("plus_uconst", " " + digits);
    assert ("plus_uconst" + (" " + digits))[0] == 'p';
    After(" ", digits);
    NoPrefix(addend, rest);
    hide ScanNumber, Digits;
    ScanPrinted(addend, 16, rest);
  }

  /** No printed number begins like a prefix. */
  lemma NoPrefix(n: nat, rest: string)
    requires Follows(rest)
    ensures !(" 0x" <= " " + (Digits(n, 16) + rest))
  {
    var digits := Digits(n, 16);
    assert Digit(digits[0], 16);
    assert |digits| > 1 ==> Digit(digits[1], 16);
    assert (digits + rest)[0] == digits[0];
    assert |digits| > 1 ==> (digits + rest)[1] == digits[1];
    assert |digits| == 1 ==> (digits + rest)[1] == rest[0];
    assert (" " + (digits + rest))[2] == (digits + rest)[1];
  }

  /** Conversely, whatever is parsed, from any text, can be printed. */
  lemma {:induction false} ParsedIsPrintable(s: string, terminator: char, room: nat)
    requires ParseOps(s, terminator, room).Some?
    ensures var (ops, rest) := ParseOps(s, terminator, room).value;
            && 1 <= |ops| <= room && rest != [] && rest[0] == terminator
            && forall op | op in ops :: Printable(op)
    decreases room
  {
    hide ParseOp;
    OneIsPrintable(s);
    var (op, rest) := ParseOp(s).value;
    if rest[0] == ',' {
      ParsedIsPrintable(rest[8..], terminator, room - 1);
    }
  }

  lemma OneIsPrintable(s: string)
    requires ParseOp(s).Some?
    ensures Printable(ParseOp(s).value.0)
  {
    hide Scan;
  }
}
