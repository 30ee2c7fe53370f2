/** The `ticket` crate: reading tickets from the lines of a file, and the
    row and column sums that the matrix display accumulates. */
module TicketFile {
  import opened Common

  // ----- whitespace and tokens -----

  /** Rust's `char::is_whitespace`: the Unicode White_Space characters. */
  predicate IsSpace(ch: char) {
    var c := ch as int;
    (0x09 <= c <= 0x0D) || c == 0x20 || c == 0x85 || c == 0xA0 || c == 0x1680 ||
    (0x2000 <= c <= 0x200A) || c == 0x2028 || c == 0x2029 || c == 0x202F ||
    c == 0x205F || c == 0x3000
  }

  /** A token as `split_whitespace` yields it: non-empty, no whitespace. */
  predicate IsWord(w: string) {
    w != [] && forall i :: 0 <= i < |w| ==> !IsSpace(w[i])
  }

  /** The characters before the first whitespace. */
  function Word(s: string): (w: string)
    ensures |w| <= |s| && w == s[..|w|]
    ensures forall i :: 0 <= i < |w| ==> !IsSpace(w[i])
    ensures |w| < |s| ==> IsSpace(s[|w|])
  {
    if s == [] || IsSpace(s[0]) then [] else [s[0]] + Word(s[1..])
  }

  /** `split_whitespace`: the maximal runs of non-whitespace characters, in
      order. */
  function Tokens(s: string): (r: seq<string>)
    ensures forall i :: 0 <= i < |r| ==> IsWord(r[i])
    decreases |s|
  {
    if s == [] then []
    else if IsSpace(s[0]) then Tokens(s[1..])
    else
      var w := Word(s);
      assert s[..1] == [s[0]] && w[..1] == s[..1];
      [w] + Tokens(s[|w|..])
  }

  /** Leading whitespace yields no token. */
  lemma {:induction false} TokensSkipSpaces(sp: string, s: string)
    requires forall i :: 0 <= i < |sp| ==> IsSpace(sp[i])
    ensures Tokens(sp + s) == Tokens(s)
  {
    if sp != [] {
      assert (sp + s)[0] == sp[0] && (sp + s)[1..] == sp[1..] + s;
      TokensSkipSpaces(sp[1..], s);
    } else {
      assert sp + s == s;
    }
  }

  /** A word followed by whitespace or the end is read as that token. */
  lemma {:induction false} WordOfWord(w: string, rest: string)
    requires IsWord(w)
    requires rest == [] || IsSpace(rest[0])
    ensures Word(w + rest) == w
  {
    if |w| == 1 {
      assert (w + rest)[1..] == rest;
      if rest != [] {
        assert Word(rest) == [];
      }
    } else {
      assert (w + rest)[1..] == w[1..] + rest;
      WordOfWord(w[1..], rest);
    }
  }

  /** A word followed by whitespace or the end is the next token, and the
      tokens after it are those of the rest: with TokensSkipSpaces and
      `Tokens([]) == []`, this pins down every line's tokens. */
  lemma TokensOfWord(w: string, rest: string)
    requires IsWord(w)
    requires rest == [] || IsSpace(rest[0])
    ensures Tokens(w + rest) == [w] + Tokens(rest)
  {
    WordOfWord(w, rest);
    assert (w + rest)[0] == w[0] && (w + rest)[|w|..] == rest;
  }

  // ----- decimal numbers -----

  /** Rust's `u32::MAX`. */
  const U32Max: nat := 0xFFFF_FFFF

  predicate IsDigit(ch: char) {
    '0' <= ch <= '9'
  }

  function DigitValue(ch: char): nat
    requires IsDigit(ch)
  {
    ch as int - '0' as int
  }

  function DigitChar(d: nat): (ch: char)
    requires d < 10
    ensures IsDigit(ch) && DigitValue(ch) == d
  {
    ('0' as int + d) as char
  }

  /** The value of a string of decimal digits, most significant first. */
  function DecimalValue(ds: string): nat
    requires forall i :: 0 <= i < |ds| ==> IsDigit(ds[i])
  {
    if ds == [] then 0 else DecimalValue(ds[..|ds| - 1]) * 10 + DigitValue(ds[|ds| - 1])
  }

  /** `str::parse::<u32>`: an optional `+`, then at least one ASCII digit,
      the value at most `u32::MAX`; anything else (a `-`, a sign alone, any
      other character, an overflow) fails. */
  function ParseU32(tok: string): (r: Option<nat>)
    ensures r.Some? ==> r.value <= U32Max
  {
    if tok != [] && tok[0] == '+' then ParseDigits(tok[1..]) else ParseDigits(tok)
  }

  predicate AllDigits(ds: string) {
    forall i :: 0 <= i < |ds| ==> IsDigit(ds[i])
  }

  /** The digits after the optional sign. */
  function ParseDigits(digits: string): (r: Option<nat>)
    ensures r.Some? ==> r.value <= U32Max
  {
    if digits == [] || !AllDigits(digits) then None
    else if DecimalValue(digits) <= U32Max then Some(DecimalValue(digits))
    else None
  }

  /** The decimal text of n, as `format!("{}", n)` writes it. */
  function Decimal(n: nat): (s: string)
    ensures s != [] && forall i :: 0 <= i < |s| ==> IsDigit(s[i])
  {
    if n < 10 then [DigitChar(n)] else Decimal(n / 10) + [DigitChar(n % 10)]
  }

  /** Reading back what was written gives the number. */
  lemma {:induction false} DecimalValueOfDecimal(n: nat)
    ensures DecimalValue(Decimal(n)) == n
  {
    if n >= 10 {
      var s := Decimal(n);
      assert s[..|s| - 1] == Decimal(n / 10);
      DecimalValueOfDecimal(n / 10);
    }
  }

  /** Every u32 written in decimal parses back to itself. */
  lemma ParseDecimal(n: nat)
    requires n <= U32Max
    ensures ParseU32(Decimal(n)) == Some(n)
  {
    DecimalValueOfDecimal(n);
  }

  /** A sign alone, a minus sign or a value past `u32::MAX` does not parse. */
  lemma ParseRejects(n: nat)
    ensures ParseU32("+") == None && ParseU32("-") == None
    ensures ParseU32("-" + Decimal(n)) == None
    ensures n > U32Max ==> ParseU32(Decimal(n)) == None
  {
    assert "+"[0] == '+' && "+"[1..] == [];
    var minus := "-" + Decimal(n);
    assert "-"[0] == '-' && !IsDigit("-"[0]);
    assert minus[0] == '-' && !IsDigit(minus[0]);
    DecimalValueOfDecimal(n);
  }

  // ----- one line -----

  /** The `filter_map(parse)` step: the values of the tokens that parse, in
      order; the others are dropped. */
  function Parsed(tokens: seq<string>): (r: seq<nat>)
    ensures |r| <= |tokens|
    ensures forall i :: 0 <= i < |r| ==> r[i] <= U32Max
  {
    if tokens == [] then []
    else
      var rest := Parsed(tokens[1..]);
      match ParseU32(tokens[0])
      case Some(v) => [v] + rest
      case None => rest
  }

  /** The numbers of a line. */
  function Numbers(line: string): seq<nat> {
    Parsed(Tokens(line))
  }

  /** A line yields a ticket when exactly 15 of its tokens parse. */
  predicate IsTicketLine(line: string) {
    |Numbers(line)| == 15
  }

  /** Dropping a token that does not parse changes nothing, and tokens that
      parse keep their order. */
  lemma {:induction false} ParsedAppend(a: seq<string>, b: seq<string>)
    ensures Parsed(a + b) == Parsed(a) + Parsed(b)
  {
    if a != [] {
      assert (a + b)[0] == a[0] && (a + b)[1..] == a[1..] + b;
      ParsedAppend(a[1..], b);
    } else {
      assert a + b == b;
    }
  }

  /** The cell `show` prints for a number: `{:2}`, right-aligned to width
      two with spaces. */
  function Cell(n: nat): string {
    var d := Decimal(n);
    if |d| < 2 then " " + d else d
  }

  /** The line `show` prints: the cells joined by single spaces. */
  function ShowLine(t: seq<nat>): string {
    if t == [] then []
    else if |t| == 1 then Cell(t[0])
    else Cell(t[0]) + " " + ShowLine(t[1..])
  }

  /** The decimal texts of the numbers, in order. */
  function Decimals(t: seq<nat>): seq<string> {
    if t == [] then [] else [Decimal(t[0])] + Decimals(t[1..])
  }

  /** A cell followed by the rest of the line yields the number's decimal
      text as its first token. */
  lemma TokensOfCell(n: nat, rest: string)
    requires rest == [] || IsSpace(rest[0])
    ensures Tokens(Cell(n) + rest) == [Decimal(n)] + Tokens(rest)
  {
    var d := Decimal(n);
    var pad := if |d| < 2 then " " else "";
    assert Cell(n) + rest == pad + (d + rest);
    TokensSkipSpaces(pad, d + rest);
    TokensOfWord(d, rest);
  }

  /** The tokens of a shown line are the decimal texts of its numbers. */
  lemma {:induction false} TokensOfShowLine(t: seq<nat>)
    ensures Tokens(ShowLine(t)) == Decimals(t)
  {
    if |t| == 1 {
      TokensOfCell(t[0], []);
      assert Cell(t[0]) + [] == Cell(t[0]);
    } else if |t| > 1 {
      assert ShowLine(t) == Cell(t[0]) + (" " + ShowLine(t[1..]));
      TokensOfCell(t[0], " " + ShowLine(t[1..]));
      TokensSkipSpaces(" ", ShowLine(t[1..]));
      TokensOfShowLine(t[1..]);
    }
  }

  lemma {:induction false} ParsedDecimals(t: seq<nat>)
    requires forall i :: 0 <= i < |t| ==> t[i] <= U32Max
    ensures Parsed(Decimals(t)) == t
  {
    if t != [] {
      ParseDecimal(t[0]);
      ParsedDecimals(t[1..]);
    }
  }

  /** A ticket as `show` prints it reads back as the same ticket. */
  lemma ReadShownTicket(t: seq<nat>)
    requires |t| == 15 && forall i :: 0 <= i < |t| ==> t[i] <= U32Max
    ensures IsTicketLine(ShowLine(t)) && Numbers(ShowLine(t)) == t
  {
    TokensOfShowLine(t);
    ParsedDecimals(t);
  }

  // ----- the file -----

  /** The tickets the lines yield, in line order: each line that could be
      read and holds exactly 15 parsable tokens contributes those 15 values. */
  function Accepted(lines: seq<Option<string>>): seq<seq<nat>> {
    if lines == [] then []
    else
      var last := lines[|lines| - 1];
      Accepted(lines[..|lines| - 1]) + (if last.Some? && IsTicketLine(last.value) then [Numbers(last.value)] else [])
  }

  /** A bad line does not stop the reading: the tickets of a file are those
      of its first part followed by those of the rest. */
  lemma {:induction false} AcceptedAppend(a: seq<Option<string>>, b: seq<Option<string>>)
    ensures Accepted(a + b) == Accepted(a) + Accepted(b)
    decreases |b|
  {
    if b == [] {
      assert a + b == a;
    } else {
      var front := b[..|b| - 1];
      assert (a + b)[..|a + b| - 1] == a + front;
      AcceptedAppend(a, front);
    }
  }

  /** The tickets are exactly the numbers of the ticket lines, and each has
      15 values. */
  lemma {:induction false} AcceptedMembers(lines: seq<Option<string>>, t: seq<nat>)
    ensures t in Accepted(lines) <==>
      exists i :: 0 <= i < |lines| && lines[i].Some? && IsTicketLine(lines[i].value) && Numbers(lines[i].value) == t
    ensures t in Accepted(lines) ==> |t| == 15
  {
    if lines != [] {
      var front := lines[..|lines| - 1];
      AcceptedMembers(front, t);
      if exists i :: 0 <= i < |front| && front[i].Some? && IsTicketLine(front[i].value) && Numbers(front[i].value) == t {
        var i :| 0 <= i < |front| && front[i].Some? && IsTicketLine(front[i].value) && Numbers(front[i].value) == t;
        assert lines[i] == front[i];
      }
      if exists i :: 0 <= i < |lines| && lines[i].Some? && IsTicketLine(lines[i].value) && Numbers(lines[i].value) == t {
        var i :| 0 <= i < |lines| && lines[i].Some? && IsTicketLine(lines[i].value) && Numbers(lines[i].value) == t;
        if i < |front| {
          assert front[i] == lines[i];
        }
      }
    }
  }

  /** `read_tickets` over the lines of the file: `file` is None when the
      file cannot be opened, and a line is None when it cannot be read.
      The result is None when the file cannot be opened or no line yields a
      ticket, and otherwise the tickets in line order. */
  method ReadTickets(file: Option<seq<Option<string>>>) returns (r: Option<seq<seq<nat>>>)
    ensures r.None? <==> file.None? || Accepted(file.value) == []
    ensures r.Some? ==> r.value == Accepted(file.value) && r.value != []
  {
    if file.None? {
      return None;
    }
    var lines := file.value;
    var tickets: seq<seq<nat>> := [];
    for i := 0 to |lines|
      invariant tickets == Accepted(lines[..i])
    {
      assert lines[..i + 1][..i] == lines[..i];
      match lines[i]
      case Some(text) =>
        var numbers := Numbers(text);
        if |numbers| == 15 {
          tickets := tickets + [numbers];
        }
      case None =>
    }
    assert lines[..|lines|] == lines;
    if tickets != [] {
      r := Some(tickets);
    } else {
      r := None;
    }
  }

  // ----- the matrix sums -----

  /** A display matrix: 6 rows of 9 cells, each empty or holding a u8. */
  type Matrix = seq<seq<Option<Byte>>>

  predicate IsMatrix(m: Matrix) {
    |m| == 6 && forall r :: 0 <= r < 6 ==> |m[r]| == 9
  }

  /** What a cell adds to its sums: n + 1 for a number n, nothing if empty. */
  function CellValue(cell: Option<Byte>): nat {
    match cell
    case Some(n) => n as nat + 1
    case None => 0
  }

  /** The sum of the first k cells of a row. */
  function RowSumUpTo(row: seq<Option<Byte>>, k: nat): nat
    requires k <= |row|
  {
    if k == 0 then 0 else RowSumUpTo(row, k - 1) + CellValue(row[k - 1])
  }

  /** The sum over the first k rows of column c. */
  function ColumnSumUpTo(m: Matrix, c: nat, k: nat): nat
    requires IsMatrix(m) && c < 9 && k <= 6
  {
    if k == 0 then 0 else ColumnSumUpTo(m, c, k - 1) + CellValue(m[k - 1][c])
  }

  /** The sums `showm` shows, one per row and one per column. */
  datatype Sums = Sums(rows: seq<nat>, columns: seq<nat>)

  /** Some step of `showm` leaves the u8 range and panics: a cell holds
      255, so that n + 1 overflows, or a row or a column adds up to more
      than 255. */
  predicate Overflows(m: Matrix)
    requires IsMatrix(m)
  {
    (exists r, c :: 0 <= r < 6 && 0 <= c < 9 && m[r][c] == Some(255)) ||
    (exists r :: 0 <= r < 6 && RowSumUpTo(m[r], 9) > 255) ||
    (exists c :: 0 <= c < 9 && ColumnSumUpTo(m, c, 6) > 255)
  }

  lemma {:induction false} RowSumMonotone(row: seq<Option<Byte>>, k: nat, l: nat)
    requires k <= l <= |row|
    ensures RowSumUpTo(row, k) <= RowSumUpTo(row, l)
    decreases l - k
  {
    if k < l {
      RowSumMonotone(row, k, l - 1);
    }
  }

  lemma {:induction false} ColumnSumMonotone(m: Matrix, c: nat, k: nat, l: nat)
    requires IsMatrix(m) && c < 9 && k <= l <= 6
    ensures ColumnSumUpTo(m, c, k) <= ColumnSumUpTo(m, c, l)
    decreases l - k
  {
    if k < l {
      ColumnSumMonotone(m, c, k, l - 1);
    }
  }

  /** The column sums of rows 0..i, none past 255. */
  predicate ColumnsSummed(m: Matrix, sums: array<nat>, i: nat)
    requires IsMatrix(m) && i <= 6
    reads sums
  {
    sums.Length == 9 && forall c :: 0 <= c < 9 ==> sums[c] == ColumnSumUpTo(m, c, i) && sums[c] <= 255
  }

  /** `showm`'s arithmetic: for every row its sum, and for every column its
      sum, all in u8. None when a step panics, which happens exactly when
      the matrix overflows; otherwise each row and column sum is the sum of
      n + 1 over its numbers. */
  method ShowMatrix(m: Matrix) returns (r: Option<Sums>)
    requires IsMatrix(m)
    ensures r.None? <==> Overflows(m)
    ensures r.Some? ==> |r.value.rows| == 6 && |r.value.columns| == 9
    ensures r.Some? ==> forall i :: 0 <= i < 6 ==> r.value.rows[i] == RowSumUpTo(m[i], 9) <= 255
    ensures r.Some? ==> forall c :: 0 <= c < 9 ==> r.value.columns[c] == ColumnSumUpTo(m, c, 6) <= 255
  {
    var columnSums := new nat[9](_ => 0);
    var rows: seq<nat> := [];
    for i := 0 to 6
      invariant |rows| == i
      invariant forall k :: 0 <= k < i ==> rows[k] == RowSumUpTo(m[k], 9) <= 255
      invariant ColumnsSummed(m, columnSums, i)
      invariant forall k, c :: 0 <= k < i && 0 <= c < 9 ==> m[k][c] != Some(255)
    {
      var rowSum := SumRow(m, i, columnSums);
      if rowSum.None? {
        return None;
      }
      rows := rows + [rowSum.value];
    }
    r := Some(Sums(rows, columnSums[..]));
  }

  /** One row of `showm`: adds n + 1 for each number of row i to the row
      sum and to its column's sum, in u8. None when a step panics. */
  method SumRow(m: Matrix, i: nat, columnSums: array<nat>) returns (rowSum: Option<nat>)
    requires IsMatrix(m) && i < 6 && columnSums.Length == 9
    requires ColumnsSummed(m, columnSums, i)
    modifies columnSums
    ensures rowSum.None? ==> Overflows(m)
    ensures rowSum.Some? ==> rowSum.value == RowSumUpTo(m[i], 9) <= 255
    ensures rowSum.Some? ==> ColumnsSummed(m, columnSums, i + 1)
    ensures rowSum.Some? ==> forall c :: 0 <= c < 9 ==> m[i][c] != Some(255)
  {
    var sum: nat := 0;
    for c := 0 to 9
      invariant sum == RowSumUpTo(m[i], c) <= 255
      invariant forall d :: 0 <= d < c ==> columnSums[d] == ColumnSumUpTo(m, d, i + 1)
      invariant forall d :: c <= d < 9 ==> columnSums[d] == ColumnSumUpTo(m, d, i)
      invariant forall d :: 0 <= d < 9 ==> columnSums[d] <= 255
      invariant forall d :: 0 <= d < c ==> m[i][d] != Some(255)
    {
      if m[i][c] == Some(255) {
        return None;
      }
      var value := CellValue(m[i][c]);
      if value > 0 {
        if sum + value > 255 {
          RowSumMonotone(m[i], c + 1, 9);
          return None;
        }
        sum := sum + value;
        if columnSums[c] + value > 255 {
          ColumnSumMonotone(m, c, i + 1, 6);
          return None;
        }
        columnSums[c] := columnSums[c] + value;
      }
    }
    rowSum := Some(sum);
  }
}
