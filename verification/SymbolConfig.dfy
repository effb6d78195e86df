/** Symbol configuration text: comma-separated rows, parsed by the gateway and by the core, and printed in
    canonical form by the core. */
module SymbolConfig {
  import opened Decimal
  import opened Prices
  import opened SymbolRules

  const HEADER: string := "symbol,price_scale,tick_size,lot_size,min_quantity,max_quantity"

  type Config = map<string, Rules>

  function Trim(s: string): string {
    TrimRight(TrimLeft(s))
  }

  /** The pieces between the separators; one more than there are separators. */
  function Split(s: string, c: char): (ps: seq<string>)
    ensures ps != []
    decreases |s|
  {
    var k := Find(s, c);
    if k == |s| then [s] else [s[..k]] + Split(s[k + 1..], c)
  }

  function TrimAll(ps: seq<string>): (r: seq<string>)
    ensures |r| == |ps|
  {
    if ps == [] then [] else [Trim(ps[0])] + TrimAll(ps[1..])
  }

  predicate SymbolChar(c: char) {
    'A' <= c <= 'Z' || 'a' <= c <= 'z' || '0' <= c <= '9' || c == '.' || c == '_' || c == '-' || c == '/' || c == ':'
  }

  predicate SymbolText(s: string) {
    s != "" && forall i :: 0 <= i < |s| ==> SymbolChar(s[i])
  }

  /** A blank line, a comment or the heading. */
  predicate Skipped(line: string) {
    line == "" || line[0] == '#' || line == HEADER
  }

  datatype Row = Row(symbol: string, rules: Rules)

  /** Six columns: a symbol and five numbers that the program accepts. */
  function ParseRow(accepts: Rules -> bool, line: string): Option<Row> {
    var cols := TrimAll(Split(line, ','));
    if |cols| != 6 || !SymbolText(cols[0]) then None
    else if !AllDigits(cols[1]) || !AllDigits(cols[2]) || !AllDigits(cols[3]) || !AllDigits(cols[4])
            || !AllDigits(cols[5]) then None
    else
      var r := Rules(Value(cols[1]), Value(cols[2]), Value(cols[3]), Value(cols[4]), Value(cols[5]));
      if accepts(r) then Some(Row(cols[0], r)) else None
  }

  /** Rows are added one by one; an unreadable row or a repeated symbol refuses the whole text. */
  function ParseLines(accepts: Rules -> bool, lines: seq<string>, c: Config): Option<Config>
    decreases |lines|
  {
    if lines == [] then Some(c)
    else
      var line := Trim(lines[0]);
      if Skipped(line) then ParseLines(accepts, lines[1..], c)
      else
        match ParseRow(accepts, line)
        case None => None
        case Some(row) => if row.symbol in c then None else ParseLines(accepts, lines[1..], c[row.symbol := row.rules])
  }

  /** The parser as the source runs it, over the lines it is given. */
  method ParseText(accepts: Rules -> bool, lines: seq<string>) returns (config: Option<Config>)
    ensures config == ParseLines(accepts, lines, map[])
  {
    var c: Config, i := map[], 0;
    assert lines[0..] == lines;
    while i < |lines|
      invariant i <= |lines| && ParseLines(accepts, lines, map[]) == ParseLines(accepts, lines[i..], c)
    {
      assert lines[i..][1..] == lines[i + 1..];
      var line := Trim(lines[i]);
      if !Skipped(line) {
        var row := ParseRow(accepts, line);
        if row.None? || row.value.symbol in c { return None; }
        c := c[row.value.symbol := row.value.rules];
      }
      i := i + 1;
    }
    config := Some(c);
  }

  // ── Two ways to cut a text into lines ──────────────────────────────────────

  function DropReturn(line: string): string {
    if line != "" && line[|line| - 1] == '\r' then line[..|line| - 1] else line
  }

  /** The core's lines: none after a final newline, and a carriage return before a newline goes with it. */
  function CoreLines(s: string): seq<string>
    decreases |s|
  {
    if s == "" then []
    else
      var k := Find(s, '\n');
      if k == |s| then [s] else [DropReturn(s[..k])] + CoreLines(s[k + 1..])
  }

  function GatewayParse(text: string): Option<Config> {
    ParseLines(GatewayAccepts, Split(text, '\n'), map[])
  }

  function CoreParse(text: string): Option<Config> {
    ParseLines(CoreAccepts, CoreLines(text), map[])
  }

  lemma {:induction false} TrimLeftSnoc(s: string, c: char)
    requires IsSpace(c)
    ensures TrimLeft(s + [c]) == if TrimLeft(s) == "" then "" else TrimLeft(s) + [c]
    decreases |s|
  {
    if s == "" {
      assert s + [c] == [c] && [c][1..] == "";
    } else {
      assert (s + [c])[1..] == s[1..] + [c];
      if IsSpace(s[0]) { TrimLeftSnoc(s[1..], c); }
    }
  }

  lemma {:induction false} TrimSnoc(s: string, c: char)
    requires IsSpace(c)
    ensures Trim(s + [c]) == Trim(s)
  {
    TrimLeftSnoc(s, c);
    var t := TrimLeft(s);
    if t != "" { assert (t + [c])[..|t|] == t; }
  }

  lemma {:induction false} DropReturnTrims(line: string)
    ensures Trim(DropReturn(line)) == Trim(line)
  {
    if line != "" && line[|line| - 1] == '\r' {
      assert line == line[..|line| - 1] + ['\r'];
      TrimSnoc(line[..|line| - 1], '\r');
    }
  }

  ghost predicate SameReading(accepts: Rules -> bool, a: seq<string>, b: seq<string>) {
    forall c: Config :: ParseLines(accepts, a, c) == ParseLines(accepts, b, c)
  }

  lemma {:induction false} ReadingCons(accepts: Rules -> bool, x: string, y: string, a: seq<string>, b: seq<string>)
    requires Trim(x) == Trim(y) && SameReading(accepts, a, b)
    ensures SameReading(accepts, [x] + a, [y] + b)
  {
    assert ([x] + a)[1..] == a && ([y] + b)[1..] == b;
  }

  lemma {:induction false} BlankReading(accepts: Rules -> bool)
    ensures SameReading(accepts, [], [""])
  {
    assert [""][1..] == [] && Trim("") == "";
  }

  /** Both ways of cutting lines give the same configuration. */
  lemma {:induction false} LinesAgree(accepts: Rules -> bool, s: string)
    ensures SameReading(accepts, CoreLines(s), Split(s, '\n'))
    decreases |s|
  {
    var k := Find(s, '\n');
    if s == "" {
      BlankReading(accepts);
    } else if k < |s| {
      LinesAgree(accepts, s[k + 1..]);
      DropReturnTrims(s[..k]);
      ReadingCons(accepts, DropReturn(s[..k]), s[..k], CoreLines(s[k + 1..]), Split(s[k + 1..], '\n'));
    }
  }

  /** Over every text the two programs read the same configuration or both refuse it. */
  lemma {:induction false} SameLines(lines: seq<string>, c: Config)
    ensures ParseLines(GatewayAccepts, lines, c) == ParseLines(CoreAccepts, lines, c)
    decreases |lines|
  {
    if lines != [] {
      var line := Trim(lines[0]);
      if Skipped(line) {
        SameLines(lines[1..], c);
      } else {
        SameRow(line);
        var row := ParseRow(CoreAccepts, line);
        if row.Some? && row.value.symbol !in c { SameLines(lines[1..], c[row.value.symbol := row.value.rules]); }
      }
    }
  }

  lemma SameRow(line: string)
    ensures ParseRow(GatewayAccepts, line) == ParseRow(CoreAccepts, line)
  {
    var cols := TrimAll(Split(line, ','));
    if |cols| == 6 && AllDigits(cols[1]) && AllDigits(cols[2]) && AllDigits(cols[3]) && AllDigits(cols[4])
      && AllDigits(cols[5]) {
      SameRows(Rules(Value(cols[1]), Value(cols[2]), Value(cols[3]), Value(cols[4]), Value(cols[5])));
    }
  }

  lemma SameConfigurations(text: string)
    ensures GatewayParse(text) == CoreParse(text)
  {
    SameLines(Split(text, '\n'), map[]);
    LinesAgree(CoreAccepts, text);
  }

  // ── Canonical form ─────────────────────────────────────────────────────────

  function Join(ps: seq<string>, c: char): string
    requires ps != []
  {
    if |ps| == 1 then ps[0] else ps[0] + ([c] + Join(ps[1..], c))
  }

  function Columns(row: Row): seq<string> {
    [row.symbol, Text(row.rules.scale), Text(row.rules.tick), Text(row.rules.lot), Text(row.rules.minQty),
      Text(row.rules.maxQty)]
  }

  function RowText(row: Row): string {
    Join(Columns(row), ',')
  }

  /** One row per symbol, each on its own line. */
  function Canonical(rows: seq<Row>): string {
    if rows == [] then "" else RowText(rows[0]) + ("\n" + Canonical(rows[1..]))
  }

  predicate Without(s: string, c: char) {
    forall i :: 0 <= i < |s| ==> s[i] != c
  }

  lemma {:induction false} FindFirst(p: string, c: char, rest: string)
    requires Without(p, c)
    ensures Find(p + ([c] + rest), c) == |p|
  {
    if p == "" {
      assert p + ([c] + rest) == [c] + rest;
    } else {
      assert (p + ([c] + rest))[1..] == p[1..] + ([c] + rest);
      FindFirst(p[1..], c, rest);
    }
  }

  lemma {:induction false} FindNone(p: string, c: char)
    requires Without(p, c)
    ensures Find(p, c) == |p|
  {
    if p != "" { FindNone(p[1..], c); }
  }

  /** A piece without separators is split off. */
  lemma SplitOff(p: string, c: char, rest: string)
    requires Without(p, c)
    ensures Split(p + ([c] + rest), c) == [p] + Split(rest, c)
  {
    var s := p + ([c] + rest);
    FindFirst(p, c, rest);
    assert s[..|p|] == p && s[|p| + 1..] == rest;
  }

  lemma SplitLast(p: string, c: char)
    requires Without(p, c)
    ensures Split(p, c) == [p]
  {
    FindNone(p, c);
  }

  /** Begins and ends with something that is not trimmed. */
  predicate Clean(s: string) {
    s != "" && !IsSpace(s[0]) && !IsSpace(s[|s| - 1])
  }

  lemma CleanTrim(s: string)
    requires Clean(s)
    ensures Trim(s) == s
  {
    Untrimmed(s);
  }

  lemma NumberClean(n: nat)
    ensures Clean(Text(n)) && Without(Text(n), ',') && Without(Text(n), '\n') && AllDigits(Text(n))
    ensures Value(Text(n)) == n
  {
    ValueOfText(n);
  }

  lemma SymbolClean(s: string)
    requires SymbolText(s)
    ensures Clean(s) && Without(s, ',') && Without(s, '\n') && s[0] != '#'
  {
  }

  predicate AllWithout(ps: seq<string>, c: char) {
    forall i :: 0 <= i < |ps| ==> Without(ps[i], c)
  }

  predicate AllClean(ps: seq<string>) {
    forall i :: 0 <= i < |ps| ==> Clean(ps[i])
  }

  /** Splitting undoes joining. */
  lemma {:induction false} SplitJoin(ps: seq<string>, c: char)
    requires ps != [] && AllWithout(ps, c)
    ensures Split(Join(ps, c), c) == ps
    decreases |ps|
  {
    if |ps| == 1 {
      SplitLast(ps[0], c);
    } else {
      SplitJoin(ps[1..], c);
      SplitOff(ps[0], c, Join(ps[1..], c));
      assert ps == [ps[0]] + ps[1..];
    }
  }

  lemma {:induction false} JoinEnds(ps: seq<string>, c: char)
    requires ps != [] && AllClean(ps)
    ensures var j := Join(ps, c); j != "" && j[0] == ps[0][0] && j[|j| - 1] == ps[|ps| - 1][|ps[|ps| - 1]| - 1]
    decreases |ps|
  {
    assert Clean(ps[0]);
    if |ps| > 1 {
      var rest := Join(ps[1..], c);
      JoinEnds(ps[1..], c);
      assert Join(ps, c) == ps[0] + ([c] + rest) && ps[1..][|ps| - 2] == ps[|ps| - 1];
      EndsOf(ps[0], c, rest);
    }
  }

  lemma EndsOf(first: string, c: char, rest: string)
    requires first != "" && rest != ""
    ensures var j := first + ([c] + rest); j != "" && j[0] == first[0] && j[|j| - 1] == rest[|rest| - 1]
  {
  }

  lemma {:induction false} JoinWithout(ps: seq<string>, c: char, x: char)
    requires ps != [] && c != x && AllWithout(ps, x)
    ensures Without(Join(ps, c), x)
    decreases |ps|
  {
    if |ps| > 1 { JoinWithout(ps[1..], c, x); }
  }

  lemma {:induction false} TrimClean(ps: seq<string>)
    requires AllClean(ps)
    ensures TrimAll(ps) == ps
    decreases |ps|
  {
    if ps != [] {
      CleanTrim(ps[0]);
      TrimClean(ps[1..]);
      assert ps == [ps[0]] + ps[1..];
    }
  }

  lemma ColumnsClean(row: Row)
    requires SymbolText(row.symbol)
    ensures AllClean(Columns(row)) && AllWithout(Columns(row), ',') && AllWithout(Columns(row), '\n')
  {
    SymbolClean(row.symbol);
    NumberClean(row.rules.scale);
    NumberClean(row.rules.tick);
    NumberClean(row.rules.lot);
    NumberClean(row.rules.minQty);
    NumberClean(row.rules.maxQty);
  }

  /** A printed row is a clean line that parses to the row. */
  lemma RowParses(accepts: Rules -> bool, row: Row)
    requires SymbolText(row.symbol) && accepts(row.rules)
    ensures ParseRow(accepts, RowText(row)) == Some(row)
  {
    var cols := Columns(row);
    ColumnsClean(row);
    SplitJoin(cols, ',');
    TrimClean(cols);
    NumberClean(row.rules.scale);
    NumberClean(row.rules.tick);
    NumberClean(row.rules.lot);
    NumberClean(row.rules.minQty);
    NumberClean(row.rules.maxQty);
  }

  lemma RowIsLine(row: Row)
    requires SymbolText(row.symbol)
    ensures Trim(RowText(row)) == RowText(row) && !Skipped(RowText(row)) && Without(RowText(row), '\n')
  {
    var cols := Columns(row);
    ColumnsClean(row);
    SymbolClean(row.symbol);
    NumberClean(row.rules.maxQty);
    JoinEnds(cols, ',');
    JoinWithout(cols, ',', '\n');
    CleanTrim(RowText(row));
    assert HEADER[|HEADER| - 1] == 'y';
  }

  function Collect(rows: seq<Row>, c: Config): Config
    decreases |rows|
  {
    if rows == [] then c else Collect(rows[1..], c[rows[0].symbol := rows[0].rules])
  }

  /** Distinct well-formed symbols with rules the program accepts, none of them known already. */
  predicate Printable(accepts: Rules -> bool, rows: seq<Row>, c: Config)
    decreases |rows|
  {
    rows == []
    || (SymbolText(rows[0].symbol) && accepts(rows[0].rules) && rows[0].symbol !in c
        && Printable(accepts, rows[1..], c[rows[0].symbol := rows[0].rules]))
  }

  lemma {:induction false} CanonicalParses(accepts: Rules -> bool, rows: seq<Row>, c: Config)
    requires Printable(accepts, rows, c)
    ensures ParseLines(accepts, Split(Canonical(rows), '\n'), c) == Some(Collect(rows, c))
    decreases |rows|
  {
    if rows == [] {
      SplitLast("", '\n');
      assert [""][1..] == [];
    } else {
      RowIsLine(rows[0]);
      RowParses(accepts, rows[0]);
      SplitOff(RowText(rows[0]), '\n', Canonical(rows[1..]));
      var lines := Split(Canonical(rows), '\n');
      assert lines[0] == RowText(rows[0]) && lines[1..] == Split(Canonical(rows[1..]), '\n');
      CanonicalParses(accepts, rows[1..], c[rows[0].symbol := rows[0].rules]);
    }
  }

  /** Everything a parsed configuration holds was accepted row by row. */
  ghost predicate Admitted(accepts: Rules -> bool, c: Config) {
    forall s :: s in c ==> SymbolText(s) && accepts(c[s])
  }

  lemma {:induction false} ParsedIsAdmitted(accepts: Rules -> bool, lines: seq<string>, c: Config)
    requires Admitted(accepts, c)
    ensures var r := ParseLines(accepts, lines, c); r.Some? ==> Admitted(accepts, r.value)
    decreases |lines|
  {
    if lines != [] {
      var line := Trim(lines[0]);
      if Skipped(line) {
        ParsedIsAdmitted(accepts, lines[1..], c);
      } else {
        var row := ParseRow(accepts, line);
        if row.Some? && row.value.symbol !in c {
          ParsedIsAdmitted(accepts, lines[1..], c[row.value.symbol := row.value.rules]);
        }
      }
    }
  }

  /** The rows list every symbol of c exactly once, with its rules, in any order. */
  predicate Lists(rows: seq<Row>, c: Config) {
    (forall i :: 0 <= i < |rows| ==> rows[i].symbol in c && c[rows[i].symbol] == rows[i].rules)
    && (forall i, j :: 0 <= i < j < |rows| ==> rows[i].symbol != rows[j].symbol)
    && c.Keys == set i | 0 <= i < |rows| :: rows[i].symbol
  }

  lemma {:induction false} ListsPrintable(accepts: Rules -> bool, rows: seq<Row>, done: Config)
    requires forall i :: 0 <= i < |rows| ==>
      SymbolText(rows[i].symbol) && accepts(rows[i].rules) && rows[i].symbol !in done
    requires forall i, j :: 0 <= i < j < |rows| ==> rows[i].symbol != rows[j].symbol
    ensures Printable(accepts, rows, done)
    ensures var r := Collect(rows, done);
            (forall s :: s in done ==> s in r && r[s] == done[s])
            && (forall i :: 0 <= i < |rows| ==> rows[i].symbol in r && r[rows[i].symbol] == rows[i].rules)
            && (forall s :: s in r && s !in done ==> exists i :: 0 <= i < |rows| && rows[i].symbol == s)
    decreases |rows|
  {
    if rows != [] {
      var next := done[rows[0].symbol := rows[0].rules];
      ListsPrintable(accepts, rows[1..], next);
      var r := Collect(rows, done);
      forall i | 0 <= i < |rows| ensures rows[i].symbol in r && r[rows[i].symbol] == rows[i].rules {
        if i > 0 { assert rows[i] == rows[1..][i - 1]; }
      }
      forall s | s in r && s !in done ensures exists i :: 0 <= i < |rows| && rows[i].symbol == s {
        if s in next {
          assert rows[0].symbol == s;
        } else {
          var i :| 0 <= i < |rows[1..]| && rows[1..][i].symbol == s;
          assert rows[i + 1].symbol == s;
        }
      }
    }
  }

  /** Printing a configuration that was parsed, and parsing the text again, gives the configuration. */
  lemma CanonicalRoundTrip(text: string, rows: seq<Row>)
    requires CoreParse(text).Some? && Lists(rows, CoreParse(text).value)
    ensures CoreParse(Canonical(rows)) == CoreParse(text)
  {
    var c := CoreParse(text).value;
    ParsedIsAdmitted(CoreAccepts, CoreLines(text), map[]);
    ListsPrintable(CoreAccepts, rows, map[]);
    CanonicalParses(CoreAccepts, rows, map[]);
    LinesAgree(CoreAccepts, Canonical(rows));
    ListsSame(rows, c, Collect(rows, map[]));
  }

  lemma ListsSame(rows: seq<Row>, c: Config, r: Config)
    requires Lists(rows, c)
    requires forall i :: 0 <= i < |rows| ==> rows[i].symbol in r && r[rows[i].symbol] == rows[i].rules
    requires forall s :: s in r ==> exists i :: 0 <= i < |rows| && rows[i].symbol == s
    ensures r == c
  {
    forall s ensures s in c <==> s in r {
      if s in c { var i :| 0 <= i < |rows| && rows[i].symbol == s; }
    }
    forall s | s in c ensures r[s] == c[s] {
      var i :| 0 <= i < |rows| && rows[i].symbol == s;
    }
  }
}
