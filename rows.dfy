/** The text of one data-file row.  Every file class of the program writes a
    row as `str(row).lstrip('[').rstrip(']')` (data_file.py, data_files.py,
    fake_data_gen.py) and a comment as `"# " + comment`; the characters read
    back by plot_live.py's label parser come from the same lines. */
module Rows {
  import opened Text

  /** A list element: a string, or a number already rendered by `str()`
      (float formatting is outside the model, so a number carries its text). */
  datatype Cell = Str(s: string) | Num(text: string)

  /** The quote `repr()` puts around a string: double quotes only when the
      string holds a single quote and no double quote. */
  function QuoteFor(s: string): (q: char)
    ensures q == '"' <==> ('\'' in s && '"' !in s)
  {
    if '\'' in s && '"' !in s then '"' else '\''
  }

  /** How `repr()` writes one character inside quotes `q`. */
  function EscapeChar(c: char, q: char): (r: string)
    ensures r == [c] <==> c !in {'\\', q, '\n', '\r', '\t'}
  {
    if c == '\\' then "\\\\"
    else if c == q then ['\\', q]
    else if c == '\n' then "\\n"
    else if c == '\r' then "\\r"
    else if c == '\t' then "\\t"
    else [c]
  }

  function Escaped(s: string, q: char): string
    decreases |s|
  {
    if s == [] then [] else EscapeChar(s[0], q) + Escaped(s[1..], q)
  }

  /** repr() of a string. */
  function Repr(s: string): (r: string)
    ensures |r| >= 2 && r[0] == r[|r| - 1] == QuoteFor(s)
  {
    [QuoteFor(s)] + Escaped(s, QuoteFor(s)) + [QuoteFor(s)]
  }

  /** A label `repr()` copies unchanged between single quotes. */
  predicate Plain(s: string) {
    forall i :: 0 <= i < |s| ==> s[i] !in {'\'', '\\', '\n', '\r', '\t'}
  }

  lemma {:induction false} EscapedPlain(s: string)
    requires Plain(s)
    ensures Escaped(s, '\'') == s
    decreases |s|
  {
    if s != [] {
      EscapedPlain(s[1..]);
      assert [s[0]] + s[1..] == s;
    }
  }

  /** A plain label is written as itself between single quotes. */
  lemma ReprPlain(s: string)
    requires Plain(s)
    ensures Repr(s) == "'" + s + "'"
  {
    assert '\'' !in s;
    EscapedPlain(s);
  }

  function CellText(c: Cell): string {
    match c
    case Str(s) => Repr(s)
    case Num(t) => t
  }

  function CellTexts(cells: seq<Cell>): (r: seq<string>)
    ensures |r| == |cells|
    ensures forall i :: 0 <= i < |cells| ==> r[i] == CellText(cells[i])
  {
    seq(|cells|, i requires 0 <= i < |cells| => CellText(cells[i]))
  }

  /** str(row): the element reprs between brackets, separated by ", ". */
  function ListText(cells: seq<Cell>): string {
    "[" + Join(CellTexts(cells), ", ") + "]"
  }

  /** The line write_row appends (without its newline). */
  function RowLine(cells: seq<Cell>): string {
    RStrip(LStrip(ListText(cells), {'['}), {']'})
  }

  /** "# " + comment, the line write_comment appends. */
  function CommentLine(comment: string): (line: string)
    ensures |line| >= 2 && line[0] == '#' && line[2..] == comment
  {
    "# " + comment
  }

  /** A cell whose text neither starts with '[' nor ends with ']'; every
      string cell is one, since a repr starts and ends with a quote. */
  predicate Bracketless(c: Cell) {
    var t := CellText(c);
    t != [] && t[0] != '[' && t[|t| - 1] != ']'
  }

  function Strs(labels: seq<string>): (r: seq<Cell>)
    ensures |r| == |labels|
    ensures forall i :: 0 <= i < |labels| ==> r[i] == Str(labels[i])
  {
    seq(|labels|, i requires 0 <= i < |labels| => Str(labels[i]))
  }

  /** Numbers rendered by `fmt`, the model's stand-in for str(float). */
  function Nums(xs: seq<real>, fmt: real -> string): (r: seq<Cell>)
    ensures |r| == |xs|
    ensures forall i :: 0 <= i < |xs| ==> r[i] == Num(fmt(xs[i]))
  {
    seq(|xs|, i requires 0 <= i < |xs| => Num(fmt(xs[i])))
  }

  lemma {:induction false} JoinStarts(parts: seq<string>, sep: string)
    requires |parts| >= 1
    ensures |parts[0]| <= |Join(parts, sep)| && Join(parts, sep)[..|parts[0]|] == parts[0]
  {
  }

  lemma {:induction false} JoinEnds(parts: seq<string>, sep: string)
    requires |parts| >= 1
    ensures var j, l := Join(parts, sep), parts[|parts| - 1];
      |l| <= |j| && j[|j| - |l|..] == l
    decreases |parts|
  {
    if |parts| > 1 {
      JoinEnds(parts[1..], sep);
    }
  }

  lemma LStripBracket(x: string)
    requires x == [] || x[0] != '['
    ensures LStrip("[" + x, {'['}) == x
  {
    assert ("[" + x)[1..] == x;
  }

  lemma RStripBracket(x: string)
    requires x == [] || x[|x| - 1] != ']'
    ensures RStrip(x + "]", {']'}) == x
  {
    assert (x + "]")[..|x|] == x;
  }

  /** The brackets `lstrip`/`rstrip` remove are exactly the two list
      brackets, whenever no cell text starts with '[' or ends with ']': the
      row is the cell texts joined with ", ". */
  lemma RowLineJoins(cells: seq<Cell>)
    requires forall i :: 0 <= i < |cells| ==> Bracketless(cells[i])
    ensures RowLine(cells) == Join(CellTexts(cells), ", ")
  {
    var ts := CellTexts(cells);
    var j := Join(ts, ", ");
    if |cells| > 0 {
      JoinStarts(ts, ", ");
      JoinEnds(ts, ", ");
      assert Bracketless(cells[0]) && Bracketless(cells[|cells| - 1]);
      assert j[0] == ts[0][0];
      assert j[|j| - 1] == ts[|ts| - 1][|ts[|ts| - 1]| - 1];
    }
    assert ListText(cells) == "[" + (j + "]");
    LStripBracket(j + "]");
    RStripBracket(j);
  }

  /** Every string cell is bracketless. */
  lemma StrBracketless(s: string)
    ensures Bracketless(Str(s))
  {
  }

  /** A row of plain labels is those labels in single quotes joined by ", ". */
  lemma LabelRowLine(labels: seq<string>)
    requires forall i :: 0 <= i < |labels| ==> Plain(labels[i])
    ensures RowLine(Strs(labels)) == Join(Quoted(labels), ", ")
  {
    var cells := Strs(labels);
    forall i | 0 <= i < |cells| ensures Bracketless(cells[i]) {
      StrBracketless(labels[i]);
    }
    RowLineJoins(cells);
    forall i | 0 <= i < |labels| ensures CellTexts(cells)[i] == Quoted(labels)[i] {
      assert cells[i] == Str(labels[i]);
      ReprPlain(labels[i]);
    }
    assert CellTexts(cells) == Quoted(labels);
  }

  function Quoted(labels: seq<string>): (r: seq<string>)
    ensures |r| == |labels|
    ensures forall i :: 0 <= i < |labels| ==> r[i] == "'" + labels[i] + "'"
  {
    seq(|labels|, i requires 0 <= i < |labels| => "'" + labels[i] + "'")
  }

  /** An empty row is an empty line. */
  lemma EmptyRowLine()
    ensures RowLine([]) == ""
  {
    assert ListText([]) == "[" + ("" + "]");
    LStripBracket("" + "]");
    RStripBracket("");
  }

  // --------------------------------------------------------- file names

  /** `if '.csv' not in name: name += '.csv'` (data_file.py lines 74-75,
      fake_data_gen.py lines 10-11): a substring test, not a suffix test. */
  function WithCsv(name: string): (r: string)
    ensures Contains(r, ".csv")
    ensures Contains(name, ".csv") ==> r == name
    ensures !Contains(name, ".csv") ==> r == name + ".csv"
  {
    if Contains(name, ".csv") then name
    else
      assert OccursAt(name + ".csv", ".csv", |name|);
      ContainsOccurs(name + ".csv", ".csv", |name|);
      name + ".csv"
  }

  /** A name holding ".csv" anywhere is kept as it is, even when it does not
      end in it. */
  lemma CsvInsideKept()
    ensures WithCsv("run.csv.bak") == "run.csv.bak"
  {
    assert OccursAt("run.csv.bak", ".csv", 3);
    ContainsOccurs("run.csv.bak", ".csv", 3);
  }
}
