/**
 * The pieces the generated configuration file is made of, their text, and
 * what the assignments among them store into `$cfg` when PHP runs the file.
 *
 * An assignment is `$cfg` followed by subscripts (`['name']`, or `[$i]` for
 * the running server index), ` = `, a right-hand side and `;` plus the line
 * ending. A right-hand side is either `var_export` of a value or a list
 * literal `array(...)` of exported items. `var_export` itself is a PHP
 * built-in and is passed in as the opaque function `varExport`.
 */
module ConfigSyntax {
  import opened Basics
  import opened PhpArrays

  datatype Sub = Name(name: string) | Counter

  datatype Rhs = Literal(value: Value) | List(items: seq<Value>)

  datatype Stmt = Assign(path: seq<Sub>, rhs: Rhs)

  datatype Line =
    | Comment(text: string)     // `/* text*/`
    | Blank                     // an empty line
    | CounterReset              // `$i = 0;`
    | CounterIncrement          // `$i++;`
    | Statement(stmt: Stmt)

  const ListIndent := "    "

  function SubText(s: Sub): string
  {
    match s
    case Name(n) => "['" + n + "']"
    case Counter => "[$i]"
  }

  function PathText(path: seq<Sub>): string
  {
    Concat(seq(|path|, i requires 0 <= i < |path| => SubText(path[i])))
  }

  /** `var_export` of every item, in order. */
  function ExportAll(items: seq<Value>, varExport: Value -> string): (r: seq<string>)
    ensures |r| == |items|
    ensures forall i :: 0 <= i < |items| ==> r[i] == varExport(items[i])
  {
    seq(|items|, i requires 0 <= i < |items| => varExport(items[i]))
  }

  /**
   * The list literal of already exported items: `array(a, b)` for up to
   * four items, otherwise one item per line, each after the line ending and
   * four spaces, with `,` between items and `)` right after the last one.
   */
  function ListLiteral(items: seq<string>, crlf: string): string
  {
    "array("
      + (if |items| <= 4 then Join(items, ", ")
         else crlf + ListIndent + Join(items, "," + crlf + ListIndent))
      + ")"
  }

  function RhsText(rhs: Rhs, crlf: string, varExport: Value -> string): string
  {
    match rhs
    case Literal(v) => varExport(v)
    case List(items) => ListLiteral(ExportAll(items, varExport), crlf)
  }

  function StmtText(st: Stmt, crlf: string, varExport: Value -> string): string
  {
    "$cfg" + PathText(st.path) + " = " + RhsText(st.rhs, crlf, varExport) + ";" + crlf
  }

  function StmtTexts(stmts: seq<Stmt>, crlf: string, varExport: Value -> string): (r: seq<string>)
    ensures |r| == |stmts|
    ensures forall i :: 0 <= i < |stmts| ==> r[i] == StmtText(stmts[i], crlf, varExport)
  {
    seq(|stmts|, i requires 0 <= i < |stmts| => StmtText(stmts[i], crlf, varExport))
  }

  function StmtsText(stmts: seq<Stmt>, crlf: string, varExport: Value -> string): string
  {
    Concat(StmtTexts(stmts, crlf, varExport))
  }

  function LineText(line: Line, crlf: string, varExport: Value -> string): string
  {
    match line
    case Comment(t) => "/* " + t + "*/" + crlf
    case Blank => crlf
    case CounterReset => "$i = 0;" + crlf
    case CounterIncrement => "$i++;" + crlf
    case Statement(st) => StmtText(st, crlf, varExport)
  }

  function LineTexts(lines: seq<Line>, crlf: string, varExport: Value -> string): (r: seq<string>)
    ensures |r| == |lines|
    ensures forall i :: 0 <= i < |lines| ==> r[i] == LineText(lines[i], crlf, varExport)
  {
    seq(|lines|, i requires 0 <= i < |lines| => LineText(lines[i], crlf, varExport))
  }

  function LinesText(lines: seq<Line>, crlf: string, varExport: Value -> string): string
  {
    Concat(LineTexts(lines, crlf, varExport))
  }

  /** Rendering a list of lines is rendering its parts one after the other. */
  lemma LinesTextAppend(a: seq<Line>, b: seq<Line>, crlf: string, varExport: Value -> string)
    ensures LinesText(a + b, crlf, varExport) == LinesText(a, crlf, varExport) + LinesText(b, crlf, varExport)
  {
    assert LineTexts(a + b, crlf, varExport) == LineTexts(a, crlf, varExport) + LineTexts(b, crlf, varExport);
    ConcatAppend(LineTexts(a, crlf, varExport), LineTexts(b, crlf, varExport));
  }

  lemma StmtsTextAppend(a: seq<Stmt>, b: seq<Stmt>, crlf: string, varExport: Value -> string)
    ensures StmtsText(a + b, crlf, varExport) == StmtsText(a, crlf, varExport) + StmtsText(b, crlf, varExport)
  {
    var ta, tb, tab := StmtTexts(a, crlf, varExport), StmtTexts(b, crlf, varExport), StmtTexts(a + b, crlf, varExport);
    assert |tab| == |ta + tb|;
    forall i | 0 <= i < |tab| ensures tab[i] == (ta + tb)[i] {
      if i < |a| { assert (a + b)[i] == a[i]; } else { assert (a + b)[i] == b[i - |a|]; }
    }
    assert tab == ta + tb;
    ConcatAppend(ta, tb);
  }

  // ---------------------------------------------------------------------
  // What the assignments store.
  // ---------------------------------------------------------------------

  /** `array(v0, v1, ...)` evaluates to the array mapping i to the i-th item. */
  function ListEntries(items: seq<Value>): (r: seq<Entry>)
    ensures |r| == |items|
    ensures forall i :: 0 <= i < |items| ==> r[i] == (IntKey(i), items[i])
  {
    seq(|items|, i requires 0 <= i < |items| => (IntKey(i), items[i]))
  }

  /**
   * The value a right-hand side evaluates to. For `var_export` this is the
   * exported value itself: PHP documents `var_export` as producing "valid
   * PHP code" for the value, and that promise is what this model builds on.
   */
  function RhsValue(rhs: Rhs): Value
  {
    match rhs
    case Literal(v) => v
    case List(items) => Arr(ListEntries(items))
  }

  /**
   * The entries of the array a setting currently holds; anything but an
   * array starts a new one. The statements written for one setting only
   * ever meet unset or an array.
   */
  function ArrayPart(cur: Option<Value>): seq<Entry>
  {
    if cur.Some? && cur.value.Arr? then cur.value.entries else []
  }

  /**
   * The effect of one assignment on the value of the setting it names:
   * `$cfg['n'] = rhs` replaces it; `$cfg['n']['k'] = rhs` stores `rhs` under
   * the string key `k` of its array. The statements generated for one
   * setting have only these two shapes.
   */
  function Apply(cur: Option<Value>, st: Stmt): Option<Value>
  {
    if |st.path| == 1 then Some(RhsValue(st.rhs))
    else if |st.path| == 2 && st.path[1].Name? then
      Some(Arr(Put(ArrayPart(cur), StrKey(st.path[1].name), RhsValue(st.rhs))))
    else cur
  }

  /** The value of the setting after running `stmts` from a state where it was unset. */
  function SettingValue(stmts: seq<Stmt>): Option<Value>
  {
    if stmts == [] then None
    else Apply(SettingValue(stmts[..|stmts| - 1]), stmts[|stmts| - 1])
  }
}
