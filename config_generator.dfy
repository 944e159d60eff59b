/**
 * The setup script's configuration file generator: it turns the ordered
 * configuration array into the text of a PHP file of `$cfg[...] = ...;`
 * statements. Source: libraries/classes/Setup/ConfigGenerator.php.
 *
 * The line ending, the version string and the date, which the source reads
 * from the session, the global configuration object and the clock, are
 * parameters; `var_export` is the opaque parameter `varExport`.
 */
module ConfigGenerator {
  import opened Basics
  import opened PhpArrays
  import opened ConfigSyntax

  // ---------------------------------------------------------------------
  // Key sanitization: preg_replace('/[^A-Za-z0-9_]/', '_', $k)
  // ---------------------------------------------------------------------

  predicate IsWordChar(c: char)
  {
    ('A' <= c <= 'Z') || ('a' <= c <= 'z') || ('0' <= c <= '9') || c == '_'
  }

  predicate IsClean(s: string)
  {
    forall i :: 0 <= i < |s| ==> IsWordChar(s[i])
  }

  /** Every character outside [A-Za-z0-9_] becomes `_`; the others stay. */
  function Sanitize(s: string): (r: string)
    ensures |r| == |s|
    ensures forall i :: 0 <= i < |s| ==> r[i] == (if IsWordChar(s[i]) then s[i] else '_')
    ensures IsClean(r)
  {
    if s == [] then []
    else [if IsWordChar(s[0]) then s[0] else '_'] + Sanitize(s[1..])
  }

  /** A key is left as it is exactly when it is already clean. */
  lemma SanitizeFixesClean(s: string)
    ensures Sanitize(s) == s <==> IsClean(s)
  {
    if IsClean(s) {
      assert forall i :: 0 <= i < |s| ==> Sanitize(s)[i] == s[i];
    }
  }

  lemma SanitizeIdempotent(s: string)
    ensures Sanitize(Sanitize(s)) == Sanitize(s)
  {
    SanitizeFixesClean(Sanitize(s));
  }

  /** The text a key takes in the generated file: `(string) $k`, sanitized. */
  function KeyName(k: Key): (r: string)
    ensures IsClean(r)
    ensures |r| == |KeyText(k)|
  {
    Sanitize(KeyText(k))
  }

  // ---------------------------------------------------------------------
  // isZeroBasedArray
  // ---------------------------------------------------------------------

  /** Keys 0, 1, ..., count - 1 are all set (present and not null). */
  predicate IsZeroBased(es: seq<Entry>)
  {
    forall i :: 0 <= i < |es| ==> IsSet(es, IntKey(i))
  }

  method IsZeroBasedArray(es: seq<Entry>) returns (b: bool)
    ensures b == IsZeroBased(es)
  {
    var i, nb := 0, |es|;
    while i < nb
      invariant 0 <= i <= nb
      invariant forall j :: 0 <= j < i ==> IsSet(es, IntKey(j))
    {
      if !IsSet(es, IntKey(i)) {
        return false;
      }
      i := i + 1;
    }
    return true;
  }

  /** n distinct numbers below n take every value below n. */
  lemma Pigeonhole(pos: seq<nat>, j: nat)
    requires forall i :: 0 <= i < |pos| ==> pos[i] < |pos|
    requires forall a, b :: 0 <= a < b < |pos| ==> pos[a] != pos[b]
    requires j < |pos|
    ensures j in pos
  {
    if j !in pos {
      DistinctCard(pos);
      assert Elems(pos) <= Range(|pos|) - {j};
      SubsetCard(Elems(pos), Range(|pos|) - {j});
      assert false;
    }
  }

  /**
   * A zero-based array has no other keys: with count n and keys 0 .. n - 1
   * all present, every key is one of them.
   */
  lemma ZeroBasedKeys(es: seq<Entry>)
    requires UniqueKeys(es) && IsZeroBased(es)
    ensures forall j :: 0 <= j < |es| ==> es[j].0.IntKey? && 0 <= es[j].0.n < |es|
  {
    var n := |es|;
    // pos[i] is the position of key i
    var pos: seq<nat> := [];
    while |pos| < n
      invariant |pos| <= n
      invariant forall i :: 0 <= i < |pos| ==> pos[i] < n && es[pos[i]].0 == IntKey(i)
    {
      var i := |pos|;
      assert IsSet(es, IntKey(i));
      var p :| 0 <= p < n && es[p] == (IntKey(i), Lookup(es, IntKey(i)).value);
      pos := pos + [p];
    }
    forall j | 0 <= j < n ensures es[j].0.IntKey? && 0 <= es[j].0.n < n {
      Pigeonhole(pos, j);
      var i :| 0 <= i < n && pos[i] == j;
      assert es[j].0 == IntKey(i);
    }
  }

  /** The values of a zero-based array by index: `$array[0]`, `$array[1]`, ... */
  function ZeroBasedItems(es: seq<Entry>): (r: seq<Value>)
    requires IsZeroBased(es)
    ensures |r| == |es|
    ensures forall i :: 0 <= i < |es| ==> Lookup(es, IntKey(i)) == Some(r[i]) && r[i] != Null
  {
    seq(|es|, i requires 0 <= i < |es| => Lookup(es, IntKey(i)).value)
  }

  /**
   * Reading the list literal back yields the same key-to-value mapping as
   * the array that was exported (the keys come back in index order).
   */
  lemma ZeroBasedItemsRoundTrip(es: seq<Entry>)
    requires UniqueKeys(es) && IsZeroBased(es)
    ensures SameMapping(ListEntries(ZeroBasedItems(es)), es)
  {
    var items := ZeroBasedItems(es);
    var le := ListEntries(items);
    ZeroBasedKeys(es);
    forall k ensures Lookup(le, k) == Lookup(es, k) {
      if k.IntKey? && 0 <= k.n < |es| {
        assert le[k.n].0 == k;
        LookupAt(le, k.n);
      } else {
        assert !HasKey(le, k);
        assert !HasKey(es, k);
      }
    }
  }

  // ---------------------------------------------------------------------
  // exportZeroBasedArray
  // ---------------------------------------------------------------------

  /** One more item joined on the right. */
  lemma JoinSnoc(items: seq<string>, i: nat, sep: string)
    requires 0 < i < |items|
    ensures Join(items[..i + 1], sep) == Join(items[..i], sep) + sep + items[i]
  {
    assert items[..i + 1][..i] == items[..i];
  }

  /** One more line of a long list literal: `,`, the line ending, the indent and the item. */
  lemma ListLineStep(head: string, items: seq<string>, i: nat, crlf: string)
    requires 0 < i < |items|
    ensures head + Join(items[..i + 1], "," + crlf + ListIndent)
         == head + Join(items[..i], "," + crlf + ListIndent) + ("," + crlf + ListIndent + items[i])
  {
    var sep := "," + crlf + ListIndent;
    JoinSnoc(items, i, sep);
    var j := Join(items[..i], sep);
    AppendAssoc(j, sep, items[i]);
    AppendAssoc(head, j, sep + items[i]);
  }

  /** The first loop of exportZeroBasedArray: `var_export` of `$array[0]`, `$array[1]`, ... */
  method ExportItems(es: seq<Entry>, varExport: Value -> string) returns (retv: seq<string>)
    requires IsZeroBased(es)
    ensures retv == ExportAll(ZeroBasedItems(es), varExport)
  {
    ghost var items := ZeroBasedItems(es);
    retv := [];
    for i := 0 to |es|
      invariant |retv| == i
      invariant forall j :: 0 <= j < i ==> retv[j] == varExport(items[j])
    {
      retv := retv + [varExport(Lookup(es, IntKey(i)).value)];
    }
  }

  /** The second loop of exportZeroBasedArray: each item on its own indented line. */
  method ItemLines(retv: seq<string>, crlf: string) returns (lines: string)
    requires |retv| > 0
    ensures lines == crlf + ListIndent + Join(retv, "," + crlf + ListIndent)
  {
    ghost var head := crlf + ListIndent;
    ghost var sep := "," + crlf + ListIndent;
    lines := "";
    var imax := |retv|;
    for i := 0 to imax
      invariant i == 0 ==> lines == ""
      invariant i > 0 ==> lines == head + Join(retv[..i], sep)
    {
      var line := (if i > 0 then "," else "") + crlf + ListIndent + retv[i];
      if i > 0 {
        ListLineStep(head, retv, i, crlf);
      } else {
        assert retv[..1] == [retv[0]];
      }
      lines := lines + line;
    }
    assert retv[..imax] == retv;
  }

  method ExportZeroBasedArray(es: seq<Entry>, crlf: string, varExport: Value -> string)
    returns (r: string)
    requires IsZeroBased(es)
    ensures r == RhsText(List(ZeroBasedItems(es)), crlf, varExport)
  {
    var retv := ExportItems(es, varExport);
    r := "array(";
    if |retv| <= 4 {
      // up to 4 values: one line
      r := r + Join(retv, ", ");
    } else {
      // more than 4 values: one value per line
      var lines := ItemLines(retv, crlf);
      r := r + lines;
    }
    r := r + ")";
  }

  // ---------------------------------------------------------------------
  // getVarExport
  // ---------------------------------------------------------------------

  /**
   * The statements getVarExport emits for setting `name`: one whole
   * assignment for a scalar, an empty array or a zero-based array, else one
   * assignment per entry under its sanitized key.
   */
  function VarExportStmts(name: string, v: Value): (r: seq<Stmt>)
    ensures |r| >= 1
    ensures forall i :: 0 <= i < |r| ==> 1 <= |r[i].path| <= 2 && r[i].path[0] == Name(name)
  {
    if !v.Arr? || v.entries == [] then [Assign([Name(name)], Literal(v))]
    else if IsZeroBased(v.entries) then [Assign([Name(name)], List(ZeroBasedItems(v.entries)))]
    else PerKeyStmts(name, v.entries)
  }

  /** `$cfg['name']['sub'] = var_export(value);` for every entry, in order. */
  function PerKeyStmts(name: string, es: seq<Entry>): (r: seq<Stmt>)
    ensures |r| == |es|
    ensures forall i :: 0 <= i < |es| ==>
      r[i] == Assign([Name(name), Name(KeyName(es[i].0))], Literal(es[i].1))
  {
    seq(|es|, i requires 0 <= i < |es| =>
      Assign([Name(name), Name(KeyName(es[i].0))], Literal(es[i].1)))
  }

  lemma PerKeyStmtsSnoc(name: string, es: seq<Entry>)
    requires es != []
    ensures PerKeyStmts(name, es)
         == PerKeyStmts(name, es[..|es| - 1]) + [Assign([Name(name), Name(KeyName(es[|es| - 1].0))], Literal(es[|es| - 1].1))]
  {
  }

  /**
   * Exactly one `$cfg['name'] = ...;` statement for a scalar, an empty or a
   * zero-based array; otherwise one `$cfg['name']['sub'] = ...;` per entry,
   * in order, with the sub-key sanitized.
   */
  lemma VarExportShape(name: string, v: Value)
    ensures var r := VarExportStmts(name, v);
      (!v.Arr? || IsZeroBased(v.entries)) <==> (|r| == 1 && |r[0].path| == 1)
    ensures var r := VarExportStmts(name, v);
      v.Arr? && !IsZeroBased(v.entries) ==>
        |r| == |v.entries| &&
        forall i :: 0 <= i < |r| ==>
          r[i] == Assign([Name(name), Name(KeyName(v.entries[i].0))], Literal(v.entries[i].1))
  {
  }

  lemma ConcatTwo(x: string, y: string)
    ensures Concat([x, y]) == x + y
  {
    assert [x, y][..1] == [x];
    assert Concat([x]) == Concat([]) + x;
  }

  lemma ConcatThree(x: string, y: string, z: string)
    ensures Concat([x, y, z]) == x + y + z
  {
    assert [x, y, z][..2] == [x, y];
    ConcatTwo(x, y);
  }

  /** `$cfg['a'] = rhs;` */
  lemma StmtText1(a: string, rhs: Rhs, crlf: string, varExport: Value -> string)
    ensures StmtText(Assign([Name(a)], rhs), crlf, varExport)
         == "$cfg" + "['" + a + "']" + " = " + RhsText(rhs, crlf, varExport) + ";" + crlf
  {
    var s1 := seq(1, i requires 0 <= i < 1 => SubText([Name(a)][i]));
    assert s1 == [SubText(Name(a))];
    assert Concat(s1) == Concat([]) + s1[0];
  }

  /** `$cfg['a']['b'] = rhs;` */
  lemma StmtText2(a: string, b: string, rhs: Rhs, crlf: string, varExport: Value -> string)
    ensures StmtText(Assign([Name(a), Name(b)], rhs), crlf, varExport)
         == "$cfg" + ("['" + a + "']" + "['" + b + "']") + " = " + RhsText(rhs, crlf, varExport) + ";" + crlf
  {
    var s2 := seq(2, i requires 0 <= i < 2 => SubText([Name(a), Name(b)][i]));
    assert s2 == [SubText(Name(a)), SubText(Name(b))];
    ConcatTwo(SubText(Name(a)), SubText(Name(b)));
    assert PathText([Name(a), Name(b)]) == "['" + a + "']" + "['" + b + "']";
  }

  /** `$cfg['a'][$i]['b'] = rhs;` */
  lemma StmtText3(a: string, b: string, rhs: Rhs, crlf: string, varExport: Value -> string)
    ensures StmtText(Assign([Name(a), Counter, Name(b)], rhs), crlf, varExport)
         == "$cfg" + ("['" + a + "']" + "[$i]" + "['" + b + "']") + " = " + RhsText(rhs, crlf, varExport) + ";" + crlf
  {
    var s3 := seq(3, i requires 0 <= i < 3 => SubText([Name(a), Counter, Name(b)][i]));
    assert s3 == [SubText(Name(a)), SubText(Counter), SubText(Name(b))];
    ConcatThree(SubText(Name(a)), SubText(Counter), SubText(Name(b)));
    assert PathText([Name(a), Counter, Name(b)]) == "['" + a + "']" + "[$i]" + "['" + b + "']";
  }

  lemma StmtsTextSnoc(stmts: seq<Stmt>, i: nat, crlf: string, varExport: Value -> string)
    requires i < |stmts|
    ensures StmtsText(stmts[..i + 1], crlf, varExport)
         == StmtsText(stmts[..i], crlf, varExport) + StmtText(stmts[i], crlf, varExport)
  {
    var ts := StmtTexts(stmts[..i + 1], crlf, varExport);
    assert ts[..i] == StmtTexts(stmts[..i], crlf, varExport);
  }

  lemma StmtsTextSingle(st: Stmt, crlf: string, varExport: Value -> string)
    ensures StmtsText([st], crlf, varExport) == StmtText(st, crlf, varExport)
  {
    StmtsTextSnoc([st], 0, crlf, varExport);
    assert [st][..0] == [] && [st][..1] == [st];
    assert StmtTexts([], crlf, varExport) == [];
  }

  method GetVarExport(name: string, v: Value, crlf: string, varExport: Value -> string)
    returns (r: string)
    ensures r == StmtsText(VarExportStmts(name, v), crlf, varExport)
  {
    if !v.Arr? || v.entries == [] {
      StmtText1(name, Literal(v), crlf, varExport);
      StmtsTextSingle(Assign([Name(name)], Literal(v)), crlf, varExport);
      return "$cfg" + "['" + name + "']" + " = " + varExport(v) + ";" + crlf;
    }
    r := "";
    var zeroBased := IsZeroBasedArray(v.entries);
    if zeroBased {
      var list := ExportZeroBasedArray(v.entries, crlf, varExport);
      StmtText1(name, List(ZeroBasedItems(v.entries)), crlf, varExport);
      StmtsTextSingle(Assign([Name(name)], List(ZeroBasedItems(v.entries))), crlf, varExport);
      r := "$cfg" + "['" + name + "']" + " = " + list + ";" + crlf;
    } else {
      // any other array: one assignment per entry, under the entry's sanitized key
      var es := v.entries;
      ghost var stmts := PerKeyStmts(name, es);
      for i := 0 to |es|
        invariant r == StmtsText(stmts[..i], crlf, varExport)
      {
        var k := KeyName(es[i].0);
        StmtsTextSnoc(stmts, i, crlf, varExport);
        StmtText2(name, k, Literal(es[i].1), crlf, varExport);
        r := r + ("$cfg" + ("['" + name + "']" + "['" + k + "']") + " = " + varExport(es[i].1) + ";" + crlf);
      }
      assert stmts[..|es|] == stmts;
    }
  }

  // ---------------------------------------------------------------------
  // Round trip of one setting
  // ---------------------------------------------------------------------

  /** Equal, or two arrays with the same key-to-value mapping. */
  ghost predicate SameValue(w: Value, v: Value)
  {
    w == v || (w.Arr? && v.Arr? && SameMapping(w.entries, v.entries))
  }

  lemma TakeSnoc<T>(s: seq<T>, i: nat)
    requires 0 < i <= |s|
    ensures s[..i - 1] + [s[i - 1]] == s[..i]
  {
  }

  /** Running one more statement applies it to the value so far. */
  lemma SettingValueSnoc(stmts: seq<Stmt>, i: nat)
    requires 0 < i <= |stmts|
    ensures SettingValue(stmts[..i]) == Apply(SettingValue(stmts[..i - 1]), stmts[i - 1])
  {
    assert stmts[..i][..i - 1] == stmts[..i - 1];
  }

  lemma PerKeyStep(name: string, es: seq<Entry>, i: nat)
    requires 0 < i <= |es|
    requires es[i - 1].0 == StrKey(KeyName(es[i - 1].0))
    requires !HasKey(es[..i - 1], es[i - 1].0)
    requires SettingValue(PerKeyStmts(name, es)[..i - 1]) == if i == 1 then None else Some(Arr(es[..i - 1]))
    ensures SettingValue(PerKeyStmts(name, es)[..i]) == Some(Arr(es[..i]))
  {
    var stmts := PerKeyStmts(name, es);
    var prefix := es[..i - 1];
    var k, v := es[i - 1].0, es[i - 1].1;
    var st := stmts[i - 1];
    assert st == Assign([Name(name), Name(k.s)], Literal(v));
    SettingValueSnoc(stmts, i);
    var cur := SettingValue(stmts[..i - 1]);
    assert ArrayPart(cur) == prefix;
    assert Apply(cur, st) == Some(Arr(Put(prefix, k, v)));
    TakeSnoc(es, i);
  }

  /** Per-key statements for distinct clean string keys rebuild the entries one by one. */
  lemma {:induction false} PerKeyPrefix(name: string, es: seq<Entry>, i: nat)
    requires UniqueKeys(es)
    requires forall j :: 0 <= j < |es| ==> es[j].0.StrKey? && IsClean(es[j].0.s)
    requires i <= |es|
    ensures SettingValue(PerKeyStmts(name, es)[..i]) == if i == 0 then None else Some(Arr(es[..i]))
  {
    if i > 0 {
      PerKeyPrefix(name, es, i - 1);
      var k := es[i - 1].0;
      SanitizeFixesClean(k.s);
      PerKeyStep(name, es, i);
    }
  }

  /**
   * Running the statements emitted for a setting gives the setting back:
   * scalars and arrays exactly, zero-based arrays with the same mapping.
   * Entries that are neither need string keys that sanitization leaves
   * unchanged (sanitized keys could collide, or an integer key would come
   * back as a string key).
   */
  lemma VarExportRoundTrip(name: string, v: Value)
    requires v.Arr? ==> UniqueKeys(v.entries)
    requires v.Arr? && !IsZeroBased(v.entries) ==>
      forall j :: 0 <= j < |v.entries| ==> v.entries[j].0.StrKey? && IsClean(v.entries[j].0.s)
    ensures SettingValue(VarExportStmts(name, v)).Some?
    ensures SameValue(SettingValue(VarExportStmts(name, v)).value, v)
  {
    if !v.Arr? || v.entries == [] {
      SettingValueOne(Assign([Name(name)], Literal(v)));
    } else if IsZeroBased(v.entries) {
      SettingValueOne(Assign([Name(name)], List(ZeroBasedItems(v.entries))));
      ZeroBasedItemsRoundTrip(v.entries);
    } else {
      PerKeyRoundTrip(name, v.entries);
    }
  }

  /** A single statement is applied to the unset setting. */
  lemma SettingValueOne(st: Stmt)
    ensures SettingValue([st]) == Apply(None, st)
  {
    assert [st][..0] == [];
  }

  /** The per-key statements for distinct clean string keys rebuild the whole array. */
  lemma PerKeyRoundTrip(name: string, es: seq<Entry>)
    requires UniqueKeys(es) && es != []
    requires forall j :: 0 <= j < |es| ==> es[j].0.StrKey? && IsClean(es[j].0.s)
    ensures SettingValue(PerKeyStmts(name, es)) == Some(Arr(es))
  {
    PerKeyPrefix(name, es, |es|);
    assert PerKeyStmts(name, es)[..|es|] == PerKeyStmts(name, es);
    assert es[..|es|] == es;
  }

  // ---------------------------------------------------------------------
  // The configuration object the generator reads
  // ---------------------------------------------------------------------

  /**
   * What `getConfigFile` asks of its ConfigFile argument: the configuration
   * array, the server count and names, the keys of the persisted-keys map
   * (in its order) and the default value of a key.
   */
  datatype ConfigFile = ConfigFile(
    config: seq<Entry>,
    serverCount: int,
    serverName: Key -> string,
    persistKeys: seq<string>,
    defaults: string -> Value)

  // ---------------------------------------------------------------------
  // getServerPart
  // ---------------------------------------------------------------------

  /** strtr($s, '*' . '/', '-'): the two strings differ in length, so only `*` becomes `-`. */
  function StarToDash(s: string): (r: string)
    ensures |r| == |s|
    ensures forall i :: 0 <= i < |s| ==> r[i] == (if s[i] == '*' then '-' else s[i])
  {
    if s == [] then [] else [if s[0] == '*' then '-' else s[0]] + StarToDash(s[1..])
  }

  /** The "name [id] " label of a server's header comment. */
  function ServerLabel(name: string, id: Key): (r: string)
    ensures forall i :: 0 <= i < |r| ==> r[i] != '*'
  {
    StarToDash(name + " [" + KeyText(id) + "] ")
  }

  predicate HasCommentEnd(s: string)
  {
    exists i :: 0 <= i < |s| - 1 && s[i] == '*' && s[i + 1] == '/'
  }

  /** A server's header comment cannot be closed early, whatever the server name. */
  lemma ServerCommentClosedOnce(name: string, id: Key)
    ensures !HasCommentEnd("Server: " + ServerLabel(name, id))
  {
    var t := "Server: " + ServerLabel(name, id);
    assert forall i :: 0 <= i < |t| ==> t[i] != '*';
  }

  /** foreach over a server that is not an array iterates over nothing. */
  function ServerEntries(server: Value): seq<Entry>
  {
    if server.Arr? then server.entries else []
  }

  /** A zero-based array value gets the list literal, anything else var_export. */
  function ServerRhs(v: Value): Rhs
  {
    if v.Arr? && IsZeroBased(v.entries) then List(ZeroBasedItems(v.entries)) else Literal(v)
  }

  function ServerLine(e: Entry): Line
  {
    Statement(Assign([Name("Servers"), Counter, Name(KeyName(e.0))], ServerRhs(e.1)))
  }

  function ServerSettingLines(es: seq<Entry>): (r: seq<Line>)
    ensures |r| == |es|
    ensures forall i :: 0 <= i < |es| ==> r[i] == ServerLine(es[i])
  {
    seq(|es|, i requires 0 <= i < |es| => ServerLine(es[i]))
  }

  /** The header comment, `$i++;`, the server's settings and an empty line. */
  function ServerBlock(cf: ConfigFile, server: Entry): seq<Line>
  {
    [Comment("Server: " + ServerLabel(cf.serverName(server.0), server.0)), CounterIncrement]
      + ServerSettingLines(ServerEntries(server.1)) + [Blank]
  }

  function ServerBlocks(cf: ConfigFile, servers: seq<Entry>): seq<Line>
  {
    if servers == [] then []
    else ServerBlocks(cf, servers[..|servers| - 1]) + ServerBlock(cf, servers[|servers| - 1])
  }

  const ServersOpening: seq<Line> := [Comment("Servers configuration "), CounterReset, Blank]
  const ServersClosing: seq<Line> := [Comment("End of servers configuration "), Blank]

  /** The lines of the server part, or nothing when the server count is 0. */
  function ServerPartLines(cf: ConfigFile, servers: seq<Entry>): Option<seq<Line>>
  {
    if cf.serverCount == 0 then None
    else Some(ServersOpening + ServerBlocks(cf, servers) + ServersClosing)
  }

  function ServerPartText(cf: ConfigFile, crlf: string, servers: seq<Entry>, varExport: Value -> string)
    : Option<string>
  {
    match ServerPartLines(cf, servers)
    case None => None
    case Some(lines) => Some(LinesText(lines, crlf, varExport))
  }

  /** The number of `$i++;` lines. */
  function Increments(lines: seq<Line>): nat
  {
    if lines == [] then 0
    else Increments(lines[..|lines| - 1]) + (if lines[|lines| - 1].CounterIncrement? then 1 else 0)
  }

  lemma {:induction false} IncrementsAppend(a: seq<Line>, b: seq<Line>)
    ensures Increments(a + b) == Increments(a) + Increments(b)
    decreases |b|
  {
    if b == [] {
      assert a + b == a;
    } else {
      assert (a + b)[..|a + b| - 1] == a + b[..|b| - 1];
      IncrementsAppend(a, b[..|b| - 1]);
    }
  }

  lemma {:induction false} IncrementsSettings(es: seq<Entry>)
    ensures Increments(ServerSettingLines(es)) == 0
    decreases |es|
  {
    if es != [] {
      assert ServerSettingLines(es)[..|es| - 1] == ServerSettingLines(es[..|es| - 1]);
      IncrementsSettings(es[..|es| - 1]);
    }
  }

  lemma IncrementsOne(l: Line)
    ensures Increments([l]) == if l.CounterIncrement? then 1 else 0
  {
    assert [l][..0] == [];
  }

  /** Every server block holds exactly one `$i++;`. */
  lemma IncrementsBlock(cf: ConfigFile, server: Entry)
    ensures Increments(ServerBlock(cf, server)) == 1
  {
    var c := Comment("Server: " + ServerLabel(cf.serverName(server.0), server.0));
    var settings := ServerSettingLines(ServerEntries(server.1));
    IncrementsOne(c);
    IncrementsOne(CounterIncrement);
    IncrementsOne(Blank);
    IncrementsAppend([c], [CounterIncrement]);
    assert [c] + [CounterIncrement] == [c, CounterIncrement];
    IncrementsSettings(ServerEntries(server.1));
    IncrementsAppend([c, CounterIncrement], settings);
    IncrementsAppend([c, CounterIncrement] + settings, [Blank]);
  }

  lemma {:induction false} IncrementsPerServer(cf: ConfigFile, servers: seq<Entry>)
    ensures Increments(ServerBlocks(cf, servers)) == |servers|
    decreases |servers|
  {
    if servers != [] {
      IncrementsPerServer(cf, servers[..|servers| - 1]);
      IncrementsBlock(cf, servers[|servers| - 1]);
      IncrementsAppend(ServerBlocks(cf, servers[..|servers| - 1]), ServerBlock(cf, servers[|servers| - 1]));
    }
  }

  /**
   * getServerPart gives nothing when the server count is 0; otherwise it
   * opens with the servers comment and `$i = 0;`, holds one `$i++;` per
   * server, and closes with the end-of-servers comment.
   */
  lemma ServerPartShape(cf: ConfigFile, servers: seq<Entry>)
    ensures ServerPartLines(cf, servers).None? <==> cf.serverCount == 0
    ensures ServerPartLines(cf, servers).Some? ==>
      var lines := ServerPartLines(cf, servers).value;
      lines[..3] == ServersOpening
      && lines[|lines| - 2..] == ServersClosing
      && Increments(lines) == |servers|
  {
    if cf.serverCount != 0 {
      var blocks := ServerBlocks(cf, servers);
      IncrementsPerServer(cf, servers);
      OpeningIncrements();
      ClosingIncrements();
      IncrementsAppend(ServersOpening, blocks);
      IncrementsAppend(ServersOpening + blocks, ServersClosing);
      Framing(ServersOpening, blocks, ServersClosing);
    }
  }

  lemma OpeningIncrements()
    ensures Increments(ServersOpening) == 0
  {
    var c := Comment("Servers configuration ");
    IncrementsOne(c);
    IncrementsOne(CounterReset);
    IncrementsOne(Blank);
    IncrementsAppend([c], [CounterReset]);
    IncrementsAppend([c, CounterReset], [Blank]);
    assert [c] + [CounterReset] == [c, CounterReset];
    assert [c, CounterReset] + [Blank] == ServersOpening;
  }

  lemma ClosingIncrements()
    ensures Increments(ServersClosing) == 0
  {
    var c := Comment("End of servers configuration ");
    IncrementsOne(c);
    IncrementsOne(Blank);
    IncrementsAppend([c], [Blank]);
    assert [c] + [Blank] == ServersClosing;
  }

  lemma LinesTextSnoc(lines: seq<Line>, l: Line, crlf: string, varExport: Value -> string)
    ensures LinesText(lines + [l], crlf, varExport) == LinesText(lines, crlf, varExport) + LineText(l, crlf, varExport)
  {
    var ts := LineTexts(lines + [l], crlf, varExport);
    assert ts[..|ts| - 1] == LineTexts(lines, crlf, varExport);
  }

  lemma LinesTextTwo(a: Line, b: Line, crlf: string, varExport: Value -> string)
    ensures LinesText([a, b], crlf, varExport) == LineText(a, crlf, varExport) + LineText(b, crlf, varExport)
  {
    var ts := LineTexts([a, b], crlf, varExport);
    assert ts[..1][..0] == [];
    assert Concat(ts[..1]) == ts[0];
  }

  lemma LinesTextThree(a: Line, b: Line, c: Line, crlf: string, varExport: Value -> string)
    ensures LinesText([a, b, c], crlf, varExport)
         == LineText(a, crlf, varExport) + LineText(b, crlf, varExport) + LineText(c, crlf, varExport)
  {
    var ts := LineTexts([a, b, c], crlf, varExport);
    assert ts[..2] == LineTexts([a, b], crlf, varExport);
    LinesTextTwo(a, b, crlf, varExport);
  }

  lemma OpeningLiteral()
    ensures "/* " + "Servers configuration " + "*/" == "/* Servers configuration */"
  {
  }

  lemma ClosingLiteral()
    ensures "/* " + "End of servers configuration " + "*/" == "/* End of servers configuration */"
  {
  }

  lemma OpeningText(crlf: string, varExport: Value -> string)
    ensures LinesText(ServersOpening, crlf, varExport)
         == "/* Servers configuration */" + crlf + "$i = 0;" + crlf + crlf
  {
    var c := Comment("Servers configuration ");
    LinesTextThree(c, CounterReset, Blank, crlf, varExport);
    OpeningLiteral();
    AppendAssoc(LineText(c, crlf, varExport), "$i = 0;", crlf);
  }

  lemma ClosingText(crlf: string, varExport: Value -> string)
    ensures LinesText(ServersClosing, crlf, varExport)
         == "/* End of servers configuration */" + crlf + crlf
  {
    LinesTextTwo(Comment("End of servers configuration "), Blank, crlf, varExport);
    ClosingLiteral();
  }

  lemma ServerCommentLiteral(tag: string)
    ensures "/* " + ("Server: " + tag) + "*/" == "/* Server: " + tag + "*/"
  {
    AppendAssoc("/* ", "Server: ", tag);
    assert "/* " + "Server: " == "/* Server: ";
  }

  lemma BlockText(cf: ConfigFile, server: Entry, crlf: string, varExport: Value -> string)
    ensures LinesText(ServerBlock(cf, server), crlf, varExport)
         == "/* Server: " + ServerLabel(cf.serverName(server.0), server.0) + "*/" + crlf + "$i++;" + crlf
            + LinesText(ServerSettingLines(ServerEntries(server.1)), crlf, varExport) + crlf
  {
    var tag := ServerLabel(cf.serverName(server.0), server.0);
    var c := Comment("Server: " + tag);
    var settings := ServerSettingLines(ServerEntries(server.1));
    LinesTextTwo(c, CounterIncrement, crlf, varExport);
    LinesTextAppend([c, CounterIncrement], settings, crlf, varExport);
    LinesTextSnoc([c, CounterIncrement] + settings, Blank, crlf, varExport);
    ServerCommentLiteral(tag);
    AppendAssoc(LineText(c, crlf, varExport), "$i++;", crlf);
  }

  /** The right-hand side of one server setting. */
  method ServerValueText(v: Value, crlf: string, varExport: Value -> string) returns (r: string)
    ensures r == RhsText(ServerRhs(v), crlf, varExport)
  {
    if v.Arr? {
      var zeroBased := IsZeroBasedArray(v.entries);
      if zeroBased {
        r := ExportZeroBasedArray(v.entries, crlf, varExport);
        return;
      }
    }
    r := varExport(v);
  }

  /** The assignments of one server's settings (the inner loop of getServerPart). */
  method ServerSettingsText(es: seq<Entry>, crlf: string, varExport: Value -> string) returns (r: string)
    ensures r == LinesText(ServerSettingLines(es), crlf, varExport)
  {
    r := "";
    for j := 0 to |es|
      invariant r == LinesText(ServerSettingLines(es)[..j], crlf, varExport)
    {
      var k := KeyName(es[j].0);
      var value := ServerValueText(es[j].1, crlf, varExport);
      StmtText3("Servers", k, ServerRhs(es[j].1), crlf, varExport);
      TakeSnoc(ServerSettingLines(es), j + 1);
      LinesTextSnoc(ServerSettingLines(es)[..j], ServerLine(es[j]), crlf, varExport);
      r := r + ("$cfg" + ("['" + "Servers" + "']" + "[$i]" + "['" + k + "']") + " = " + value + ";" + crlf);
    }
    assert ServerSettingLines(es)[..|es|] == ServerSettingLines(es);
  }

  /** One server's block: its header comment, `$i++;`, its settings and an empty line. */
  method ServerBlockText(cf: ConfigFile, server: Entry, crlf: string, varExport: Value -> string)
    returns (r: string)
    ensures r == LinesText(ServerBlock(cf, server), crlf, varExport)
  {
    var id := server.0;
    var tag := StarToDash(cf.serverName(id) + " [" + KeyText(id) + "] ");
    var body := ServerSettingsText(ServerEntries(server.1), crlf, varExport);
    r := "/* Server: " + tag + "*/" + crlf + "$i++;" + crlf + body + crlf;
    BlockText(cf, server, crlf, varExport);
  }

  lemma PartStep(cf: ConfigFile, servers: seq<Entry>, n: nat, crlf: string, varExport: Value -> string)
    requires n < |servers|
    ensures LinesText(ServersOpening + ServerBlocks(cf, servers[..n + 1]), crlf, varExport)
         == LinesText(ServersOpening + ServerBlocks(cf, servers[..n]), crlf, varExport)
            + LinesText(ServerBlock(cf, servers[n]), crlf, varExport)
  {
    assert servers[..n + 1][..n] == servers[..n];
    assert ServersOpening + ServerBlocks(cf, servers[..n + 1])
        == ServersOpening + ServerBlocks(cf, servers[..n]) + ServerBlock(cf, servers[n]);
    LinesTextAppend(ServersOpening + ServerBlocks(cf, servers[..n]), ServerBlock(cf, servers[n]), crlf, varExport);
  }

  lemma PartClose(cf: ConfigFile, servers: seq<Entry>, ret: string, crlf: string, varExport: Value -> string)
    requires ret == LinesText(ServersOpening + ServerBlocks(cf, servers), crlf, varExport)
    ensures ret + "/* End of servers configuration */" + crlf + crlf
         == LinesText(ServersOpening + ServerBlocks(cf, servers) + ServersClosing, crlf, varExport)
  {
    ClosingText(crlf, varExport);
    LinesTextAppend(ServersOpening + ServerBlocks(cf, servers), ServersClosing, crlf, varExport);
  }

  method GetServerPart(cf: ConfigFile, crlf: string, servers: seq<Entry>, varExport: Value -> string)
    returns (r: Option<string>)
    ensures r == ServerPartText(cf, crlf, servers, varExport)
  {
    if cf.serverCount == 0 {
      return None;
    }
    var ret := "/* Servers configuration */" + crlf + "$i = 0;" + crlf + crlf;
    OpeningText(crlf, varExport);
    assert ServersOpening + ServerBlocks(cf, servers[..0]) == ServersOpening by {
      assert servers[..0] == [];
    }
    for n := 0 to |servers|
      invariant ret == LinesText(ServersOpening + ServerBlocks(cf, servers[..n]), crlf, varExport)
    {
      var block := ServerBlockText(cf, servers[n], crlf, varExport);
      PartStep(cf, servers, n, crlf, varExport);
      ret := ret + block;
    }
    assert servers[..|servers|] == servers;
    PartClose(cf, servers, ret, crlf, varExport);
    ret := ret + "/* End of servers configuration */" + crlf + crlf;
    return Some(ret);
  }

  // ---------------------------------------------------------------------
  // getConfigFile
  // ---------------------------------------------------------------------

  /** The line ending: CR LF when the session asks for "win", LF otherwise. */
  function Crlf(eol: Option<string>): (r: string)
    ensures r == "\r\n" <==> eol == Some("win")
    ensures r == "\n" <==> eol != Some("win")
  {
    if eol == Some("win") then "\r\n" else "\n"
  }

  /** The opening `<?php` line and the doc comment naming the version and the date. */
  function Header(crlf: string, version: string, date: string): string
  {
    "<?php" + crlf
      + "/**" + crlf
      + " * Generated configuration file" + crlf
      + " * Generated by: phpMyAdmin " + version + " setup script" + crlf
      + " * Date: " + date + crlf
      + " */" + crlf + crlf
  }

  /** The header opens with `<?php` on a line of its own and ends with the closed doc comment and a blank line. */
  lemma HeaderShape(crlf: string, version: string, date: string)
    ensures var h := Header(crlf, version, date);
      |h| == 92 + 7 * |crlf| + |version| + |date|
      && h[..5 + |crlf|] == "<?php" + crlf
      && h[|h| - (3 + 2 * |crlf|)..] == " */" + crlf + crlf
  {
  }

  /** `! empty($conf['Servers'])` */
  predicate HasServers(conf: seq<Entry>)
  {
    Lookup(conf, StrKey("Servers")).Some? && !Empty(Lookup(conf, StrKey("Servers")).value)
  }

  /** getServerPart takes an `array`: a non-empty Servers setting must be one. */
  predicate ServersTyped(conf: seq<Entry>)
  {
    HasServers(conf) ==> Lookup(conf, StrKey("Servers")).value.Arr?
  }

  /** The settings written one by one: all of them, without Servers when that was written first. */
  function OtherSettings(conf: seq<Entry>): seq<Entry>
  {
    if HasServers(conf) then RemoveKey(conf, StrKey("Servers")) else conf
  }

  /** The sanitized names the settings are written under. */
  function SettingNames(es: seq<Entry>): (r: seq<string>)
    ensures |r| == |es|
    ensures forall i :: 0 <= i < |es| ==> r[i] == KeyName(es[i].0)
  {
    seq(|es|, i requires 0 <= i < |es| => KeyName(es[i].0))
  }

  /** `unset($persistKeys[$k])`: the keys other than `k`, in order. */
  function Without(keys: seq<string>, k: string): (r: seq<string>)
    ensures forall p :: p in r <==> p in keys && p != k
  {
    if keys == [] then []
    else Without(keys[..|keys| - 1], k) + (if keys[|keys| - 1] == k then [] else [keys[|keys| - 1]])
  }

  /** The persisted keys no written setting claimed, in their original order. */
  function Unclaimed(persist: seq<string>, names: seq<string>): (r: seq<string>)
    ensures forall p :: p in r <==> p in persist && p !in names
  {
    if persist == [] then []
    else
      var p := persist[|persist| - 1];
      Unclaimed(persist[..|persist| - 1], names) + (if p in names then [] else [p])
  }

  /** The keys whose defaults are written: those without a `/`, in order. */
  function DefaultKeys(keys: seq<string>): (r: seq<string>)
    ensures forall p :: p in r <==> p in keys && '/' !in p
  {
    if keys == [] then []
    else
      var p := keys[|keys| - 1];
      DefaultKeys(keys[..|keys| - 1]) + (if '/' in p then [] else [p])
  }

  /** (name, value) of each setting, in the order it is written. */
  function ConfigExports(es: seq<Entry>): (r: seq<(string, Value)>)
    ensures |r| == |es|
    ensures forall i :: 0 <= i < |es| ==> r[i] == (KeyName(es[i].0), es[i].1)
  {
    seq(|es|, i requires 0 <= i < |es| => (KeyName(es[i].0), es[i].1))
  }

  /** (name, default value) of each default written, under the sanitized key. */
  function DefaultExports(cf: ConfigFile, keys: seq<string>): (r: seq<(string, Value)>)
    ensures |r| == |keys|
    ensures forall i :: 0 <= i < |keys| ==> r[i] == (Sanitize(keys[i]), cf.defaults(Sanitize(keys[i])))
  {
    seq(|keys|, i requires 0 <= i < |keys| => (Sanitize(keys[i]), cf.defaults(Sanitize(keys[i]))))
  }

  /** The getVarExport text of each (name, value), one after the other. */
  function ExportsText(ex: seq<(string, Value)>, crlf: string, varExport: Value -> string): string
  {
    if ex == [] then ""
    else
      var last := ex[|ex| - 1];
      ExportsText(ex[..|ex| - 1], crlf, varExport) + StmtsText(VarExportStmts(last.0, last.1), crlf, varExport)
  }

  /** The server part, when Servers is non-empty and the server count is not 0. */
  function ServersText(cf: ConfigFile, crlf: string, varExport: Value -> string): string
    requires ServersTyped(cf.config)
  {
    if HasServers(cf.config) then
      match ServerPartText(cf, crlf, Lookup(cf.config, StrKey("Servers")).value.entries, varExport)
      case None => ""
      case Some(t) => t
    else ""
  }

  /** The persisted keys whose defaults getConfigFile appends. */
  function WrittenDefaults(cf: ConfigFile): seq<string>
  {
    DefaultKeys(Unclaimed(cf.persistKeys, SettingNames(OtherSettings(cf.config))))
  }

  /**
   * The generated file: the header, the server part, every other setting,
   * the defaults of the unclaimed persisted keys, and a final line ending.
   */
  function ConfigFileText(cf: ConfigFile, eol: Option<string>, version: string, date: string,
                          varExport: Value -> string): string
    requires ServersTyped(cf.config)
  {
    var crlf := Crlf(eol);
    Header(crlf, version, date) + BodyText(cf, crlf, varExport) + crlf
  }

  /** Everything between the header and the final line ending. */
  function BodyText(cf: ConfigFile, crlf: string, varExport: Value -> string): string
    requires ServersTyped(cf.config)
  {
    ServersText(cf, crlf, varExport)
      + ExportsText(ConfigExports(OtherSettings(cf.config)), crlf, varExport)
      + ExportsText(DefaultExports(cf, WrittenDefaults(cf)), crlf, varExport)
  }

  /** The file opens with the header and ends with a line ending. */
  lemma ConfigFileFraming(cf: ConfigFile, eol: Option<string>, version: string, date: string,
                          varExport: Value -> string)
    requires ServersTyped(cf.config)
    ensures var t := ConfigFileText(cf, eol, version, date, varExport);
      var h := Header(Crlf(eol), version, date);
      |h| + |Crlf(eol)| <= |t| && t[..|h|] == h && t[|t| - |Crlf(eol)|..] == Crlf(eol)
  {
    var crlf := Crlf(eol);
    var h := Header(crlf, version, date);
    var mid := BodyText(cf, crlf, varExport);
    Framing(h, mid, crlf);
  }

  lemma Framing<T>(h: seq<T>, mid: seq<T>, e: seq<T>)
    ensures (h + mid + e)[..|h|] == h && (h + mid + e)[|h + mid|..] == e
  {
  }

  /** A sanitized key reads "Servers" only for the string key "Servers" itself. */
  lemma KeyNameServers(k: Key)
    ensures KeyName(k) == "Servers" <==> k == StrKey("Servers")
  {
    if KeyName(k) == "Servers" {
      match k {
        case IntKey(n) =>
          IntKeyNameNotServers(n);
          assert false;
        case StrKey(s) =>
          SanitizedServers(s);
      }
    } else if k == StrKey("Servers") {
      ServersKeptAsIs();
      assert false;
    }
  }

  /** "Servers" is clean, so sanitizing leaves it as it is. */
  lemma ServersKeptAsIs()
    ensures Sanitize("Servers") == "Servers"
  {
    var s := "Servers";
    assert forall i :: 0 <= i < |s| ==> IsWordChar(s[i]);
    SanitizeFixesClean(s);
  }

  /** An integer key's name starts with a digit or `_`, never with `S`. */
  lemma IntKeyNameNotServers(n: int)
    ensures KeyName(IntKey(n)) != "Servers"
  {
    var t := IntDecimal(n);
    assert '0' <= t[0] <= '9' || t[0] == '-';
    assert KeyName(IntKey(n))[0] != 'S';
  }

  /** Only "Servers" itself sanitizes to "Servers": all its characters are kept. */
  lemma SanitizedServers(s: string)
    requires Sanitize(s) == "Servers"
    ensures s == "Servers"
  {
    forall i | 0 <= i < |s| ensures s[i] == "Servers"[i] {
      assert Sanitize(s)[i] == "Servers"[i];
    }
  }

  /**
   * When the server part was written, no setting of the settings loop is
   * written under the name "Servers".
   */
  lemma ServersWrittenOnce(conf: seq<Entry>)
    requires HasServers(conf)
    ensures "Servers" !in SettingNames(OtherSettings(conf))
  {
    var es := OtherSettings(conf);
    forall i | 0 <= i < |es| ensures SettingNames(es)[i] != "Servers" {
      assert es[i] in es;
      KeyNameServers(es[i].0);
    }
  }

  /**
   * The server part does not strike "Servers" from the persisted keys, so
   * after it the defaults loop still writes `$cfg['Servers']`, exactly when
   * "Servers" is a persisted key.
   */
  lemma ServersDefaultWritten(cf: ConfigFile)
    requires HasServers(cf.config)
    ensures "Servers" in WrittenDefaults(cf) <==> "Servers" in cf.persistKeys
  {
    ServersWrittenOnce(cf.config);
    DefaultsWritten(cf, "Servers");
  }

  /**
   * A persisted key gets its default written exactly when no setting was
   * written under that name and the key has no `/`; a key already written
   * under its own (clean) name is not written again.
   */
  lemma DefaultsWritten(cf: ConfigFile, p: string)
    ensures p in WrittenDefaults(cf)
      <==> p in cf.persistKeys && p !in SettingNames(OtherSettings(cf.config)) && '/' !in p
    ensures p in WrittenDefaults(cf) && IsClean(p) ==> Sanitize(p) !in SettingNames(OtherSettings(cf.config))
  {
    SanitizeFixesClean(p);
  }

  // ----- the steps of getConfigFile's two loops -----

  lemma {:induction false} WithoutAbsent(keys: seq<string>, k: string)
    requires k !in keys
    ensures Without(keys, k) == keys
    decreases |keys|
  {
    if keys != [] {
      var init := keys[..|keys| - 1];
      WithoutAbsent(init, k);
      assert keys[|keys| - 1] != k;
      assert keys == init + [keys[|keys| - 1]];
    }
  }

  lemma {:induction false} UnclaimedNone(persist: seq<string>)
    ensures Unclaimed(persist, []) == persist
    decreases |persist|
  {
    if persist != [] {
      UnclaimedNone(persist[..|persist| - 1]);
      assert persist == persist[..|persist| - 1] + [persist[|persist| - 1]];
    }
  }

  lemma {:induction false} UnclaimedSnoc(persist: seq<string>, names: seq<string>, k: string)
    ensures Unclaimed(persist, names + [k]) == Without(Unclaimed(persist, names), k)
    decreases |persist|
  {
    if persist != [] {
      var init := persist[..|persist| - 1];
      UnclaimedSnoc(init, names, k);
      var u := Unclaimed(init, names);
      var p := persist[|persist| - 1];
      var tail := if p in names then [] else [p];
      assert Unclaimed(persist, names) == u + tail;
      assert Without(u + tail, k) == Without(u, k) + (if p in names || p == k then [] else [p]) by {
        if tail == [] {
          assert u + tail == u;
        } else {
          assert (u + tail)[..|u + tail| - 1] == u;
        }
      }
    }
  }

  lemma ExportsTextSnoc(ex: seq<(string, Value)>, e: (string, Value), crlf: string, varExport: Value -> string)
    ensures ExportsText(ex + [e], crlf, varExport)
         == ExportsText(ex, crlf, varExport) + StmtsText(VarExportStmts(e.0, e.1), crlf, varExport)
  {
    assert (ex + [e])[..|ex|] == ex;
  }

  /** The text written for the first i + 1 settings: that of the first i, then setting i. */
  lemma SettingText(conf: seq<Entry>, i: nat, crlf: string, varExport: Value -> string)
    requires i < |conf|
    ensures ExportsText(ConfigExports(conf[..i + 1]), crlf, varExport)
         == ExportsText(ConfigExports(conf[..i]), crlf, varExport)
            + StmtsText(VarExportStmts(KeyName(conf[i].0), conf[i].1), crlf, varExport)
  {
    var ex := ConfigExports(conf[..i + 1]);
    assert ex[..i] == ConfigExports(conf[..i]);
  }

  /** Writing setting i strikes its sanitized name from the persisted keys. */
  lemma SettingClaim(persist: seq<string>, conf: seq<Entry>, i: nat)
    requires i < |conf|
    ensures Unclaimed(persist, SettingNames(conf[..i + 1]))
         == Without(Unclaimed(persist, SettingNames(conf[..i])), KeyName(conf[i].0))
  {
    assert SettingNames(conf[..i + 1]) == SettingNames(conf[..i]) + [KeyName(conf[i].0)];
    UnclaimedSnoc(persist, SettingNames(conf[..i]), KeyName(conf[i].0));
  }

  lemma DefaultStep(cf: ConfigFile, persist: seq<string>, j: nat, crlf: string, varExport: Value -> string)
    requires j < |persist|
    ensures '/' in persist[j] ==> DefaultKeys(persist[..j + 1]) == DefaultKeys(persist[..j])
    ensures '/' !in persist[j] ==>
      ExportsText(DefaultExports(cf, DefaultKeys(persist[..j + 1])), crlf, varExport)
        == ExportsText(DefaultExports(cf, DefaultKeys(persist[..j])), crlf, varExport)
           + StmtsText(VarExportStmts(Sanitize(persist[j]), cf.defaults(Sanitize(persist[j]))), crlf, varExport)
  {
    var p := persist[j];
    assert persist[..j + 1][..j] == persist[..j];
    var ks := DefaultKeys(persist[..j]);
    if '/' !in p {
      assert DefaultKeys(persist[..j + 1]) == ks + [p];
      assert DefaultExports(cf, ks + [p]) == DefaultExports(cf, ks) + [(Sanitize(p), cf.defaults(Sanitize(p)))];
      ExportsTextSnoc(DefaultExports(cf, ks), (Sanitize(p), cf.defaults(Sanitize(p))), crlf, varExport);
    }
  }

  /**
   * The first loop of getConfigFile: every setting through getVarExport
   * under its sanitized name, striking that name from the persisted keys.
   */
  method WriteSettings(cf: ConfigFile, conf: seq<Entry>, crlf: string, varExport: Value -> string)
    returns (text: string, persistKeys: seq<string>)
    ensures text == ExportsText(ConfigExports(conf), crlf, varExport)
    ensures persistKeys == Unclaimed(cf.persistKeys, SettingNames(conf))
  {
    text := "";
    persistKeys := cf.persistKeys;
    assert SettingNames(conf[..0]) == [];
    UnclaimedNone(cf.persistKeys);
    for i := 0 to |conf|
      invariant text == ExportsText(ConfigExports(conf[..i]), crlf, varExport)
      invariant persistKeys == Unclaimed(cf.persistKeys, SettingNames(conf[..i]))
    {
      var k := Sanitize(KeyText(conf[i].0));
      var exported := GetVarExport(k, conf[i].1, crlf, varExport);
      SettingText(conf, i, crlf, varExport);
      SettingClaim(cf.persistKeys, conf, i);
      text := text + exported;
      if k !in persistKeys {
        WithoutAbsent(persistKeys, k);
        continue;
      }
      persistKeys := Without(persistKeys, k);
    }
    assert conf[..|conf|] == conf;
  }

  /** The second loop of getConfigFile: the default of every remaining key without a `/`. */
  method WriteDefaults(cf: ConfigFile, persistKeys: seq<string>, crlf: string, varExport: Value -> string)
    returns (text: string)
    ensures text == ExportsText(DefaultExports(cf, DefaultKeys(persistKeys)), crlf, varExport)
  {
    text := "";
    assert persistKeys[..0] == [];
    for j := 0 to |persistKeys|
      invariant text == ExportsText(DefaultExports(cf, DefaultKeys(persistKeys[..j])), crlf, varExport)
    {
      DefaultStep(cf, persistKeys, j, crlf, varExport);
      if '/' in persistKeys[j] {
        continue;
      }
      var k := Sanitize(persistKeys[j]);
      var exported := GetVarExport(k, cf.defaults(k), crlf, varExport);
      text := text + exported;
    }
    assert persistKeys[..|persistKeys|] == persistKeys;
  }

  method GetConfigFile(cf: ConfigFile, eol: Option<string>, version: string, date: string,
                       varExport: Value -> string)
    returns (r: string)
    requires ServersTyped(cf.config)
    ensures r == ConfigFileText(cf, eol, version, date, varExport)
  {
    var crlf := if eol == Some("win") then "\r\n" else "\n";
    var conf := cf.config;
    var ret := "<?php" + crlf
      + "/**" + crlf
      + " * Generated configuration file" + crlf
      + " * Generated by: phpMyAdmin " + version + " setup script" + crlf
      + " * Date: " + date + crlf
      + " */" + crlf + crlf;
    var servers := Lookup(conf, StrKey("Servers"));
    if servers.Some? && !Empty(servers.value) {
      var part := GetServerPart(cf, crlf, servers.value.entries, varExport);
      if part.Some? {
        ret := ret + part.value;
      }
      conf := RemoveKey(conf, StrKey("Servers"));
    }
    ghost var header := Header(crlf, version, date);
    ghost var serversText := ServersText(cf, crlf, varExport);
    assert ret == header + serversText;
    assert conf == OtherSettings(cf.config);
    var settings, persistKeys := WriteSettings(cf, conf, crlf, varExport);
    var defaults := WriteDefaults(cf, persistKeys, crlf, varExport);
    AppendAssoc(header, serversText + settings, defaults);
    AppendAssoc(header, serversText, settings);
    ret := ret + settings + defaults;
    r := ret + crlf;
  }
}
