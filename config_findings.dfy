/**
 * Two places where ConfigGenerator.php, as written, does not do what the
 * rest of the file evidently intends. Each is modelled as written here,
 * with an input that exhibits it; the corrected behaviour is what the
 * ConfigGenerator module models and proves.
 */
module ConfigFindings {
  import opened Basics
  import opened PhpArrays
  import opened ConfigSyntax
  import opened ConfigGenerator

  // ---------------------------------------------------------------------
  // 1. exportZeroBasedArray emits the values in iteration order, although
  //    isZeroBasedArray only checks that keys 0 .. n-1 are set, not that
  //    they come in that order.
  // ---------------------------------------------------------------------

  /** The items exportZeroBasedArray lists: the values in iteration order. */
  function ZeroBasedItemsAsWritten(es: seq<Entry>): (r: seq<Value>)
    ensures |r| == |es|
    ensures forall i :: 0 <= i < |es| ==> r[i] == es[i].1
  {
    seq(|es|, i requires 0 <= i < |es| => es[i].1)
  }

  /** When the keys do come in order 0, 1, ..., both readings agree. */
  lemma AsWrittenAgreesInOrder(es: seq<Entry>)
    requires forall i :: 0 <= i < |es| ==> es[i].0 == IntKey(i)
    ensures IsZeroBased(es) ==> ZeroBasedItemsAsWritten(es) == ZeroBasedItems(es)
  {
    if IsZeroBased(es) {
      forall i | 0 <= i < |es|
        ensures ZeroBasedItemsAsWritten(es)[i] == ZeroBasedItems(es)[i]
      {
        assert UniqueKeys(es);
        LookupAt(es, i);
      }
    }
  }

  /**
   * [1 => 'x', 0 => 'y'] passes isZeroBasedArray, is written as
   * `array('x', 'y')`, and reads back with 'x' under key 0: the setting
   * changes value. The corrected listing reads it back unchanged.
   */
  lemma OutOfOrderListChangesValue()
    ensures var es := [(IntKey(1), Str("x")), (IntKey(0), Str("y"))];
      IsZeroBased(es)
      && Lookup(ListEntries(ZeroBasedItemsAsWritten(es)), IntKey(0)) == Some(Str("x"))
      && Lookup(es, IntKey(0)) == Some(Str("y"))
      && SameMapping(ListEntries(ZeroBasedItems(es)), es)
  {
    var es := [(IntKey(1), Str("x")), (IntKey(0), Str("y"))];
    assert Lookup(es, IntKey(0)) == Some(Str("y"));
    assert Lookup(es, IntKey(1)) == Some(Str("x"));
    assert IsZeroBased(es);
    assert UniqueKeys(es);
    ZeroBasedItemsRoundTrip(es);
  }

  // ---------------------------------------------------------------------
  // 2. getVarExport hands an integer sub-key to preg_replace without the
  //    `(string)` cast the two other call sites have; under
  //    strict_types=1 that is a TypeError on PHP 8.0 and later (PHP 7
  //    converts the integer and writes what the corrected model writes).
  // ---------------------------------------------------------------------

  /** The sub-key as getVarExport computes it on PHP 8.0 and later: None where preg_replace throws. */
  function SubkeyNameAsWritten(k: Key): (r: Option<string>)
    ensures r.None? <==> k.IntKey?
    ensures r.Some? ==> r.value == KeyName(k)
  {
    match k
    case IntKey(_) => None
    case StrKey(s) => Some(Sanitize(s))
  }

  /** The per-entry statements as written: None when some entry's key is an integer. */
  function PerKeyStmtsAsWritten(name: string, es: seq<Entry>): (r: Option<seq<Stmt>>)
    ensures r.None? <==> exists i :: 0 <= i < |es| && es[i].0.IntKey?
    ensures r.Some? ==> r.value == PerKeyStmts(name, es)
  {
    if es == [] then Some([])
    else
      var init := PerKeyStmtsAsWritten(name, es[..|es| - 1]);
      var last := es[|es| - 1];
      assert forall i :: 0 <= i < |es| - 1 ==> es[..|es| - 1][i] == es[i];
      match (init, SubkeyNameAsWritten(last.0))
      case (Some(stmts), Some(k)) =>
        PerKeyStmtsSnoc(name, es);
        Some(stmts + [Assign([Name(name), Name(k)], Literal(last.1))])
      case _ => None
  }

  /**
   * [1 => 'a'] is neither empty nor zero-based, so getVarExport takes the
   * per-key branch, where the integer key 1 makes it throw on PHP 8.0 and
   * later; with the cast it writes `$cfg['name']['1'] = 'a';`.
   */
  lemma IntegerSubkeyThrows(name: string)
    ensures var v := Arr([(IntKey(1), Str("a"))]);
      !IsZeroBased(v.entries)
      && PerKeyStmtsAsWritten(name, v.entries).None?
      && VarExportStmts(name, v) == [Assign([Name(name), Name("1")], Literal(Str("a")))]
  {
    var es := [(IntKey(1), Str("a"))];
    assert !IsSet(es, IntKey(0));
    assert es[0].0.IntKey?;
    assert KeyName(IntKey(1)) == "1" by {
      assert IntDecimal(1) == "1";
    }
  }
}
