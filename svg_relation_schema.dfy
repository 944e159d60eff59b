/**
 * The SVG schema diagram builder: the constructor of SvgRelationSchema
 * registers the requested tables, tightens a bounding box around them,
 * collects the foreign-key relations between requested tables, and draws
 * the document. Source: libraries/classes/Plugins/Schema/Svg/SvgRelationSchema.php.
 *
 * What the helper classes compute is input here: the geometry
 * TableStatsSvg gives a table (`geometry(name, showKeys)`), the foreign-key
 * information Relation::getForeigners returns (`foreigners(table)`), and the
 * drawing calls, which become events appended to a trace.
 */
module SvgSchema {
  import opened Basics

  const Border := 15

  /** Position and own size of a table, as TableStatsSvg computes them. */
  datatype Geometry = Geometry(x: int, y: int, width: int, height: int)

  datatype Box = Box(xMax: int, yMax: int, xMin: int, yMin: int)

  /** The extrema before any table: maxima 0, minima 100000. */
  const InitialBox := Box(0, 0, 100000, 100000)

  /**
   * A registered table. With the same-width option its `width` is a
   * reference to the schema's shared width cell (`sharedWidth`).
   */
  datatype TableStats = TableStats(name: string, geometry: Geometry, showKeys: bool, sharedWidth: bool)

  /** One entry of `foreign_keys_data`: a (possibly composite) foreign key. */
  datatype ForeignKey = ForeignKey(indexList: seq<string>, refTableName: string, refIndexList: seq<string>)

  /** One entry getForeigners returns: a column relation, or the foreign keys. */
  datatype ForeignInfo =
    | Column(masterField: string, foreignTable: string, foreignField: string)
    | ForeignKeysData(keys: seq<ForeignKey>)

  /** A RelationStatsSvg; a missing `ref_index_list` position is None (PHP null). */
  datatype Relation = Relation(masterTable: string, masterField: string, foreignTable: string, foreignField: Option<string>)

  datatype Event =
    | StartDoc(bounds: Box)
    | DrawRelation(relation: Relation, showColor: bool)
    | DrawTable(table: string, width: int, showColor: bool)
    | EndDoc

  /** The request flags svg_show_color, svg_show_keys, svg_show_table_dimension, svg_all_tables_same_width. */
  datatype Options = Options(showColor: bool, showKeys: bool, tableDimension: bool, sameWide: bool)

  // ---------------------------------------------------------------------
  // setMinMax and the bounding box
  // ---------------------------------------------------------------------

  predicate Encloses(b: Box, x: int, y: int, width: int, height: int)
  {
    b.xMin <= x && x + width <= b.xMax && b.yMin <= y && y + height <= b.yMax
  }

  /** `b` lies inside `c`: maxima no smaller, minima no larger. */
  predicate Within(b: Box, c: Box)
  {
    b.xMax <= c.xMax && b.yMax <= c.yMax && c.xMin <= b.xMin && c.yMin <= b.yMin
  }

  /** setMinMax: the smallest widening of `b` that encloses the given rectangle. */
  function Widen(b: Box, x: int, y: int, width: int, height: int): (r: Box)
    ensures Within(b, r)
    ensures Encloses(r, x, y, width, height)
    ensures forall c :: Within(b, c) && Encloses(c, x, y, width, height) ==> Within(r, c)
  {
    Box(Max(b.xMax, x + width), Max(b.yMax, y + height), Min(b.xMin, x), Min(b.yMin, y))
  }

  /** The document bounds: the box pushed out by the border on every side. */
  function Bounds(b: Box): (r: Box)
    ensures Within(b, r)
    ensures r.xMax - b.xMax == Border && r.yMax - b.yMax == Border
    ensures b.xMin - r.xMin == Border && b.yMin - r.yMin == Border
  {
    Box(b.xMax + Border, b.yMax + Border, b.xMin - Border, b.yMin - Border)
  }

  // ---------------------------------------------------------------------
  // Registering tables
  // ---------------------------------------------------------------------

  /** The tables, their insertion order, the box and the shared width cell. */
  datatype Layout = Layout(tables: map<string, TableStats>, order: seq<string>, box: Box, cell: int)

  /** `$this->tablewidth` starts unset; it is 0 here. */
  const EmptyLayout := Layout(map[], [], InitialBox, 0)

  /** The width a table has now: the shared cell when it references it, else its own. */
  function EffectiveWidth(t: TableStats, cell: int): int
  {
    if t.sharedWidth then cell else t.geometry.width
  }

  /**
   * The map and the order hold the same tables, each once, under their own
   * names, and the shared cell is at least every table's own width.
   */
  ghost predicate Registered(l: Layout)
  {
    (forall n :: n in l.tables <==> n in l.order)
    && (forall i, j :: 0 <= i < j < |l.order| ==> l.order[i] != l.order[j])
    && (forall n :: n in l.tables ==> l.tables[n].name == n)
    && (forall n :: n in l.tables ==> l.tables[n].geometry.width <= l.cell)
  }

  /** The box encloses the own rectangle of every table but those in `pending`. */
  ghost predicate Enclosed(l: Layout, pending: set<string>)
  {
    forall n :: n in l.tables && n !in pending ==>
      var g := l.tables[n].geometry; Encloses(l.box, g.x, g.y, g.width, g.height)
  }

  /** The layout invariant. */
  ghost predicate Valid(l: Layout)
  {
    Registered(l) && Enclosed(l, {})
  }

  /**
   * `new TableStatsSvg(...)` stored under `name`: the table computes its
   * geometry and raises the shared cell (passed by reference) to its width.
   */
  function Create(l: Layout, name: string, g: Geometry, showKeys: bool): (r: Layout)
    requires name !in l.tables
    ensures r.box == l.box
    ensures r.tables.Keys == l.tables.Keys + {name}
    ensures r.order == l.order + [name]
  {
    Layout(l.tables[name := TableStats(name, g, showKeys, false)], l.order + [name], l.box, Max(l.cell, g.width))
  }

  /** setMinMax on the table stored under `name`, with the width it has now. */
  function Fit(l: Layout, name: string): (r: Layout)
    requires name in l.tables
  {
    var t := l.tables[name];
    l.(box := Widen(l.box, t.geometry.x, t.geometry.y, EffectiveWidth(t, l.cell), t.geometry.height))
  }

  /** One pass of the constructor's first loop for a requested table. */
  function Register(l: Layout, name: string, opts: Options, geometry: (string, bool) -> Geometry): (r: Layout)
  {
    var l1 := if name in l.tables then l else Create(l, name, geometry(name, opts.showKeys), opts.showKeys);
    var l2 := if opts.sameWide then l1.(tables := l1.tables[name := l1.tables[name].(sharedWidth := true)]) else l1;
    Fit(l2, name)
  }

  function RegisterAll(l: Layout, names: seq<string>, opts: Options, geometry: (string, bool) -> Geometry): Layout
  {
    if names == [] then l
    else Register(RegisterAll(l, names[..|names| - 1], opts, geometry), names[|names| - 1], opts, geometry)
  }

  lemma CreateStep(l: Layout, name: string, g: Geometry, showKeys: bool)
    requires Valid(l) && name !in l.tables
    ensures Registered(Create(l, name, g, showKeys)) && Enclosed(Create(l, name, g, showKeys), {name})
  {
    var r := Create(l, name, g, showKeys);
    forall i, j | 0 <= i < j < |r.order| ensures r.order[i] != r.order[j] {
      if j == |l.order| {
        assert l.order[i] in l.tables;
      }
    }
  }

  lemma ShareStep(l: Layout, name: string)
    requires Registered(l) && Enclosed(l, {name}) && name in l.tables
    ensures var r := l.(tables := l.tables[name := l.tables[name].(sharedWidth := true)]);
      Registered(r) && Enclosed(r, {name})
  {
  }

  lemma FitStep(l: Layout, name: string)
    requires Registered(l) && Enclosed(l, {name}) && name in l.tables
    ensures Valid(Fit(l, name))
  {
    var t := l.tables[name];
    assert t.geometry.width <= EffectiveWidth(t, l.cell);
  }

  /** Registering keeps the layout invariant. */
  lemma RegisterStep(l: Layout, name: string, opts: Options, geometry: (string, bool) -> Geometry)
    requires Valid(l)
    ensures Valid(Register(l, name, opts, geometry))
  {
    var l1 := if name in l.tables then l else Create(l, name, geometry(name, opts.showKeys), opts.showKeys);
    if name !in l.tables {
      CreateStep(l, name, geometry(name, opts.showKeys), opts.showKeys);
    }
    var l2 := if opts.sameWide then l1.(tables := l1.tables[name := l1.tables[name].(sharedWidth := true)]) else l1;
    if opts.sameWide {
      ShareStep(l1, name);
    }
    FitStep(l2, name);
  }

  /**
   * Registering grows the box and the shared cell, and leaves what a
   * present table was created with, and the order when it was present,
   * untouched.
   */
  lemma RegisterGrows(l: Layout, name: string, opts: Options, geometry: (string, bool) -> Geometry)
    ensures var r := Register(l, name, opts, geometry);
      Within(l.box, r.box)
      && l.cell <= r.cell
      && (name in l.tables ==> r.order == l.order && r.cell == l.cell)
      && (forall n :: n in l.tables ==>
            r.tables[n].geometry == l.tables[n].geometry && r.tables[n].showKeys == l.tables[n].showKeys)
  {
    var l1 := if name in l.tables then l else Create(l, name, geometry(name, opts.showKeys), opts.showKeys);
    var l2 := if opts.sameWide then l1.(tables := l1.tables[name := l1.tables[name].(sharedWidth := true)]) else l1;
    assert Register(l, name, opts, geometry) == Fit(l2, name);
  }

  /** Registering a name adds exactly that name to the tables. */
  lemma RegisterKeys(l: Layout, name: string, opts: Options, geometry: (string, bool) -> Geometry)
    ensures Register(l, name, opts, geometry).tables.Keys == l.tables.Keys + {name}
  {
  }

  /** After the first loop, the tables are exactly the requested ones. */
  lemma {:induction false} RegisterAllKeys(names: seq<string>, opts: Options, geometry: (string, bool) -> Geometry)
    ensures forall n :: n in RegisterAll(EmptyLayout, names, opts, geometry).tables <==> n in names
    decreases |names|
  {
    if names != [] {
      var init := names[..|names| - 1];
      var last := names[|names| - 1];
      RegisterAllKeys(init, opts, geometry);
      RegisterKeys(RegisterAll(EmptyLayout, init, opts, geometry), last, opts, geometry);
      assert names == init + [last];
    }
  }

  /** The box only grows, and the shared cell only rises, over the first loop. */
  lemma {:induction false} RegisterAllGrows(l: Layout, names: seq<string>, opts: Options, geometry: (string, bool) -> Geometry)
    requires Valid(l)
    ensures var r := RegisterAll(l, names, opts, geometry);
      Valid(r) && Within(l.box, r.box) && l.cell <= r.cell
    decreases |names|
  {
    if names != [] {
      RegisterAllGrows(l, names[..|names| - 1], opts, geometry);
      RegisterStep(RegisterAll(l, names[..|names| - 1], opts, geometry), names[|names| - 1], opts, geometry);
      RegisterGrows(RegisterAll(l, names[..|names| - 1], opts, geometry), names[|names| - 1], opts, geometry);
    }
  }

  /**
   * After the first loop, the tables are exactly the requested ones, each
   * once, and the box encloses every one of them.
   */
  lemma RegisterAllValid(names: seq<string>, opts: Options, geometry: (string, bool) -> Geometry)
    ensures var l := RegisterAll(EmptyLayout, names, opts, geometry);
      Valid(l) && (forall n :: n in l.tables <==> n in names)
  {
    RegisterAllGrows(EmptyLayout, names, opts, geometry);
    RegisterAllKeys(names, opts, geometry);
  }

  /** The shared cell ends as the largest own width among the requested tables (or 0). */
  function MaxWidth(names: seq<string>, opts: Options, geometry: (string, bool) -> Geometry): int
  {
    if names == [] then 0
    else Max(MaxWidth(names[..|names| - 1], opts, geometry), geometry(names[|names| - 1], opts.showKeys).width)
  }

  /** No requested table is wider than MaxWidth. */
  lemma {:induction false} MaxWidthBound(names: seq<string>, n: string, opts: Options, geometry: (string, bool) -> Geometry)
    requires n in names
    ensures geometry(n, opts.showKeys).width <= MaxWidth(names, opts, geometry)
    decreases |names|
  {
    var init := names[..|names| - 1];
    if n != names[|names| - 1] {
      assert names == init + [names[|names| - 1]];
      MaxWidthBound(init, n, opts, geometry);
    }
  }

  /**
   * What the first loop leaves in every table: the geometry computed for it
   * with the schema's show-keys flag, and a shared width exactly when the
   * same-width option is on.
   */
  lemma {:induction false} RegisterAllTables(names: seq<string>, opts: Options, geometry: (string, bool) -> Geometry)
    ensures var l := RegisterAll(EmptyLayout, names, opts, geometry);
      forall n :: n in l.tables ==>
         l.tables[n].geometry == geometry(n, opts.showKeys)
         && l.tables[n].showKeys == opts.showKeys
         && l.tables[n].sharedWidth == opts.sameWide
    decreases |names|
  {
    if names != [] {
      RegisterAllTables(names[..|names| - 1], opts, geometry);
      RegisterStats(RegisterAll(EmptyLayout, names[..|names| - 1], opts, geometry), names[|names| - 1], opts, geometry);
    }
  }

  /** The stats the first loop gives a table: its own geometry, the flags of the options. */
  ghost predicate StatsFromOptions(l: Layout, opts: Options, geometry: (string, bool) -> Geometry)
  {
    forall n :: n in l.tables ==>
      l.tables[n].geometry == geometry(n, opts.showKeys)
      && l.tables[n].showKeys == opts.showKeys
      && l.tables[n].sharedWidth == opts.sameWide
  }

  lemma RegisterStats(l: Layout, name: string, opts: Options, geometry: (string, bool) -> Geometry)
    requires StatsFromOptions(l, opts, geometry)
    ensures StatsFromOptions(Register(l, name, opts, geometry), opts, geometry)
  {
    var l1 := if name in l.tables then l else Create(l, name, geometry(name, opts.showKeys), opts.showKeys);
    var l2 := if opts.sameWide then l1.(tables := l1.tables[name := l1.tables[name].(sharedWidth := true)]) else l1;
    assert Register(l, name, opts, geometry).tables == l2.tables;
  }

  /** The shared cell ends as the largest own width among the requested tables (or 0). */
  lemma {:induction false} RegisterAllCell(names: seq<string>, opts: Options, geometry: (string, bool) -> Geometry)
    ensures RegisterAll(EmptyLayout, names, opts, geometry).cell == MaxWidth(names, opts, geometry)
    decreases |names|
  {
    if names != [] {
      var init := names[..|names| - 1];
      var last := names[|names| - 1];
      RegisterAllCell(init, opts, geometry);
      RegisterAllKeys(init, opts, geometry);
      if last in init {
        MaxWidthBound(init, last, opts, geometry);
      }
    }
  }

  // ---------------------------------------------------------------------
  // Collecting relations
  // ---------------------------------------------------------------------

  /**
   * The relations one foreign key of `table` adds: one per position of its
   * index list, paired with the same position of the referenced list.
   */
  function KeyRelations(table: string, key: ForeignKey): (r: seq<Relation>)
    ensures |r| == |key.indexList|
    ensures forall i :: 0 <= i < |r| ==>
      r[i].masterTable == table && r[i].foreignTable == key.refTableName
      && r[i].masterField == key.indexList[i]
      && r[i].foreignField == (if i < |key.refIndexList| then Some(key.refIndexList[i]) else None)
  {
    seq(|key.indexList|, i requires 0 <= i < |key.indexList| =>
      Relation(table, key.indexList[i], key.refTableName,
               if i < |key.refIndexList| then Some(key.refIndexList[i]) else None))
  }

  /** The foreign keys whose referenced table was requested, expanded in order. */
  function KeysRelations(table: string, keys: seq<ForeignKey>, requested: seq<string>): (r: seq<Relation>)
    ensures forall x :: x in r ==> x.masterTable == table && x.foreignTable in requested
  {
    if keys == [] then []
    else
      var key := keys[|keys| - 1];
      KeysRelations(table, keys[..|keys| - 1], requested)
        + (if key.refTableName in requested then KeyRelations(table, key) else [])
  }

  lemma KeysRelationsSnoc(table: string, keys: seq<ForeignKey>, k: nat, requested: seq<string>)
    requires k < |keys|
    ensures KeysRelations(table, keys[..k + 1], requested)
         == KeysRelations(table, keys[..k], requested)
            + (if keys[k].refTableName in requested then KeyRelations(table, keys[k]) else [])
  {
    assert keys[..k + 1][..k] == keys[..k];
  }

  /** The relations one getForeigners entry adds. */
  function InfoRelations(table: string, info: ForeignInfo, requested: seq<string>): (r: seq<Relation>)
    ensures forall x :: x in r ==> x.masterTable == table && x.foreignTable in requested
  {
    match info
    case Column(masterField, foreignTable, foreignField) =>
      if foreignTable in requested then [Relation(table, masterField, foreignTable, Some(foreignField))] else []
    case ForeignKeysData(keys) => KeysRelations(table, keys, requested)
  }

  function TableRelations(table: string, infos: seq<ForeignInfo>, requested: seq<string>): (r: seq<Relation>)
    ensures forall x :: x in r ==> x.masterTable == table && x.foreignTable in requested
  {
    if infos == [] then []
    else TableRelations(table, infos[..|infos| - 1], requested) + InfoRelations(table, infos[|infos| - 1], requested)
  }

  lemma TableRelationsSnoc(table: string, infos: seq<ForeignInfo>, k: nat, requested: seq<string>)
    requires k < |infos|
    ensures TableRelations(table, infos[..k + 1], requested)
         == TableRelations(table, infos[..k], requested) + InfoRelations(table, infos[k], requested)
  {
    assert infos[..k + 1][..k] == infos[..k];
  }

  /** The relations of every table of `tables`, in discovery order. */
  function AllRelations(tables: seq<string>, foreigners: string -> seq<ForeignInfo>, requested: seq<string>)
    : (r: seq<Relation>)
    ensures forall x :: x in r ==> x.masterTable in tables && x.foreignTable in requested
  {
    if tables == [] then []
    else
      var init := tables[..|tables| - 1];
      var rest := AllRelations(init, foreigners, requested);
      assert forall x :: x in rest ==> x.masterTable in tables by {
        assert forall t :: t in init ==> t in tables;
      }
      rest + TableRelations(tables[|tables| - 1], foreigners(tables[|tables| - 1]), requested)
  }

  /** `x` is one of the pairwise relations of `key`, whose referenced table was requested. */
  predicate FromKey(x: Relation, table: string, key: ForeignKey, requested: seq<string>)
  {
    key.refTableName in requested && x in KeyRelations(table, key)
  }

  /** `x` is a relation the getForeigners entry `info` of `table` stands for, towards a requested table. */
  predicate FromInfo(x: Relation, table: string, info: ForeignInfo, requested: seq<string>)
  {
    match info
    case Column(masterField, foreignTable, foreignField) =>
      foreignTable in requested && x == Relation(table, masterField, foreignTable, Some(foreignField))
    case ForeignKeysData(keys) => exists key :: key in keys && FromKey(x, table, key, requested)
  }

  /** The expanded foreign keys hold exactly the relations of the keys towards requested tables. */
  lemma {:induction false} KeysRelationsExact(table: string, keys: seq<ForeignKey>, requested: seq<string>, x: Relation)
    ensures x in KeysRelations(table, keys, requested) <==> exists key :: key in keys && FromKey(x, table, key, requested)
  {
    if keys != [] {
      var init := keys[..|keys| - 1];
      var last := keys[|keys| - 1];
      KeysRelationsExact(table, init, requested, x);
      assert keys == init + [last];
      var tail := if last.refTableName in requested then KeyRelations(table, last) else [];
      assert KeysRelations(table, keys, requested) == KeysRelations(table, init, requested) + tail;
      if x in KeysRelations(table, init, requested) {
        var key :| key in init && FromKey(x, table, key, requested);
        assert key in keys;
      } else if x in tail {
        assert FromKey(x, table, last, requested);
      }
      if key :| key in keys && FromKey(x, table, key, requested) {
        if key != last {
          assert key in init;
        }
      }
    }
  }

  /** A getForeigners entry yields exactly the relations it stands for. */
  lemma InfoRelationsExact(table: string, info: ForeignInfo, requested: seq<string>, x: Relation)
    ensures x in InfoRelations(table, info, requested) <==> FromInfo(x, table, info, requested)
  {
    if info.ForeignKeysData? {
      KeysRelationsExact(table, info.keys, requested, x);
    }
  }

  /** A table's relations are exactly those its getForeigners entries stand for. */
  lemma {:induction false} TableRelationsExact(table: string, infos: seq<ForeignInfo>, requested: seq<string>, x: Relation)
    ensures x in TableRelations(table, infos, requested) <==> exists info :: info in infos && FromInfo(x, table, info, requested)
  {
    if infos != [] {
      var init := infos[..|infos| - 1];
      var last := infos[|infos| - 1];
      TableRelationsExact(table, init, requested, x);
      InfoRelationsExact(table, last, requested, x);
      assert infos == init + [last];
      if info :| info in infos && FromInfo(x, table, info, requested) {
        if info != last {
          assert info in init;
        }
      }
    }
  }

  /**
   * The collected relations are exactly those that some getForeigners entry
   * of one of `tables` stands for: none is lost and none is made up.
   */
  lemma {:induction false} AllRelationsExact(tables: seq<string>, foreigners: string -> seq<ForeignInfo>,
                                             requested: seq<string>, x: Relation)
    ensures x in AllRelations(tables, foreigners, requested)
        <==> exists t, info :: t in tables && info in foreigners(t) && FromInfo(x, t, info, requested)
  {
    if tables != [] {
      var init := tables[..|tables| - 1];
      var last := tables[|tables| - 1];
      AllRelationsExact(init, foreigners, requested, x);
      TableRelationsExact(last, foreigners(last), requested, x);
      assert tables == init + [last];
      if t, info :| t in tables && info in foreigners(t) && FromInfo(x, t, info, requested) {
        if t != last {
          assert t in init;
        }
      }
    }
  }

  /**
   * Every column relation and every position of every foreign key of a
   * requested table that points to a requested table is collected.
   */
  lemma AllRelationsComplete(requested: seq<string>, foreigners: string -> seq<ForeignInfo>, t: string, info: ForeignInfo)
    requires t in requested && info in foreigners(t)
    ensures info.Column? && info.foreignTable in requested ==>
      Relation(t, info.masterField, info.foreignTable, Some(info.foreignField)) in AllRelations(requested, foreigners, requested)
    ensures info.ForeignKeysData? ==>
      forall key, i :: key in info.keys && key.refTableName in requested && 0 <= i < |key.indexList| ==>
        KeyRelations(t, key)[i] in AllRelations(requested, foreigners, requested)
  {
    match info
    case Column(masterField, foreignTable, foreignField) =>
      AllRelationsExact(requested, foreigners, requested, Relation(t, masterField, foreignTable, Some(foreignField)));
    case ForeignKeysData(keys) =>
      forall key, i | key in keys && key.refTableName in requested && 0 <= i < |key.indexList|
        ensures KeyRelations(t, key)[i] in AllRelations(requested, foreigners, requested)
      {
        var x := KeyRelations(t, key)[i];
        assert FromKey(x, t, key, requested);
        AllRelationsExact(requested, foreigners, requested, x);
      }
  }

  /** Some requested table had a non-empty getForeigners result. */
  predicate SeenRelation(tables: seq<string>, foreigners: string -> seq<ForeignInfo>)
  {
    exists i :: 0 <= i < |tables| && foreigners(tables[i]) != []
  }

  // ---------------------------------------------------------------------
  // The whole construction
  // ---------------------------------------------------------------------

  function RelationDraws(relations: seq<Relation>, showColor: bool): (r: seq<Event>)
    ensures |r| == |relations|
    ensures forall i :: 0 <= i < |r| ==> r[i] == DrawRelation(relations[i], showColor)
  {
    seq(|relations|, i requires 0 <= i < |relations| => DrawRelation(relations[i], showColor))
  }

  /** tableDraw for every table in insertion order, with the width it has at drawing time. */
  function TableDraws(l: Layout, showColor: bool): (r: seq<Event>)
    requires forall n :: n in l.order ==> n in l.tables
    ensures |r| == |l.order|
    ensures forall i :: 0 <= i < |r| ==>
      r[i] == DrawTable(l.order[i], EffectiveWidth(l.tables[l.order[i]], l.cell), showColor)
  {
    seq(|l.order|, i requires 0 <= i < |l.order| =>
      DrawTable(l.order[i], EffectiveWidth(l.tables[l.order[i]], l.cell), showColor))
  }

  /** The state a finished schema holds: its layout, its relations and the drawing trace. */
  datatype Schema = Schema(layout: Layout, relations: seq<Relation>, trace: seq<Event>)

  /**
   * What the constructor builds: the requested tables registered, the
   * document started at the bordered box, the relations drawn if any
   * requested table had foreign-key data, the tables drawn, the document ended.
   */
  function Build(requested: seq<string>, opts: Options, geometry: (string, bool) -> Geometry,
                 foreigners: string -> seq<ForeignInfo>): Schema
  {
    var l := RegisterAll(EmptyLayout, requested, opts, geometry);
    RegisterAllValid(requested, opts, geometry);
    var relations := AllRelations(requested, foreigners, requested);
    var draws := if SeenRelation(requested, foreigners) then RelationDraws(relations, opts.showColor) else [];
    Schema(l, relations, [StartDoc(Bounds(l.box))] + draws + TableDraws(l, opts.showColor) + [EndDoc])
  }

  /** The order facts of any trace made of a start, relation draws, table draws and an end. */
  lemma TraceOrder(bounds: Box, draws: seq<Event>, tables: seq<Event>, names: seq<string>)
    requires forall i :: 0 <= i < |draws| ==> draws[i].DrawRelation?
    requires |tables| == |names|
    requires forall i :: 0 <= i < |tables| ==> tables[i].DrawTable? && tables[i].table == names[i]
    requires forall i, j :: 0 <= i < j < |names| ==> names[i] != names[j]
    ensures var t := [StartDoc(bounds)] + draws + tables + [EndDoc];
      (forall i :: 0 <= i < |t| && t[i].DrawRelation? ==> |draws| > 0)
      && (forall i, j :: 0 <= i < j < |t| && t[i].DrawTable? ==> !t[j].DrawRelation?)
      && (forall n :: n in names <==> exists i :: 0 <= i < |t| && t[i].DrawTable? && t[i].table == n)
      && (forall i, j :: 0 <= i < j < |t| && t[i].DrawTable? && t[j].DrawTable? ==> t[i].table != t[j].table)
  {
    var t := [StartDoc(bounds)] + draws + tables + [EndDoc];
    var k := 1 + |draws|;
    assert forall i :: k <= i < k + |tables| ==> t[i] == tables[i - k];
    assert forall i :: 1 <= i < k ==> t[i] == draws[i - 1];
    forall n | n in names
      ensures exists i :: 0 <= i < |t| && t[i].DrawTable? && t[i].table == n
    {
      var m :| 0 <= m < |names| && names[m] == n;
      assert t[k + m] == tables[m];
    }
  }

  /**
   * The trace starts the document at the box pushed out by the border, a
   * box that encloses every requested table; it draws relations only when a
   * requested table had foreign-key data, all of them before any table;
   * it draws every requested table exactly once; and it ends the document.
   */
  lemma BuildTrace(requested: seq<string>, opts: Options, geometry: (string, bool) -> Geometry,
                   foreigners: string -> seq<ForeignInfo>)
    ensures var b := Build(requested, opts, geometry, foreigners);
      var t := b.trace;
      |t| >= 2
      && t[0] == StartDoc(Bounds(b.layout.box))
      && t[|t| - 1] == EndDoc
      && (forall n :: n in requested ==>
            var g := geometry(n, opts.showKeys); Encloses(b.layout.box, g.x, g.y, g.width, g.height))
      && (forall i :: 0 <= i < |t| && t[i].DrawRelation? ==> SeenRelation(requested, foreigners))
      && (forall i, j :: 0 <= i < j < |t| && t[i].DrawTable? ==> !t[j].DrawRelation?)
      && (forall n :: n in requested <==> exists i :: 0 <= i < |t| && t[i].DrawTable? && t[i].table == n)
      && (forall i, j :: 0 <= i < j < |t| && t[i].DrawTable? && t[j].DrawTable? ==> t[i].table != t[j].table)
  {
    var b := Build(requested, opts, geometry, foreigners);
    var l := b.layout;
    RegisterAllValid(requested, opts, geometry);
    RegisterAllTables(requested, opts, geometry);
    var draws := if SeenRelation(requested, foreigners) then RelationDraws(b.relations, opts.showColor) else [];
    TraceOrder(Bounds(l.box), draws, TableDraws(l, opts.showColor), l.order);
    assert forall n :: n in requested <==> n in l.order;
  }

  /**
   * With the same-width option every table is drawn with the one shared
   * width, the largest own width; without it every table is drawn with its
   * own width, inside the box.
   */
  lemma BuildWidths(requested: seq<string>, opts: Options, geometry: (string, bool) -> Geometry,
                    foreigners: string -> seq<ForeignInfo>)
    ensures var b := Build(requested, opts, geometry, foreigners);
      forall e :: e in b.trace && e.DrawTable? ==>
        var g := geometry(e.table, opts.showKeys);
        (opts.sameWide ==> e.width == MaxWidth(requested, opts, geometry))
        && (!opts.sameWide ==> e.width == g.width && Encloses(b.layout.box, g.x, g.y, e.width, g.height))
  {
    var b := Build(requested, opts, geometry, foreigners);
    var l := b.layout;
    RegisterAllValid(requested, opts, geometry);
    RegisterAllTables(requested, opts, geometry);
    RegisterAllCell(requested, opts, geometry);
    var draws := if SeenRelation(requested, foreigners) then RelationDraws(b.relations, opts.showColor) else [];
    var tables := TableDraws(l, opts.showColor);
    TraceTables(Bounds(l.box), draws, tables);
    forall e | e in b.trace && e.DrawTable?
      ensures var g := geometry(e.table, opts.showKeys);
        (opts.sameWide ==> e.width == MaxWidth(requested, opts, geometry))
        && (!opts.sameWide ==> e.width == g.width && Encloses(l.box, g.x, g.y, e.width, g.height))
    {
      var i :| 0 <= i < |tables| && tables[i] == e;
      assert l.order[i] in l.tables;
    }
  }

  /** Table "A" at x = 1000 with own width 100; every other table at x = 0 with own width 500. */
  function OverflowGeometry(name: string, showKeys: bool): Geometry
  {
    if name == "A" then Geometry(1000, 0, 100, 10) else Geometry(0, 0, 500, 10)
  }

  /**
   * With the same-width option, "A" is fitted while the shared width is
   * still 100, so the box ends at x = 1100; registering "B" raises the
   * shared width to 500, and "A" is drawn 500 wide, out to x = 1500.
   */
  lemma SameWidthOverflow()
    ensures var b := Build(["A", "B"], Options(false, false, false, true), OverflowGeometry,
                           (name: string) => []);
      b.layout.box.xMax == 1100
      && DrawTable("A", 500, false) in b.trace
      && !Encloses(b.layout.box, 1000, 0, 500, 10)
  {
    var opts := Options(false, false, false, true);
    var l1 := RegisterAll(EmptyLayout, ["A"], opts, OverflowGeometry);
    assert ["A", "B"][..1] == ["A"];
    assert ["A"][..0] == [];
    assert l1.box == Box(1100, 10, 1000, 0) && l1.cell == 100;
    var l2 := RegisterAll(EmptyLayout, ["A", "B"], opts, OverflowGeometry);
    assert l2.order == ["A", "B"] && l2.cell == 500 && l2.box.xMax == 1100;
    assert l2.tables["A"].sharedWidth;
    var b := Build(["A", "B"], opts, OverflowGeometry, (name: string) => []);
    assert TableDraws(l2, false)[0] == DrawTable("A", 500, false);
  }

  /** The table draws of a trace are those of its table part. */
  lemma TraceTables(bounds: Box, draws: seq<Event>, tables: seq<Event>)
    requires forall i :: 0 <= i < |draws| ==> draws[i].DrawRelation?
    ensures forall e :: e in [StartDoc(bounds)] + draws + tables + [EndDoc] && e.DrawTable? ==> e in tables
  {
  }

  /**
   * addRelation: a missing end is created (keys not limited, own width)
   * and fitted into the box; then the relation is appended.
   */
  function Relate(s: Schema, rel: Relation, geometry: (string, bool) -> Geometry): (r: Schema)
    ensures r.relations == s.relations + [rel]
    ensures r.trace == s.trace
    ensures rel.masterTable in r.layout.tables && rel.foreignTable in r.layout.tables
  {
    var l1 := if rel.masterTable in s.layout.tables then s.layout
      else Fit(Create(s.layout, rel.masterTable, geometry(rel.masterTable, false), false), rel.masterTable);
    var l2 := if rel.foreignTable in l1.tables then l1
      else Fit(Create(l1, rel.foreignTable, geometry(rel.foreignTable, false), false), rel.foreignTable);
    Schema(l2, s.relations + [rel], s.trace)
  }

  /** When both ends are registered already, addRelation only appends the relation. */
  lemma RelateRegistered(s: Schema, rel: Relation, geometry: (string, bool) -> Geometry)
    requires rel.masterTable in s.layout.tables && rel.foreignTable in s.layout.tables
    ensures Relate(s, rel, geometry) == s.(relations := s.relations + [rel])
  {
  }

  /** A missing end is registered and fitted into the box, keeping the invariant. */
  lemma RelateValid(s: Schema, rel: Relation, geometry: (string, bool) -> Geometry)
    requires Valid(s.layout)
    ensures Valid(Relate(s, rel, geometry).layout)
    ensures Within(s.layout.box, Relate(s, rel, geometry).layout.box)
  {
    var l1 := s.layout;
    if rel.masterTable !in l1.tables {
      CreateStep(l1, rel.masterTable, geometry(rel.masterTable, false), false);
      l1 := Fit(Create(l1, rel.masterTable, geometry(rel.masterTable, false), false), rel.masterTable);
      FitStep(Create(s.layout, rel.masterTable, geometry(rel.masterTable, false), false), rel.masterTable);
    }
    if rel.foreignTable !in l1.tables {
      CreateStep(l1, rel.foreignTable, geometry(rel.foreignTable, false), false);
      FitStep(Create(l1, rel.foreignTable, geometry(rel.foreignTable, false), false), rel.foreignTable);
    }
  }

  class SvgRelationSchema {
    const options: Options
    const geometry: (string, bool) -> Geometry
    const foreigners: string -> seq<ForeignInfo>

    var tables: map<string, TableStats>
    var tableOrder: seq<string>
    var relations: seq<Relation>
    var xMax: int
    var yMax: int
    var xMin: int
    var yMin: int
    var tableWidth: int
    var trace: seq<Event>

    function CurrentLayout(): Layout
      reads this
    {
      Layout(tables, tableOrder, Box(xMax, yMax, xMin, yMin), tableWidth)
    }

    function State(): Schema
      reads this
    {
      Schema(CurrentLayout(), relations, trace)
    }

    /** setMinMax for the table stored under `name`, read with the width it has now. */
    method SetMinMax(name: string)
      requires name in tables
      modifies this
      ensures State() == old(State()).(layout := Fit(old(CurrentLayout()), name))
    {
      var t := tables[name];
      var width := if t.sharedWidth then tableWidth else t.geometry.width;
      xMax := Max(xMax, t.geometry.x + width);
      yMax := Max(yMax, t.geometry.y + t.geometry.height);
      xMin := Min(xMin, t.geometry.x);
      yMin := Min(yMin, t.geometry.y);
    }

    /** `$this->tables[$name] = new TableStatsSvg(...)`, raising the shared width cell. */
    method NewTable(name: string, showKeys: bool)
      requires name !in tables
      modifies this
      ensures State() == old(State()).(layout := Create(old(CurrentLayout()), name, geometry(name, showKeys), showKeys))
    {
      var g := geometry(name, showKeys);
      tables := tables[name := TableStats(name, g, showKeys, false)];
      tableOrder := tableOrder + [name];
      if tableWidth < g.width {
        tableWidth := g.width;
      }
    }

    /** One pass of the constructor's first loop. */
    method RegisterTable(name: string)
      modifies this
      ensures State() == old(State()).(layout := Register(old(CurrentLayout()), name, options, geometry))
    {
      if name !in tables {
        NewTable(name, options.showKeys);
      }
      if options.sameWide {
        tables := tables[name := tables[name].(sharedWidth := true)];
      }
      SetMinMax(name);
    }

    method AddRelation(masterTable: string, masterField: string, foreignTable: string, foreignField: Option<string>)
      modifies this
      ensures State() == Relate(old(State()), Relation(masterTable, masterField, foreignTable, foreignField), geometry)
    {
      if masterTable !in tables {
        NewTable(masterTable, false);
        SetMinMax(masterTable);
      }
      if foreignTable !in tables {
        NewTable(foreignTable, false);
        SetMinMax(foreignTable);
      }
      relations := relations + [Relation(masterTable, masterField, foreignTable, foreignField)];
    }

    /** One relation per position of a composite key's index list. */
    method AddKeyRelations(table: string, key: ForeignKey)
      requires table in tables && key.refTableName in tables
      modifies this
      ensures State() == old(State()).(relations := old(relations) + KeyRelations(table, key))
    {
      for index := 0 to |key.indexList|
        invariant State() == old(State()).(relations := old(relations) + KeyRelations(table, key)[..index])
      {
        var refField := if index < |key.refIndexList| then Some(key.refIndexList[index]) else None;
        RelateRegistered(State(), Relation(table, key.indexList[index], key.refTableName, refField), geometry);
        AddRelation(table, key.indexList[index], key.refTableName, refField);
        assert KeyRelations(table, key)[..index + 1] == KeyRelations(table, key)[..index] + [KeyRelations(table, key)[index]];
      }
      assert KeyRelations(table, key)[..|key.indexList|] == KeyRelations(table, key);
    }

    /** The `foreign_keys_data` entries whose referenced table was requested. */
    method AddForeignKeys(table: string, keys: seq<ForeignKey>, requested: seq<string>)
      requires table in tables && forall n :: n in requested ==> n in tables
      modifies this
      ensures State() == old(State()).(relations := old(relations) + KeysRelations(table, keys, requested))
    {
      for k := 0 to |keys|
        invariant State() == old(State()).(relations := old(relations) + KeysRelations(table, keys[..k], requested))
      {
        ghost var done := KeysRelations(table, keys[..k], requested);
        ghost var added := if keys[k].refTableName in requested then KeyRelations(table, keys[k]) else [];
        KeysRelationsSnoc(table, keys, k, requested);
        AppendAssoc(old(relations), done, added);
        if keys[k].refTableName !in requested {
          continue;
        }
        AddKeyRelations(table, keys[k]);
      }
      assert keys[..|keys|] == keys;
    }

    /** What the relation loop does with one requested table's getForeigners entries. */
    method AddForeigners(table: string, infos: seq<ForeignInfo>, requested: seq<string>)
      requires table in tables && forall n :: n in requested ==> n in tables
      modifies this
      ensures State() == old(State()).(relations := old(relations) + TableRelations(table, infos, requested))
    {
      for k := 0 to |infos|
        invariant State() == old(State()).(relations := old(relations) + TableRelations(table, infos[..k], requested))
      {
        ghost var done := TableRelations(table, infos[..k], requested);
        ghost var added := InfoRelations(table, infos[k], requested);
        TableRelationsSnoc(table, infos, k, requested);
        match infos[k] {
          case Column(masterField, foreignTable, foreignField) =>
            if foreignTable in requested {
              RelateRegistered(State(), Relation(table, masterField, foreignTable, Some(foreignField)), geometry);
              AddRelation(table, masterField, foreignTable, Some(foreignField));
            }
          case ForeignKeysData(keys) =>
            AddForeignKeys(table, keys, requested);
        }
        AppendAssoc(old(relations), done, added);
      }
      assert infos[..|infos|] == infos;
    }

    /** relationDraw for every relation, in order. */
    method DrawRelations()
      modifies this
      ensures State() == old(State()).(trace := old(trace) + RelationDraws(old(relations), options.showColor))
    {
      for i := 0 to |relations|
        invariant relations == old(relations)
        invariant State() == old(State()).(trace := old(trace) + RelationDraws(relations, options.showColor)[..i])
      {
        assert RelationDraws(relations, options.showColor)[..i + 1]
            == RelationDraws(relations, options.showColor)[..i] + [DrawRelation(relations[i], options.showColor)];
        trace := trace + [DrawRelation(relations[i], options.showColor)];
      }
      assert RelationDraws(relations, options.showColor)[..|relations|] == RelationDraws(relations, options.showColor);
    }

    /** tableDraw for every table, in insertion order. */
    method DrawTables()
      requires forall n :: n in tableOrder ==> n in tables
      modifies this
      ensures State() == old(State()).(trace := old(trace) + TableDraws(old(CurrentLayout()), options.showColor))
    {
      ghost var draws := TableDraws(CurrentLayout(), options.showColor);
      for i := 0 to |tableOrder|
        invariant State() == old(State()).(trace := old(trace) + draws[..i])
      {
        var t := tables[tableOrder[i]];
        var width := if t.sharedWidth then tableWidth else t.geometry.width;
        assert draws[..i + 1] == draws[..i] + [DrawTable(tableOrder[i], width, options.showColor)];
        trace := trace + [DrawTable(tableOrder[i], width, options.showColor)];
      }
      assert draws[..|tableOrder|] == draws;
    }

    /** The constructor's first loop: every requested table registered, in request order. */
    method RegisterTables(requested: seq<string>)
      requires State() == Schema(EmptyLayout, [], [])
      modifies this
      ensures State() == Schema(RegisterAll(EmptyLayout, requested, options, geometry), [], [])
    {
      for i := 0 to |requested|
        invariant State() == Schema(RegisterAll(EmptyLayout, requested[..i], options, geometry), [], [])
      {
        assert requested[..i + 1][..i] == requested[..i];
        RegisterTable(requested[i]);
      }
      assert requested[..|requested|] == requested;
    }

    /**
     * The constructor's relation loop: the relations of every requested
     * table with getForeigners data, and whether there was any such table.
     */
    method CollectRelations(requested: seq<string>) returns (seenRelation: bool)
      requires relations == [] && forall n :: n in requested ==> n in tables
      modifies this
      ensures State() == old(State()).(relations := AllRelations(requested, foreigners, requested))
      ensures seenRelation == SeenRelation(requested, foreigners)
    {
      seenRelation := false;
      for i := 0 to |requested|
        invariant State() == old(State()).(relations := AllRelations(requested[..i], foreigners, requested))
        invariant seenRelation == SeenRelation(requested[..i], foreigners)
      {
        assert requested[..i + 1][..i] == requested[..i];
        var existRel := foreigners(requested[i]);
        if existRel == [] {
          continue;
        }
        seenRelation := true;
        AddForeigners(requested[i], existRel, requested);
      }
      assert requested[..|requested|] == requested;
    }

    constructor(requested: seq<string>, options: Options, geometry: (string, bool) -> Geometry,
                foreigners: string -> seq<ForeignInfo>)
      ensures this.options == options && this.geometry == geometry && this.foreigners == foreigners
      ensures State() == Build(requested, options, geometry, foreigners)
    {
      this.options := options;
      this.geometry := geometry;
      this.foreigners := foreigners;
      tables := map[];
      tableOrder := [];
      relations := [];
      xMax := 0;
      yMax := 0;
      xMin := 100000;
      yMin := 100000;
      tableWidth := 0;
      trace := [];
      new;
      ghost var layout := RegisterAll(EmptyLayout, requested, options, geometry);
      ghost var rels := AllRelations(requested, foreigners, requested);
      ghost var draws := if SeenRelation(requested, foreigners) then RelationDraws(rels, options.showColor) else [];
      RegisterTables(requested);
      RegisterAllValid(requested, options, geometry);
      assert CurrentLayout() == layout && trace == [];
      var bounds := Box(xMax + Border, yMax + Border, xMin - Border, yMin - Border);
      assert bounds == Bounds(layout.box);
      trace := trace + [StartDoc(bounds)];
      assert trace == [StartDoc(bounds)];
      var seenRelation := CollectRelations(requested);
      if seenRelation {
        DrawRelations();
      }
      assert CurrentLayout() == layout && relations == rels;
      assert trace == [StartDoc(Bounds(layout.box))] + draws;
      DrawTables();
      trace := trace + [EndDoc];
      assert Build(requested, options, geometry, foreigners)
          == Schema(layout, rels, [StartDoc(Bounds(layout.box))] + draws + TableDraws(layout, options.showColor) + [EndDoc]);
    }
  }
}
