# phpMyAdmin: configuration file generator and SVG schema builder, in Dafny

This project models two parts of phpMyAdmin and proves properties of them.

**The setup script's configuration file generator** (`PhpMyAdmin\Setup\ConfigGenerator`).
- It turns the ordered configuration array of a `ConfigFile` into the text of a PHP file of `$cfg[...] = ...;` statements.
- The file has a header, then a server block, then every other setting, then the defaults of the persisted keys that no setting claimed.
- Its inputs are modelled as follows:
  - PHP values and arrays are modelled in `php_arrays.dfy`: an array is the sequence of its (key, value) entries in iteration order.
  - The statements the generator writes, their text, and what they store into `$cfg` are in `config_syntax.dfy`.
  - The generator itself is in `config_generator.dfy`.
  - Two places where the code does not do what it evidently intends are modelled as written, with an input that shows each, in `config_findings.dfy`.
- The string-building functions are methods with loops. Each is proved equal to a specification function of the lines it writes:
  - `ExportZeroBasedArray`
  - `GetVarExport`
  - `GetServerPart`
  - `GetConfigFile`, whose two loops are `WriteSettings` and `WriteDefaults`
- Properties are proved about those specification functions: key sanitization, the shape of each setting's statements, the server block's framing, which defaults are written, and a per-setting round trip through a small evaluation semantics.

**The SVG relation schema builder** (`PhpMyAdmin\Plugins\Schema\Svg\SvgRelationSchema`, in `svg_relation_schema.dfy`).
- The constructor works in three steps:
  1. It registers the requested tables and tightens a bounding box around them (`setMinMax`).
  2. It collects the foreign-key relations between requested tables (`addRelation`), expanding composite keys pairwise.
  3. It draws the document: start, relations if any table had foreign-key data, tables, end.
- The class keeps the source's fields:
  - the table map and its insertion order
  - the relation list
  - the four extrema
  - the shared width cell
  - a trace of drawing events
- Its methods are proved against the pure functions `Register`/`RegisterAll`, `Relate`, `AllRelations` and `Build`.
- Lemmas about those functions give:
  - the layout invariant;
  - the box enclosing every table;
  - the shared width being the largest own width;
  - relation ends being requested tables;
  - the order of the trace.

Inputs that the source reads from elsewhere are parameters:
- the line ending setting (`$_SESSION['eol']`);
- the version string;
- the date (`gmdate`);
- `var_export` (the opaque `varExport`);
- the `ConfigFile` accessors;
- the geometry `TableStatsSvg` computes for a table;
- the result of `Relation::getForeigners`.

## Model

| member | source | states |
|---|---|---|
| ConfigGenerator.Sanitize | libraries/classes/Setup/ConfigGenerator.php:63 | every character outside [A-Za-z0-9_] becomes `_`, the others stay; same length; the result is clean |
| ConfigGenerator.SanitizeFixesClean | libraries/classes/Setup/ConfigGenerator.php:185 | a key is left unchanged exactly when it already consists of [A-Za-z0-9_] only |
| ConfigGenerator.SanitizeIdempotent | libraries/classes/Setup/ConfigGenerator.php:63 | a property of the key sanitization: a sanitized key is left as it is when sanitized again |
| ConfigGenerator.KeyName | libraries/classes/Setup/ConfigGenerator.php:63 | `(string) $k` sanitized: clean, as long as the key's text |
| ConfigGenerator.IsZeroBasedArray | libraries/classes/Setup/ConfigGenerator.php:123-131 | true exactly when every key 0 .. count-1 is present with a non-null value (`isset`) |
| ConfigGenerator.ZeroBasedKeys | libraries/classes/Setup/ConfigGenerator.php:123-131 | an array accepted as zero-based has no other keys: every key is an integer in 0 .. count-1 |
| ConfigGenerator.ZeroBasedItemsRoundTrip | libraries/classes/Setup/ConfigGenerator.php:142-161 | the listed items, read back as `array(...)`, map every key to the value the exported array maps it to |
| ConfigGenerator.ZeroBasedItems | libraries/classes/Setup/ConfigGenerator.php:145-147 | the values to list, by index: the i-th is the array's non-null value under integer key i, one per entry (the corrected listing; see Findings) |
| ConfigGenerator.ExportItems | libraries/classes/Setup/ConfigGenerator.php:145-147 | the exported values of keys 0, 1, ..., count-1, in index order (the corrected listing; see Findings) |
| ConfigGenerator.ItemLines | libraries/classes/Setup/ConfigGenerator.php:152-158 | each item after the line ending and four spaces, with `,` before every item but the first |
| ConfigGenerator.ExportZeroBasedArray | libraries/classes/Setup/ConfigGenerator.php:142-161 | `array(` + exported items joined by `, ` for up to four items, else each after crlf and four spaces, separated by `,`, with `)` right after the last |
| ConfigGenerator.VarExportShape | libraries/classes/Setup/ConfigGenerator.php:93-114 | one `$cfg['name'] = ...;` statement exactly for a scalar, an empty or a zero-based array; otherwise one `$cfg['name']['sub'] = ...;` per entry, in order, with the sub-key sanitized |
| ConfigGenerator.GetVarExport | libraries/classes/Setup/ConfigGenerator.php:93-114 | the returned text is the rendering of those statements |
| ConfigGenerator.VarExportRoundTrip | libraries/classes/Setup/ConfigGenerator.php:93-114 | running the statements written for a setting gives the setting back (zero-based arrays with the same mapping) |
| ConfigGenerator.StarToDash | libraries/classes/Setup/ConfigGenerator.php:181 | `strtr` with a two-character and a one-character string: every `*` becomes `-`, every other character stays, same length |
| ConfigGenerator.ServerLabel | libraries/classes/Setup/ConfigGenerator.php:181 | the "name [id] " label of a server comment contains no `*` |
| ConfigGenerator.ServerCommentClosedOnce | libraries/classes/Setup/ConfigGenerator.php:180-182 | a server's header comment cannot contain `*/`, whatever the server name |
| ConfigGenerator.IncrementsPerServer | libraries/classes/Setup/ConfigGenerator.php:179-193 | the server blocks hold exactly one `$i++;` per server |
| ConfigGenerator.ServerPartShape | libraries/classes/Setup/ConfigGenerator.php:172-197 | nothing (null) exactly when the server count is 0; otherwise opens with the servers comment, `$i = 0;` and an empty line, has one `$i++;` per server, and closes with the end-of-servers comment and an empty line |
| ConfigGenerator.ServerValueText | libraries/classes/Setup/ConfigGenerator.php:187-189 | a server setting's value is listed when it is a zero-based array, else var_export-ed |
| ConfigGenerator.ServerSettingsText | libraries/classes/Setup/ConfigGenerator.php:184-191 | one `$cfg['Servers'][$i]['key'] = ...;` per setting of the server, in order, key sanitized |
| ConfigGenerator.ServerBlockText | libraries/classes/Setup/ConfigGenerator.php:180-192 | a server's header comment, `$i++;`, its settings and an empty line |
| ConfigGenerator.GetServerPart | libraries/classes/Setup/ConfigGenerator.php:172-197 | the returned text (or null) is the rendering of the server part's lines |
| ConfigGenerator.Crlf | libraries/classes/Setup/ConfigGenerator.php:38-40 | the line ending is CR LF exactly when the eol setting is "win", LF otherwise |
| ConfigGenerator.HeaderShape | libraries/classes/Setup/ConfigGenerator.php:44-51 | the header opens with `<?php` and a line ending, closes with ` */`, a line ending and an empty line, and is as long as its fixed text plus seven line endings, the version and the date |
| ConfigGenerator.ConfigFileFraming | libraries/classes/Setup/ConfigGenerator.php:44-81 | the file opens with the header and ends with one extra line ending |
| ConfigGenerator.KeyNameServers | libraries/classes/Setup/ConfigGenerator.php:63 | a key is written as "Servers" only if it is the string key "Servers" |
| ConfigGenerator.ServersWrittenOnce | libraries/classes/Setup/ConfigGenerator.php:54-64 | after the server part was written, no setting of the settings loop is written under "Servers" |
| ConfigGenerator.ServersDefaultWritten | libraries/classes/Setup/ConfigGenerator.php:54-79 | after the server part was written, the defaults loop still writes `$cfg['Servers']` exactly when "Servers" is a persisted key, since the server part does not strike it from them |
| ConfigGenerator.Unclaimed | libraries/classes/Setup/ConfigGenerator.php:60-70 | the persisted keys left are exactly those that are not the sanitized name of a written setting |
| ConfigGenerator.DefaultKeys | libraries/classes/Setup/ConfigGenerator.php:72-76 | the keys whose defaults are written are exactly the remaining ones without `/` |
| ConfigGenerator.DefaultsWritten | libraries/classes/Setup/ConfigGenerator.php:60-79 | a persisted key gets its default written iff it is no written setting's name and has no `/`; a clean one is never written a second time |
| ConfigGenerator.WriteSettings | libraries/classes/Setup/ConfigGenerator.php:62-70 | the text of every setting in order, and the persisted keys with every written name struck out |
| ConfigGenerator.WriteDefaults | libraries/classes/Setup/ConfigGenerator.php:72-79 | the text of the default of every remaining key without `/`, under its sanitized name |
| ConfigGenerator.GetConfigFile | libraries/classes/Setup/ConfigGenerator.php:36-82 | the file is the header, the server part when Servers is non-empty, the other settings, the unclaimed defaults and a line ending |
| PhpArrays.RemoveKey | libraries/classes/Setup/ConfigGenerator.php:56 | `unset`: no entry with the key remains, every other entry does |
| ConfigFindings.ZeroBasedItemsAsWritten | libraries/classes/Setup/ConfigGenerator.php:145-147 | the items exportZeroBasedArray lists: the values in iteration order |
| ConfigFindings.AsWrittenAgreesInOrder | libraries/classes/Setup/ConfigGenerator.php:145-147 | when the keys come in order 0, 1, ... the as-written listing equals the by-index listing |
| ConfigFindings.OutOfOrderListChangesValue | libraries/classes/Setup/ConfigGenerator.php:145-147 | [1 => 'x', 0 => 'y'] is accepted as zero-based, listed as 'x', 'y', and reads back with 'x' under 0 |
| ConfigFindings.SubkeyNameAsWritten | libraries/classes/Setup/ConfigGenerator.php:107 | on PHP 8.0 and later, preg_replace on the sub-key throws exactly for an integer key |
| ConfigFindings.PerKeyStmtsAsWritten | libraries/classes/Setup/ConfigGenerator.php:106-110 | on PHP 8.0 and later, the per-key branch fails exactly when some key is an integer, and otherwise writes the corrected statements |
| ConfigFindings.IntegerSubkeyThrows | libraries/classes/Setup/ConfigGenerator.php:106-110 | [1 => 'a'] reaches the per-key branch and throws as written on PHP 8.0 and later; corrected it writes `$cfg['name']['1'] = 'a';` |
| SvgSchema.Widen | libraries/classes/Plugins/Schema/Svg/SvgRelationSchema.php:190-196 | setMinMax: the box only grows, encloses the table's rectangle, and is the smallest such box |
| SvgSchema.Bounds | libraries/classes/Plugins/Schema/Svg/SvgRelationSchema.php:109-115 | the document bounds are the box pushed out by 15 on every side |
| SvgSchema.RegisterStep | libraries/classes/Plugins/Schema/Svg/SvgRelationSchema.php:88-106 | registering a table keeps the layout invariant: map and order hold the same tables once each, the shared width is at least every own width, and the box encloses every table |
| SvgSchema.RegisterGrows | libraries/classes/Plugins/Schema/Svg/SvgRelationSchema.php:88-106 | registering grows the box and the shared width, and never replaces a present table or reorders when the table was present |
| SvgSchema.RegisterAllValid | libraries/classes/Plugins/Schema/Svg/SvgRelationSchema.php:87-107 | after the first loop the tables are exactly the requested ones, each once, and the box encloses every one of them |
| SvgSchema.RegisterAllGrows | libraries/classes/Plugins/Schema/Svg/SvgRelationSchema.php:87-107 | over the first loop the maxima never decrease, the minima never increase, the shared width never drops |
| SvgSchema.RegisterAllTables | libraries/classes/Plugins/Schema/Svg/SvgRelationSchema.php:96-105 | every table has the geometry computed with the schema's show-keys flag and references the shared width exactly when the same-width option is on |
| SvgSchema.RegisterAllKeys | libraries/classes/Plugins/Schema/Svg/SvgRelationSchema.php:87-107 | after the first loop the tables are exactly the requested ones |
| SvgSchema.RegisterAllCell | libraries/classes/Plugins/Schema/Svg/SvgRelationSchema.php:89-100 | the shared width ends as the largest own width among the requested tables (0 when none) |
| SvgSchema.KeyRelations | libraries/classes/Plugins/Schema/Svg/SvgRelationSchema.php:151-161 | a composite key adds one relation per position of index_list, paired with the same position of ref_index_list (null when missing) |
| SvgSchema.KeysRelations | libraries/classes/Plugins/Schema/Svg/SvgRelationSchema.php:146-162 | foreign_keys_data adds relations only towards requested tables (all of them: KeysRelationsExact) |
| SvgSchema.KeysRelationsExact | libraries/classes/Plugins/Schema/Svg/SvgRelationSchema.php:146-162 | a relation is in the expanded foreign keys exactly when it is a position of a key whose referenced table was requested |
| SvgSchema.InfoRelations | libraries/classes/Plugins/Schema/Svg/SvgRelationSchema.php:125-163 | a getForeigners entry adds relations from this table only towards requested tables (all of them: InfoRelationsExact) |
| SvgSchema.InfoRelationsExact | libraries/classes/Plugins/Schema/Svg/SvgRelationSchema.php:130-162 | a relation comes from a getForeigners entry exactly when the entry is a column relation to a requested table, or a foreign key to a requested table with the relation at one of its positions |
| SvgSchema.TableRelations | libraries/classes/Plugins/Schema/Svg/SvgRelationSchema.php:125-163 | a table's relations all start at that table and end at a requested table (all of them: TableRelationsExact) |
| SvgSchema.TableRelationsExact | libraries/classes/Plugins/Schema/Svg/SvgRelationSchema.php:125-163 | a relation is among a table's relations exactly when one of its getForeigners entries stands for it |
| SvgSchema.AllRelations | libraries/classes/Plugins/Schema/Svg/SvgRelationSchema.php:117-164 | every collected relation runs between two requested tables |
| SvgSchema.AllRelationsExact | libraries/classes/Plugins/Schema/Svg/SvgRelationSchema.php:117-164 | a relation is collected exactly when some getForeigners entry of a requested table stands for it: none is lost, none is made up |
| SvgSchema.AllRelationsComplete | libraries/classes/Plugins/Schema/Svg/SvgRelationSchema.php:130-160 | every column relation and every position of every foreign key of a requested table that points to a requested table is collected |
| SvgSchema.Relate | libraries/classes/Plugins/Schema/Svg/SvgRelationSchema.php:214-258 | addRelation appends the relation and leaves both ends registered |
| SvgSchema.RelateRegistered | libraries/classes/Plugins/Schema/Svg/SvgRelationSchema.php:223-250 | with both ends registered, addRelation creates no table and changes nothing but the relation list |
| SvgSchema.RelateValid | libraries/classes/Plugins/Schema/Svg/SvgRelationSchema.php:223-250 | a table addRelation creates is fitted into the box; the layout invariant holds |
| SvgSchema.BuildTrace | libraries/classes/Plugins/Schema/Svg/SvgRelationSchema.php:109-170 | the document starts at the bordered box, which encloses every requested table; relations are drawn only if a requested table had foreign-key data, all before any table; every requested table is drawn exactly once; the document ends last |
| SvgSchema.SameWidthOverflow | libraries/classes/Plugins/Schema/Svg/SvgRelationSchema.php:87-107 | with the same-width option, table A at x = 1000 with width 100 and then B with width 500 leave the box ending at x = 1100 while A is drawn 500 wide |
| SvgSchema.BuildWidths | libraries/classes/Plugins/Schema/Svg/SvgRelationSchema.php:103-105 | with the same-width option every table is drawn with one width, the largest own width; without it each is drawn with its own width inside the box |
| SvgSchema.SvgRelationSchema.SetMinMax | libraries/classes/Plugins/Schema/Svg/SvgRelationSchema.php:190-196 | the extrema become those of `Widen` for the table's current width; nothing else changes |
| SvgSchema.SvgRelationSchema.NewTable | libraries/classes/Plugins/Schema/Svg/SvgRelationSchema.php:89-100 | the table is stored and appended to the order, and the shared width is raised to its width |
| SvgSchema.SvgRelationSchema.RegisterTable | libraries/classes/Plugins/Schema/Svg/SvgRelationSchema.php:88-106 | the state after one pass of the first loop is `Register` of the state before |
| SvgSchema.SvgRelationSchema.RegisterTables | libraries/classes/Plugins/Schema/Svg/SvgRelationSchema.php:87-107 | the state after the first loop is `RegisterAll` of the requested tables |
| SvgSchema.SvgRelationSchema.AddRelation | libraries/classes/Plugins/Schema/Svg/SvgRelationSchema.php:214-258 | the state after addRelation is `Relate` of the state before |
| SvgSchema.SvgRelationSchema.AddKeyRelations | libraries/classes/Plugins/Schema/Svg/SvgRelationSchema.php:151-161 | a composite key appends exactly its pairwise relations and registers no table |
| SvgSchema.SvgRelationSchema.AddForeignKeys | libraries/classes/Plugins/Schema/Svg/SvgRelationSchema.php:146-162 | foreign_keys_data appends exactly the relations towards requested tables |
| SvgSchema.SvgRelationSchema.AddForeigners | libraries/classes/Plugins/Schema/Svg/SvgRelationSchema.php:125-163 | a table's getForeigners entries append exactly its relations towards requested tables |
| SvgSchema.SvgRelationSchema.CollectRelations | libraries/classes/Plugins/Schema/Svg/SvgRelationSchema.php:117-164 | the relation list becomes `AllRelations` of the requested tables, and the flag says whether any had foreign-key data |
| SvgSchema.SvgRelationSchema.DrawRelations | libraries/classes/Plugins/Schema/Svg/SvgRelationSchema.php:269-274 | one relation-draw event per relation, in order |
| SvgSchema.SvgRelationSchema.DrawTables | libraries/classes/Plugins/Schema/Svg/SvgRelationSchema.php:283-288 | one table-draw event per table, in insertion order, with the width it has at drawing time |
| SvgSchema.SvgRelationSchema.constructor | libraries/classes/Plugins/Schema/Svg/SvgRelationSchema.php:65-171 | the finished schema (tables, box, relations, trace) is `Build` of the request |

## Left out

- libraries/classes/Plugins/Transformations/Abs/ExternalTransformationsPlugin.php is not part of this model. It wraps an external program through process pipes, and its list of allowed programs is empty.
- `var_export` is the opaque parameter `varExport`, and its literal syntax is not modelled. The round trip assumes that a var_export literal evaluates to the value it was made from.
- Running the generated file is modelled by a small evaluation semantics of one setting's statements (`ConfigSyntax.SettingValue`), not by a PHP interpreter.
- VarExportRoundTrip: proved only for arrays whose keys are distinct and, outside the zero-based case, are string keys that sanitization leaves unchanged. PHP turns a string key like '1' back into an integer key, and sanitized keys can collide; the model's semantics does neither.
- ConfigGenerator.GetConfigFile: requires that a non-empty Servers setting is an array. Otherwise the source fails with a TypeError at getServerPart's `array` parameter, and that error path is not modelled.
- A persisted key that PHP stores as an integer key (a decimal string) would make `mb_strpos` throw under strict types. The model treats every persisted key as a string.
- Sanitize: works on characters. `preg_replace` without the `u` flag works on bytes, so a multi-byte character becomes several `_` in the source and one in the model.
- The date, the version, the session's eol setting and the request flags are parameters. The diagram's title, author and font calls are not modelled.
- The computation inside `TableStatsSvg`, `RelationStatsSvg` and `Svg` is not part of this model:
  - A table's geometry is an input, indexed by name and show-keys flag.
  - Drawing is a trace of events.
  - Font, font size, page number, the table-dimension flag and offline mode only reach that geometry.
- `Relation::getForeigners` (a database lookup) is an input. `showOutput` and `getFileName` (HTTP download) are not modelled.
- Coordinates are integers; the source allows floats.
- `in_array` is strict membership here; PHP's `in_array` compares loosely.
- `$tablewidth` starts as null in the source and as 0 here. They differ only for a table with a negative width.
- `TableStatsSvg` receives the shared width cell by reference and is taken to raise it to its own width; that class is not part of this model.
- SvgSchema.BuildTrace: the box encloses each table with its own width. With the same-width option, setMinMax reads the shared width as it stands when each table is registered. A table registered later can raise the shared width, so earlier tables are drawn wider than the box allowed for; SameWidthOverflow gives such an input. BuildWidths proves tables are drawn inside the box only without that option. The model keeps the source's box, since no fix is evident from the code (refitting after the loop and fitting with the final width are both plausible).
- A string key holding a decimal integer cannot occur in PHP, which turns such keys into integers. The datatype does not rule it out; the model assumes its arrays were built by PHP.

## Findings

| source | as written | input that shows it | evidently intended | confidence | as-written member | corrected member |
|---|---|---|---|---|---|---|
| libraries/classes/Setup/ConfigGenerator.php:145-147 | exportZeroBasedArray lists the values in iteration order, but isZeroBasedArray accepts keys 0 .. n-1 in any order | [1 => 'x', 0 => 'y'] is written as `array('x', 'y')`, which reads back as [0 => 'x', 1 => 'y'] | list `$array[0]` .. `$array[n-1]` by index | not executed; medium (depends on whether such arrays reach the generator) | ConfigFindings.ZeroBasedItemsAsWritten, ConfigFindings.OutOfOrderListChangesValue | ConfigGenerator.ZeroBasedItems, ConfigGenerator.ZeroBasedItemsRoundTrip |
| libraries/classes/Setup/ConfigGenerator.php:107 | getVarExport passes an integer sub-key to preg_replace without the `(string)` cast used at lines 63 and 185, which is a TypeError under strict_types=1 on PHP 8.0 and later (PHP 7 converts the integer, as the corrected model does) | a setting whose value is [1 => 'a'] (non-empty, not zero-based) | cast the key to string, as the other two call sites do | not executed; high | ConfigFindings.PerKeyStmtsAsWritten, ConfigFindings.IntegerSubkeyThrows | ConfigGenerator.KeyName, ConfigGenerator.VarExportShape |
