/**
 * The `mise registry` command of src/cli/registry.rs: print one tool's backends, or assemble
 * the sorted listing of every registry tool and core plugin. Rendering the table is left out;
 * the command's outcome is the line or the rows it would print.
 */
module CliRegistry {
  import opened Wrappers
  import opened Seqs
  import opened Text
  import opened Registry

  /** One row of the listing. */
  datatype Row = Row(short: string, full: string)

  /** The command's arguments: an optional tool name and an optional `--backend` kind. */
  datatype Command = Command(name: Option<string>, backend: Option<string>)

  /** What `run` prints on success. */
  datatype Output = Line(text: string) | Table(rows: seq<Row>)

  const NotFoundPrefix: string := "tool not found in registry: "

  /** The `BackendType::Core` kind. */
  const CoreKind: string := "core"

  // ---------------------------------------------------------------------------------------------
  // Named lookup

  /**
   * `mise registry <name>`: the tool's allowed backends separated by spaces, or the
   * not-found error. `--backend` plays no part.
   */
  function Lookup(registry: map<string, RegistryTool>, kinds: set<string>, name: string): (r: Result<string, string>)
    ensures r.Ok? <==> name in registry
    ensures r.Err? ==> r.error == NotFoundPrefix + name
  {
    if name in registry then Ok(Join(Backends(registry[name], kinds), " "))
    else Err(NotFoundPrefix + name)
  }

  /** The printed line splits back into the tool's allowed backends (none holds a space). */
  lemma LookupListsBackends(registry: map<string, RegistryTool>, kinds: set<string>, name: string)
    requires name in registry
    requires Backends(registry[name], kinds) != []
    requires forall b :: b in registry[name].backends ==> ' ' !in b
    ensures Lookup(registry, kinds, name).Ok?
    ensures Split(Lookup(registry, kinds, name).value, ' ') == Backends(registry[name], kinds)
  {
    SplitJoin(Backends(registry[name], kinds), ' ');
  }

  // ---------------------------------------------------------------------------------------------
  // The listing

  /** The test the `filter_backend` closure applies under `--backend kind`. */
  function HasKindPrefix(kind: string): string -> bool {
    full => StartsWith(full, kind + ":")
  }

  /**
   * The `filter_backend` closure: under `--backend kind`, the allowed backends that start with
   * `kind:`; without it, the declared backends as they are, unfiltered by the settings.
   */
  function FilterBackend(tool: RegistryTool, kinds: set<string>, backend: Option<string>): (r: seq<string>)
    ensures backend.None? ==> r == tool.backends
    ensures backend.Some? ==> forall b :: b in r <==>
              b in tool.backends && Kind(b) in kinds && StartsWith(b, backend.value + ":")
  {
    match backend
    case Some(kind) => Filter(Backends(tool, kinds), HasKindPrefix(kind))
    case None => tool.backends
  }

  /** Under `--backend kind` the row keeps the order of `backends()`. */
  lemma FilterBackendKeepsOrder(tool: RegistryTool, kinds: set<string>, kind: string)
    ensures IsSubsequence(FilterBackend(tool, kinds, Some(kind)), Backends(tool, kinds))
  {
    FilterSubsequence(Backends(tool, kinds), HasKindPrefix(kind));
  }

  /** Under `--backend kind`, only backends of that kind, allowed by the settings, are shown. */
  lemma FilterBackendOfKind(tool: RegistryTool, kinds: set<string>, kind: string)
    requires ':' !in kind
    ensures forall b :: b in FilterBackend(tool, kinds, Some(kind)) ==> Kind(b) == kind && kind in kinds
  {
    forall b | b in FilterBackend(tool, kinds, Some(kind)) ensures Kind(b) == kind && kind in kinds {
      KindOfPrefixed(b, kind);
    }
  }

  /** Under `--backend kind` the row is the settings filter and the kind filter in one. */
  lemma FilterBackendIsOneFilter(tool: RegistryTool, kinds: set<string>, kind: string)
    requires ':' !in kind
    ensures FilterBackend(tool, kinds, Some(kind))
            == Filter(tool.backends, (b: string) => Kind(b) in kinds && StartsWith(b, kind + ":"))
  {
    FilterFilter(tool.backends, AllowedBy(kinds), HasKindPrefix(kind),
                 (b: string) => Kind(b) in kinds && StartsWith(b, kind + ":"));
  }

  /** The row `(short, full)` a registry tool contributes before empty rows are dropped. */
  function RegistryRow(registry: map<string, RegistryTool>, kinds: set<string>, backend: Option<string>,
                       short: string): (row: Row)
    requires short in registry
    ensures row.short == short
    ensures var shown := FilterBackend(registry[short], kinds, backend);
            row.full == [] <==> shown == [] || (|shown| == 1 && shown[0] == [])
  {
    Row(short, Join(FilterBackend(registry[short], kinds, backend), " "))
  }

  function HasFull(row: Row): bool {
    row.full != []
  }

  /** The `map` stage of the listing: one row per registry key, in iteration order. */
  function KeyRows(registry: map<string, RegistryTool>, keys: seq<string>, kinds: set<string>,
                   backend: Option<string>): (rows: seq<Row>)
    requires forall k :: k in keys ==> k in registry
    ensures |rows| == |keys|
    ensures forall i :: 0 <= i < |keys| ==> rows[i].short == keys[i]
    ensures forall row :: row in rows <==> row.short in keys && row == RegistryRow(registry, kinds, backend, row.short)
  {
    if keys == [] then []
    else [RegistryRow(registry, kinds, backend, keys[0])] + KeyRows(registry, keys[1..], kinds, backend)
  }

  /**
   * The registry part of the listing: one row per key, in iteration order, without the rows
   * whose `full` is empty.
   */
  function RegistryRows(registry: map<string, RegistryTool>, keys: seq<string>, kinds: set<string>,
                        backend: Option<string>): (rows: seq<Row>)
    requires forall k :: k in keys ==> k in registry
    ensures forall row :: row in rows <==>
              row.short in keys && row == RegistryRow(registry, kinds, backend, row.short) && row.full != []
    ensures Distinct(keys) ==> Distinct(rows)
  {
    var all := KeyRows(registry, keys, kinds, backend);
    assert Distinct(keys) ==> Distinct(all);
    if Distinct(keys) then FilterDistinct(all, HasFull); Filter(all, HasFull)
    else Filter(all, HasFull)
  }

  /**
   * When no declared backend is the empty string, a registry row is dropped exactly when its
   * backend list is empty.
   */
  lemma RegistryRowDropped(registry: map<string, RegistryTool>, kinds: set<string>, backend: Option<string>,
                           short: string)
    requires short in registry
    requires forall b :: b in registry[short].backends ==> b != []
    ensures RegistryRow(registry, kinds, backend, short).full == [] <==> FilterBackend(registry[short], kinds, backend) == []
  {
    var parts := FilterBackend(registry[short], kinds, backend);
    if |parts| == 1 {
      assert parts[0] in registry[short].backends;
    }
  }

  /** The core plugin rows `(short, "core:" + short)`. */
  function CoreRows(coreKeys: seq<string>): (rows: seq<Row>)
    ensures forall row :: row in rows <==> row.short in coreKeys && row.full == CoreKind + ":" + row.short
  {
    var rows := seq(|coreKeys|, i requires 0 <= i < |coreKeys| => Row(coreKeys[i], CoreKind + ":" + coreKeys[i]));
    assert forall row: Row :: row.short in coreKeys && row.full == CoreKind + ":" + row.short ==> row in rows by {
      forall row: Row | row.short in coreKeys && row.full == CoreKind + ":" + row.short ensures row in rows {
        var i :| 0 <= i < |coreKeys| && coreKeys[i] == row.short;
        assert rows[i] == row;
      }
    }
    rows
  }

  /** Core plugins are listed without `--backend` and under `--backend core`. */
  predicate IncludesCore(backend: Option<string>) {
    backend.None? || backend == Some(CoreKind)
  }

  // ---------------------------------------------------------------------------------------------
  // Sorting by short name

  predicate SortedByShort(rows: seq<Row>) {
    forall i, j :: 0 <= i < j < |rows| ==> LexLessEq(rows[i].short, rows[j].short)
  }

  /** Insert `x` before the first row whose short name is not smaller. */
  function Insert(x: Row, rows: seq<Row>): seq<Row> {
    if rows == [] || LexLessEq(x.short, rows[0].short) then [x] + rows
    else [rows[0]] + Insert(x, rows[1..])
  }

  lemma {:induction false} InsertCounts(x: Row, rows: seq<Row>)
    ensures multiset(Insert(x, rows)) == multiset(rows) + multiset{x}
  {
    if rows != [] && !LexLessEq(x.short, rows[0].short) {
      InsertCounts(x, rows[1..]);
      assert rows == [rows[0]] + rows[1..];
    }
  }

  /** Each row's short name is at most the next one's. */
  predicate AdjacentSorted(rows: seq<Row>) {
    forall i :: 0 < i < |rows| ==> LexLessEq(rows[i - 1].short, rows[i].short)
  }

  /** Ordered neighbours make an ordered sequence, the order being transitive. */
  lemma {:induction false} AdjacentSortedIsSorted(rows: seq<Row>)
    requires AdjacentSorted(rows)
    ensures SortedByShort(rows)
  {
    if rows != [] {
      var rest := rows[1..];
      assert AdjacentSorted(rest) by {
        forall i | 0 < i < |rest| ensures LexLessEq(rest[i - 1].short, rest[i].short) {
          assert rest[i - 1] == rows[i] && rest[i] == rows[i + 1];
        }
      }
      AdjacentSortedIsSorted(rest);
      forall j | 1 < j < |rows| ensures LexLessEq(rows[0].short, rows[j].short) {
        assert rows[j] == rest[j - 1] && rows[1] == rest[0];
        LexLessEqTrans(rows[0].short, rows[1].short, rows[j].short);
      }
      forall i, j | 0 <= i < j < |rows| ensures LexLessEq(rows[i].short, rows[j].short) {
        if i > 0 {
          assert rows[i] == rest[i - 1] && rows[j] == rest[j - 1];
        }
      }
    }
  }

  /** Inserting into a sequence with ordered neighbours keeps its neighbours ordered. */
  lemma {:induction false} InsertAdjacentSorted(x: Row, rows: seq<Row>)
    requires AdjacentSorted(rows)
    ensures AdjacentSorted(Insert(x, rows))
  {
    if rows != [] && !LexLessEq(x.short, rows[0].short) {
      var tail := rows[1..];
      assert AdjacentSorted(tail) by {
        forall i | 0 < i < |tail| ensures LexLessEq(tail[i - 1].short, tail[i].short) {
          assert tail[i - 1] == rows[i] && tail[i] == rows[i + 1];
        }
      }
      InsertAdjacentSorted(x, tail);
      var rest := Insert(x, tail);
      LexLessEqTotal(x.short, rows[0].short);
      assert LexLessEq(rows[0].short, rest[0].short);
      var r := [rows[0]] + rest;
      forall i | 0 < i < |r| ensures LexLessEq(r[i - 1].short, r[i].short) {
        if i > 1 {
          assert r[i - 1] == rest[i - 2] && r[i] == rest[i - 1];
        }
      }
    }
  }

  /** A sequence sorted throughout has ordered neighbours. */
  lemma SortedIsAdjacentSorted(rows: seq<Row>)
    requires SortedByShort(rows)
    ensures AdjacentSorted(rows)
  {
  }

  /**
   * `sorted_by(|a, b| a.short.cmp(&b.short))`: the same rows, in ascending order of their
   * short names.
   */
  function SortByShort(rows: seq<Row>): (r: seq<Row>)
    ensures SortedByShort(r)
    ensures multiset(r) == multiset(rows)
  {
    if rows == [] then []
    else
      var sortedRest := SortByShort(rows[1..]);
      SortedIsAdjacentSorted(sortedRest);
      InsertAdjacentSorted(rows[0], sortedRest);
      AdjacentSortedIsSorted(Insert(rows[0], sortedRest));
      InsertCounts(rows[0], sortedRest);
      assert rows == [rows[0]] + rows[1..];
      Insert(rows[0], sortedRest)
  }

  /** The rows with the given short name, in order. */
  function Named(rows: seq<Row>, short: string): seq<Row> {
    if rows == [] then []
    else (if rows[0].short == short then [rows[0]] else []) + Named(rows[1..], short)
  }

  lemma {:induction false} NamedAppend(a: seq<Row>, b: seq<Row>, short: string)
    ensures Named(a + b, short) == Named(a, short) + Named(b, short)
  {
    if a != [] {
      assert (a + b)[1..] == a[1..] + b;
      NamedAppend(a[1..], b, short);
    } else {
      assert a + b == b;
    }
  }

  /** Inserting a row keeps, among rows with any one short name, their relative order. */
  lemma {:induction false} InsertStable(x: Row, rows: seq<Row>, short: string)
    ensures Named(Insert(x, rows), short) == (if x.short == short then [x] else []) + Named(rows, short)
  {
    if rows == [] || LexLessEq(x.short, rows[0].short) {
      NamedAppend([x], rows, short);
    } else {
      var rest := Insert(x, rows[1..]);
      NamedAppend([rows[0]], rest, short);
      NamedAppend([rows[0]], rows[1..], short);
      assert [rows[0]] + rows[1..] == rows;
      InsertStable(x, rows[1..], short);
      if x.short == short {
        LexLessEqRefl(short);
      }
    }
  }

  /** The sort is stable: rows with the same short name keep their relative order. */
  lemma {:induction false} SortStable(rows: seq<Row>, short: string)
    ensures Named(SortByShort(rows), short) == Named(rows, short)
  {
    if rows != [] {
      SortStable(rows[1..], short);
      InsertStable(rows[0], SortByShort(rows[1..]), short);
      NamedAppend([rows[0]], rows[1..], short);
      assert [rows[0]] + rows[1..] == rows;
    }
  }

  /** The rows named `short` are the rows of `rows` whose short name is `short`. */
  lemma {:induction false} NamedMembers(rows: seq<Row>, short: string)
    ensures forall r :: r in Named(rows, short) <==> r in rows && r.short == short
  {
    if rows != [] {
      NamedMembers(rows[1..], short);
      assert rows == [rows[0]] + rows[1..];
    }
  }

  /** In a sorted sequence the first row's short name is at most every other row's. */
  lemma SortedHeadLeast(rows: seq<Row>, r: Row)
    requires SortedByShort(rows) && rows != [] && r in rows
    ensures LexLessEq(rows[0].short, r.short)
  {
    var j :| 0 <= j < |rows| && rows[j] == r;
    if j == 0 {
      LexLessEqRefl(r.short);
    }
  }

  /**
   * A sorted sequence is determined by the order of the rows under each short name: two sorted
   * sequences that agree on every `Named` are equal.
   */
  lemma {:induction false} SortedNamedDetermined(a: seq<Row>, b: seq<Row>)
    requires SortedByShort(a) && SortedByShort(b)
    requires forall s :: Named(a, s) == Named(b, s)
    ensures a == b
    decreases |a|
  {
    if a == [] || b == [] {
      var c := if a == [] then b else a;
      if c != [] {
        NamedMembers(a, c[0].short);
        NamedMembers(b, c[0].short);
        assert false;
      }
    } else {
      var x, y := a[0].short, b[0].short;
      NamedMembers(a, x);
      NamedMembers(b, x);
      NamedMembers(a, y);
      NamedMembers(b, y);
      assert Named(a, x) == Named(b, x) && Named(a, y) == Named(b, y);
      SortedHeadLeast(b, a[0]);
      SortedHeadLeast(a, b[0]);
      LexLessEqAntisym(x, y);
      assert x == y;
      assert Named(a, x)[0] == a[0] && Named(b, x)[0] == b[0];
      assert a[0] == b[0];
      forall s ensures Named(a[1..], s) == Named(b[1..], s) {
        assert Named(a, s) == Named(b, s);
        if x == s {
          assert Named(a, s) == [a[0]] + Named(a[1..], s);
          assert Named(b, s) == [b[0]] + Named(b[1..], s);
          assert Named(a[1..], s) == Named(a, s)[1..];
          assert Named(b[1..], s) == Named(b, s)[1..];
        } else {
          assert Named(a, s) == [] + Named(a[1..], s) == Named(a[1..], s);
          assert Named(b, s) == [] + Named(b[1..], s) == Named(b[1..], s);
        }
      }
      SortedNamedDetermined(a[1..], b[1..]);
      assert a == [a[0]] + a[1..] && b == [b[0]] + b[1..];
    }
  }

  /**
   * The sort is the only stable sort: a sorted sequence that keeps every short name's rows in
   * their input order is `SortByShort`'s result.
   */
  lemma SortByShortUnique(rows: seq<Row>, r: seq<Row>)
    requires SortedByShort(r)
    requires forall s :: Named(r, s) == Named(rows, s)
    ensures r == SortByShort(rows)
  {
    forall s ensures Named(r, s) == Named(SortByShort(rows), s) {
      SortStable(rows, s);
    }
    SortedNamedDetermined(r, SortByShort(rows));
  }

  /** Sorting `a` followed by `b` keeps, under each short name, `a`'s rows before `b`'s. */
  lemma SortStableAppend(a: seq<Row>, b: seq<Row>, data: seq<Row>)
    requires data == a + b
    ensures forall s :: Named(SortByShort(data), s) == Named(a, s) + Named(b, s)
  {
    forall s ensures Named(SortByShort(data), s) == Named(a, s) + Named(b, s) {
      SortStable(data, s);
      NamedAppend(a, b, s);
    }
  }

  // ---------------------------------------------------------------------------------------------
  // The command

  /** A row appears in the listing: a registry tool with a non-empty `full`, or a core plugin. */
  predicate Listed(registry: map<string, RegistryTool>, coreKeys: seq<string>, kinds: set<string>,
                   backend: Option<string>, row: Row)
  {
    || (row.short in registry && row == RegistryRow(registry, kinds, backend, row.short) && row.full != [])
    || (IncludesCore(backend) && row.short in coreKeys && row.full == CoreKind + ":" + row.short)
  }

  /** Any arrangement of the assembled rows holds exactly the listed rows. */
  lemma AssembledRowsListed(registry: map<string, RegistryTool>, keys: seq<string>, coreKeys: seq<string>,
                            kinds: set<string>, backend: Option<string>, rows: seq<Row>)
    requires forall k :: k in keys <==> k in registry
    requires multiset(rows) == multiset(RegistryRows(registry, keys, kinds, backend))
                               + if IncludesCore(backend) then multiset(CoreRows(coreKeys)) else multiset{}
    ensures forall row :: row in rows <==> Listed(registry, coreKeys, kinds, backend, row)
  {
    forall row ensures row in rows <==> Listed(registry, coreKeys, kinds, backend, row) {
      assert row in rows <==> row in multiset(rows);
      assert row in RegistryRows(registry, keys, kinds, backend)
             <==> row in multiset(RegistryRows(registry, keys, kinds, backend));
      assert row in CoreRows(coreKeys) <==> row in multiset(CoreRows(coreKeys));
    }
  }

  /**
   * `Registry::run`. `keys` is the registry's iteration order, each key once; `coreKeys` are the
   * `CORE_PLUGINS` keys.
   */
  method Run(cmd: Command, registry: map<string, RegistryTool>, keys: seq<string>,
             coreKeys: seq<string>, kinds: set<string>) returns (out: Result<Output, string>)
    requires forall k :: k in keys <==> k in registry
    requires Distinct(keys)
    ensures cmd.name.Some? && cmd.name.value in registry ==>
              out == Ok(Line(Join(Backends(registry[cmd.name.value], kinds), " ")))
    ensures cmd.name.Some? && cmd.name.value !in registry ==>
              out == Err(NotFoundPrefix + cmd.name.value)
    ensures cmd.name.None? ==> out.Ok? && out.value.Table?
    ensures cmd.name.None? ==> SortedByShort(out.value.rows)
    ensures cmd.name.None? ==>
              forall row :: row in out.value.rows <==> Listed(registry, coreKeys, kinds, cmd.backend, row)
    ensures cmd.name.None? ==>
      (multiset(out.value.rows) == multiset(RegistryRows(registry, keys, kinds, cmd.backend))
                                   + if IncludesCore(cmd.backend) then multiset(CoreRows(coreKeys)) else multiset{})
    ensures cmd.name.None? ==>
      forall s :: Named(out.value.rows, s) == Named(RegistryRows(registry, keys, kinds, cmd.backend), s)
                                              + Named(if IncludesCore(cmd.backend) then CoreRows(coreKeys) else [], s)
  {
    if cmd.name.Some? {
      var found := Lookup(registry, kinds, cmd.name.value);
      match found {
        case Ok(line) => out := Ok(Line(line));
        case Err(message) => out := Err(message);
      }
    } else {
      var data := RegistryRows(registry, keys, kinds, cmd.backend);
      if IncludesCore(cmd.backend) {
        data := data + CoreRows(coreKeys);
      }
      var rows := SortByShort(data);
      AssembledRowsListed(registry, keys, coreKeys, kinds, cmd.backend, rows);
      assert data == RegistryRows(registry, keys, kinds, cmd.backend)
                     + if IncludesCore(cmd.backend) then CoreRows(coreKeys) else [];
      SortStableAppend(RegistryRows(registry, keys, kinds, cmd.backend),
                       if IncludesCore(cmd.backend) then CoreRows(coreKeys) else [], data);
      out := Ok(Table(rows));
    }
  }
}
