/** The in-page halves of the data extraction: choosing the VPC table,
    naming columns, and turning table rows and the rows of the user modal
    into records. Each `evaluate` body is a loop method proved equal to a
    function over what the page shows, and what the extraction promises
    is proved about those functions. */
module TableExtraction {
  import opened Wrappers
  import opened Values
  import opened Remote

  const NoTableError: string := "No data table found on the page"

  function TableNotFound(selector: string): string {
    "Table not found with selector: " + selector
  }

  // ---------------------------------------------------------------------
  // Column keys.

  /** `s` without the white space at its front. */
  function DropSpaces(s: string): (r: string)
    ensures |r| <= |s|
    ensures forall c :: c in r ==> c in s
    decreases |s|
  {
    if s != [] && IsSpace(s[0]) then DropSpaces(s[1..]) else s
  }

  /** `replace(/\s+/g, '_')`: every run of white space becomes one `_`. */
  function Underscore(s: string): (r: string)
    ensures forall i :: 0 <= i < |r| ==> !IsSpace(r[i])
    ensures forall c :: c in r ==> c == '_' || c in s
    decreases |s|
  {
    if s == [] then []
    else if IsSpace(s[0]) then "_" + Underscore(DropSpaces(s[1..]))
    else [s[0]] + Underscore(s[1..])
  }

  /** `text.toLowerCase().replace(/\s+/g, '_')`: the key a column's
      header gives its cells. */
  function NormalizeKey(s: string): (k: string)
    ensures forall i :: 0 <= i < |k| ==> !IsSpace(k[i]) && !IsUpper(k[i])
  {
    var l := ToLower(s);
    var k := Underscore(l);
    assert forall i :: 0 <= i < |k| ==> k[i] == '_' || k[i] in l;
    k
  }

  lemma {:induction false} UnderscoreKeeps(s: string)
    requires forall i :: 0 <= i < |s| ==> !IsSpace(s[i])
    ensures Underscore(s) == s
    decreases |s|
  {
    if s != [] {
      UnderscoreKeeps(s[1..]);
    }
  }

  lemma {:induction false} ToLowerKeeps(s: string)
    requires forall i :: 0 <= i < |s| ==> !IsUpper(s[i])
    ensures ToLower(s) == s
  {
  }

  /** Without an underscore in the result there was no white space. */
  lemma {:induction false} UnderscoreMarksSpace(s: string)
    ensures '_' !in Underscore(s) ==> forall i :: 0 <= i < |s| ==> !IsSpace(s[i])
    decreases |s|
  {
    if s != [] && !IsSpace(s[0]) {
      UnderscoreMarksSpace(s[1..]);
      assert Underscore(s) == [s[0]] + Underscore(s[1..]);
      if '_' !in Underscore(s) {
        forall i | 0 < i < |s|
          ensures !IsSpace(s[i])
        {
          assert s[i] == s[1..][i - 1];
        }
      }
    }
  }

  /** A key is its own normal form, so normalising twice is normalising
      once. */
  lemma {:induction false} NormalizeKeyIdempotent(s: string)
    ensures NormalizeKey(NormalizeKey(s)) == NormalizeKey(s)
  {
    var k := NormalizeKey(s);
    ToLowerKeeps(k);
    UnderscoreKeeps(k);
  }

  /** Only a header reading `name` once lower-cased has the key `name`. */
  lemma {:induction false} NameKeyComesFromName(h: string)
    requires NormalizeKey(h) == "name"
    ensures ToLower(h) == "name"
  {
    var l := ToLower(h);
    assert '_' !in "name";
    UnderscoreMarksSpace(l);
    UnderscoreKeeps(l);
  }

  // ---------------------------------------------------------------------
  // Columns.

  /** The fallback name of column `j`, counting from 0: `column_1`,
      `column_2`, ... */
  function ColumnName(j: nat): string {
    "column_" + NatToString(j + 1)
  }

  /** `headers[j] || `column_${j + 1}``. */
  function HeaderName(headers: seq<string>, j: nat): string {
    if j < |headers| && headers[j] != "" then headers[j] else ColumnName(j)
  }

  function ColumnKey(headers: seq<string>, j: nat): string {
    NormalizeKey(HeaderName(headers, j))
  }

  /** The header of column `j` mentions `name`, in any case. */
  predicate SaysName(headers: seq<string>, j: nat) {
    Contains(ToLower(HeaderName(headers, j)), "name")
  }

  /** A column without a header is keyed by its position, unchanged by
      normalisation; distinct positions give distinct keys. */
  lemma {:induction false} ColumnNameIsKey(j: nat)
    ensures NormalizeKey(ColumnName(j)) == ColumnName(j)
    ensures forall j' :: 0 <= j' != j ==> ColumnName(j') != ColumnName(j)
  {
    ColumnNameNormal(j);
    ColumnNamesDistinct(j);
  }

  lemma {:induction false} ColumnNameNormal(j: nat)
    ensures NormalizeKey(ColumnName(j)) == ColumnName(j)
  {
    var d := NatToString(j + 1);
    var c := ColumnName(j);
    forall i | 0 <= i < |c|
      ensures !IsUpper(c[i]) && !IsSpace(c[i])
    {
      if i >= 7 {
        assert c[i] == d[i - 7];
      }
    }
    ToLowerKeeps(c);
    UnderscoreKeeps(c);
  }

  lemma {:induction false} ColumnNamesDistinct(j: nat)
    ensures forall j' :: 0 <= j' != j ==> ColumnName(j') != ColumnName(j)
  {
    var d := NatToString(j + 1);
    var c := ColumnName(j);
    forall j': nat | j' != j
      ensures ColumnName(j') != c
    {
      if ColumnName(j') == c {
        assert NatToString(j' + 1) == ColumnName(j')[7..] == c[7..] == d;
        NatToStringInjective(j' + 1, j + 1);
      }
    }
  }

  /** Columns past the header row, or under an empty header, take the
      key `column_{j+1}`; the others the normal form of their header. */
  lemma {:induction false} ColumnKeyFallback(headers: seq<string>, j: nat)
    ensures j < |headers| && headers[j] != "" ==> ColumnKey(headers, j) == NormalizeKey(headers[j])
    ensures j >= |headers| || headers[j] == "" ==> ColumnKey(headers, j) == ColumnName(j)
  {
    ColumnNameIsKey(j);
  }

  /** A column keyed `name` is one whose header mentions `name`. */
  lemma {:induction false} NameKeySaysName(headers: seq<string>, j: nat)
    requires ColumnKey(headers, j) == "name"
    ensures SaysName(headers, j)
  {
    NameKeyComesFromName(HeaderName(headers, j));
    assert OccursAt("name", "name", 0);
  }

  // ---------------------------------------------------------------------
  // Writing the cells of a row into a record.

  /** The record after writing each cell under its column's key, in
      column order, onto `init`. */
  function Cells(headers: seq<string>, cells: seq<string>, init: Record): Record
    decreases |cells|
  {
    if cells == [] then init
    else
      var j := |cells| - 1;
      Cells(headers, cells[..j], init)[ColumnKey(headers, j) := Str(cells[j])]
  }

  /** The keys of the first `n` columns. */
  function ColumnKeys(headers: seq<string>, n: nat): set<string> {
    set j: nat | j < n :: ColumnKey(headers, j)
  }

  /** Column `j` is the last of the first `n` with the key `key`. */
  predicate LastWithKey(headers: seq<string>, n: nat, key: string, j: nat) {
    j < n && ColumnKey(headers, j) == key
    && forall j': nat :: j < j' < n ==> ColumnKey(headers, j') != key
  }

  /** The first `n + 1` columns' keys are the first `n`'s and one more. */
  lemma {:induction false} ColumnKeysStep(headers: seq<string>, n: nat)
    ensures ColumnKeys(headers, n + 1) == ColumnKeys(headers, n) + {ColumnKey(headers, n)}
  {
    forall x | x in ColumnKeys(headers, n + 1)
      ensures x in ColumnKeys(headers, n) + {ColumnKey(headers, n)}
    {
      var j: nat :| j < n + 1 && x == ColumnKey(headers, j);
      if j < n {
        assert x in ColumnKeys(headers, n);
      }
    }
  }

  /** A record has the keys it started with and one per column. */
  lemma {:induction false} CellsKeys(headers: seq<string>, cells: seq<string>, init: Record)
    ensures Cells(headers, cells, init).Keys == init.Keys + ColumnKeys(headers, |cells|)
    decreases |cells|
  {
    if cells != [] {
      var n := |cells| - 1;
      CellsKeys(headers, cells[..n], init);
      ColumnKeysStep(headers, n);
    }
  }

  /** Under a key that no column has, a record keeps its starting value. */
  lemma {:induction false} CellsKeepInit(headers: seq<string>, cells: seq<string>, init: Record, key: string)
    requires key in init && key !in ColumnKeys(headers, |cells|)
    ensures key in Cells(headers, cells, init) && Cells(headers, cells, init)[key] == init[key]
    decreases |cells|
  {
    if cells != [] {
      var n := |cells| - 1;
      ColumnKeysStep(headers, n);
      CellsKeepInit(headers, cells[..n], init, key);
    }
  }

  /** Under a column's key a record holds the cell of the last column
      with that key. */
  lemma {:induction false} CellsLastWins(headers: seq<string>, cells: seq<string>, init: Record, key: string, j: nat)
    requires LastWithKey(headers, |cells|, key, j)
    ensures key in Cells(headers, cells, init) && Cells(headers, cells, init)[key] == Str(cells[j])
    decreases |cells|
  {
    var n := |cells| - 1;
    var prev := Cells(headers, cells[..n], init);
    assert Cells(headers, cells, init) == prev[ColumnKey(headers, n) := Str(cells[n])];
    if j < n {
      LastWithKeyShrinks(headers, n, key, j);
      CellsLastWins(headers, cells[..n], init, key, j);
      assert cells[..n][j] == cells[j];
    }
  }

  /** Dropping a later column keeps the last column with a key. */
  lemma {:induction false} LastWithKeyShrinks(headers: seq<string>, n: nat, key: string, j: nat)
    requires LastWithKey(headers, n + 1, key, j) && j < n
    ensures LastWithKey(headers, n, key, j) && ColumnKey(headers, n) != key
  {
  }

  /** The three facts above about one record. */
  lemma {:induction false} CellsFields(headers: seq<string>, cells: seq<string>, init: Record)
    ensures var r := Cells(headers, cells, init);
      r.Keys == init.Keys + ColumnKeys(headers, |cells|)
      && (forall key :: key in init && key !in ColumnKeys(headers, |cells|) ==> r[key] == init[key])
      && forall key, j: nat :: LastWithKey(headers, |cells|, key, j) ==> r[key] == Str(cells[j])
  {
    CellsKeys(headers, cells, init);
    forall key | key in init && key !in ColumnKeys(headers, |cells|)
      ensures Cells(headers, cells, init)[key] == init[key]
    {
      CellsKeepInit(headers, cells, init, key);
    }
    forall key, j: nat | LastWithKey(headers, |cells|, key, j)
      ensures Cells(headers, cells, init)[key] == Str(cells[j])
    {
      CellsLastWins(headers, cells, init, key, j);
    }
  }

  // ---------------------------------------------------------------------
  // VPC records.

  /** The cell loop of a VPC row as written: a cell in the first column
      or under a header mentioning `name` is copied to `name`, and every
      cell is written under its column's key. */
  function VpcCells(headers: seq<string>, cells: seq<string>, init: Record): Record
    decreases |cells|
  {
    if cells == [] then init
    else
      var j := |cells| - 1;
      var r := VpcCells(headers, cells[..j], init);
      var named := if j == 0 || SaysName(headers, j) then r["name" := Str(cells[j])] else r;
      named[ColumnKey(headers, j) := Str(cells[j])]
  }

  /** The `name` of a VPC row: the first cell, replaced by every later
      cell whose header mentions `name`; empty for a row without cells. */
  function VpcName(headers: seq<string>, cells: seq<string>): string
    decreases |cells|
  {
    if cells == [] then ""
    else
      var j := |cells| - 1;
      if j == 0 || SaysName(headers, j) then cells[j] else VpcName(headers, cells[..j])
  }

  /** `{name: '', row_index: position}` with the row's cells written in. */
  function VpcRecord(headers: seq<string>, cells: seq<string>, position: nat): Record {
    VpcCells(headers, cells, map["name" := Str(""), "row_index" := Num(position)])
  }

  /** Writing `name` along the way is the same as writing the columns and
      then setting `name` to the name rule's cell: a column keyed `name`
      mentions `name`, so the name rule overrides it anyway. */
  lemma {:induction false} VpcCellsSplit(headers: seq<string>, cells: seq<string>, init: Record)
    requires "name" in init && init["name"] == Str("")
    ensures VpcCells(headers, cells, init) == Cells(headers, cells, init)["name" := Str(VpcName(headers, cells))]
    decreases |cells|
  {
    if cells != [] {
      var j := |cells| - 1;
      var prefix := cells[..j];
      VpcCellsSplit(headers, prefix, init);
      var key := ColumnKey(headers, j);
      if key == "name" {
        NameKeySaysName(headers, j);
      }
    }
  }

  /** The name rule picks the cell of the last column that is the first
      or whose header mentions `name`. */
  lemma {:induction false} VpcNameIsLastNamed(headers: seq<string>, cells: seq<string>, j: nat)
    requires j < |cells| && (j == 0 || SaysName(headers, j))
    requires forall j': nat :: j < j' < |cells| ==> !SaysName(headers, j')
    ensures VpcName(headers, cells) == cells[j]
    decreases |cells|
  {
    var n := |cells| - 1;
    if j < n {
      assert !SaysName(headers, n) && n != 0;
      VpcNameIsLastNamed(headers, cells[..n], j);
    }
  }

  /** What a VPC record holds: `name` and `row_index` plus one key per
      column; `name` from the name rule; `row_index` the row's position
      unless a column is keyed `row_index`; and under every other column's
      key the cell of the last column with that key. */
  lemma {:induction false} VpcRecordFields(headers: seq<string>, cells: seq<string>, position: nat)
    ensures var r := VpcRecord(headers, cells, position);
      r.Keys == {"name", "row_index"} + ColumnKeys(headers, |cells|)
      && r["name"] == Str(VpcName(headers, cells))
      && ("row_index" !in ColumnKeys(headers, |cells|) ==> r["row_index"] == Num(position))
      && forall key, j: nat :: key != "name" && LastWithKey(headers, |cells|, key, j) ==> r[key] == Str(cells[j])
  {
    var init := map["name" := Str(""), "row_index" := Num(position)];
    VpcCellsSplit(headers, cells, init);
    CellsKeys(headers, cells, init);
    if "row_index" !in ColumnKeys(headers, |cells|) {
      CellsKeepInit(headers, cells, init, "row_index");
    }
    forall key, j: nat | key != "name" && LastWithKey(headers, |cells|, key, j)
      ensures VpcRecord(headers, cells, position)[key] == Str(cells[j])
    {
      CellsLastWins(headers, cells, init, key, j);
    }
  }

  /** `rowData.name || Object.keys(rowData).length > 2`. */
  predicate Keep(r: Record) {
    Truthy(Get(r, "name")) || |r.Keys| > 2
  }

  /** A VPC row is kept exactly when its name is non-empty or one of its
      columns has a key other than `name` and `row_index`. */
  lemma {:induction false} KeepVpcRecord(headers: seq<string>, cells: seq<string>, position: nat)
    ensures Keep(VpcRecord(headers, cells, position)) <==>
      VpcName(headers, cells) != "" || HasOtherColumn(headers, |cells|)
  {
    var init := map["name" := Str(""), "row_index" := Num(position)];
    var r := VpcRecord(headers, cells, position);
    var keys := ColumnKeys(headers, |cells|);
    VpcCellsSplit(headers, cells, init);
    CellsKeys(headers, cells, init);
    assert r.Keys == {"name", "row_index"} + keys;
    assert Get(r, "name") == Str(VpcName(headers, cells));
    MoreThanTwoKeys(keys);
    assert HasOtherColumn(headers, |cells|) <==> exists k :: k in keys && k != "name" && k != "row_index" by {
      if HasOtherColumn(headers, |cells|) {
        var j: nat :| j < |cells| && ColumnKey(headers, j) != "name" && ColumnKey(headers, j) != "row_index";
        assert ColumnKey(headers, j) in keys;
      }
      if exists k :: k in keys && k != "name" && k != "row_index" {
        var k :| k in keys && k != "name" && k != "row_index";
        var j: nat :| j < |cells| && k == ColumnKey(headers, j);
        assert HasOtherColumn(headers, |cells|);
      }
    }
    assert Keep(r) <==> VpcName(headers, cells) != "" || |r.Keys| > 2;
  }

  /** One of the first `n` columns has a key other than `name` and
      `row_index`. */
  predicate HasOtherColumn(headers: seq<string>, n: nat) {
    exists j: nat :: j < n && ColumnKey(headers, j) != "name" && ColumnKey(headers, j) != "row_index"
  }

  /** A record with the keys `name`, `row_index` and `extra` has more
      than two keys exactly when `extra` has another one. */
  lemma {:induction false} MoreThanTwoKeys(extra: set<string>)
    ensures |{"name", "row_index"} + extra| > 2 <==> exists k :: k in extra && k != "name" && k != "row_index"
  {
    var base: set<string> := {"name", "row_index"};
    var all := base + extra;
    assert |base| == 2;
    if exists k :: k in extra && k != "name" && k != "row_index" {
      var k :| k in extra && k != "name" && k != "row_index";
      var three := base + {k};
      assert |three| == 3;
      SubsetCard(three, all);
    } else {
      assert all <= base;
      SubsetCard(all, base);
    }
  }

  lemma {:induction false} SubsetCard(a: set<string>, b: set<string>)
    requires a <= b
    ensures |a| <= |b|
  {
    assert b == a + (b - a);
  }

  /** The VPC records of a table's data rows, positions counted from 1,
      keeping only the rows `Keep` accepts. */
  function VpcRows(headers: seq<string>, rows: seq<seq<string>>): seq<Record>
    decreases |rows|
  {
    if rows == [] then []
    else
      var n := |rows| - 1;
      var rec := VpcRecord(headers, rows[n], n + 1);
      VpcRows(headers, rows[..n]) + (if Keep(rec) then [rec] else [])
  }

  /** Every output record is a kept row's record, and every row whose
      record is kept is output. */
  lemma {:induction false} VpcRowsKept(headers: seq<string>, rows: seq<seq<string>>)
    ensures |VpcRows(headers, rows)| <= |rows|
    ensures forall rec :: rec in VpcRows(headers, rows) ==>
      Keep(rec) && exists i :: 0 <= i < |rows| && rec == VpcRecord(headers, rows[i], i + 1)
    ensures forall i :: 0 <= i < |rows| && Keep(VpcRecord(headers, rows[i], i + 1)) ==>
      VpcRecord(headers, rows[i], i + 1) in VpcRows(headers, rows)
  {
    VpcRowsSound(headers, rows);
    VpcRowsComplete(headers, rows);
  }

  /** The output of all rows is the output of all but the last, then the
      last row's record when it is kept. */
  lemma {:induction false} VpcRowsLast(headers: seq<string>, rows: seq<seq<string>>)
    requires rows != []
    ensures var n := |rows| - 1; var rec := VpcRecord(headers, rows[n], n + 1);
      VpcRows(headers, rows) == VpcRows(headers, rows[..n]) + (if Keep(rec) then [rec] else [])
  {
  }

  lemma {:induction false} VpcRowsSound(headers: seq<string>, rows: seq<seq<string>>)
    ensures |VpcRows(headers, rows)| <= |rows|
    ensures forall rec :: rec in VpcRows(headers, rows) ==>
      Keep(rec) && exists i :: 0 <= i < |rows| && rec == VpcRecord(headers, rows[i], i + 1)
    decreases |rows|
  {
    if rows != [] {
      var n := |rows| - 1;
      var prefix := rows[..n];
      var last := VpcRecord(headers, rows[n], n + 1);
      VpcRowsSound(headers, prefix);
      VpcRowsLast(headers, rows);
      var before := VpcRows(headers, prefix);
      forall rec | rec in VpcRows(headers, rows)
        ensures Keep(rec) && exists i :: 0 <= i < |rows| && rec == VpcRecord(headers, rows[i], i + 1)
      {
        if rec in before {
          var i :| 0 <= i < |prefix| && rec == VpcRecord(headers, prefix[i], i + 1);
          assert prefix[i] == rows[i];
        } else {
          assert rec == last;
        }
      }
    }
  }

  lemma {:induction false} VpcRowsComplete(headers: seq<string>, rows: seq<seq<string>>)
    ensures forall i :: 0 <= i < |rows| && Keep(VpcRecord(headers, rows[i], i + 1)) ==>
      VpcRecord(headers, rows[i], i + 1) in VpcRows(headers, rows)
    decreases |rows|
  {
    if rows != [] {
      var n := |rows| - 1;
      var prefix := rows[..n];
      VpcRowsComplete(headers, prefix);
      VpcRowsLast(headers, rows);
      var before := VpcRows(headers, prefix);
      forall i | 0 <= i < |rows| && Keep(VpcRecord(headers, rows[i], i + 1))
        ensures VpcRecord(headers, rows[i], i + 1) in VpcRows(headers, rows)
      {
        if i < n {
          assert prefix[i] == rows[i];
          assert VpcRecord(headers, rows[i], i + 1) in before;
        }
      }
    }
  }

  // ---------------------------------------------------------------------
  // Choosing the VPC table.

  /** A header text the VPC table is recognised by. */
  predicate Telling(text: string) {
    var t := ToLower(text);
    Contains(t, "name") || Contains(t, "vpc") || Contains(t, "status")
  }

  predicate LooksLikeVpcTable(t: Table) {
    exists i :: 0 <= i < |t.labels| && Telling(t.labels[i])
  }

  /** The first table with a telling header, if any. */
  function FirstVpcTable(tables: seq<Table>): (r: Option<nat>)
    ensures r.Some? ==>
      r.value < |tables| && LooksLikeVpcTable(tables[r.value])
      && forall i :: 0 <= i < r.value ==> !LooksLikeVpcTable(tables[i])
    ensures r.None? ==> forall i :: 0 <= i < |tables| ==> !LooksLikeVpcTable(tables[i])
    decreases |tables|
  {
    if tables == [] then None
    else if LooksLikeVpcTable(tables[0]) then Some(0)
    else
      match FirstVpcTable(tables[1..])
      case None => None
      case Some(i) => Some(i + 1)
  }

  /** The table the VPC extraction reads: the first with a telling header,
      else the first table, else the error. */
  function TargetTable(tables: seq<Table>): Result<Table> {
    match FirstVpcTable(tables)
    case Some(i) => Ok(tables[i])
    case None => if tables == [] then Err(NoTableError) else Ok(tables[0])
  }

  /** The chosen table is the first telling one, or the first table when
      none tells; there is none only without tables. */
  lemma {:induction false} TargetTableChoice(tables: seq<Table>)
    ensures var r := TargetTable(tables);
      (r.Err? <==> tables == [])
      && (r.Err? ==> r.error == NoTableError)
      && (r.Ok? ==>
            (exists i :: 0 <= i < |tables| && r.value == tables[i] && LooksLikeVpcTable(tables[i])
               && forall i' :: 0 <= i' < i ==> !LooksLikeVpcTable(tables[i']))
            || (r.value == tables[0] && forall i :: 0 <= i < |tables| ==> !LooksLikeVpcTable(tables[i])))
  {
  }

  /** What the VPC `evaluate` returns for the tables on the page. */
  function VpcExtraction(tables: seq<Table>): Result<seq<Record>> {
    match TargetTable(tables)
    case Err(e) => Err(e)
    case Ok(t) => Ok(VpcRows(t.headers, t.rows))
  }

  /** The table loop, stopping at the first telling table. */
  method ChooseTable(tables: seq<Table>) returns (r: Result<Table>)
    ensures r == TargetTable(tables)
  {
    var i := 0;
    while i < |tables|
      invariant 0 <= i <= |tables|
      invariant forall j :: 0 <= j < i ==> !LooksLikeVpcTable(tables[j])
    {
      if LooksLikeVpcTable(tables[i]) {
        break;
      }
      i := i + 1;
    }
    if i < |tables| {
      return Ok(tables[i]);
    }
    if |tables| == 0 {
      return Err(NoTableError);
    }
    r := Ok(tables[0]);
  }

  /** One more cell of a VPC row written into its record. */
  lemma {:induction false} VpcCellsStep(headers: seq<string>, cells: seq<string>, init: Record, j: nat)
    requires j < |cells|
    ensures var r := VpcCells(headers, cells[..j], init);
      var named := if j == 0 || SaysName(headers, j) then r["name" := Str(cells[j])] else r;
      VpcCells(headers, cells[..j + 1], init) == named[ColumnKey(headers, j) := Str(cells[j])]
  {
    assert cells[..j + 1][..j] == cells[..j];
  }

  /** One VPC row's cell loop. */
  method BuildVpcRecord(headers: seq<string>, cells: seq<string>, position: nat) returns (rec: Record)
    ensures rec == VpcRecord(headers, cells, position)
  {
    rec := map["name" := Str(""), "row_index" := Num(position)];
    var j := 0;
    while j < |cells|
      invariant 0 <= j <= |cells|
      invariant rec == VpcCells(headers, cells[..j], map["name" := Str(""), "row_index" := Num(position)])
    {
      var header := HeaderName(headers, j);
      assert SaysName(headers, j) == Contains(ToLower(header), "name");
      assert ColumnKey(headers, j) == NormalizeKey(header);
      if j == 0 || Contains(ToLower(header), "name") {
        rec := rec["name" := Str(cells[j])];
      }
      rec := rec[NormalizeKey(header) := Str(cells[j])];
      VpcCellsStep(headers, cells, map["name" := Str(""), "row_index" := Num(position)], j);
      j := j + 1;
    }
    assert cells[..j] == cells;
  }

  /** The VPC `evaluate` body. */
  method EvaluateVpcData(tables: seq<Table>) returns (r: Result<seq<Record>>)
    ensures r == VpcExtraction(tables)
  {
    var chosen := ChooseTable(tables);
    if chosen.Err? {
      return Err(chosen.error);
    }
    var results := BuildVpcRows(chosen.value.headers, chosen.value.rows);
    r := Ok(results);
  }

  /** The row loop of the VPC `evaluate` body. */
  method BuildVpcRows(headers: seq<string>, rows: seq<seq<string>>) returns (results: seq<Record>)
    ensures results == VpcRows(headers, rows)
  {
    results := [];
    var i := 0;
    while i < |rows|
      invariant 0 <= i <= |rows|
      invariant results == VpcRows(headers, rows[..i])
    {
      var rec := BuildVpcRecord(headers, rows[i], i + 1);
      if Keep(rec) {
        results := results + [rec];
      }
      assert rows[..i + 1][..i] == rows[..i];
      i := i + 1;
    }
    assert rows[..i] == rows;
  }

  // ---------------------------------------------------------------------
  // A table read by a caller's selector.

  /** Its rows, each `tr` as its cell texts: the first row names the
      columns and every later row becomes a record whose `row_index` is
      its position among the rows. */
  function TableRecords(rows: seq<seq<string>>): (out: seq<Record>)
    ensures |out| == if rows == [] then 0 else |rows| - 1
  {
    if rows == [] then []
    else seq(|rows| - 1, i requires 0 <= i < |rows| - 1 => TableRow(rows, i))
  }

  /** Data row `i + 1` written into `{row_index: i + 1}` under the first
      row's column names. */
  function TableRow(rows: seq<seq<string>>, i: nat): Record
    requires i + 1 < |rows|
  {
    Cells(rows[0], rows[i + 1], map["row_index" := Num(i + 1)])
  }

  /** What the table `evaluate` returns: the error when the selector
      matches nothing. */
  function TableExtraction(selected: Option<seq<seq<string>>>, selector: string): (r: Result<seq<Record>>)
  {
    match selected
    case None => Err(TableNotFound(selector))
    case Some(rows) => Ok(TableRecords(rows))
  }

  /** Record `i` of a selected table is data row `i + 1`, with `row_index`
      `i + 1` unless a column is keyed `row_index`, and every column's key
      holding the cell of the last column with that key. */
  lemma {:induction false} TableRecordFields(rows: seq<seq<string>>, i: nat)
    requires i + 1 < |rows|
    ensures TableRecords(rows)[i] == TableRow(rows, i)
    ensures var r := TableRow(rows, i); var cells := rows[i + 1];
      r.Keys == {"row_index"} + ColumnKeys(rows[0], |cells|)
      && ("row_index" !in ColumnKeys(rows[0], |cells|) ==> r["row_index"] == Num(i + 1))
      && forall key, j: nat :: LastWithKey(rows[0], |cells|, key, j) ==> r[key] == Str(cells[j])
  {
    CellsFields(rows[0], rows[i + 1], map["row_index" := Num(i + 1)]);
  }

  /** One row's cell loop. */
  method AddCells(headers: seq<string>, cells: seq<string>, init: Record) returns (rec: Record)
    ensures rec == Cells(headers, cells, init)
  {
    rec := init;
    var j := 0;
    while j < |cells|
      invariant 0 <= j <= |cells|
      invariant rec == Cells(headers, cells[..j], init)
    {
      rec := rec[NormalizeKey(HeaderName(headers, j)) := Str(cells[j])];
      assert cells[..j + 1][..j] == cells[..j];
      j := j + 1;
    }
    assert cells[..j] == cells;
  }

  /** The table `evaluate` body. */
  method EvaluateTable(selected: Option<seq<seq<string>>>, selector: string) returns (r: Result<seq<Record>>)
    ensures r == TableExtraction(selected, selector)
  {
    if selected.None? {
      return Err(TableNotFound(selector));
    }
    var rows := selected.value;
    if |rows| == 0 {
      return Ok([]);
    }
    var headers := rows[0];
    var results: seq<Record> := [];
    var i := 1;
    while i < |rows|
      invariant 1 <= i <= |rows|
      invariant |results| == i - 1
      invariant forall m :: 0 <= m < i - 1 ==> results[m] == TableRecords(rows)[m]
    {
      var rec := AddCells(headers, rows[i], map["row_index" := Num(i)]);
      assert rec == TableRecords(rows)[i - 1];
      results := results + [rec];
      i := i + 1;
    }
    assert results == TableRecords(rows);
    r := Ok(results);
  }

  // ---------------------------------------------------------------------
  // The user modal.

  /** A user row's record: `user_index` and then each `td` under
      `column_{j+1}`. With no header row every column takes that key, so
      this is the common cell loop over no headers. */
  function UserRecord(cells: seq<string>, position: nat): Record {
    Cells([], cells, map["user_index" := Num(position)])
  }

  /** What a user record holds: its position under `user_index` and cell
      `j` under `column_{j+1}`, nothing else. */
  lemma {:induction false} UserRecordFields(cells: seq<string>, position: nat)
    ensures var r := UserRecord(cells, position);
      r.Keys == {"user_index"} + (set j: nat | j < |cells| :: ColumnName(j))
      && r["user_index"] == Num(position)
      && forall j :: 0 <= j < |cells| ==> ColumnName(j) in r && r[ColumnName(j)] == Str(cells[j])
  {
    var init := map["user_index" := Num(position)];
    CellsKeys([], cells, init);
    forall j: nat | j < |cells|
      ensures ColumnKey([], j) == ColumnName(j)
    {
      ColumnKeyFallback([], j);
    }
    assert ColumnKeys([], |cells|) == set j: nat | j < |cells| :: ColumnName(j);
    assert "user_index" !in ColumnKeys([], |cells|) by {
      forall j: nat | j < |cells|
        ensures ColumnName(j) != "user_index"
      {
        assert ColumnName(j)[0] == 'c';
      }
    }
    CellsKeepInit([], cells, init, "user_index");
    forall j | 0 <= j < |cells|
      ensures ColumnName(j) in UserRecord(cells, position) && UserRecord(cells, position)[ColumnName(j)] == Str(cells[j])
    {
      ColumnNameIsKey(j);
      assert LastWithKey([], |cells|, ColumnName(j), j);
      CellsLastWins([], cells, init, ColumnName(j), j);
    }
  }

  /** `f` of each row that has cells and its position among all the rows
      (from 1), in row order. */
  function NonEmptyRows<T>(rows: seq<seq<string>>, f: (seq<string>, nat) -> T): seq<T>
    decreases |rows|
  {
    if rows == [] then []
    else
      var n := |rows| - 1;
      NonEmptyRows(rows[..n], f) + (if rows[n] != [] then [f(rows[n], n + 1)] else [])
  }

  /** Taking one more row adds that row's value when it has cells. */
  lemma {:induction false} NonEmptyRowsStep<T>(rows: seq<seq<string>>, f: (seq<string>, nat) -> T, i: nat)
    requires i < |rows|
    ensures NonEmptyRows(rows[..i + 1], f) ==
      NonEmptyRows(rows[..i], f) + (if rows[i] != [] then [f(rows[i], i + 1)] else [])
  {
    assert rows[..i + 1][..i] == rows[..i];
  }

  /** The records of the user rows that have `td` cells. */
  function UserRows(rows: seq<seq<string>>): seq<Record> {
    NonEmptyRows(rows, UserRecord)
  }

  /** What the modal `evaluate` returns: nothing without a modal or
      without a data tbody in it. */
  function ModalUsers(modal: Option<Option<seq<seq<string>>>>): seq<Record> {
    match modal
    case Some(Some(rows)) => UserRows(rows)
    case _ => []
  }

  /** How many of the first `i` rows have cells. */
  function NonEmptyBefore(rows: seq<seq<string>>, i: nat): nat
    requires i <= |rows|
  {
    if i == 0 then 0 else NonEmptyBefore(rows, i - 1) + (if rows[i - 1] != [] then 1 else 0)
  }

  lemma {:induction false} NonEmptyBeforePrefix(rows: seq<seq<string>>, n: nat, i: nat)
    requires i <= n <= |rows|
    ensures NonEmptyBefore(rows[..n], i) == NonEmptyBefore(rows, i)
  {
    if i > 0 {
      NonEmptyBeforePrefix(rows, n, i - 1);
      assert rows[..n][i - 1] == rows[i - 1];
    }
  }

  /** A row with cells comes before every later row's output. */
  lemma {:induction false} NonEmptyBeforeGrows(rows: seq<seq<string>>, i: nat, i': nat)
    requires i < i' <= |rows| && rows[i] != []
    ensures NonEmptyBefore(rows, i) < NonEmptyBefore(rows, i')
    decreases i'
  {
    if i + 1 < i' {
      NonEmptyBeforeGrows(rows, i, i' - 1);
    }
  }

  /** The output holds one entry per row with cells, and the entry of
      such a row comes after those of the rows with cells before it. */
  lemma {:induction false} NonEmptyRowsLength<T>(rows: seq<seq<string>>, f: (seq<string>, nat) -> T)
    ensures |NonEmptyRows(rows, f)| == NonEmptyBefore(rows, |rows|)
    decreases |rows|
  {
    if rows != [] {
      var n := |rows| - 1;
      NonEmptyRowsLength(rows[..n], f);
      NonEmptyBeforePrefix(rows, n, n);
    }
  }

  /** The entry of row `i`, a row with cells, comes after those of the
      rows with cells before it. */
  lemma {:induction false} NonEmptyRowsAt<T>(rows: seq<seq<string>>, f: (seq<string>, nat) -> T, i: nat)
    requires i < |rows| && rows[i] != []
    ensures NonEmptyBefore(rows, i) < |NonEmptyRows(rows, f)|
    ensures NonEmptyRows(rows, f)[NonEmptyBefore(rows, i)] == f(rows[i], i + 1)
    decreases |rows|
  {
    var n := |rows| - 1;
    var prefix := rows[..n];
    var before := NonEmptyRows(prefix, f);
    var out := NonEmptyRows(rows, f);
    assert out == before + (if rows[n] != [] then [f(rows[n], n + 1)] else []);
    NonEmptyRowsLength(prefix, f);
    NonEmptyBeforePrefix(rows, n, n);
    if i < n {
      assert prefix[i] == rows[i];
      NonEmptyRowsAt(prefix, f, i);
      NonEmptyBeforePrefix(rows, n, i);
      NonEmptyBeforeGrows(rows, i, n);
      assert out[NonEmptyBefore(rows, i)] == before[NonEmptyBefore(rows, i)];
    }
  }

  /** The user records are those of the rows with cells, in row order,
      each numbered by its row's position: the record of row `i` sits
      after the records of the rows with cells before it, and there are no
      others. */
  lemma {:induction false} UserRowsAt(rows: seq<seq<string>>)
    ensures |UserRows(rows)| == NonEmptyBefore(rows, |rows|)
    ensures forall i :: 0 <= i < |rows| && rows[i] != [] ==>
      NonEmptyBefore(rows, i) < |UserRows(rows)| && UserRows(rows)[NonEmptyBefore(rows, i)] == UserRecord(rows[i], i + 1)
    ensures forall i, i' :: 0 <= i < i' < |rows| && rows[i] != [] ==> NonEmptyBefore(rows, i) < NonEmptyBefore(rows, i')
  {
    NonEmptyRowsLength(rows, UserRecord);
    forall i | 0 <= i < |rows| && rows[i] != []
      ensures NonEmptyBefore(rows, i) < |UserRows(rows)| && UserRows(rows)[NonEmptyBefore(rows, i)] == UserRecord(rows[i], i + 1)
    {
      NonEmptyRowsAt(rows, UserRecord, i);
    }
    forall i, i' | 0 <= i < i' < |rows| && rows[i] != []
      ensures NonEmptyBefore(rows, i) < NonEmptyBefore(rows, i')
    {
      NonEmptyBeforeGrows(rows, i, i');
    }
  }

  /** One more cell written into a record. */
  lemma {:induction false} CellsStep(headers: seq<string>, cells: seq<string>, init: Record, j: nat)
    requires j < |cells|
    ensures Cells(headers, cells[..j + 1], init) == Cells(headers, cells[..j], init)[ColumnKey(headers, j) := Str(cells[j])]
  {
    assert cells[..j + 1][..j] == cells[..j];
  }

  /** One user row's cell loop. */
  method BuildUserRecord(cells: seq<string>, position: nat) returns (rec: Record)
    ensures rec == UserRecord(cells, position)
  {
    rec := map["user_index" := Num(position)];
    var j := 0;
    while j < |cells|
      invariant 0 <= j <= |cells|
      invariant rec == Cells([], cells[..j], map["user_index" := Num(position)])
    {
      ColumnKeyFallback([], j);
      rec := rec[ColumnName(j) := Str(cells[j])];
      CellsStep([], cells, map["user_index" := Num(position)], j);
      j := j + 1;
    }
    assert cells[..j] == cells;
  }

  /** The modal `evaluate` body. */
  method EvaluateUsers(modal: Option<Option<seq<seq<string>>>>) returns (out: seq<Record>)
    ensures out == ModalUsers(modal)
  {
    if modal.None? || modal.value.None? {
      return [];
    }
    var rows := modal.value.value;
    out := [];
    var i := 0;
    while i < |rows|
      invariant 0 <= i <= |rows|
      invariant out == UserRows(rows[..i])
    {
      NonEmptyRowsStep(rows, UserRecord, i);
      if |rows[i]| > 0 {
        var rec := BuildUserRecord(rows[i], i + 1);
        out := out + [rec];
      }
      i := i + 1;
    }
    assert rows[..i] == rows;
  }
}
