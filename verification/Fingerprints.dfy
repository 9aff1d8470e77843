/** The fingerprint codec of the protection snapshots (src/qs_ai/maintenance/publisher_material.py). Rows are
    coded with a null or length prefix and hashed; the sorted digests of a table are hashed once more. The
    hash is a parameter; only where two snapshots are compared must it be free of collisions, and only on
    the messages those two hash. */
module Fingerprints {
  import opened Escapes
  import opened Outcomes
  import opened Sorting

  type Bytes = seq<byte>

  /** A row: its columns as raw bytes, or null. */
  type Row = seq<Option<Bytes>>

  const WIDTH := 32
  const MAX_ROWS := 20_000
  const MAX_BYTES := 134_217_728
  const MAX_SECONDS := 60

  // ----- coding a row -----

  /** n as k bytes, most significant first. */
  function BigEndian(n: nat, k: nat): (b: Bytes)
    ensures |b| == k
  {
    if k == 0 then [] else BigEndian(n / 256, k - 1) + [n % 256]
  }

  function FromBigEndian(b: Bytes): nat {
    if b == [] then 0 else 256 * FromBigEndian(b[..|b| - 1]) + b[|b| - 1]
  }

  function Power256(k: nat): nat {
    if k == 0 then 1 else 256 * Power256(k - 1)
  }

  /** Lengths are written in eight bytes; a longer value cannot be coded. */
  predicate Codable(row: Row) {
    forall i :: 0 <= i < |row| && row[i].Some? ==> |row[i].value| < Power256(8)
  }

  function EncodeValue(v: Option<Bytes>): Bytes {
    match v
    case None => [0]
    case Some(raw) => [1] + BigEndian(|raw|, 8) + raw
  }

  function EncodeRow(row: Row): Bytes {
    if row == [] then [] else EncodeRow(row[..|row| - 1]) + EncodeValue(row[|row| - 1])
  }

  function DecodeRow(b: Bytes): Option<Row> {
    if b == [] then Some([])
    else if b[0] == 0 then
      match DecodeRow(b[1..])
      case None => None
      case Some(rest) => Some([None] + rest)
    else if b[0] != 1 || |b| < 9 || FromBigEndian(b[1..9]) > |b| - 9 then None
    else
      var n := FromBigEndian(b[1..9]);
      match DecodeRow(b[9 + n..])
      case None => None
      case Some(rest) => Some([Some(b[9..9 + n])] + rest)
  }

  lemma {:induction false} BigEndianReadsBack(n: nat, k: nat)
    requires n < Power256(k)
    ensures FromBigEndian(BigEndian(n, k)) == n
  {
    if k > 0 {
      BigEndianReadsBack(n / 256, k - 1);
      assert BigEndian(n, k)[..k - 1] == BigEndian(n / 256, k - 1);
    }
  }

  /** The first value of a coded row can be split off. */
  lemma {:induction false} EncodeFromFront(row: Row)
    requires row != []
    ensures EncodeRow(row) == EncodeValue(row[0]) + EncodeRow(row[1..])
  {
    if |row| > 1 {
      EncodeFromFront(row[..|row| - 1]);
      assert row[..|row| - 1][1..] == row[1..][..|row| - 2];
    }
  }

  lemma {:induction false} RowReadsBack(row: Row)
    requires Codable(row)
    ensures DecodeRow(EncodeRow(row)) == Some(row)
  {
    if row != [] {
      EncodeFromFront(row);
      RowReadsBack(row[1..]);
      var head, tail := EncodeValue(row[0]), EncodeRow(row[1..]);
      assert row == [row[0]] + row[1..];
      hide EncodeRow, BigEndian, FromBigEndian, Power256;
      if row[0].Some? {
        BigEndianReadsBack(|row[0].value|, 8);
        FirstValueReadsBack(row[0].value, tail);
        hide EncodeValue, Codable;
        var coded, n := head + tail, |row[0].value|;
        assert FromBigEndian(coded[1..9]) == n;
        assert coded[9..9 + n] == row[0].value && coded[9 + n..] == tail;
      } else {
        assert (head + tail)[1..] == tail;
      }
    }
  }

  lemma FirstValueReadsBack(raw: Bytes, tail: Bytes)
    ensures var coded := EncodeValue(Some(raw)) + tail;
            && |coded| >= 9 + |raw| && coded[0] == 1 && coded[1..9] == BigEndian(|raw|, 8)
            && coded[9..9 + |raw|] == raw && coded[9 + |raw|..] == tail
  {
    hide BigEndian;
  }

  /** `row_digest`: the message is fed to the hash piece by piece. */
  method RowDigest(values: Row, hash: Bytes -> Bytes) returns (d: Bytes)
    ensures d == hash(EncodeRow(values))
  {
    var fed: Bytes := [];
    for i := 0 to |values|
      invariant fed == EncodeRow(values[..i])
    {
      assert values[..i + 1][..i] == values[..i];
      if values[i].None? {
        fed := fed + [0];
      } else {
        fed := fed + ([1] + BigEndian(|values[i].value|, 8) + values[i].value);
      }
    }
    assert values[..|values|] == values;
    d := hash(fed);
  }

  // ----- fingerprints of tables -----

  datatype Table = Table(columns: seq<string>, rows: seq<Row>, ddl: Bytes)

  datatype Item = Item(columns: seq<string>, rows: nat, dataBytes: nat, ddlDigest: Bytes, rowsDigest: Bytes)

  function Size(row: Row): nat {
    if row == [] then 0
    else Size(row[..|row| - 1]) + match row[|row| - 1] case None => 0 case Some(raw) => |raw|
  }

  function TotalSize(rows: seq<Row>): nat {
    if rows == [] then 0 else TotalSize(rows[..|rows| - 1]) + Size(rows[|rows| - 1])
  }

  function Concatenated(digests: seq<Bytes>): Bytes {
    if digests == [] then [] else Concatenated(digests[..|digests| - 1]) + digests[|digests| - 1]
  }

  function InOrder(): (Bytes, Bytes) -> bool {
    (a, b) => Lex(a, b)
  }

  function RowHash(hash: Bytes -> Bytes): Row -> Bytes {
    row => hash(EncodeRow(row))
  }

  function Digests(rows: seq<Row>, hash: Bytes -> Bytes): seq<Bytes> {
    Map(rows, RowHash(hash))
  }

  /** What is hashed for the rows of a table. */
  function RowsMessage(rows: seq<Row>, hash: Bytes -> Bytes): Bytes {
    Concatenated(Sort(Digests(rows, hash), InOrder()))
  }

  function ItemOf(t: Table, hash: Bytes -> Bytes): Item {
    Item(t.columns, |t.rows|, TotalSize(t.rows), hash(t.ddl), hash(RowsMessage(t.rows, hash)))
  }

  ghost predicate FixedWidth(hash: Bytes -> Bytes) {
    forall m :: |hash(m)| == WIDTH
  }

  /** The hash tells apart the messages of these two tables. */
  ghost predicate TellsTables(hash: Bytes -> Bytes, a: Table, b: Table) {
    && (forall x, y :: x in a.rows && y in b.rows && hash(EncodeRow(x)) == hash(EncodeRow(y)) ==>
          EncodeRow(x) == EncodeRow(y))
    && (hash(a.ddl) == hash(b.ddl) ==> a.ddl == b.ddl)
    && (hash(RowsMessage(a.rows, hash)) == hash(RowsMessage(b.rows, hash)) ==>
          RowsMessage(a.rows, hash) == RowsMessage(b.rows, hash))
  }

  predicate CodableTable(t: Table) {
    forall row :: row in t.rows ==> Codable(row)
  }

  // ----- what a fingerprint determines -----

  ghost predicate AllOfWidth(digests: seq<Bytes>) {
    forall d :: d in digests ==> |d| == WIDTH
  }

  lemma {:induction false} ConcatenatedLength(digests: seq<Bytes>)
    requires AllOfWidth(digests)
    ensures |Concatenated(digests)| == WIDTH * |digests|
  {
    if digests != [] {
      ConcatenatedLength(digests[..|digests| - 1]);
    }
  }

  /** Digests of one width can be cut out of their concatenation again. */
  lemma {:induction false} ConcatenatedDetermines(a: seq<Bytes>, b: seq<Bytes>)
    requires AllOfWidth(a) && AllOfWidth(b) && Concatenated(a) == Concatenated(b)
    ensures a == b
  {
    ConcatenatedLength(a);
    ConcatenatedLength(b);
    if a != [] {
      var ai, bi := a[..|a| - 1], b[..|b| - 1];
      ConcatenatedLength(ai);
      assert Concatenated(ai) == Concatenated(a)[..WIDTH * |ai|] == Concatenated(bi);
      assert a[|a| - 1] == Concatenated(a)[WIDTH * |ai|..] == b[|b| - 1];
      ConcatenatedDetermines(ai, bi);
      assert a == ai + [a[|a| - 1]] && b == bi + [b[|b| - 1]];
    }
  }

  lemma BytesAreOrdered(m: multiset<Bytes>)
    ensures Ordering(InOrder()) && TellsApart(m, InOrder())
  {
    forall x: Bytes, y: Bytes ensures (Lex(x, y) || Lex(y, x)) && (Lex(x, y) && Lex(y, x) ==> x == y) {
      LexIsTotal(x, y);
    }
    forall x: Bytes, y: Bytes, z: Bytes | Lex(x, y) && Lex(y, z) ensures Lex(x, z) {
      LexIsTransitive(x, y, z);
    }
  }

  lemma RowDigestHasWidth(row: Row, hash: Bytes -> Bytes)
    requires FixedWidth(hash)
    ensures |RowHash(hash)(row)| == WIDTH
  {
    assert |hash(EncodeRow(row))| == WIDTH;
  }

  lemma DigestsHaveWidth(rows: seq<Row>, hash: Bytes -> Bytes)
    requires FixedWidth(hash)
    ensures AllOfWidth(Sort(Digests(rows, hash), InOrder()))
  {
    hide FixedWidth, RowHash, Sort, InOrder, Map;
    var digests := Digests(rows, hash);
    var sorted := Sort(digests, InOrder());
    forall d | d in sorted ensures |d| == WIDTH {
      SameElements(digests, sorted, d);
      var i :| 0 <= i < |digests| && digests[i] == d;
      RowDigestHasWidth(rows[i], hash);
    }
  }

  /** Equal digests of the rows mean equal multisets of rows. */
  lemma RowsAreDetermined(a: Table, b: Table, hash: Bytes -> Bytes)
    requires FixedWidth(hash) && TellsTables(hash, a, b) && CodableTable(a) && CodableTable(b)
    requires hash(RowsMessage(a.rows, hash)) == hash(RowsMessage(b.rows, hash))
    ensures multiset(a.rows) == multiset(b.rows)
  {
    hide Sort, Map, InOrder, FixedWidth, Concatenated, EncodeRow, Codable;
    DigestsHaveWidth(a.rows, hash);
    DigestsHaveWidth(b.rows, hash);
    ConcatenatedDetermines(Sort(Digests(a.rows, hash), InOrder()), Sort(Digests(b.rows, hash), InOrder()));
    assert multiset(Map(a.rows, RowHash(hash))) == multiset(Map(b.rows, RowHash(hash)));
    forall x, y | x in a.rows && y in b.rows && RowHash(hash)(x) == RowHash(hash)(y) ensures x == y {
      RowReadsBack(x);
      RowReadsBack(y);
    }
    MapTellsElements(a.rows, b.rows, RowHash(hash));
  }

  /** Rearranged rows give the same digest of the rows. */
  lemma RowsMessageForgetsOrder(a: seq<Row>, b: seq<Row>, hash: Bytes -> Bytes)
    requires multiset(a) == multiset(b)
    ensures RowsMessage(a, hash) == RowsMessage(b, hash)
  {
    MapForgetsOrder(a, b, RowHash(hash));
    BytesAreOrdered(multiset(Digests(a, hash)));
    SortForgetsOrder(Digests(a, hash), Digests(b, hash), InOrder());
  }

  lemma {:induction false} TotalSizeWithout(rows: seq<Row>, k: nat)
    requires k < |rows|
    ensures TotalSize(rows) == TotalSize(Without(rows, k)) + Size(rows[k])
  {
    var init := rows[..|rows| - 1];
    if k < |init| {
      TotalSizeWithout(init, k);
      assert Without(rows, k) == Without(init, k) + [rows[|rows| - 1]];
      assert Without(rows, k)[..|init| - 1] == Without(init, k);
    } else {
      assert Without(rows, k) == init;
    }
  }

  lemma {:induction false} TotalSizeForgetsOrder(a: seq<Row>, b: seq<Row>)
    requires multiset(a) == multiset(b)
    ensures TotalSize(a) == TotalSize(b)
  {
    assert |a| == |multiset(a)| == |multiset(b)| == |b|;
    if a != [] {
      SameElements(a, b, a[0]);
      var k :| 0 <= k < |b| && b[k] == a[0];
      TotalSizeWithout(a, 0);
      TotalSizeWithout(b, k);
      WithoutElements(a, 0);
      WithoutElements(b, k);
      hide Without;
      CancelOne(multiset(Without(a, 0)), multiset(Without(b, k)), a[0]);
      TotalSizeForgetsOrder(Without(a, 0), Without(b, k));
    }
  }

  /** Two tables have the same contents, whatever order their rows are read in. */
  ghost predicate SameContents(a: Table, b: Table) {
    a.columns == b.columns && a.ddl == b.ddl && multiset(a.rows) == multiset(b.rows)
  }

  /** The main result: fingerprints agree exactly when the contents do. */
  lemma ItemDeterminesTable(a: Table, b: Table, hash: Bytes -> Bytes)
    requires FixedWidth(hash) && TellsTables(hash, a, b) && CodableTable(a) && CodableTable(b)
    ensures ItemOf(a, hash) == ItemOf(b, hash) <==> SameContents(a, b)
  {
    hide RowsMessage, CodableTable, FixedWidth;
    if ItemOf(a, hash) == ItemOf(b, hash) {
      RowsAreDetermined(a, b, hash);
    }
    if SameContents(a, b) {
      RowsMessageForgetsOrder(a.rows, b.rows, hash);
      TotalSizeForgetsOrder(a.rows, b.rows);
      assert |a.rows| == |multiset(a.rows)| == |multiset(b.rows)| == |b.rows|;
    }
  }

  // ----- snapshots of a database -----

  type Database = map<string, Table>

  const TARGET := "messaging_outbox"
  const LEDGER := "alembic_version"

  predicate Retains(name: string) {
    name != TARGET && name != LEDGER
  }

  function Names(names: seq<string>): set<string> {
    set n | n in names
  }

  function Retained(names: set<string>, db: Database, hash: Bytes -> Bytes): map<string, Item>
    requires names <= db.Keys
  {
    map name | name in names && Retains(name) :: ItemOf(db[name], hash)
  }

  function RowCount(names: seq<string>, db: Database): nat
    requires forall n :: n in names ==> n in db
  {
    if names == [] then 0 else RowCount(names[..|names| - 1], db) + |db[names[|names| - 1]].rows|
  }

  function ByteCount(names: seq<string>, db: Database): nat
    requires forall n :: n in names ==> n in db
  {
    if names == [] then 0 else ByteCount(names[..|names| - 1], db) + TotalSize(db[names[|names| - 1]].rows)
  }

  predicate WithinBudget(names: seq<string>, db: Database)
    requires forall n :: n in names ==> n in db
  {
    RowCount(names, db) <= MAX_ROWS && ByteCount(names, db) <= MAX_BYTES
  }

  lemma {:induction false} CountsGrow(names: seq<string>, db: Database, i: nat)
    requires (forall n :: n in names ==> n in db) && i <= |names|
    ensures RowCount(names[..i], db) <= RowCount(names, db)
    ensures ByteCount(names[..i], db) <= ByteCount(names, db)
  {
    if i < |names| {
      CountsGrow(names[..|names| - 1], db, i);
      assert names[..|names| - 1][..i] == names[..i];
    } else {
      assert names[..i] == names;
    }
  }

  /** No reading of the clock, before each table and after the last, exceeds the time budget. */
  predicate InTime(elapsed: seq<int>) {
    forall i :: 0 <= i < |elapsed| ==> elapsed[i] <= MAX_SECONDS
  }

  /** The loop of `snapshot`: all tables are fingerprinted, or a budget is exceeded and nothing is.
      `elapsed` are the clock readings, in seconds since the start. */
  method TakeSnapshot(names: seq<string>, db: Database, hash: Bytes -> Bytes, elapsed: seq<int>)
    returns (r: Checked<map<string, Item>>)
    requires (forall n :: n in names ==> n in db) && |elapsed| == |names| + 1
    ensures r.Accepted? <==> WithinBudget(names, db) && InTime(elapsed)
    ensures r.Accepted? ==> r.value == Retained(Names(names), db, hash)
  {
    hide RowCount, ByteCount, TotalSize, ItemOf, Retains;
    NothingCounted(db, hash);
    assert names[..0] == [];
    var retained: map<string, Item> := map[];
    var remainingRows, remainingBytes: int := MAX_ROWS, MAX_BYTES;
    for i := 0 to |names|
      invariant remainingRows == MAX_ROWS - RowCount(names[..i], db) >= 0
      invariant remainingBytes == MAX_BYTES - ByteCount(names[..i], db) >= 0
      invariant retained == Retained(Names(names[..i]), db, hash)
      invariant forall k :: 0 <= k < i ==> elapsed[k] <= MAX_SECONDS
    {
      if elapsed[i] > MAX_SECONDS {
        return Rejected;
      }
      var name := names[i];
      CountsGrow(names, db, i + 1);
      OneMoreTable(names, db, hash, i);
      remainingRows := remainingRows - |db[name].rows|;
      remainingBytes := remainingBytes - TotalSize(db[name].rows);
      if remainingRows < 0 || remainingBytes < 0 {
        return Rejected;
      }
      if Retains(name) {
        retained := retained[name := ItemOf(db[name], hash)];
      }
    }
    assert names[..|names|] == names;
    if elapsed[|names|] > MAX_SECONDS {
      return Rejected;
    }
    r := Accepted(retained);
  }

  lemma NothingCounted(db: Database, hash: Bytes -> Bytes)
    ensures RowCount([], db) == 0 && ByteCount([], db) == 0
    ensures Retained(Names([]), db, hash) == map[]
  {
  }

  lemma OneMoreTable(names: seq<string>, db: Database, hash: Bytes -> Bytes, i: nat)
    requires (forall n :: n in names ==> n in db) && i < |names|
    ensures RowCount(names[..i + 1], db) == RowCount(names[..i], db) + |db[names[i]].rows|
    ensures ByteCount(names[..i + 1], db) == ByteCount(names[..i], db) + TotalSize(db[names[i]].rows)
    ensures Retained(Names(names[..i + 1]), db, hash) ==
              var retained := Retained(Names(names[..i]), db, hash);
              if Retains(names[i]) then retained[names[i] := ItemOf(db[names[i]], hash)] else retained
  {
    hide ItemOf, Retains;
    assert names[..i + 1][..i] == names[..i] && names[..i + 1] == names[..i] + [names[i]];
    assert Names(names[..i + 1]) == Names(names[..i]) + {names[i]};
  }

  lemma {:induction false} ValueIsBounded(row: Row, i: nat)
    requires i < |row| && row[i].Some?
    ensures |row[i].value| <= Size(row)
  {
    if i < |row| - 1 {
      ValueIsBounded(row[..|row| - 1], i);
    }
  }

  lemma {:induction false} TableIsCounted(names: seq<string>, db: Database, name: string)
    requires (forall n :: n in names ==> n in db) && name in names
    ensures TotalSize(db[name].rows) <= ByteCount(names, db)
  {
    var init := names[..|names| - 1];
    assert names == init + [names[|names| - 1]];
    if name in init {
      TableIsCounted(init, db, name);
    }
  }

  lemma EightBytes()
    ensures Power256(8) > MAX_BYTES
  {
    assert Power256(4) == 256 * (256 * (256 * (256 * Power256(0))));
    assert Power256(8) == 256 * (256 * (256 * (256 * Power256(4))));
  }

  /** Whatever fits the budget can be coded: no length overflows its eight bytes. */
  lemma BudgetedIsCodable(names: seq<string>, db: Database, name: string)
    requires (forall n :: n in names ==> n in db) && name in names && WithinBudget(names, db)
    ensures CodableTable(db[name])
  {
    EightBytes();
    TableIsCounted(names, db, name);
    var rows := db[name].rows;
    forall row: Row | row in rows ensures Codable(row) {
      var k :| 0 <= k < |rows| && rows[k] == row;
      TotalSizeWithout(rows, k);
      forall i | 0 <= i < |row| && row[i].Some? ensures |row[i].value| < Power256(8) {
        ValueIsBounded(row, i);
      }
    }
  }

  /** Two accepted snapshots retain the same exactly when every protected table has the same contents. */
  lemma RetainedDeterminesDatabase(na: seq<string>, a: Database, nb: seq<string>, b: Database, hash: Bytes -> Bytes)
    requires (forall n :: n in na <==> n in a) && (forall n :: n in nb <==> n in b)
    requires WithinBudget(na, a) && WithinBudget(nb, b) && FixedWidth(hash)
    requires forall n :: n in a && n in b ==> TellsTables(hash, a[n], b[n])
    ensures Retained(a.Keys, a, hash) == Retained(b.Keys, b, hash) <==>
              forall n :: Retains(n) ==> (n in a <==> n in b) && (n in a && n in b ==> SameContents(a[n], b[n]))
  {
    hide WithinBudget, FixedWidth, TellsTables, SameContents, CodableTable, ItemOf;
    forall n | n in a && n in b ensures ItemOf(a[n], hash) == ItemOf(b[n], hash) <==> SameContents(a[n], b[n]) {
      BudgetedIsCodable(na, a, n);
      BudgetedIsCodable(nb, b, n);
      ItemDeterminesTable(a[n], b[n], hash);
    }
    var ra, rb := Retained(a.Keys, a, hash), Retained(b.Keys, b, hash);
    if ra == rb {
      forall n | Retains(n) ensures (n in a <==> n in b) && (n in a && n in b ==> SameContents(a[n], b[n])) {
        assert n in ra <==> n in a;
        assert n in rb <==> n in b;
      }
    }
  }
}
