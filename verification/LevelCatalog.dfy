/** The level table: imports that only ever append, and the in-memory index that decides by one
    count whether it is up to date. Two boards with the same content hash are the same board. */
module LevelCatalog {
  import opened Finite

  datatype Id = Id(uuid: string)
  datatype Content = Content(hash: string)

  /** A stored level; position 0 means stored but not published. */
  datatype Row = Row(content: Content, position: nat)

  type Table = map<Id, Row>

  datatype FileLevel = FileLevel(id: Id, content: Content)

  datatype Imported = Refused(id: Id) | Accepted(table: Table)

  ghost function Published(t: Table): set<Id> {
    set id | id in t && t[id].position > 0
  }

  /** The published levels carry exactly the positions 1..count. */
  ghost predicate Numbered(t: Table) {
    && (forall id :: id in t ==> t[id].position <= |Published(t)|)
    && (forall a, b :: a in t && b in t && t[a].position == t[b].position > 0 ==> a == b)
  }

  // ----- one level, and a whole file -----

  ghost function ImportOne(t: Table, l: FileLevel): Imported {
    if l.id !in t then Accepted(t[l.id := Row(l.content, |Published(t)| + 1)])
    else if t[l.id].content != l.content then Refused(l.id)
    else if t[l.id].position == 0 then Accepted(t[l.id := Row(l.content, |Published(t)| + 1)])
    else Accepted(t)
  }

  ghost function ImportAll(t: Table, f: seq<FileLevel>): Imported {
    if f == [] then Accepted(t)
    else
      var before := ImportAll(t, f[..|f| - 1]);
      if before.Refused? then before else ImportOne(before.table, f[|f| - 1])
  }

  /** `later` came from `earlier` by imports: nothing stored ever changes or disappears, published
      levels keep their places, new places come after the old ones, and nothing is added unpublished. */
  ghost predicate Appends(earlier: Table, later: Table) {
    && earlier.Keys <= later.Keys
    && (forall id :: id in earlier ==> later[id].content == earlier[id].content)
    && (forall id :: id in earlier && earlier[id].position > 0 ==> later[id].position == earlier[id].position)
    && (forall id :: id in later && later[id].position == 0 ==> id in earlier)
    && (forall id :: id in later && later[id].position > 0 && id !in Published(earlier) ==>
         later[id].position > |Published(earlier)|)
  }

  lemma PublishedPlusOne(t: Table, id: Id, row: Row)
    requires id !in Published(t) && row.position > 0
    ensures Published(t[id := row]) == Published(t) + {id}
    ensures |Published(t[id := row])| == |Published(t)| + 1
  {
    assert Published(t[id := row]) == Published(t) + {id};
  }

  lemma PublishOne(t: Table, id: Id, row: Row)
    requires Numbered(t) && id !in Published(t) && row.position == |Published(t)| + 1
    requires id in t ==> t[id].content == row.content
    ensures Numbered(t[id := row])
    ensures |Published(t[id := row])| == |Published(t)| + 1
    ensures Appends(t, t[id := row])
  {
    PublishedPlusOne(t, id, row);
    PublishKeepsNumbers(t, id, row);
    PublishAppends(t, id, row);
  }

  lemma PublishKeepsNumbers(t: Table, id: Id, row: Row)
    requires Numbered(t) && id !in Published(t) && row.position == |Published(t)| + 1
    ensures Numbered(t[id := row])
  {
    PublishedPlusOne(t, id, row);
    var u := t[id := row];
    forall x | x in u
      ensures x != id ==> u[x].position <= |Published(t)|
    {
    }
  }

  lemma PublishAppends(t: Table, id: Id, row: Row)
    requires id !in Published(t) && row.position == |Published(t)| + 1
    requires id in t ==> t[id].content == row.content
    ensures Appends(t, t[id := row])
  {
    var u := t[id := row];
    forall x | x in u && x != id
      ensures x in t && u[x] == t[x]
      ensures u[x].position > 0 ==> x in Published(t)
    {
    }
  }

  lemma ImportOneAppends(t: Table, l: FileLevel)
    requires Numbered(t) && ImportOne(t, l).Accepted?
    ensures var u := ImportOne(t, l).table;
      Numbered(u) && Appends(t, u) && EntryPublished(u, l) && u.Keys == t.Keys + {l.id}
  {
    if l.id !in Published(t) {
      PublishOne(t, l.id, Row(l.content, |Published(t)| + 1));
    }
  }

  lemma AppendsChain(a: Table, b: Table, c: Table)
    requires Appends(a, b) && Appends(b, c)
    ensures Appends(a, c)
  {
    PublishedGrows(a, b);
    forall id | id in c && c[id].position > 0 && id !in Published(a)
      ensures c[id].position > |Published(a)|
    {
      if id in Published(b) {
        assert c[id].position == b[id].position;
      }
    }
  }

  lemma PublishedGrows(a: Table, b: Table)
    requires Appends(a, b)
    ensures Published(a) <= Published(b) && |Published(a)| <= |Published(b)|
  {
    forall id | id in Published(a)
      ensures id in Published(b)
    {
      assert b[id].position == a[id].position;
    }
    SubsetCard(Published(a), Published(b));
  }

  ghost predicate AllEntriesPublished(u: Table, f: seq<FileLevel>) {
    forall k :: 0 <= k < |f| ==> EntryPublished(u, f[k])
  }

  /** Every accepted file only appends, and all its levels are published afterwards. */
  lemma {:induction false} ImportAppends(t: Table, f: seq<FileLevel>)
    requires Numbered(t) && ImportAll(t, f).Accepted?
    ensures Numbered(ImportAll(t, f).table) && Appends(t, ImportAll(t, f).table)
    ensures AllEntriesPublished(ImportAll(t, f).table, f)
  {
    if f == [] {
      AppendsItself(t);
    } else {
      var k := |f| - 1;
      var mid := ImportAll(t, f[..k]).table;
      ImportAppends(t, f[..k]);
      ImportOneAppends(mid, f[k]);
      AppendsChain(t, mid, ImportAll(t, f).table);
      EntriesStay(mid, ImportAll(t, f).table, f, k);
    }
  }

  ghost predicate EntryPublished(u: Table, l: FileLevel) {
    l.id in u && u[l.id].content == l.content && u[l.id].position > 0
  }

  lemma EntriesStay(mid: Table, u: Table, f: seq<FileLevel>, k: nat)
    requires Appends(mid, u) && k < |f|
    requires AllEntriesPublished(mid, f[..k]) && k == |f| - 1 && EntryPublished(u, f[k])
    ensures AllEntriesPublished(u, f)
  {
    forall j | 0 <= j < k
      ensures EntryPublished(u, f[j])
    {
      assert EntryPublished(mid, f[..k][j]);
    }
  }

  /** Importing the same file again changes nothing. */
  lemma {:induction false} ReimportIsIdle(u: Table, f: seq<FileLevel>)
    requires AllEntriesPublished(u, f)
    ensures ImportAll(u, f) == Accepted(u)
  {
    if f != [] {
      var k := |f| - 1;
      assert forall j :: 0 <= j < k ==> f[..k][j] == f[j];
      ReimportIsIdle(u, f[..k]);
      assert EntryPublished(u, f[k]);
    }
  }

  lemma ImportTwice(t: Table, f: seq<FileLevel>)
    requires Numbered(t) && ImportAll(t, f).Accepted?
    ensures ImportAll(ImportAll(t, f).table, f) == ImportAll(t, f)
  {
    ImportAppends(t, f);
    ReimportIsIdle(ImportAll(t, f).table, f);
  }

  /** Entry k of the file is an edited board: it differs from the stored one or from an earlier entry. */
  ghost predicate Edited(t: Table, f: seq<FileLevel>, k: nat)
    requires k < |f|
  {
    || (f[k].id in t && t[f[k].id].content != f[k].content)
    || exists j :: 0 <= j < k && f[j].id == f[k].id && f[j].content != f[k].content
  }

  ghost predicate Mentions(f: seq<FileLevel>, id: Id) {
    exists j :: 0 <= j < |f| && f[j].id == id
  }

  lemma MentionsLast(f: seq<FileLevel>, id: Id)
    requires f != []
    ensures Mentions(f, id) <==> Mentions(f[..|f| - 1], id) || f[|f| - 1].id == id
  {
    var f0 := f[..|f| - 1];
    if Mentions(f, id) {
      var j :| 0 <= j < |f| && f[j].id == id;
      assert j < |f| - 1 ==> f0[j].id == id;
    }
    if Mentions(f0, id) {
      var j :| 0 <= j < |f0| && f0[j].id == id;
      assert f[j].id == id;
    }
  }

  lemma {:induction false} KeysAfterImport(t: Table, f: seq<FileLevel>, id: Id)
    requires Numbered(t) && ImportAll(t, f).Accepted?
    ensures id in ImportAll(t, f).table <==> id in t || Mentions(f, id)
  {
    if f != [] {
      var k := |f| - 1;
      KeysAfterImport(t, f[..k], id);
      ImportAppends(t, f[..k]);
      ImportOneAppends(ImportAll(t, f[..k]).table, f[k]);
      MentionsLast(f, id);
    }
  }

  /** A file is refused exactly when it holds an edited board. */
  lemma {:induction false} RefusedIffEdited(t: Table, f: seq<FileLevel>)
    requires Numbered(t)
    ensures ImportAll(t, f).Refused? <==> exists k: nat :: k < |f| && Edited(t, f, k)
  {
    if f != [] {
      var k := |f| - 1;
      var f0 := f[..k];
      RefusedIffEdited(t, f0);
      forall i: nat | i < k
        ensures Edited(t, f0, i) <==> Edited(t, f, i)
      {
        EditedInPrefix(t, f, i);
      }
      if ImportAll(t, f0).Accepted? {
        LastEntry(t, f);
      }
    }
  }

  /** And the id it is refused with is that of the first one. */
  lemma {:induction false} RefusedNamesFirst(t: Table, f: seq<FileLevel>) returns (k: nat)
    requires Numbered(t) && ImportAll(t, f).Refused?
    ensures k < |f| && Edited(t, f, k) && ImportAll(t, f).id == f[k].id
    ensures forall i: nat :: i < k ==> !Edited(t, f, i)
  {
    k := |f| - 1;
    var f0 := f[..k];
    forall i: nat | i < k
      ensures Edited(t, f0, i) <==> Edited(t, f, i)
    {
      EditedInPrefix(t, f, i);
    }
    if ImportAll(t, f0).Refused? {
      k := RefusedNamesFirst(t, f0);
    } else {
      LastEntry(t, f);
      RefusedIffEdited(t, f0);
    }
  }

  lemma EditedInPrefix(t: Table, f: seq<FileLevel>, i: nat)
    requires i + 1 < |f|
    ensures Edited(t, f[..|f| - 1], i) <==> Edited(t, f, i)
  {
    var f0 := f[..|f| - 1];
    forall j | 0 <= j <= i
      ensures f0[j] == f[j]
    {
    }
  }

  lemma LastEntry(t: Table, f: seq<FileLevel>)
    requires Numbered(t) && f != [] && ImportAll(t, f[..|f| - 1]).Accepted?
    ensures ImportAll(t, f).Refused? <==> Edited(t, f, |f| - 1)
  {
    var k := |f| - 1;
    var f0 := f[..k];
    var mid := ImportAll(t, f0).table;
    ImportAppends(t, f0);
    KeysAfterImport(t, f0, f[k].id);
    assert forall j :: 0 <= j < k ==> f0[j] == f[j];
    assert forall j :: 0 <= j < k ==> EntryPublished(mid, f0[j]);
  }

  // ----- any sequence of imports -----

  /** Each step imports some file; a refused one is rolled back. */
  ghost predicate ImportRun(history: seq<Table>, files: seq<seq<FileLevel>>) {
    && |history| == |files| + 1
    && Numbered(history[0])
    && forall k :: 0 <= k < |files| ==> ImportStep(history[k], files[k], history[k + 1])
  }

  ghost predicate ImportStep(t: Table, f: seq<FileLevel>, u: Table) {
    u == if ImportAll(t, f).Accepted? then ImportAll(t, f).table else t
  }

  lemma AppendsItself(t: Table)
    requires Numbered(t)
    ensures Appends(t, t)
  {
  }

  lemma StepAppends(t: Table, f: seq<FileLevel>, u: Table)
    requires Numbered(t) && ImportStep(t, f, u)
    ensures Numbered(u) && Appends(t, u)
  {
    if ImportAll(t, f).Accepted? {
      ImportAppends(t, f);
    } else {
      AppendsItself(t);
    }
  }

  lemma {:induction false} RunNumbered(history: seq<Table>, files: seq<seq<FileLevel>>, j: nat)
    requires ImportRun(history, files) && j < |history|
    ensures Numbered(history[j])
  {
    if j > 0 {
      RunNumbered(history, files, j - 1);
      assert ImportStep(history[j - 1], files[j - 1], history[j - 1 + 1]);
      StepAppends(history[j - 1], files[j - 1], history[j]);
    }
  }

  lemma {:induction false} RunAppends(history: seq<Table>, files: seq<seq<FileLevel>>, i: nat, j: nat)
    requires ImportRun(history, files) && i <= j < |history|
    ensures Numbered(history[j]) && Appends(history[i], history[j])
    decreases j
  {
    RunNumbered(history, files, j);
    if i == j {
      AppendsItself(history[j]);
    } else {
      RunNumbered(history, files, j - 1);
      RunAppends(history, files, i, j - 1);
      assert ImportStep(history[j - 1], files[j - 1], history[j - 1 + 1]);
      StepAppends(history[j - 1], files[j - 1], history[j]);
      AppendsChain(history[i], history[j - 1], history[j]);
    }
  }

  /** The count says it all: if no more levels are published, nothing at all has changed. */
  lemma SameCountSameTable(a: Table, b: Table)
    requires Appends(a, b) && |Published(a)| == |Published(b)|
    ensures a == b
  {
    PublishedGrows(a, b);
    SubsetCard(Published(a), Published(b));
    forall id | id in b
      ensures id in a && b[id] == a[id]
    {
      if b[id].position > 0 {
        assert id in Published(a);
      }
    }
  }

  lemma EqualCountsEqualTables(history: seq<Table>, files: seq<seq<FileLevel>>, i: nat, j: nat)
    requires ImportRun(history, files) && i <= j < |history|
    requires |Published(history[i])| == |Published(history[j])|
    ensures history[i] == history[j]
  {
    RunAppends(history, files, i, j);
    SameCountSameTable(history[i], history[j]);
  }

  // ----- the database table -----

  datatype Report = Report(added: nat, published: nat, kept: nat, total: nat)

  datatype Stored = Added | Numbering | Kept | Differs

  datatype SyncResult = Failed(id: Id) | Done(report: Report)

  /** What a report says: the new rows were added here, every new position was added or published
      here, and every entry of the file is counted once. */
  ghost predicate ReportFits(r: Report, before: Table, after: Table, entries: nat) {
    && r.total == |Published(after)| && r.added == |after.Keys| - |before.Keys|
    && r.added + r.published == |Published(after)| - |Published(before)| && r.added + r.published + r.kept == entries
  }

  class LevelTable {
    var levels: Table

    ghost predicate Valid()
      reads this
    {
      Numbered(levels)
    }

    constructor ()
      ensures Valid() && levels == map[]
    {
      levels := map[];
    }

    /** COUNT(*) WHERE position > 0. */
    method CountPublished() returns (n: nat)
      ensures n == |Published(levels)|
    {
      n := |set id | id in levels && levels[id].position > 0|;
    }

    /** MAX(position), 0 for an empty table. */
    method MaxPosition() returns (n: nat)
      requires Valid()
      ensures n == |Published(levels)|
    {
      n := 0;
      var left := levels.Keys;
      while left != {}
        invariant left <= levels.Keys
        invariant n <= |Published(levels)|
        invariant forall id :: id in levels.Keys - left ==> levels[id].position <= n
      {
        var id :| id in left;
        if levels[id].position > n {
          n := levels[id].position;
        }
        left := left - {id};
      }
      PositionsReachCount(levels, n);
    }

    /** The loop of an import: it may stop in the middle of the file. */
    method Import(f: seq<FileLevel>) returns (r: SyncResult)
      requires Valid()
      modifies this
      ensures r.Failed? <==> ImportAll(old(levels), f).Refused?
      ensures r.Failed? ==> ImportAll(old(levels), f) == Refused(r.id)
      ensures r.Done? ==> Valid() && ImportAll(old(levels), f) == Accepted(levels)
      ensures r.Done? ==> ReportFits(r.report, old(levels), levels, |f|)
    {
      var next := MaxPosition();
      var added, published, kept := 0, 0, 0;
      ghost var t := levels;
      for k := 0 to |f|
        invariant Valid() && ImportAll(t, f[..k]) == Accepted(levels)
        invariant next == |Published(levels)| == |Published(t)| + added + published
        invariant |levels.Keys| == |t.Keys| + added
        invariant added + published + kept == k
      {
        assert f[..k + 1][..k] == f[..k];
        var did := Store(f[k], next);
        if did == Differs {
          RefusedStays(t, f, k + 1);
          return Failed(f[k].id);
        }
        if did == Added {
          added := added + 1;
          next := next + 1;
        } else if did == Numbering {
          published := published + 1;
          next := next + 1;
        } else {
          kept := kept + 1;
        }
      }
      assert f[..|f|] == f;
      var total := CountPublished();
      r := Done(Report(added, published, kept, total));
    }

    /** One entry of the file: inserted, given a position, left alone or refused. */
    method Store(l: FileLevel, next: nat) returns (did: Stored)
      requires Valid() && next == |Published(levels)|
      modifies this
      ensures Valid()
      ensures ImportOne(old(levels), l) == if did == Differs then Refused(l.id) else Accepted(levels)
      ensures did == Differs || did == Kept ==> levels == old(levels)
      ensures did == Added || did == Numbering ==> |Published(levels)| == next + 1
      ensures |levels.Keys| == |old(levels).Keys| + if did == Added then 1 else 0
    {
      if l.id !in levels {
        PublishOne(levels, l.id, Row(l.content, next + 1));
        levels := levels[l.id := Row(l.content, next + 1)];
        return Added;
      }
      var existing := levels[l.id];
      if existing.content != l.content {
        return Differs;
      }
      if existing.position == 0 {
        PublishOne(levels, l.id, Row(l.content, next + 1));
        levels := levels[l.id := Row(existing.content, next + 1)];
        return Numbering;
      }
      return Kept;
    }

    /** One transaction: a refused import leaves no trace. */
    method Sync(f: seq<FileLevel>) returns (r: SyncResult)
      requires Valid()
      modifies this
      ensures Valid() && ImportStep(old(levels), f, levels)
      ensures r.Failed? <==> ImportAll(old(levels), f).Refused?
    {
      var before := levels;
      r := Import(f);
      if r.Failed? {
        levels := before;
      }
    }

    /** Every stored row, in some order. */
    method All() returns (rows: seq<(Id, Row)>)
      ensures Lists(rows, levels)
    {
      rows := [];
      var left := levels.Keys;
      while left != {}
        invariant left <= levels.Keys
        invariant forall id, row :: (id, row) in rows <==> id in levels && id !in left && levels[id] == row
        invariant forall i, j :: 0 <= i < j < |rows| ==> rows[i].0 != rows[j].0
      {
        var id :| id in left;
        forall i | 0 <= i < |rows|
          ensures rows[i].0 != id
        {
          assert rows[i] == (rows[i].0, rows[i].1) && rows[i] in rows;
        }
        rows := rows + [(id, levels[id])];
        left := left - {id};
      }
    }
  }

  /** With the positions 1..count taken, the largest one is the count. */
  lemma PositionsReachCount(t: Table, n: nat)
    requires Numbered(t) && n <= |Published(t)|
    requires forall id :: id in t ==> t[id].position <= n
    ensures n == |Published(t)|
  {
    var f := (id: Id) => if id in t then t[id].position - 1 else -1;
    assert InjectiveOn(Published(t), f);
    ImageCard(Published(t), f);
    forall x | x in Image(Published(t), f)
      ensures x in IntsBelow(n)
    {
      var id :| id in Published(t) && f(id) == x;
    }
    SubsetCard(Image(Published(t), f), IntsBelow(n));
  }

  lemma RefusedStays(t: Table, f: seq<FileLevel>, k: nat)
    requires k <= |f| && ImportAll(t, f[..k]).Refused?
    ensures ImportAll(t, f) == ImportAll(t, f[..k])
    decreases |f|
  {
    if k == |f| {
      assert f[..k] == f;
    } else {
      var f0 := f[..|f| - 1];
      assert f0[..k] == f[..k];
      RefusedStays(t, f0, k);
    }
  }

  // ----- the index in memory -----

  class LevelIndex {
    var byId: Table
    var published: nat

    /** The index is the table of some earlier moment. */
    ghost predicate LoadedFrom(t: Table)
      reads this
    {
      byId == t && published == |Published(t)|
    }

    /** `newLevelIndex`: one pass over the rows. */
    constructor (rows: seq<(Id, Row)>, ghost t: Table)
      requires Lists(rows, t)
      ensures LoadedFrom(t)
    {
      var m: Table := map[];
      var n: nat := 0;
      for k := 0 to |rows|
        invariant Loaded(rows, k, m) && n == |Published(m)|
      {
        LoadOneMore(rows, t, k, m);
        m := m[rows[k].0 := rows[k].1];
        if rows[k].1.position > 0 {
          n := n + 1;
        }
      }
      SameAsRows(rows, t, m);
      byId, published := m, n;
    }
  }

  ghost predicate Lists(rows: seq<(Id, Row)>, t: Table) {
    && (forall id, row :: (id, row) in rows <==> id in t && t[id] == row)
    && (forall i, j :: 0 <= i < j < |rows| ==> rows[i].0 != rows[j].0)
  }

  /** The map after k rows. */
  ghost predicate Loaded(rows: seq<(Id, Row)>, k: nat, m: Table)
    requires k <= |rows|
  {
    && (forall id :: id in m ==> exists i :: 0 <= i < k && rows[i].0 == id)
    && (forall i :: 0 <= i < k ==> rows[i].0 in m && m[rows[i].0] == rows[i].1)
  }

  lemma LoadOneMore(rows: seq<(Id, Row)>, t: Table, k: nat, m: Table)
    requires k < |rows| && Lists(rows, t) && Loaded(rows, k, m)
    ensures Loaded(rows, k + 1, m[rows[k].0 := rows[k].1])
    ensures |Published(m[rows[k].0 := rows[k].1])| == |Published(m)| + (if rows[k].1.position > 0 then 1 else 0)
  {
    NotLoadedYet(rows, t, k, m);
    CountOneMore(m, rows[k].0, rows[k].1);
    var u := m[rows[k].0 := rows[k].1];
    forall i | 0 <= i < k
      ensures rows[i].0 in u && u[rows[i].0] == rows[i].1
    {
      assert rows[i].0 != rows[k].0;
    }
    assert rows[k].0 in u && u[rows[k].0] == rows[k].1;
  }

  lemma NotLoadedYet(rows: seq<(Id, Row)>, t: Table, k: nat, m: Table)
    requires k < |rows| && Lists(rows, t) && Loaded(rows, k, m)
    ensures rows[k].0 !in m
  {
  }

  lemma CountOneMore(m: Table, id: Id, row: Row)
    requires id !in m
    ensures |Published(m[id := row])| == |Published(m)| + (if row.position > 0 then 1 else 0)
  {
    if row.position > 0 {
      PublishedPlusOne(m, id, row);
    } else {
      assert Published(m[id := row]) == Published(m);
    }
  }

  lemma SameAsRows(rows: seq<(Id, Row)>, t: Table, m: Table)
    requires Lists(rows, t) && Loaded(rows, |rows|, m)
    ensures m == t
  {
    forall id
      ensures id in m <==> id in t
      ensures id in m ==> m[id] == t[id]
    {
      if id in m {
        var i :| 0 <= i < |rows| && rows[i].0 == id;
        assert rows[i] == (id, m[id]) && (id, m[id]) in rows;
      }
      if id in t {
        assert (id, t[id]) in rows;
        var i :| 0 <= i < |rows| && rows[i] == (id, t[id]);
        assert rows[i].0 == id;
      }
    }
  }

  class LevelService {
    var index: LevelIndex
    const db: LevelTable

    /** The index was loaded from a table the current one only appends to. */
    ghost predicate Valid()
      reads this, index, db
    {
      && db.Valid()
      && index.published == |Published(index.byId)|
      && Appends(index.byId, db.levels)
    }

    constructor (db: LevelTable)
      requires db.Valid()
      ensures this.db == db && Valid()
    {
      this.db := db;
      var rows := db.All();
      index := new LevelIndex(rows, db.levels);
      new;
      AppendsItself(db.levels);
    }

    /** Another process imports while this one runs. */
    method ImportElsewhere(f: seq<FileLevel>) returns (r: SyncResult)
      requires Valid()
      modifies db
      ensures Valid() && ImportStep(old(db.levels), f, db.levels)
    {
      ghost var before := db.levels;
      r := db.Sync(f);
      if ImportAll(before, f).Accepted? {
        ImportAppends(before, f);
        AppendsChain(index.byId, before, db.levels);
      }
    }

    method ReloadLevels()
      requires Valid()
      modifies this
      ensures Valid() && index.byId == db.levels
    {
      var rows := db.All();
      index := new LevelIndex(rows, db.levels);
      AppendsItself(db.levels);
    }

    /** One COUNT(*): equal counts mean an equal table, so keeping the index is right. */
    method RefreshLevels()
      requires Valid()
      modifies this
      ensures Valid() && index.byId == db.levels
    {
      var n := db.CountPublished();
      if n == index.published {
        SameCountSameTable(index.byId, db.levels);
        return;
      }
      ReloadLevels();
    }

    /** An id is found exactly when the database holds it, with the board the database holds; only
        a level published since the index was loaded may still show its old position. */
    method LevelFor(id: Id) returns (found: bool, row: Row)
      requires Valid()
      modifies this
      ensures Valid()
      ensures found <==> id in db.levels
      ensures found ==> row.content == db.levels[id].content
      ensures found && row.position > 0 ==> row == db.levels[id]
    {
      if id in index.byId {
        return true, index.byId[id];
      }
      RefreshLevels();
      if id in index.byId {
        return true, index.byId[id];
      }
      return false, Row(Content(""), 0);
    }
  }
}
