/** The deploy database: keep the latest scan rows, drop the masked servers, and look again. */
module Sanitize {
  import opened Results

  datatype Row = Row(id: string, slug: string, scannedAt: int)

  /** `id` is the table's primary key. */
  predicate Keyed(rows: seq<Row>) {
    forall i, j :: 0 <= i < j < |rows| ==> rows[i].id != rows[j].id
  }

  /** No row of the same server is newer; rows that tie are all latest. */
  predicate IsLatest(rows: seq<Row>, r: Row) {
    r in rows && forall q :: q in rows && q.slug == r.slug ==> q.scannedAt <= r.scannedAt
  }

  function LatestSlugs(rows: seq<Row>): set<string> { set r | r in rows && IsLatest(rows, r) :: r.slug }

  function AllSlugs(rows: seq<Row>): set<string> { set r | r in rows :: r.slug }

  /** A `DELETE`: what stays keeps its order. */
  function Kept(rows: seq<Row>, keep: set<Row>): (k: seq<Row>)
    ensures forall r :: r in k <==> r in rows && r in keep
  {
    if rows == [] then []
    else Kept(rows[..|rows| - 1], keep) + if rows[|rows| - 1] in keep then [rows[|rows| - 1]] else []
  }

  function Sanitized(rows: seq<Row>, masked: set<string>): seq<Row> {
    Kept(rows, set r | r in rows && IsLatest(rows, r) && r.slug !in masked)
  }

  class Database {
    var scans: seq<Row>

    constructor (rows: seq<Row>)
      ensures scans == rows
    {
      scans := rows;
    }

    /** _latest_scan_rows, as a set: the order inside ties is the database's own. */
    method LatestScanRows() returns (latest: set<Row>)
      ensures latest == set r | r in scans && IsLatest(scans, r)
    {
      var newest: map<string, int> := map[];
      var i := 0;
      while i < |scans|
        invariant 0 <= i <= |scans|
        invariant forall s :: s in newest <==> exists k :: 0 <= k < i && scans[k].slug == s
        invariant forall k :: 0 <= k < i ==> scans[k].scannedAt <= newest[scans[k].slug]
        invariant forall s :: s in newest ==> exists k :: 0 <= k < i && scans[k] == Row(scans[k].id, s, newest[s])
      {
        var r := scans[i];
        if r.slug !in newest || newest[r.slug] < r.scannedAt {
          ghost var before := newest;
          newest := newest[r.slug := r.scannedAt];
          forall s | s in newest ensures exists k :: 0 <= k < i + 1 && scans[k] == Row(scans[k].id, s, newest[s]) {
            if s == r.slug {
              assert scans[i] == Row(scans[i].id, s, newest[s]);
            } else {
              var k :| 0 <= k < i && scans[k] == Row(scans[k].id, s, before[s]);
            }
          }
        }
        i := i + 1;
      }
      latest := set r | r in scans && newest[r.slug] == r.scannedAt;
      assert forall r :: r in scans ==> r.slug in newest;
    }

    /** `DELETE FROM scans WHERE id NOT IN ...` */
    method DeleteOthers(ids: set<string>)
      modifies this
      ensures scans == Kept(old(scans), set r | r in old(scans) && r.id in ids)
    {
      scans := Kept(scans, set r | r in scans && r.id in ids);
    }

    /** `DELETE FROM scans WHERE server_slug IN ...` */
    method DeleteServers(slugs: set<string>)
      modifies this
      ensures scans == Kept(old(scans), set r | r in old(scans) && r.slug !in slugs)
    {
      scans := Kept(scans, set r | r in scans && r.slug !in slugs);
    }

    /** _copy_sanitized_db, on the copy: two deletions, then the rows are read again. */
    method Sanitize(masked: set<string>) returns (r: Result<set<Row>>)
      requires Keyed(scans)
      modifies this
      ensures r.Ok? <==> old(scans) != []
      ensures r.Ok? ==> scans == Sanitized(old(scans), masked)
      ensures r.Ok? ==> r.value == set x | x in scans
      ensures r.Raised? ==> scans == old(scans)
    {
      var latest := LatestScanRows();
      var ids := set x | x in latest :: x.id;
      IdsSelect(scans, latest, ids);
      if ids == {} { return Raised; }
      ghost var rows := scans;
      DeleteOthers(ids);
      DeleteServers(masked);
      KeptTwice(rows, masked);
      SanitizedIsStable(rows, masked);
      var again := LatestScanRows();
      r := Ok(again);
    }
  }

  /** Deleting by identity deletes exactly what is not latest, and there is something latest in any table. */
  lemma IdsSelect(rows: seq<Row>, latest: set<Row>, ids: set<string>)
    requires Keyed(rows) && latest == set r | r in rows && IsLatest(rows, r)
    requires ids == set x | x in latest :: x.id
    ensures (set r | r in rows && r.id in ids) == latest
    ensures ids == {} <==> rows == []
  {
    SameIdSameRow(rows);
    SomeLatest(rows);
    if rows != [] {
      var r :| IsLatest(rows, r);
      assert r in latest && r.id in ids;
    }
  }

  lemma SameIdSameRow(rows: seq<Row>)
    requires Keyed(rows)
    ensures forall x, y :: x in rows && y in rows && x.id == y.id ==> x == y
  {
    forall x, y | x in rows && y in rows && x.id == y.id ensures x == y {
      var i :| 0 <= i < |rows| && rows[i] == x;
      var j :| 0 <= j < |rows| && rows[j] == y;
    }
  }

  /** A table with rows has a latest row for every server in it. */
  lemma {:induction false} NewestOf(rows: seq<Row>, slug: string)
    requires exists r :: r in rows && r.slug == slug
    ensures exists r: Row :: r.slug == slug && IsLatest(rows, r)
    decreases |rows|
  {
    var init, last := rows[..|rows| - 1], rows[|rows| - 1];
    assert rows == init + [last];
    if exists r :: r in init && r.slug == slug {
      NewestOf(init, slug);
      var r: Row :| r.slug == slug && IsLatest(init, r);
      if last.slug == slug && last.scannedAt > r.scannedAt {
        assert IsLatest(rows, last);
      } else {
        assert IsLatest(rows, r);
      }
    } else {
      assert IsLatest(rows, last);
    }
  }

  lemma SomeLatest(rows: seq<Row>)
    ensures rows != [] ==> exists r :: IsLatest(rows, r)
  {
    if rows != [] {
      assert rows[0] in rows;
      NewestOf(rows, rows[0].slug);
    }
  }

  lemma {:induction false} KeptAgain(rows: seq<Row>, a: set<Row>, b: set<Row>, both: set<Row>)
    requires forall r :: r in both <==> r in a && r in b
    ensures Kept(Kept(rows, a), b) == Kept(rows, both)
  {
    if rows != [] {
      var init, last := rows[..|rows| - 1], rows[|rows| - 1];
      KeptAgain(init, a, b, both);
      if last in a {
        var k := Kept(init, a) + [last];
        assert k[..|k| - 1] == Kept(init, a);
      } else {
        assert Kept(rows, a) == Kept(init, a);
      }
    }
  }

  lemma {:induction false} KeptSame(rows: seq<Row>, a: set<Row>, b: set<Row>)
    requires forall r :: r in rows ==> (r in a <==> r in b)
    ensures Kept(rows, a) == Kept(rows, b)
  {
    if rows != [] { KeptSame(rows[..|rows| - 1], a, b); }
  }

  lemma KeptTwice(rows: seq<Row>, masked: set<string>)
    ensures var first := Kept(rows, set r | r in rows && IsLatest(rows, r));
      Kept(first, set r | r in first && r.slug !in masked) == Sanitized(rows, masked)
  {
    var latest := set r | r in rows && IsLatest(rows, r);
    var first := Kept(rows, latest);
    var unmasked := set r | r in rows && r.slug !in masked;
    KeptSame(first, (set r | r in first && r.slug !in masked), unmasked);
    KeptAgain(rows, latest, unmasked, (set r | r in rows && IsLatest(rows, r) && r.slug !in masked));
  }

  /** What is left is latest rows only, all of them and no masked one; looking for the latest rows, or
      sanitising again, changes nothing. */
  lemma SanitizedIsStable(rows: seq<Row>, masked: set<string>)
    ensures var left := Sanitized(rows, masked);
      && (forall r :: r in left <==> IsLatest(rows, r) && r.slug !in masked)
      && (forall r :: r in left ==> IsLatest(left, r))
      && Sanitized(left, masked) == left
      && LatestSlugs(left) == AllSlugs(rows) - masked
  {
    var left := Sanitized(rows, masked);
    KeptAll(left, set r | r in left && IsLatest(left, r) && r.slug !in masked);
    forall s | s in AllSlugs(rows) - masked ensures s in LatestSlugs(left) {
      NewestOf(rows, s);
      var r: Row :| r.slug == s && IsLatest(rows, r);
      assert r in left && IsLatest(left, r);
    }
  }

  lemma {:induction false} KeptAll(rows: seq<Row>, keep: set<Row>)
    requires forall r :: r in rows ==> r in keep
    ensures Kept(rows, keep) == rows
  {
    if rows != [] {
      KeptAll(rows[..|rows| - 1], keep);
      assert rows == rows[..|rows| - 1] + [rows[|rows| - 1]];
    }
  }

  /** The slug checks of validate_launch_state. */
  datatype LaunchErrors = LaunchErrors(leaked: set<string>, missing: set<string>, extra: set<string>)

  function LaunchCheck(rows: seq<Row>, seeded: set<string>, masked: set<string>): LaunchErrors {
    var latest, expected := LatestSlugs(rows), seeded - masked;
    LaunchErrors(latest * masked, expected - latest, latest - expected)
  }

  /** After sanitising, the launch check finds no masked server ever, and is clean exactly when the source
      table had a scan for every unmasked seeded server and none for an unseeded unmasked one. */
  lemma LaunchAfterSanitizing(rows: seq<Row>, seeded: set<string>, masked: set<string>)
    ensures var e := LaunchCheck(Sanitized(rows, masked), seeded, masked);
      && e.leaked == {}
      && e.missing == seeded - masked - AllSlugs(rows)
      && e.extra == AllSlugs(rows) - masked - seeded
  {
    SanitizedIsStable(rows, masked);
  }

  /** On any table: a masked server with a scan is leaked, an unmasked seeded one without is missing, and any
      other server with a scan is extra. */
  lemma LaunchOnAnyTable(rows: seq<Row>, seeded: set<string>, masked: set<string>)
    ensures var e := LaunchCheck(rows, seeded, masked);
      && (forall s :: s in e.leaked <==> s in masked && exists r :: r in rows && r.slug == s)
      && (forall s :: s in e.missing <==> s in seeded && s !in masked && forall r :: r in rows ==> r.slug != s)
      && (forall s :: s in e.extra <==> (s !in seeded || s in masked) && exists r :: r in rows && r.slug == s)
  {
    forall s ensures s in LatestSlugs(rows) <==> exists r :: r in rows && r.slug == s {
      if exists r :: r in rows && r.slug == s {
        NewestOf(rows, s);
        var r: Row :| r.slug == s && IsLatest(rows, r);
        assert r in rows;
      }
    }
  }
}
