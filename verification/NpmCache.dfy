/** One npm cache index file, rewritten so that it depends on nothing but what it says.

    A line is modelled after its JSON is parsed; the checksum in front of it is a function of the entry, and the
    original never reads it back. */
module NpmCache {
  import opened Results

  const KEY_PREFIX := "make-fetch-happen:request-cache:https://registry.npmjs.org/"
  const URL_PREFIX := "https://registry.npmjs.org/"

  /** `time` is in milliseconds; `plain` says the headers and options are the fixed ones. */
  datatype Entry = Entry(key: string, integrity: string, size: int, url: string, time: int, plain: bool)

  datatype Line = Blank | Malformed | Holding(entry: Entry)

  predicate Admitted(e: Entry) {
    KEY_PREFIX <= e.key && "sha512-" <= e.integrity && e.size > 0 && URL_PREFIX <= e.url
  }

  predicate Readable(line: Line) { line.Blank? || (line.Holding? && Admitted(line.entry)) }

  predicate AllReadable(lines: seq<Line>) { forall i :: 0 <= i < |lines| ==> Readable(lines[i]) }

  function Fixed(e: Entry, time: int): Entry { e.(time := time, plain := true) }

  /** What the lines say: for each key, the last line that holds it. */
  function LastWins(lines: seq<Line>, time: int): map<string, Entry> {
    if lines == [] then map[]
    else
      var last := lines[|lines| - 1];
      var before := LastWins(lines[..|lines| - 1], time);
      if last.Holding? then before[last.entry.key := Fixed(last.entry, time)] else before
  }

  /** A line that holds an entry, and after it no line holds that key again. */
  predicate LastOfKey(lines: seq<Line>, i: nat) {
    && i < |lines| && lines[i].Holding?
    && forall j :: i < j < |lines| && lines[j].Holding? ==> lines[j].entry.key != lines[i].entry.key
  }

  /** The map holds each key with what the last line of that key says ... */
  lemma {:induction false} LastLineWins(lines: seq<Line>, time: int, i: nat)
    requires LastOfKey(lines, i)
    ensures var e := lines[i].entry; e.key in LastWins(lines, time) && LastWins(lines, time)[e.key] == Fixed(e, time)
    decreases |lines|
  {
    var init, last := lines[..|lines| - 1], lines[|lines| - 1];
    if i < |init| {
      assert forall j :: i < j < |init| ==> init[j] == lines[j];
      LastLineWins(init, time, i);
      assert last.Holding? ==> lines[|lines| - 1].entry.key != lines[i].entry.key;
    }
  }

  /** ... and no other key. */
  lemma {:induction false} HeldByLine(lines: seq<Line>, time: int, k: string) returns (i: nat)
    requires k in LastWins(lines, time)
    ensures LastOfKey(lines, i) && lines[i].entry.key == k
    decreases |lines|
  {
    var init, last := lines[..|lines| - 1], lines[|lines| - 1];
    if last.Holding? && last.entry.key == k {
      i := |init|;
    } else {
      i := HeldByLine(init, time, k);
      assert forall j :: i < j < |init| ==> init[j] == lines[j];
    }
  }

  // ---- keys in string order ----

  predicate Before(a: string, b: string) {
    if b == "" then false
    else if a == "" then true
    else a[0] < b[0] || (a[0] == b[0] && Before(a[1..], b[1..]))
  }

  lemma {:induction false} BeforeIsTotal(a: string, b: string)
    ensures Before(a, b) || a == b || Before(b, a)
    ensures !(Before(a, b) && Before(b, a)) && !Before(a, a)
  {
    if a != "" && b != "" && a[0] == b[0] {
      BeforeIsTotal(a[1..], b[1..]);
      assert a == [a[0]] + a[1..] && b == [b[0]] + b[1..];
    }
    if a != "" && a != b { BeforeIsTotal(a[1..], a[1..]); }
    if a != "" && a == b { BeforeIsTotal(a[1..], b[1..]); }
  }

  lemma {:induction false} BeforeIsTransitive(a: string, b: string, c: string)
    requires Before(a, b) && Before(b, c)
    ensures Before(a, c)
  {
    if a != "" && a[0] == b[0] && b[0] == c[0] { BeforeIsTransitive(a[1..], b[1..], c[1..]); }
  }

  /** The first place where they differ decides; a proper prefix comes first. */
  lemma {:induction false} BeforeMeans(a: string, b: string)
    ensures Before(a, b) <==> a < b || exists n :: 0 <= n < |a| && n < |b| && a[..n] == b[..n] && a[n] < b[n]
  {
    if a != "" && b != "" {
      BeforeMeans(a[1..], b[1..]);
      assert a == [a[0]] + a[1..] && b == [b[0]] + b[1..];
      if a[0] < b[0] { assert a[..0] == b[..0]; }
      forall n | 0 <= n < |a[1..]| && n < |b[1..]| && a[0] == b[0] && a[1..][..n] == b[1..][..n]
        ensures a[..n + 1] == b[..n + 1]
      {
        assert a[..n + 1] == [a[0]] + a[1..][..n] && b[..n + 1] == [b[0]] + b[1..][..n];
      }
      if a[0] == b[0] && Before(a[1..], b[1..]) && !(a[1..] < b[1..]) {
        var n :| 0 <= n < |a[1..]| && n < |b[1..]| && a[1..][..n] == b[1..][..n] && a[1..][n] < b[1..][n];
        assert a[..n + 1] == b[..n + 1] && a[n + 1] < b[n + 1];
      }
      if n :| 0 <= n < |a| && n < |b| && a[..n] == b[..n] && a[n] < b[n] && n > 0 {
        assert a[0] == a[..n][0] == b[..n][0] == b[0];
        assert a[1..][..n - 1] == a[..n][1..] == b[..n][1..] == b[1..][..n - 1];
        assert a[1..][n - 1] < b[1..][n - 1];
      }
    }
  }

  predicate Ascending(keys: seq<string>) { forall i, j :: 0 <= i < j < |keys| ==> Before(keys[i], keys[j]) }

  ghost predicate Lists(keys: seq<string>, s: set<string>) { Ascending(keys) && forall k :: k in keys <==> k in s }

  /** There is one ascending listing of a set of keys. */
  lemma {:induction false} OneListing(a: seq<string>, b: seq<string>, s: set<string>)
    requires Lists(a, s) && Lists(b, s)
    ensures a == b
    decreases |a|
  {
    if a == [] {
      EmptyIff(a);
      EmptyIff(b);
    } else {
      assert a[0] in s;
      assert b != [] && a[0] in b && b[0] in a;
      SameFirst(a, b);
      TailLists(a, s);
      TailLists(b, s);
      OneListing(a[1..], b[1..], s - {a[0]});
      assert a == [a[0]] + a[1..] && b == [b[0]] + b[1..];
    }
  }

  lemma EmptyIff(a: seq<string>)
    ensures a == [] <==> forall k :: k !in a
  {
    if a != [] { assert a[0] in a; }
  }

  lemma SameFirst(a: seq<string>, b: seq<string>)
    requires Ascending(a) && Ascending(b) && a != [] && b != [] && a[0] in b && b[0] in a
    ensures a[0] == b[0]
  {
    BeforeIsTotal(a[0], b[0]);
  }

  lemma TailLists(a: seq<string>, s: set<string>)
    requires Lists(a, s) && a != []
    ensures Lists(a[1..], s - {a[0]})
  {
    forall k ensures k in a[1..] <==> k in s - {a[0]} {
      BeforeIsTotal(a[0], a[0]);
      assert k in a <==> k == a[0] || k in a[1..];
    }
  }

  lemma {:induction false} SmallestExists(s: set<string>)
    requires s != {}
    ensures exists m :: m in s && forall k :: k in s ==> k == m || Before(m, k)
    decreases |s|
  {
    var x :| x in s;
    if s == {x} {
      assert x in s;
    } else {
      var rest := s - {x};
      assert rest != {} by { assert s == rest + {x}; }
      SmallestExists(rest);
      var m :| m in rest && forall k :: k in rest ==> k == m || Before(m, k);
      BeforeIsTotal(x, m);
      if Before(x, m) {
        forall k | k in s ensures k == x || Before(x, k) {
          if k in rest && k != m { BeforeIsTransitive(x, m, k); }
        }
      }
    }
  }

  method SortKeys(s: set<string>) returns (keys: seq<string>)
    ensures Lists(keys, s)
  {
    var todo := s;
    keys := [];
    while todo != {}
      invariant todo <= s && Lists(keys, s - todo)
      invariant forall k, m :: k in keys && m in todo ==> Before(k, m)
      decreases |todo|
    {
      SmallestExists(todo);
      var m :| m in todo && forall k :: k in todo ==> k == m || Before(m, k);
      keys := keys + [m];
      todo := todo - {m};
    }
  }

  // ---- printing and normalising ----

  /** The file written: an empty first line, then one line an entry. */
  function Print(content: map<string, Entry>, keys: seq<string>): seq<Line>
    requires forall k :: k in keys ==> k in content
  {
    [Blank] + seq(|keys|, i requires 0 <= i < |keys| => Holding(content[keys[i]]))
  }

  ghost predicate Normalizes(lines: seq<Line>, time: int, out: seq<Line>) {
    && AllReadable(lines) && LastWins(lines, time) != map[]
    && exists keys :: Lists(keys, LastWins(lines, time).Keys) && out == Print(LastWins(lines, time), keys)
  }

  /** _normalize_npm_cache on one index file. */
  method NormalizeIndex(lines: seq<Line>, time: int) returns (r: Result<seq<Line>>)
    ensures r.Ok? <==> AllReadable(lines) && LastWins(lines, time) != map[]
    ensures r.Ok? ==> Normalizes(lines, time, r.value)
    ensures r.Ok? <==> (exists i :: 0 <= i < |lines| && lines[i].Holding?) && forall i :: 0 <= i < |lines| ==>
      && !lines[i].Malformed?
      && (lines[i].Holding? ==> var e := lines[i].entry;
            && "make-fetch-happen:request-cache:https://registry.npmjs.org/" <= e.key
            && "sha512-" <= e.integrity && e.size > 0 && "https://registry.npmjs.org/" <= e.url)
    ensures r.Ok? ==> |r.value| > 1 && r.value[0] == Blank
    ensures r.Ok? ==> forall i: nat :: LastOfKey(lines, i) ==> var e := lines[i].entry;
      Holding(Entry(e.key, e.integrity, e.size, e.url, time, true)) in r.value
    ensures r.Ok? ==> forall n :: 0 < n < |r.value| ==> exists i: nat ::
      LastOfKey(lines, i) && var e := lines[i].entry;
        r.value[n] == Holding(Entry(e.key, e.integrity, e.size, e.url, time, true))
    ensures r.Ok? ==> forall m, n :: 0 < m < n < |r.value| && r.value[m].Holding? && r.value[n].Holding? ==>
      Before(r.value[m].entry.key, r.value[n].entry.key)
  {
    r := Normalize(lines, time);
    SomethingHeld(lines, time);
    if r.Ok? { WrittenLines(lines, time, r.value); }
  }

  lemma {:induction false} SomethingHeld(lines: seq<Line>, time: int)
    ensures LastWins(lines, time) != map[] <==> exists i :: 0 <= i < |lines| && lines[i].Holding?
  {
    if lines != [] {
      var init, last := lines[..|lines| - 1], lines[|lines| - 1];
      SomethingHeld(init, time);
      if last.Holding? {
        assert last.entry.key in LastWins(lines, time);
      }
      assert forall i :: 0 <= i < |init| ==> lines[i] == init[i];
    }
  }

  ghost predicate Kept(lines: seq<Line>, time: int, line: Line) {
    exists i: nat :: LastOfKey(lines, i) && line == Holding(Fixed(lines[i].entry, time))
  }

  lemma ContentKept(lines: seq<Line>, time: int, k: string)
    requires k in LastWins(lines, time)
    ensures Kept(lines, time, Holding(LastWins(lines, time)[k])) && LastWins(lines, time)[k].key == k
  {
    var i := HeldByLine(lines, time, k);
    LastLineWins(lines, time, i);
  }

  lemma WrittenLines(lines: seq<Line>, time: int, out: seq<Line>)
    requires Normalizes(lines, time, out)
    ensures |out| > 1 && out[0] == Blank
    ensures forall i: nat :: LastOfKey(lines, i) ==> Holding(Fixed(lines[i].entry, time)) in out
    ensures forall n :: 0 < n < |out| ==> Kept(lines, time, out[n])
    ensures forall m, n :: 0 < m < n < |out| && out[m].Holding? && out[n].Holding? ==> Before(out[m].entry.key, out[n].entry.key)
  {
    var content := LastWins(lines, time);
    var keys :| Lists(keys, content.Keys) && out == Print(content, keys);
    assert keys != [] by {
      EmptyIff(keys);
      assert content.Keys != {};
    }
    forall i: nat | LastOfKey(lines, i) ensures Holding(Fixed(lines[i].entry, time)) in out {
      LastLineWins(lines, time, i);
      KeyWritten(content, keys, lines[i].entry.key);
    }
    forall n | 0 < n < |out| ensures Kept(lines, time, out[n]) && out[n].Holding? && out[n].entry.key == keys[n - 1] {
      assert out[n] == Holding(content[keys[n - 1]]) && keys[n - 1] in keys;
      ContentKept(lines, time, keys[n - 1]);
    }
  }

  lemma KeyWritten(content: map<string, Entry>, keys: seq<string>, k: string)
    requires (forall x :: x in keys ==> x in content) && k in keys
    ensures Holding(content[k]) in Print(content, keys)
  {
    var n :| 0 <= n < |keys| && keys[n] == k;
    assert Print(content, keys)[n + 1] == Holding(content[k]);
  }

  method Normalize(lines: seq<Line>, time: int) returns (r: Result<seq<Line>>)
    ensures r.Ok? <==> AllReadable(lines) && LastWins(lines, time) != map[]
    ensures r.Ok? ==> Normalizes(lines, time, r.value)
  {
    var normalized: map<string, Entry> := map[];
    var i := 0;
    while i < |lines|
      invariant 0 <= i <= |lines|
      invariant AllReadable(lines[..i])
      invariant normalized == LastWins(lines[..i], time)
    {
      var line := lines[i];
      assert lines[..i + 1][..i] == lines[..i];
      if !Readable(line) { return Raised; }
      if line.Holding? { normalized := normalized[line.entry.key := Fixed(line.entry, time)]; }
      i := i + 1;
    }
    assert lines[..i] == lines;
    if normalized == map[] { return Raised; }
    var keys := SortKeys(normalized.Keys);
    r := Ok(Print(normalized, keys));
  }

  /** Two index files that say the same come out the same. */
  lemma DependsOnContentOnly(x: seq<Line>, y: seq<Line>, time: int, a: seq<Line>, b: seq<Line>)
    requires Normalizes(x, time, a) && Normalizes(y, time, b) && LastWins(x, time) == LastWins(y, time)
    ensures a == b
  {
    var content := LastWins(x, time);
    var j :| Lists(j, content.Keys) && a == Print(content, j);
    var k :| Lists(k, content.Keys) && b == Print(content, k);
    OneListing(j, k, content.Keys);
  }

  predicate DistinctKeys(lines: seq<Line>) {
    forall i, j :: 0 <= i < j < |lines| && lines[i].Holding? && lines[j].Holding? ==>
      lines[i].entry.key != lines[j].entry.key
  }

  ghost predicate Says(lines: seq<Line>, time: int, k: string, e: Entry) {
    exists i :: 0 <= i < |lines| && lines[i].Holding? && lines[i].entry.key == k && Fixed(lines[i].entry, time) == e
  }

  lemma {:induction false} DistinctSays(lines: seq<Line>, time: int)
    requires DistinctKeys(lines)
    ensures forall k, e :: k in LastWins(lines, time) && LastWins(lines, time)[k] == e <==> Says(lines, time, k, e)
  {
    if lines != [] {
      var init, last := lines[..|lines| - 1], lines[|lines| - 1];
      DistinctSays(init, time);
      forall k, e ensures k in LastWins(lines, time) && LastWins(lines, time)[k] == e <==> Says(lines, time, k, e) {
        if Says(init, time, k, e) {
          var i :| 0 <= i < |init| && init[i].Holding? && init[i].entry.key == k && Fixed(init[i].entry, time) == e;
          assert lines[i].Holding? && lines[i].entry.key == k;
        }
        if Says(lines, time, k, e) {
          var i :| 0 <= i < |lines| && lines[i].Holding? && lines[i].entry.key == k && Fixed(lines[i].entry, time) == e;
          assert i < |init| ==> init[i].Holding? && init[i].entry.key == k;
        }
        if last.Holding? && last.entry.key == k && Fixed(last.entry, time) == e {
          assert lines[|lines| - 1].Holding?;
        }
      }
    }
  }

  /** Reordering lines that hold distinct keys changes nothing. */
  lemma ReorderingKeeps(x: seq<Line>, y: seq<Line>, time: int)
    requires DistinctKeys(x) && DistinctKeys(y) && forall line :: line in x <==> line in y
    ensures LastWins(x, time) == LastWins(y, time)
  {
    DistinctSays(x, time);
    DistinctSays(y, time);
    forall k, e ensures Says(x, time, k, e) <==> Says(y, time, k, e) {
      SaysMoves(x, y, time, k, e);
      SaysMoves(y, x, time, k, e);
    }
    var a, b := LastWins(x, time), LastWins(y, time);
    forall k ensures k in a <==> k in b {
      assert k in a ==> Says(x, time, k, a[k]);
      assert k in b ==> Says(y, time, k, b[k]);
    }
    forall k | k in a && k in b ensures a[k] == b[k] { assert Says(x, time, k, a[k]); }
  }

  lemma SaysMoves(x: seq<Line>, y: seq<Line>, time: int, k: string, e: Entry)
    requires forall line :: line in x ==> line in y
    ensures Says(x, time, k, e) ==> Says(y, time, k, e)
  {
    if Says(x, time, k, e) {
      var i :| 0 <= i < |x| && x[i].Holding? && x[i].entry.key == k && Fixed(x[i].entry, time) == e;
      assert x[i] in y;
      var j :| 0 <= j < |y| && y[j] == x[i];
    }
  }

  // ---- the normal form is a fixed point ----

  lemma {:induction false} LastWinsKeyed(lines: seq<Line>, time: int)
    ensures forall k :: k in LastWins(lines, time) ==>
      LastWins(lines, time)[k].key == k && Fixed(LastWins(lines, time)[k], time) == LastWins(lines, time)[k]
    ensures AllReadable(lines) ==> forall k :: k in LastWins(lines, time) ==> Admitted(LastWins(lines, time)[k])
  {
    if lines != [] { LastWinsKeyed(lines[..|lines| - 1], time); }
  }

  lemma PrintedSays(content: map<string, Entry>, keys: seq<string>, time: int)
    requires Lists(keys, content.Keys)
    requires forall k :: k in content ==> content[k].key == k && Fixed(content[k], time) == content[k]
    ensures LastWins(Print(content, keys), time) == content
  {
    var out := Print(content, keys);
    forall i, j | 0 <= i < j < |out| && out[i].Holding? && out[j].Holding? ensures out[i].entry.key != out[j].entry.key {
      assert Before(keys[i - 1], keys[j - 1]);
      BeforeIsTotal(keys[i - 1], keys[j - 1]);
    }
    DistinctSays(out, time);
    var back := LastWins(out, time);
    forall k | k in content ensures k in back && back[k] == content[k] {
      assert k in keys;
      var i :| 0 <= i < |keys| && keys[i] == k;
      assert out[i + 1] == Holding(content[k]);
      assert Says(out, time, k, content[k]);
    }
    forall k | k in back ensures k in content {
      assert Says(out, time, k, back[k]);
      var i :| 0 <= i < |out| && out[i].Holding? && out[i].entry.key == k;
      assert out[i].entry == content[keys[i - 1]];
    }
  }

  /** Normalising what was written reads it all back and writes the same file again. */
  lemma NormalFormIsFixed(lines: seq<Line>, time: int, out: seq<Line>)
    requires Normalizes(lines, time, out)
    ensures Normalizes(out, time, out) && LastWins(out, time) == LastWins(lines, time)
  {
    var content := LastWins(lines, time);
    LastWinsKeyed(lines, time);
    var keys :| Lists(keys, content.Keys) && out == Print(content, keys);
    PrintedSays(content, keys, time);
    forall i | 0 <= i < |out| ensures Readable(out[i]) {
      if i > 0 { assert out[i] == Holding(content[keys[i - 1]]) && keys[i - 1] in content; }
    }
  }
}
