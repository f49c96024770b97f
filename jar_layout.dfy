/**
 * CompileSrc.writeToJar: the order in which jar entries are written. The
 * content map is walked in key order (a TreeMap); before each key, the
 * directory entries for those of its parent directories not yet written
 * are emitted, shallowest first.
 */
module JarLayout {
  import opened Strings

  type Bytes = seq<bv8>

  /** A jar entry: a directory (name ending in '/') or a file with its bytes. */
  datatype Entry = DirEntry(name: string) | FileEntry(name: string, data: Bytes)

  // ---- The order of String.compareTo: UTF-16 code units ----

  /** The UTF-16 code units of one character: itself below U+10000, a surrogate pair above. */
  function CharUnits(c: char): (r: seq<int>)
    ensures |r| == (if c as int < 0x10000 then 1 else 2)
    ensures forall i :: 0 <= i < |r| ==> 0 <= r[i] < 0x10000
    ensures c as int >= 0x10000 ==> 0xD800 <= r[0] < 0xDC00 && 0xDC00 <= r[1] < 0xE000
  {
    var n := c as int;
    if n < 0x10000 then [n] else [0xD800 + (n - 0x10000) / 0x400, 0xDC00 + (n - 0x10000) % 0x400]
  }

  /** A string as Java holds it: the sequence of its UTF-16 code units. */
  function Utf16(s: string): seq<int> {
    if s == [] then [] else CharUnits(s[0]) + Utf16(s[1..])
  }

  /** The code points of a well-formed UTF-16 sequence: a high surrogate joins the unit after it. */
  function CodePoints(units: seq<int>): seq<int>
    decreases |units|
  {
    if units == [] then []
    else if 0xD800 <= units[0] < 0xDC00 && |units| >= 2 then
      [0x10000 + (units[0] - 0xD800) * 0x400 + (units[1] - 0xDC00)] + CodePoints(units[2..])
    else [units[0]] + CodePoints(units[1..])
  }

  function Scalars(s: string): seq<int> {
    seq(|s|, i requires 0 <= i < |s| => s[i] as int)
  }

  /** Decoding the UTF-16 units of a string gives back its characters. */
  lemma {:induction false} Utf16RoundTrip(s: string)
    ensures CodePoints(Utf16(s)) == Scalars(s)
    decreases |s|
  {
    if s != [] {
      var c, rest := s[0], Utf16(s[1..]);
      var n := c as int;
      var u := CharUnits(c) + rest;
      Utf16RoundTrip(s[1..]);
      if n < 0x10000 {
        assert u[0] == n && u[1..] == rest;
        assert !(0xD800 <= n < 0xE000);
      } else {
        assert u[0] == 0xD800 + (n - 0x10000) / 0x400 && u[1] == 0xDC00 + (n - 0x10000) % 0x400;
        assert u[2..] == rest;
        assert 0x10000 + (u[0] - 0xD800) * 0x400 + (u[1] - 0xDC00) == n;
      }
      assert Scalars(s) == [n] + Scalars(s[1..]);
    }
  }

  /** Distinct strings have distinct UTF-16 encodings. */
  lemma Utf16Injective(a: string, b: string)
    requires Utf16(a) == Utf16(b)
    ensures a == b
  {
    Utf16RoundTrip(a);
    Utf16RoundTrip(b);
    assert Scalars(a) == Scalars(b);
    assert |a| == |Scalars(a)| == |Scalars(b)| == |b|;
    forall i | 0 <= i < |a| ensures a[i] == b[i] {
      assert Scalars(a)[i] == Scalars(b)[i];
    }
  }

  /** `a` sorts strictly before `b`: the first differing unit is smaller, or `a` is a proper prefix of `b`. */
  predicate UnitsBelow(a: seq<int>, b: seq<int>)
    decreases |a|
  {
    if |a| == 0 then |b| > 0
    else if |b| == 0 then false
    else if a[0] != b[0] then a[0] < b[0]
    else UnitsBelow(a[1..], b[1..])
  }

  /** String.compareTo(a, b) < 0: lexicographic on UTF-16 code units, not on code points. */
  predicate Below(a: string, b: string) {
    UnitsBelow(Utf16(a), Utf16(b))
  }

  lemma {:induction false} UnitsBelowIrreflexive(a: seq<int>)
    ensures !UnitsBelow(a, a)
    decreases |a|
  {
    if |a| > 0 {
      UnitsBelowIrreflexive(a[1..]);
    }
  }

  lemma {:induction false} UnitsBelowAsymmetric(a: seq<int>, b: seq<int>)
    ensures !(UnitsBelow(a, b) && UnitsBelow(b, a))
    decreases |a|
  {
    if |a| > 0 && |b| > 0 && a[0] == b[0] {
      UnitsBelowAsymmetric(a[1..], b[1..]);
    }
  }

  lemma {:induction false} UnitsBelowTotal(a: seq<int>, b: seq<int>)
    requires a != b
    ensures UnitsBelow(a, b) || UnitsBelow(b, a)
    decreases |a|
  {
    if |a| > 0 && |b| > 0 && a[0] == b[0] {
      assert a == [a[0]] + a[1..] && b == [b[0]] + b[1..];
      UnitsBelowTotal(a[1..], b[1..]);
    }
  }

  lemma BelowIrreflexive(a: string)
    ensures !Below(a, a)
  {
    UnitsBelowIrreflexive(Utf16(a));
  }

  lemma BelowAsymmetric(a: string, b: string)
    ensures !(Below(a, b) && Below(b, a))
  {
    UnitsBelowAsymmetric(Utf16(a), Utf16(b));
  }

  /** compareTo is a total order: of two distinct keys, one sorts before the other. */
  lemma BelowTotal(a: string, b: string)
    requires a != b
    ensures Below(a, b) || Below(b, a)
  {
    if Utf16(a) == Utf16(b) {
      Utf16Injective(a, b);
    }
    UnitsBelowTotal(Utf16(a), Utf16(b));
  }

  /** A character above U+FFFF sorts before U+E000, although its code point is larger. */
  lemma SurrogatePairsSortBeforeHighBmp()
    ensures Below("\U{10000}", "\U{E000}") && '\U{10000}' > '\U{E000}'
  {
    var hi, lo := "\U{10000}", "\U{E000}";
    assert Utf16(hi) == [0xD800, 0xDC00] by {
      assert hi[1..] == [];
    }
    assert Utf16(lo) == [0xE000] by {
      assert lo[1..] == [];
    }
  }

  /** Strictly ascending under Below: a TreeMap's iteration order over String keys. */
  predicate Ascending(keys: seq<string>) {
    forall i, j {:trigger Below(keys[i], keys[j])} :: 0 <= i < j < |keys| ==> Below(keys[i], keys[j])
  }

  /** `sorted` is the TreeMap iteration order of the content's keys. */
  predicate SortedKeys(sorted: seq<string>, content: map<string, Bytes>) {
    Ascending(sorted) && (forall k :: k in sorted ==> k in content) && (forall k :: k in content ==> k in sorted)
  }

  /** An ascending listing of a set of keys is unique, so SortedKeys pins down one order. */
  lemma {:induction false} AscendingUnique(s: seq<string>, t: seq<string>)
    requires Ascending(s) && Ascending(t)
    requires forall k :: k in s <==> k in t
    ensures s == t
    decreases |s|
  {
    assert t != [] ==> t[0] in t;
    if s != [] {
      assert s[0] in t;
      assert t != [];
      assert t[0] in s;
      var i :| 0 <= i < |s| && s[i] == t[0];
      var j :| 0 <= j < |t| && t[j] == s[0];
      if i > 0 && j > 0 {
        BelowAsymmetric(s[0], t[0]);
        assert false;
      } else if i > 0 {
        assert s[0] == t[0];
        BelowIrreflexive(s[0]);
        assert false;
      } else if j > 0 {
        assert s[0] == t[0];
        BelowIrreflexive(s[0]);
        assert false;
      }
      assert s[0] == t[0];
      forall k | k in s[1..]
        ensures k in t[1..]
      {
        var a :| 1 <= a < |s| && s[a] == k;
        assert Below(s[0], s[a]);
        BelowIrreflexive(k);
        assert k in t;
        var b :| 0 <= b < |t| && t[b] == k;
        assert b != 0;
        assert t[1..][b - 1] == k;
      }
      forall k | k in t[1..]
        ensures k in s[1..]
      {
        var b :| 1 <= b < |t| && t[b] == k;
        assert Below(t[0], t[b]);
        BelowIrreflexive(k);
        assert k in s;
        var a :| 0 <= a < |s| && s[a] == k;
        assert a != 0;
        assert s[1..][a - 1] == k;
      }
      AscendingUnique(s[1..], t[1..]);
      assert s == [s[0]] + s[1..] && t == [t[0]] + t[1..];
    }
  }

  // ---- Directories of a path ----

  /** The parent directories of a path: its text before each '/'. */
  function Dirs(path: string): set<string> {
    set i | 0 <= i < |path| && path[i] == '/' :: path[..i]
  }

  /** A set of visited directories that holds every parent of each of its members. */
  predicate Closed(visited: set<string>) {
    forall d :: d in visited ==> Dirs(d) <= visited
  }

  /** Closed as far as members shorter than `bound` go. */
  predicate ClosedBelow(visited: set<string>, bound: nat) {
    forall d :: d in visited && |d| < bound ==> Dirs(d) <= visited
  }

  /** The parent directories of a path's parent are among its own. */
  lemma DirsOfDir(path: string, d: string)
    requires d in Dirs(path)
    ensures Dirs(d) <= Dirs(path)
  {
    var i :| 0 <= i < |path| && path[i] == '/' && path[..i] == d;
    forall e | e in Dirs(d)
      ensures e in Dirs(path)
    {
      var j :| 0 <= j < |d| && d[j] == '/' && d[..j] == e;
      assert path[j] == '/' && path[..j] == e;
    }
  }

  /** A path's directories are its parent (up to the last '/') and that parent's directories. */
  lemma DirsSplit(path: string)
    requires '/' in path
    ensures var p := path[..LastIndexOf(path, '/')]; Dirs(path) == {p} + Dirs(p)
  {
    var last := LastIndexOf(path, '/');
    var p := path[..last];
    assert p in Dirs(path);
    forall e | e in Dirs(path)
      ensures e == p || e in Dirs(p)
    {
      var j :| 0 <= j < |path| && path[j] == '/' && path[..j] == e;
      if j != last {
        assert j < last;
        assert p[j] == '/' && p[..j] == e;
      }
    }
    DirsOfDir(path, p);
  }

  /** A path without '/' has no parent directories. */
  lemma NoSlashNoDirs(path: string)
    requires '/' !in path
    ensures Dirs(path) == {}
  {
    forall e | e in Dirs(path)
      ensures false
    {
    }
  }

  // ---- The reference definition ----

  /**
   * One run of the do-while loop from `parent`: walk up one '/' at a time,
   * stopping at the first directory already visited. Returns the directory
   * entry names to emit (each new one put in front) and the visited set.
   */
  function Climb(parent: string, visited: set<string>): (seq<string>, set<string>)
    requires '/' in parent
    decreases |parent|
  {
    var p := parent[..LastIndexOf(parent, '/')];
    if p in visited then ([], visited)
    else if '/' !in p then ([p + "/"], visited + {p})
    else
      var r := Climb(p, visited + {p});
      (r.0 + [p + "/"], r.1)
  }

  /** Directory entries for a list of names. */
  function DirEntries(names: seq<string>): (r: seq<Entry>)
    ensures |r| == |names| && forall i :: 0 <= i < |names| ==> r[i] == DirEntry(names[i])
  {
    seq(|names|, i requires 0 <= i < |names| => DirEntry(names[i]))
  }

  /** The entries written for `keys`, in order, with `visited` the directories already written. */
  function Layout(keys: seq<string>, content: map<string, Bytes>, visited: set<string>): seq<Entry>
    requires forall k :: k in keys ==> k in content
    decreases |keys|
  {
    if keys == [] then []
    else
      var k := keys[0];
      var c := if '/' in k then Climb(k, visited) else ([], visited);
      DirEntries(c.0) + [FileEntry(k, content[k])] + Layout(keys[1..], content, c.1)
  }

  /** The file entries of a layout, in order. */
  function FileNames(entries: seq<Entry>): seq<string> {
    if entries == [] then []
    else (if entries[0].FileEntry? then [entries[0].name] else []) + FileNames(entries[1..])
  }

  /** The names of the directory entries, in order. */
  function DirNames(entries: seq<Entry>): seq<string> {
    if entries == [] then []
    else (if entries[0].DirEntry? then [entries[0].name] else []) + DirNames(entries[1..])
  }

  /** The names of all entries, in order. */
  function Names(entries: seq<Entry>): (r: seq<string>)
    ensures |r| == |entries| && forall i :: 0 <= i < |entries| ==> r[i] == entries[i].name
  {
    seq(|entries|, i requires 0 <= i < |entries| => entries[i].name)
  }

  predicate Distinct(names: seq<string>) {
    forall i, j :: 0 <= i < j < |names| ==> names[i] != names[j]
  }

  /** A directory entry name: ends with '/'. */
  predicate IsDirName(name: string) {
    |name| > 0 && name[|name| - 1] == '/'
  }

  lemma {:induction false} NamesAppend(a: seq<Entry>, b: seq<Entry>)
    ensures DirNames(a + b) == DirNames(a) + DirNames(b)
    ensures FileNames(a + b) == FileNames(a) + FileNames(b)
    decreases |a|
  {
    if a == [] {
      assert a + b == b;
    } else {
      assert (a + b)[0] == a[0] && (a + b)[1..] == a[1..] + b;
      NamesAppend(a[1..], b);
    }
  }

  lemma {:induction false} DirEntriesNames(names: seq<string>)
    ensures DirNames(DirEntries(names)) == names && FileNames(DirEntries(names)) == []
    decreases |names|
  {
    if names != [] {
      assert DirEntries(names)[1..] == DirEntries(names[1..]);
      DirEntriesNames(names[1..]);
    }
  }

  /** The entries for one key: its new directories, then the file. */
  lemma KeyEntriesNames(dirs: seq<string>, f: Entry)
    requires f.FileEntry?
    ensures DirNames(DirEntries(dirs) + [f]) == dirs && FileNames(DirEntries(dirs) + [f]) == [f.name]
  {
    NamesAppend(DirEntries(dirs), [f]);
    DirEntriesNames(dirs);
    assert [f][1..] == [];
  }

  /** One climb adds exactly the path's directories to a set closed below it. */
  lemma {:induction false} ClimbVisits(parent: string, visited: set<string>)
    requires '/' in parent
    requires ClosedBelow(visited, |parent|)
    ensures Climb(parent, visited).1 == visited + Dirs(parent)
    decreases |parent|
  {
    var p := parent[..LastIndexOf(parent, '/')];
    DirsSplit(parent);
    if p in visited {
    } else if '/' !in p {
      NoSlashNoDirs(p);
    } else {
      ClimbVisits(p, visited + {p});
    }
  }

  /**
   * The entry names of one climb: each ends in '/', is a prefix of the path
   * naming one of its directories not visited before, and is a proper
   * prefix of the next one (shallowest first).
   */
  lemma {:induction false} ClimbNames(parent: string, visited: set<string>)
    requires '/' in parent
    ensures forall n :: n in Climb(parent, visited).0 ==>
      IsDirName(n) && n <= parent && n[..|n| - 1] in Dirs(parent) && n[..|n| - 1] !in visited
    ensures forall i, j :: 0 <= i < j < |Climb(parent, visited).0| ==>
      Climb(parent, visited).0[i] < Climb(parent, visited).0[j]
    decreases |parent|
  {
    var last := LastIndexOf(parent, '/');
    var p := parent[..last];
    DirsSplit(parent);
    var name := p + "/";
    assert name == parent[..last + 1];
    assert name[..|name| - 1] == p;
    if p !in visited && '/' in p {
      var r := Climb(p, visited + {p}).0;
      ClimbNames(p, visited + {p});
      assert Climb(parent, visited).0 == r + [name];
      forall n | n in r
        ensures n < name
      {
        assert n <= p;
      }
    }
  }

  /** One climb names every directory of the path not visited before. */
  lemma {:induction false} ClimbComplete(parent: string, visited: set<string>)
    requires '/' in parent
    requires ClosedBelow(visited, |parent|)
    ensures forall d :: d in Dirs(parent) && d !in visited ==> d + "/" in Climb(parent, visited).0
    decreases |parent|
  {
    var p := parent[..LastIndexOf(parent, '/')];
    DirsSplit(parent);
    if p in visited {
      assert Dirs(parent) <= visited;
    } else if '/' !in p {
      NoSlashNoDirs(p);
    } else {
      ClimbComplete(p, visited + {p});
    }
  }

  /** Adding a path's directories keeps a visited set closed under parents. */
  lemma ClosedGrows(visited: set<string>, path: string)
    requires Closed(visited)
    ensures Closed(visited + Dirs(path))
  {
    forall d | d in Dirs(path)
      ensures Dirs(d) <= Dirs(path)
    {
      DirsOfDir(path, d);
    }
  }

  /** The entries for one key and the visited set after it. */
  lemma KeyStep(k: string, visited: set<string>)
    requires Closed(visited)
    ensures var c := if '/' in k then Climb(k, visited) else ([], visited);
      c.1 == visited + Dirs(k) && Closed(c.1) &&
      (forall n :: n in c.0 ==> IsDirName(n) && n[..|n| - 1] in Dirs(k) && n[..|n| - 1] !in visited) &&
      (forall d :: d in Dirs(k) && d !in visited ==> d + "/" in c.0) &&
      Distinct(c.0)
  {
    ClosedGrows(visited, k);
    if '/' in k {
      ClimbVisits(k, visited);
      ClimbNames(k, visited);
      ClimbComplete(k, visited);
      var r := Climb(k, visited).0;
      forall i, j | 0 <= i < j < |r|
        ensures r[i] != r[j]
      {
        assert r[i] < r[j];
      }
    } else {
      NoSlashNoDirs(k);
    }
  }

  /** Each key is written as a file entry once, in the order of `keys`. */
  lemma {:induction false} LayoutFiles(keys: seq<string>, content: map<string, Bytes>, visited: set<string>)
    requires forall k :: k in keys ==> k in content
    ensures FileNames(Layout(keys, content, visited)) == keys
    decreases |keys|
  {
    if keys != [] {
      var k := keys[0];
      var c := if '/' in k then Climb(k, visited) else ([], visited);
      var head := DirEntries(c.0) + [FileEntry(k, content[k])];
      var tail := Layout(keys[1..], content, c.1);
      assert Layout(keys, content, visited) == head + tail;
      LayoutFiles(keys[1..], content, c.1);
      NamesAppend(head, tail);
      KeyEntriesNames(c.0, FileEntry(k, content[k]));
      assert keys == [k] + keys[1..];
    }
  }

  /**
   * Directory entries are never repeated and never name a directory that
   * was visited before: every one is new and ends in '/'.
   */
  lemma {:induction false} LayoutDirsDistinct(keys: seq<string>, content: map<string, Bytes>, visited: set<string>)
    requires forall k :: k in keys ==> k in content
    requires Closed(visited)
    ensures forall n :: n in DirNames(Layout(keys, content, visited)) ==> IsDirName(n) && n[..|n| - 1] !in visited
    ensures Distinct(DirNames(Layout(keys, content, visited)))
    decreases |keys|
  {
    if keys != [] {
      var k := keys[0];
      var c := if '/' in k then Climb(k, visited) else ([], visited);
      var head := DirEntries(c.0) + [FileEntry(k, content[k])];
      var tail := Layout(keys[1..], content, c.1);
      KeyStep(k, visited);
      LayoutDirsDistinct(keys[1..], content, c.1);
      NamesAppend(head, tail);
      KeyEntriesNames(c.0, FileEntry(k, content[k]));
      var names := DirNames(Layout(keys, content, visited));
      assert names == c.0 + DirNames(tail);
      forall i, j | 0 <= i < j < |names|
        ensures names[i] != names[j]
      {
        if j >= |c.0| && i < |c.0| {
          assert names[j] in DirNames(tail);
          assert names[i] in c.0;
        }
      }
    }
  }

  /** The directory names before a position in the second part of a concatenation. */
  lemma NamesBefore(head: seq<Entry>, tail: seq<Entry>, j: nat)
    requires j <= |tail|
    ensures DirNames((head + tail)[..|head| + j]) == DirNames(head) + DirNames(tail[..j])
  {
    assert (head + tail)[..|head| + j] == head + tail[..j];
    NamesAppend(head, tail[..j]);
  }

  /** Every parent directory of the file at `j` that was not visited at the start has an entry before it. */
  predicate AncestorsWrittenAt(e: seq<Entry>, visited: set<string>, j: nat)
    requires j < |e|
  {
    e[j].FileEntry? ==> forall d :: d in Dirs(e[j].name) && d !in visited ==> d + "/" in DirNames(e[..j])
  }

  /**
   * Before each file entry, every parent directory of its key has a
   * directory entry (unless it was visited at the start).
   */
  lemma {:induction false} LayoutAncestorsFirst(keys: seq<string>, content: map<string, Bytes>, visited: set<string>)
    requires forall k :: k in keys ==> k in content
    requires Closed(visited)
    ensures forall j :: 0 <= j < |Layout(keys, content, visited)| ==>
      AncestorsWrittenAt(Layout(keys, content, visited), visited, j)
    decreases |keys|
  {
    if keys != [] {
      var k := keys[0];
      var c := if '/' in k then Climb(k, visited) else ([], visited);
      var f := FileEntry(k, content[k]);
      var head := DirEntries(c.0) + [f];
      var tail := Layout(keys[1..], content, c.1);
      var e := Layout(keys, content, visited);
      assert e == head + tail;
      KeyStep(k, visited);
      LayoutAncestorsFirst(keys[1..], content, c.1);
      forall j | 0 <= j < |e|
        ensures AncestorsWrittenAt(e, visited, j)
      {
        AncestorsStep(k, visited, c.0, c.1, f, tail, j);
      }
    }
  }

  /** One step of LayoutAncestorsFirst: the entries for one key put in front of the rest. */
  lemma AncestorsStep(k: string, visited: set<string>, dirs: seq<string>, after: set<string>,
                      f: Entry, tail: seq<Entry>, j: nat)
    requires f.FileEntry? && f.name == k
    requires after == visited + Dirs(k)
    requires forall d :: d in Dirs(k) && d !in visited ==> d + "/" in dirs
    requires forall i :: 0 <= i < |tail| ==> AncestorsWrittenAt(tail, after, i)
    requires j < |DirEntries(dirs) + [f] + tail|
    ensures AncestorsWrittenAt(DirEntries(dirs) + [f] + tail, visited, j)
  {
    var head := DirEntries(dirs) + [f];
    var e := head + tail;
    KeyEntriesNames(dirs, f);
    if j < |head| {
      if e[j].FileEntry? {
        FileInHead(dirs, f, j);
        assert e[..j] == DirEntries(dirs);
        DirEntriesNames(dirs);
      }
    } else {
      var j' := j - |head|;
      assert e[j] == tail[j'];
      assert AncestorsWrittenAt(tail, after, j');
      NamesBefore(head, tail, j');
      forall d | e[j].FileEntry? && d in Dirs(e[j].name) && d !in visited
        ensures d + "/" in DirNames(e[..j])
      {
        AncestorBefore(k, visited, dirs, after, d, DirNames(tail[..j']));
      }
    }
  }

  /** A directory is named either by the current key's entries or by the later ones. */
  lemma AncestorBefore(k: string, visited: set<string>, dirs: seq<string>, after: set<string>, d: string, later: seq<string>)
    requires after == visited + Dirs(k)
    requires forall d :: d in Dirs(k) && d !in visited ==> d + "/" in dirs
    requires d !in visited
    requires d !in after ==> d + "/" in later
    ensures d + "/" in dirs + later
  {
  }

  /** In the entries for one key, the only file entry is the last. */
  lemma FileInHead(dirs: seq<string>, f: Entry, j: nat)
    requires j < |dirs| + 1 && (DirEntries(dirs) + [f])[j].FileEntry?
    ensures j == |dirs| && (DirEntries(dirs) + [f])[j] == f
  {
  }

  /** The file at `j`, if its key has no '/', directly follows another file entry (or is first). */
  predicate NoDirsBeforeAt(e: seq<Entry>, j: nat)
    requires j < |e|
  {
    (e[j].FileEntry? && '/' !in e[j].name && j > 0) ==> e[j - 1].FileEntry?
  }

  /** A key with no '/' is not preceded by any directory entry of its own. */
  lemma {:induction false} NoSlashNoDirEntries(keys: seq<string>, content: map<string, Bytes>, visited: set<string>)
    requires forall k :: k in keys ==> k in content
    ensures forall j :: 0 <= j < |Layout(keys, content, visited)| ==> NoDirsBeforeAt(Layout(keys, content, visited), j)
    decreases |keys|
  {
    if keys != [] {
      var k := keys[0];
      var c := if '/' in k then Climb(k, visited) else ([], visited);
      var f := FileEntry(k, content[k]);
      var head := DirEntries(c.0) + [f];
      var tail := Layout(keys[1..], content, c.1);
      var e := Layout(keys, content, visited);
      assert e == head + tail;
      NoSlashNoDirEntries(keys[1..], content, c.1);
      forall j | 0 <= j < |e|
        ensures NoDirsBeforeAt(e, j)
      {
        if j > |head| {
          assert e[j] == tail[j - |head|] && e[j - 1] == tail[j - 1 - |head|];
          assert NoDirsBeforeAt(tail, j - |head|);
        } else if j == |head| {
          assert e[j - 1] == head[|head| - 1];
        } else if e[j].FileEntry? {
          FileInHead(c.0, f, j);
        }
      }
    }
  }

  /** A name is some entry's name exactly when it is a directory entry's or a file entry's. */
  lemma {:induction false} NamesSplit(e: seq<Entry>)
    ensures forall x :: x in Names(e) <==> x in DirNames(e) || x in FileNames(e)
    decreases |e|
  {
    if e != [] {
      NamesSplit(e[1..]);
      assert Names(e) == [e[0].name] + Names(e[1..]);
    }
  }

  lemma DistinctCons(x: string, xs: seq<string>)
    requires Distinct([x] + xs)
    ensures Distinct(xs) && x !in xs
  {
    forall i | 0 <= i < |xs|
      ensures xs[i] != x
    {
      assert ([x] + xs)[0] == x && ([x] + xs)[i + 1] == xs[i];
    }
    forall i, j | 0 <= i < j < |xs|
      ensures xs[i] != xs[j]
    {
      assert ([x] + xs)[i + 1] == xs[i] && ([x] + xs)[j + 1] == xs[j];
    }
  }

  /** Distinct directory names and distinct file names, with only directory names ending in '/', make all names distinct. */
  lemma {:induction false} DistinctMerge(e: seq<Entry>)
    requires Distinct(DirNames(e)) && Distinct(FileNames(e))
    requires forall n :: n in DirNames(e) ==> IsDirName(n)
    requires forall n :: n in FileNames(e) ==> !IsDirName(n)
    ensures Distinct(Names(e))
    decreases |e|
  {
    if e != [] {
      var rest := e[1..];
      var n := e[0].name;
      assert Names(e) == [n] + Names(rest);
      if e[0].DirEntry? {
        assert DirNames(e) == [n] + DirNames(rest) && FileNames(e) == FileNames(rest);
        DistinctCons(n, DirNames(rest));
      } else {
        assert FileNames(e) == [n] + FileNames(rest) && DirNames(e) == DirNames(rest);
        DistinctCons(n, FileNames(rest));
      }
      DistinctMerge(rest);
      NamesSplit(rest);
      forall j | 0 < j < |Names(e)|
        ensures Names(e)[j] != n
      {
        assert Names(e)[j] == Names(rest)[j - 1];
      }
    }
  }

  /**
   * What writeToJar puts into the jar: the file entries are the keys in
   * ascending order, each once; directory entries end in '/' and are
   * never repeated; every parent directory of a key is written before the
   * key; and, as long as no key itself ends in '/', no entry name is
   * repeated, so the jar stream accepts every entry.
   */
  lemma JarEntriesWellFormed(sorted: seq<string>, content: map<string, Bytes>)
    requires SortedKeys(sorted, content)
    ensures FileNames(Layout(sorted, content, {})) == sorted
    ensures Ascending(FileNames(Layout(sorted, content, {})))
    ensures forall n :: n in DirNames(Layout(sorted, content, {})) ==> IsDirName(n)
    ensures Distinct(DirNames(Layout(sorted, content, {})))
    ensures forall j :: 0 <= j < |Layout(sorted, content, {})| ==> AncestorsWrittenAt(Layout(sorted, content, {}), {}, j)
    ensures (forall k :: k in content ==> !IsDirName(k)) ==> Distinct(Names(Layout(sorted, content, {})))
  {
    var e := Layout(sorted, content, {});
    assert Closed({});
    LayoutFiles(sorted, content, {});
    LayoutDirsDistinct(sorted, content, {});
    LayoutAncestorsFirst(sorted, content, {});
    if forall k :: k in content ==> !IsDirName(k) {
      forall i, j | 0 <= i < j < |sorted|
        ensures sorted[i] != sorted[j]
      {
        assert Below(sorted[i], sorted[j]);
        BelowIrreflexive(sorted[i]);
      }
      DistinctMerge(e);
    }
  }

  // ---- writeToJar ----

  /** Layout from position idx: the entries for sorted[idx], then the layout of the rest. */
  lemma LayoutStep(sorted: seq<string>, idx: nat, content: map<string, Bytes>, visited: set<string>)
    requires forall k :: k in sorted ==> k in content
    requires idx < |sorted|
    ensures var k := sorted[idx];
      var c := if '/' in k then Climb(k, visited) else ([], visited);
      Layout(sorted[idx..], content, visited) ==
      DirEntries(c.0) + [FileEntry(k, content[k])] + Layout(sorted[idx + 1..], content, c.1)
  {
    assert sorted[idx..][0] == sorted[idx] && sorted[idx..][1..] == sorted[idx + 1..];
  }

  /**
   * The do-while loop of writeToJar for one key: climb from the key one
   * '/' at a time, recording each unvisited parent and putting its entry
   * name in front of those found so far; stop at a visited parent or when
   * no '/' is left.
   */
  method ParentsToAdd(key: string, dirsVisited: set<string>) returns (toAdd: seq<string>, visited: set<string>)
    requires '/' in key
    ensures (toAdd, visited) == Climb(key, dirsVisited)
  {
    var parent := key;
    toAdd := [];
    visited := dirsVisited;
    var done := false;
    assert Climb(key, dirsVisited).0 + [] == Climb(key, dirsVisited).0;
    while !done
      invariant done ==> Climb(key, dirsVisited) == (toAdd, visited)
      invariant !done ==> ('/' in parent &&
        Climb(key, dirsVisited) == (Climb(parent, visited).0 + toAdd, Climb(parent, visited).1))
      decreases |parent|, if done then 0 else 1
    {
      ghost var child, childVisited, found := parent, visited, toAdd;
      parent := parent[..LastIndexOf(parent, '/')];
      if parent !in visited {
        visited := visited + {parent};
        toAdd := [parent + "/"] + toAdd;
        done := '/' !in parent;
        if !done {
          var r := Climb(parent, visited);
          assert Climb(child, childVisited) == (r.0 + [parent + "/"], r.1);
          assert r.0 + [parent + "/"] + found == r.0 + toAdd;
        }
      } else {
        done := true;
        assert [] + toAdd == toAdd;
      }
    }
  }

  /** The inner for loop of writeToJar: one directory entry per name, in order. */
  method AppendDirEntries(entries: seq<Entry>, names: seq<string>) returns (r: seq<Entry>)
    ensures r == entries + DirEntries(names)
  {
    r := entries;
    for i := 0 to |names|
      invariant r == entries + DirEntries(names[..i])
    {
      assert DirEntries(names[..i + 1]) == DirEntries(names[..i]) + [DirEntry(names[i])];
      r := r + [DirEntry(names[i])];
    }
    assert names[..|names|] == names;
  }

  /** Concatenation regrouped: the entries so far, then the rest of the layout. */
  lemma Regroup(a: seq<Entry>, b: seq<Entry>, c: seq<Entry>, d: seq<Entry>)
    ensures a + (b + c + d) == a + b + c + d
  {
  }

  /** The main loop of writeToJar over the keys in iteration order. */
  method WriteEntries(keys: seq<string>, content: map<string, Bytes>) returns (entries: seq<Entry>)
    requires forall k :: k in keys ==> k in content
    ensures entries == Layout(keys, content, {})
  {
    var dirsVisited: set<string> := {};
    entries := [];
    for idx := 0 to |keys|
      invariant entries + Layout(keys[idx..], content, dirsVisited) == Layout(keys, content, {})
    {
      var key := keys[idx];
      var out := content[key];
      ghost var start := entries;
      LayoutStep(keys, idx, content, dirsVisited);
      var toAdd: seq<string> := [];
      if '/' in key {
        toAdd, dirsVisited := ParentsToAdd(key, dirsVisited);
      }
      entries := AppendDirEntries(entries, toAdd);
      entries := entries + [FileEntry(key, out)];
      Regroup(start, DirEntries(toAdd), [FileEntry(key, out)], Layout(keys[idx + 1..], content, dirsVisited));
    }
  }

  /**
   * writeToJar: the entries put into the jar, in order, for content whose
   * TreeMap iteration order is `sorted`.
   */
  method WriteToJar(sorted: seq<string>, content: map<string, Bytes>) returns (entries: seq<Entry>)
    requires SortedKeys(sorted, content)
    ensures entries == Layout(sorted, content, {})
  {
    entries := WriteEntries(sorted, content);
  }
}
