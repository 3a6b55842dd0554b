/** The file browser's routes: the path-safety test every route applies, the
    directory listing's filters and sort, the permission-change validation,
    and the bulk delete / move routes that refuse the whole request when one
    path is unsafe. The file system is outside the model: resolved paths,
    directory entries and the outcome of each file operation are inputs. */
module FileBrowserRoutes {
  import opened Strings

  /** The directory the browser is confined to. */
  const BaseDir: string := "/home/nsatt-admin"

  // ---------------------------------------------------------------------
  // Path safety

  /** The test as written: the resolved path merely starts with the base
      directory's text, so a sibling such as `/home/nsatt-admin2` passes. */
  predicate IsSafePathAsWritten(base: string, resolved: string) {
    StartsWith(resolved, base)
  }

  /** The confinement the test is meant to give: the resolved path is the base
      directory itself or lies below it. The routes use the test as written. */
  predicate IsSafePath(base: string, resolved: string) {
    resolved == base || StartsWith(resolved, base + "/")
  }

  /** A sibling directory whose name extends the base name passes the test as
      written although it lies outside the base directory. */
  lemma SiblingPassesPrefixTest()
    ensures IsSafePathAsWritten(BaseDir, "/home/nsatt-admin2/notes")
    ensures !IsSafePath(BaseDir, "/home/nsatt-admin2/notes")
  {
    var p := "/home/nsatt-admin2/notes";
    assert p[..|BaseDir|] == BaseDir;
    assert p[|BaseDir|] == '2';
    assert (BaseDir + "/")[|BaseDir|] == '/';
  }

  /** The corrected test only narrows the one as written. */
  lemma SafePathPassesPrefixTest(base: string, resolved: string)
    requires IsSafePath(base, resolved)
    ensures IsSafePathAsWritten(base, resolved)
  {
    if resolved != base {
      assert resolved[..|base|] == (base + "/")[..|base|];
    }
  }

  /** Splitting at a separator splits each side of it. */
  lemma {:induction false} SplitAroundSep(a: string, sep: char, b: string)
    ensures SplitOn(a + [sep] + b, sep) == SplitOn(a, sep) + SplitOn(b, sep)
    decreases |a|
  {
    var s := a + [sep] + b;
    if a == [] {
      assert s == [sep] + b;
      assert s[1..] == b;
    } else {
      assert s[0] == a[0] && s[1..] == a[1..] + [sep] + b;
      SplitAroundSep(a[1..], sep, b);
    }
  }

  /** A path below the base directory continues the base's components. */
  lemma SafePathExtendsComponents(base: string, resolved: string)
    requires IsSafePath(base, resolved)
    ensures SplitOn(base, '/') <= SplitOn(resolved, '/')
  {
    if resolved != base {
      var t := resolved[|base| + 1..];
      assert resolved == base + ['/'] + t;
      SplitAroundSep(base, '/', t);
    }
  }

  lemma JoinOnConcat(a: seq<string>, b: seq<string>, sep: char)
    requires a != [] && b != []
    ensures JoinOn(a + b, sep) == JoinOn(a, sep) + [sep] + JoinOn(b, sep)
  {
    JoinOnIsJoin(a + b, sep);
    JoinOnIsJoin(a, sep);
    JoinOnIsJoin(b, sep);
    JoinConcat(a, b, [sep]);
  }

  /** A path continuing the base's components lies at or below the base. */
  lemma ComponentsExtendSafePath(base: string, resolved: string)
    requires SplitOn(base, '/') <= SplitOn(resolved, '/')
    ensures IsSafePath(base, resolved)
  {
    var b := SplitOn(base, '/');
    var p := SplitOn(resolved, '/');
    var rest := p[|b|..];
    assert p == b + rest;
    JoinSplit(resolved, '/');
    JoinSplit(base, '/');
    if rest == [] {
      assert p == b;
    } else {
      JoinOnConcat(b, rest, '/');
      var tail := JoinOn(rest, '/');
      assert resolved == base + "/" + tail;
      assert resolved[..|base + "/"|] == base + "/";
    }
  }

  /** A path is safe exactly when the base directory's components are the
      leading components of the path. */
  lemma SafePathByComponents(base: string, resolved: string)
    ensures IsSafePath(base, resolved) <==> SplitOn(base, '/') <= SplitOn(resolved, '/')
  {
    if IsSafePath(base, resolved) {
      SafePathExtendsComponents(base, resolved);
    }
    if SplitOn(base, '/') <= SplitOn(resolved, '/') {
      ComponentsExtendSafePath(base, resolved);
    }
  }

  // ---------------------------------------------------------------------
  // Listing a directory

  datatype EntryKind = Directory | RegularFile | OtherFile

  /** One directory entry as the operating system reports it; the two
      timestamps arrive already formatted as `YYYY-MM-DD HH:MM:SS`. */
  datatype Entry = Entry(name: string, kind: EntryKind, size: nat, mode: nat,
                         path: string, created: string, modified: string)

  /** One row of the listing the route sends back. */
  datatype FileInfo = FileInfo(name: string, fileType: string, size: Option<nat>,
                               permissions: string, path: string,
                               created: string, modified: string)

  function OctalDigit(d: nat): char
    requires d < 8
  {
    ('0' as int + d) as char
  }

  predicate IsOctalDigit(c: char) { '0' <= c <= '7' }

  function OctalDigitValue(c: char): (d: nat)
    requires IsOctalDigit(c)
    ensures d < 8 && OctalDigit(d) == c
  {
    c as int - '0' as int
  }

  /** The digits of Python's `oct(n)` after its `0o` prefix. */
  function OctalDigits(n: nat): (r: string)
    ensures |r| >= 1 && forall i :: 0 <= i < |r| ==> IsOctalDigit(r[i])
    decreases n
  {
    if n < 8 then [OctalDigit(n)] else OctalDigits(n / 8) + [OctalDigit(n % 8)]
  }

  /** Python's `oct(mode)[-3:]`. */
  function Permissions(mode: nat): string {
    var text := "0o" + OctalDigits(mode);
    text[|text| - 3..]
  }

  /** The value of a string of octal digits (Python's `int(s, 8)`). */
  function OctalValue(s: string): nat
    requires forall i :: 0 <= i < |s| ==> IsOctalDigit(s[i])
  {
    if s == [] then 0
    else 8 * OctalValue(s[..|s| - 1]) + OctalDigitValue(s[|s| - 1])
  }

  lemma LastThreeDigits(n: nat)
    ensures 64 * (n / 64 % 8) + 8 * (n / 8 % 8) + n % 8 == n % 512
  {
    var q1 := n / 8;
    var q2 := q1 / 8;
    var q3 := q2 / 8;
    assert n == 8 * q1 + n % 8;
    assert q1 == 8 * q2 + q1 % 8;
    assert q2 == 8 * q3 + q2 % 8;
    assert n / 64 == q2;
    assert n == 512 * q3 + (64 * (q2 % 8) + 8 * (q1 % 8) + n % 8);
  }

  /** The permissions column of a file whose mode carries its type bits holds
      the three octal digits of the mode's permission bits. */
  lemma PermissionsAreModeBits(mode: nat)
    requires mode >= 64
    ensures var p := Permissions(mode);
      |p| == 3 && (forall i :: 0 <= i < 3 ==> IsOctalDigit(p[i])) && OctalValue(p) == mode % 512
  {
    var d0 := OctalDigit(mode % 8);
    var d1 := OctalDigit(mode / 8 % 8);
    var d2 := OctalDigit(mode / 64 % 8);
    var lead := OctalDigits(mode / 64);
    assert mode / 8 / 8 == mode / 64;
    assert OctalDigits(mode / 8) == lead + [d1];
    assert OctalDigits(mode) == lead + [d1] + [d0];
    if mode / 64 >= 8 {
      assert lead == OctalDigits(mode / 64 / 8) + [d2];
    } else {
      assert lead == [d2];
    }
    var text := "0o" + OctalDigits(mode);
    assert text[|text| - 3..] == [d2, d1, d0];
    var p := [d2, d1, d0];
    assert p[..2] == [d2, d1] && [d2, d1][..1] == [d2] && [d2][..0] == [];
    assert OctalDigitValue(d0) == mode % 8;
    assert OctalDigitValue(d1) == mode / 8 % 8;
    assert OctalDigitValue(d2) == mode / 64 % 8;
    assert OctalValue([d2]) == mode / 64 % 8;
    assert OctalValue([d2, d1]) == 8 * (mode / 64 % 8) + mode / 8 % 8;
    assert OctalValue(p) == 64 * (mode / 64 % 8) + 8 * (mode / 8 % 8) + mode % 8;
    LastThreeDigits(mode);
  }

  function FileType(kind: EntryKind): string {
    if kind == Directory then "Directory" else "File"
  }

  /** The listing row of an entry: only a regular file reports a size. */
  function Info(e: Entry): (f: FileInfo)
    ensures f.name == e.name && f.path == e.path
    ensures f.size.Some? <==> e.kind == RegularFile
    ensures f.fileType == "Directory" <==> e.kind == Directory
  {
    FileInfo(e.name, FileType(e.kind), if e.kind == RegularFile then Some(e.size) else None,
             Permissions(e.mode), e.path, e.created, e.modified)
  }

  /** The four filter parameters, as sent (the missing ones as ""). */
  datatype Query = Query(filterName: string, filterType: string, filterDate: string,
                         searchQuery: string)

  /** The four filters: name and search text as case-insensitive substrings,
      the type case-insensitively equal, the date a prefix of the creation
      time; an empty parameter does not filter. */
  predicate Passes(e: Entry, q: Query) {
    (Lower(q.filterName) == "" || Contains(Lower(e.name), Lower(q.filterName)))
    && (Lower(q.filterType) == "" || Lower(q.filterType) == Lower(FileType(e.kind)))
    && (q.filterDate == "" || StartsWith(e.created, q.filterDate))
    && (Lower(q.searchQuery) == "" || Contains(Lower(e.name), Lower(q.searchQuery)))
  }

  /** The rows the listing loop collects, in directory order. */
  function Listing(entries: seq<Entry>, q: Query): seq<FileInfo> {
    if entries == [] then []
    else
      var rest := Listing(entries[..|entries| - 1], q);
      var e := entries[|entries| - 1];
      if Passes(e, q) then rest + [Info(e)] else rest
  }

  /** The listing holds exactly the rows of the entries that pass the filters. */
  lemma {:induction false} ListingMembers(entries: seq<Entry>, q: Query)
    ensures forall f :: f in Listing(entries, q) <==> exists e :: e in entries && Passes(e, q) && f == Info(e)
    ensures |Listing(entries, q)| <= |entries|
    decreases |entries|
  {
    if entries != [] {
      var init := entries[..|entries| - 1];
      ListingMembers(init, q);
      assert entries == init + [entries[|entries| - 1]];
    }
  }

  /** Every listed row matches every non-empty filter. */
  lemma ListedRowsMatch(entries: seq<Entry>, q: Query, f: FileInfo)
    requires f in Listing(entries, q)
    ensures Lower(q.filterName) != "" ==> Contains(Lower(f.name), Lower(q.filterName))
    ensures Lower(q.searchQuery) != "" ==> Contains(Lower(f.name), Lower(q.searchQuery))
    ensures Lower(q.filterType) != "" ==> Lower(q.filterType) == Lower(f.fileType)
    ensures q.filterDate != "" ==> StartsWith(f.created, q.filterDate)
  {
    ListingMembers(entries, q);
  }

  /** The filter loop of the listing route. */
  method FilterEntries(entries: seq<Entry>, q: Query) returns (files: seq<FileInfo>)
    ensures files == Listing(entries, q)
  {
    var name := Lower(q.filterName);
    var fileType := Lower(q.filterType);
    var search := Lower(q.searchQuery);
    files := [];
    for i := 0 to |entries|
      invariant files == Listing(entries[..i], q)
    {
      assert entries[..i + 1][..i] == entries[..i];
      var e := entries[i];
      if name != "" && !Contains(Lower(e.name), name) {
        continue;
      }
      if fileType != "" && fileType != Lower(FileType(e.kind)) {
        continue;
      }
      if q.filterDate != "" && !StartsWith(e.created, q.filterDate) {
        continue;
      }
      if search != "" && !Contains(Lower(e.name), search) {
        continue;
      }
      files := files + [Info(e)];
    }
    assert entries[..|entries|] == entries;
  }

  // ---------------------------------------------------------------------
  // Sorting the listing

  datatype SortKey = ByName | ByType | BySize | ByPermissions | ByCreated | ByModified

  /** The sort parameter: only the six column names sort. */
  function ParseSortKey(s: string): (r: Option<SortKey>)
    ensures r.Some? <==> s in ["name", "type", "size", "permissions", "created", "modified"]
  {
    if s == "name" then Some(ByName)
    else if s == "type" then Some(ByType)
    else if s == "size" then Some(BySize)
    else if s == "permissions" then Some(ByPermissions)
    else if s == "created" then Some(ByCreated)
    else if s == "modified" then Some(ByModified)
    else None
  }

  /** A sort key value: the lower-cased text of a column, or the size. */
  datatype Key = Number(n: int) | Text(t: string)

  /** The size a row sorts by: a row without a size sorts as 0. */
  function SizeOrZero(f: FileInfo): nat {
    if f.size.Some? then f.size.value else 0
  }

  function KeyOf(f: FileInfo, k: SortKey): Key {
    match k
    case ByName => Text(Lower(f.name))
    case ByType => Text(Lower(f.fileType))
    case BySize => Number(SizeOrZero(f))
    case ByPermissions => Text(Lower(f.permissions))
    case ByCreated => Text(Lower(f.created))
    case ByModified => Text(Lower(f.modified))
  }

  /** Python's ordering of strings: code point by code point. */
  predicate TextLe(a: string, b: string)
    decreases |a|
  {
    a == [] || (b != [] && (a[0] < b[0] || (a[0] == b[0] && TextLe(a[1..], b[1..]))))
  }

  lemma {:induction false} TextLeTotal(a: string, b: string)
    ensures TextLe(a, b) || TextLe(b, a)
    decreases |a|
  {
    if a != [] && b != [] && a[0] == b[0] {
      TextLeTotal(a[1..], b[1..]);
    }
  }

  lemma {:induction false} TextLeTrans(a: string, b: string, c: string)
    requires TextLe(a, b) && TextLe(b, c)
    ensures TextLe(a, c)
    decreases |a|
  {
    if a != [] && b != [] && c != [] && a[0] == b[0] && b[0] == c[0] {
      TextLeTrans(a[1..], b[1..], c[1..]);
    }
  }

  /** The order of key values (the two kinds never meet within one sort). */
  predicate KeyLe(a: Key, b: Key) {
    match (a, b)
    case (Number(x), Number(y)) => x <= y
    case (Text(x), Text(y)) => TextLe(x, y)
    case (Number(_), Text(_)) => true
    case (Text(_), Number(_)) => false
  }

  lemma KeyLeTotal(a: Key, b: Key)
    ensures KeyLe(a, b) || KeyLe(b, a)
  {
    if a.Text? && b.Text? {
      TextLeTotal(a.t, b.t);
    }
  }

  lemma KeyLeTrans(a: Key, b: Key, c: Key)
    requires KeyLe(a, b) && KeyLe(b, c)
    ensures KeyLe(a, c)
  {
    if a.Text? && b.Text? && c.Text? {
      TextLeTrans(a.t, b.t, c.t);
    }
  }

  /** `x` may stand before `y`: ascending keys, or descending when reversed. */
  predicate Before(x: FileInfo, y: FileInfo, k: SortKey, desc: bool) {
    if desc then KeyLe(KeyOf(y, k), KeyOf(x, k)) else KeyLe(KeyOf(x, k), KeyOf(y, k))
  }

  lemma BeforeTotal(x: FileInfo, y: FileInfo, k: SortKey, desc: bool)
    ensures Before(x, y, k, desc) || Before(y, x, k, desc)
  {
    KeyLeTotal(KeyOf(x, k), KeyOf(y, k));
  }

  lemma BeforeTrans(x: FileInfo, y: FileInfo, z: FileInfo, k: SortKey, desc: bool)
    requires Before(x, y, k, desc) && Before(y, z, k, desc)
    ensures Before(x, z, k, desc)
  {
    if desc {
      KeyLeTrans(KeyOf(z, k), KeyOf(y, k), KeyOf(x, k));
    } else {
      KeyLeTrans(KeyOf(x, k), KeyOf(y, k), KeyOf(z, k));
    }
  }

  predicate Ordered(files: seq<FileInfo>, k: SortKey, desc: bool) {
    forall i, j :: 0 <= i < j < |files| ==> Before(files[i], files[j], k, desc)
  }

  /** Places `x` after every row that may stand before it, so that rows with
      equal keys keep their order, as Python's stable sort does. */
  function Insert(sorted: seq<FileInfo>, x: FileInfo, k: SortKey, desc: bool): (r: seq<FileInfo>)
    ensures multiset(r) == multiset(sorted) + multiset{x}
    decreases |sorted|
  {
    if sorted == [] then [x]
    else
      var last := sorted[|sorted| - 1];
      var init := sorted[..|sorted| - 1];
      assert sorted == init + [last];
      if Before(last, x, k, desc) then sorted + [x] else Insert(init, x, k, desc) + [last]
  }

  /** `list.sort(key=..., reverse=desc)` on the listing rows. */
  function SortFiles(files: seq<FileInfo>, k: SortKey, desc: bool): (r: seq<FileInfo>)
    ensures multiset(r) == multiset(files)
    decreases |files|
  {
    if files == [] then []
    else
      var init := files[..|files| - 1];
      assert files == init + [files[|files| - 1]];
      Insert(SortFiles(init, k, desc), files[|files| - 1], k, desc)
  }

  lemma {:induction false} InsertOrdered(sorted: seq<FileInfo>, x: FileInfo, k: SortKey, desc: bool)
    requires Ordered(sorted, k, desc)
    ensures Ordered(Insert(sorted, x, k, desc), k, desc)
    decreases |sorted|
  {
    if sorted == [] {
      assert Insert(sorted, x, k, desc) == [x];
    } else {
      var last := sorted[|sorted| - 1];
      var init := sorted[..|sorted| - 1];
      if Before(last, x, k, desc) {
        forall i | 0 <= i < |sorted|
          ensures Before(sorted[i], x, k, desc)
        {
          if i < |sorted| - 1 {
            BeforeTrans(sorted[i], last, x, k, desc);
          }
        }
        assert Insert(sorted, x, k, desc) == sorted + [x];
        AppendAfterAll(sorted, x, k, desc);
      } else {
        assert Ordered(init, k, desc) by {
          assert forall i :: 0 <= i < |init| ==> init[i] == sorted[i];
        }
        InsertOrdered(init, x, k, desc);
        var s := Insert(init, x, k, desc);
        assert Insert(sorted, x, k, desc) == s + [last];
        BeforeTotal(last, x, k, desc);
        BeforeLast(sorted, s, x, k, desc);
        AppendAfterAll(s, last, k, desc);
      }
    }
  }

  /** Every row of the insertion into the front part may stand before the
      last row, when `x` may. */
  lemma BeforeLast(sorted: seq<FileInfo>, s: seq<FileInfo>, x: FileInfo, k: SortKey, desc: bool)
    requires sorted != [] && Ordered(sorted, k, desc)
    requires multiset(s) == multiset(sorted[..|sorted| - 1]) + multiset{x}
    requires Before(x, sorted[|sorted| - 1], k, desc)
    ensures forall i :: 0 <= i < |s| ==> Before(s[i], sorted[|sorted| - 1], k, desc)
  {
    var last := sorted[|sorted| - 1];
    var init := sorted[..|sorted| - 1];
    forall i | 0 <= i < |s|
      ensures Before(s[i], last, k, desc)
    {
      var y := s[i];
      assert y in multiset(s);
      if y != x {
        assert y in multiset(init);
        var m :| 0 <= m < |init| && init[m] == y;
        assert sorted[m] == y;
      }
    }
  }

  /** A row that may stand after every row of an ordered listing keeps it
      ordered when appended. */
  lemma AppendAfterAll(s: seq<FileInfo>, y: FileInfo, k: SortKey, desc: bool)
    requires Ordered(s, k, desc)
    requires forall i :: 0 <= i < |s| ==> Before(s[i], y, k, desc)
    ensures Ordered(s + [y], k, desc)
  {
    var r := s + [y];
    forall i, j | 0 <= i < j < |r|
      ensures Before(r[i], r[j], k, desc)
    {
      assert r[i] == s[i];
      if j < |s| {
        assert r[j] == s[j];
      }
    }
  }

  /** The sorted rows are in key order. */
  lemma {:induction false} SortFilesOrdered(files: seq<FileInfo>, k: SortKey, desc: bool)
    ensures Ordered(SortFiles(files, k, desc), k, desc)
    decreases |files|
  {
    if files != [] {
      SortFilesOrdered(files[..|files| - 1], k, desc);
      InsertOrdered(SortFiles(files[..|files| - 1], k, desc), files[|files| - 1], k, desc);
    }
  }

  /** The sort step of the route: an unknown column leaves the listing as it
      is, `desc` reverses the order, anything else sorts ascending. */
  function Arranged(files: seq<FileInfo>, sortBy: string, order: string): (r: seq<FileInfo>)
    ensures multiset(r) == multiset(files)
    ensures ParseSortKey(sortBy).None? ==> r == files
  {
    match ParseSortKey(sortBy)
    case None => files
    case Some(k) => SortFiles(files, k, order == "desc")
  }

  /** Sorting by size orders the rows by their size, a row without one
      counting as 0: ascending, or descending for `desc`. */
  lemma ArrangedBySize(files: seq<FileInfo>, order: string)
    ensures var r := Arranged(files, "size", order);
      forall i, j :: 0 <= i < j < |r| ==>
        if order == "desc" then SizeOrZero(r[j]) <= SizeOrZero(r[i]) else SizeOrZero(r[i]) <= SizeOrZero(r[j])
  {
    SortFilesOrdered(files, BySize, order == "desc");
  }

  /** Sorting by any of the text columns orders the rows by the lower-cased
      text of that column. */
  lemma ArrangedByText(files: seq<FileInfo>, sortBy: string, order: string)
    requires ParseSortKey(sortBy).Some? && sortBy != "size"
    ensures var r := Arranged(files, sortBy, order);
      forall i, j :: 0 <= i < j < |r| ==>
        if order == "desc" then TextLe(KeyOf(r[j], ParseSortKey(sortBy).value).t, KeyOf(r[i], ParseSortKey(sortBy).value).t)
        else TextLe(KeyOf(r[i], ParseSortKey(sortBy).value).t, KeyOf(r[j], ParseSortKey(sortBy).value).t)
  {
    SortFilesOrdered(files, ParseSortKey(sortBy).value, order == "desc");
  }

  /** The listing route's answer. */
  datatype ListReply = Listed(files: seq<FileInfo>, directory: string) | ListFailed(status: nat, error: string)

  /** The listing route: `resolved` is the real path of the requested
      directory and `absolute` its absolute path (both computed by the
      operating system), `scan` the directory's entries or the error reading
      it; missing parameters arrive as `None`. */
  method ListFiles(resolved: string, absolute: string, scan: Result<seq<Entry>>, q: Query,
                   sortBy: Option<string>, order: Option<string>) returns (reply: ListReply)
    ensures !IsSafePathAsWritten(BaseDir, resolved) ==> reply == ListFailed(403, "Access denied")
    ensures IsSafePathAsWritten(BaseDir, resolved) && scan.Err? ==> reply == ListFailed(500, scan.error)
    ensures IsSafePathAsWritten(BaseDir, resolved) && scan.Ok? ==>
      reply == Listed(Arranged(Listing(scan.value, q),
                               if sortBy.Some? then sortBy.value else "name",
                               if order.Some? then order.value else "asc"), absolute)
  {
    if !IsSafePathAsWritten(BaseDir, resolved) {
      return ListFailed(403, "Access denied");
    }
    if scan.Err? {
      return ListFailed(500, scan.error);
    }
    var files := FilterEntries(scan.value, q);
    var key := if sortBy.Some? then sortBy.value else "name";
    var direction := if order.Some? then order.value else "asc";
    files := Arranged(files, key, direction);
    return Listed(files, absolute);
  }

  // ---------------------------------------------------------------------
  // Changing permissions

  /** A JSON request value: absent (or null), a string, or another value
      together with its truthiness. */
  datatype Json = Absent | Str(s: string) | NonString(truthy: bool)

  /** Python's `not value`. */
  predicate Falsy(v: Json) {
    v.Absent? || (v.Str? && v.s == "") || (v.NonString? && !v.truthy)
  }

  datatype Reply = Reply(status: nat, message: string)

  const InvalidParameters: string := "Invalid parameters"
  const AccessDenied: string := "Access denied"
  const InvalidPermissions: string := "Invalid permissions format. Use three octal digits (e.g., 755)."
  const PermissionsChanged: string := "Permissions changed successfully"

  /** The format test as written: three characters, all decimal digits. */
  predicate PermissionsFormatAsWritten(v: Json) {
    v.Str? && AllDigits(v.s) && |v.s| == 3
  }

  /** The format the error message asks for: three octal digits. */
  predicate PermissionsFormat(v: Json) {
    v.Str? && |v.s| == 3 && forall i :: 0 <= i < 3 ==> IsOctalDigit(v.s[i])
  }

  /** The permission route as written. `resolved` is the real path of the
      file, `chmodError` the error `os.chmod` raises, if any. A value that
      passes the format test must still be read as an octal number, and `9`
      is not an octal digit: that failure is caught and answered with 500. */
  function ChangePermissionsAsWritten(filepath: Json, resolved: string, permissions: Json,
                                      chmodError: Option<string>): (r: Reply)
    ensures Falsy(filepath) || Falsy(permissions) ==> r == Reply(400, InvalidParameters)
  {
    if Falsy(filepath) || Falsy(permissions) then Reply(400, InvalidParameters)
    else if !IsSafePathAsWritten(BaseDir, resolved) then Reply(403, AccessDenied)
    else if !PermissionsFormatAsWritten(permissions) then Reply(400, InvalidPermissions)
    else if !(forall i :: 0 <= i < 3 ==> IsOctalDigit(permissions.s[i])) then
      Reply(500, "invalid literal for int() with base 8: '" + permissions.s + "'")
    else if chmodError.Some? then Reply(500, chmodError.value)
    else Reply(200, PermissionsChanged)
  }

  /** `999` passes the format test as written and ends in a server error. */
  lemma NonOctalDigitsPassFormat()
    ensures PermissionsFormatAsWritten(Str("999"))
    ensures ChangePermissionsAsWritten(Str("/home/nsatt-admin/a"), "/home/nsatt-admin/a", Str("999"), None).status == 500
  {
    var p := "/home/nsatt-admin/a";
    assert p[..|BaseDir + "/"|] == BaseDir + "/";
    assert !IsOctalDigit("999"[0]);
  }

  /** The outcome of the permission route, with the mode applied to the file. */
  datatype Chmod = Chmod(reply: Reply, applied: Option<nat>)

  /** The permission route with the format test the error message describes:
      only three octal digits reach `os.chmod`. */
  function ChangePermissions(filepath: Json, resolved: string, permissions: Json,
                             chmodError: Option<string>): (r: Chmod)
    ensures Falsy(filepath) || Falsy(permissions) ==> r == Chmod(Reply(400, InvalidParameters), None)
  {
    if Falsy(filepath) || Falsy(permissions) then Chmod(Reply(400, InvalidParameters), None)
    else if !IsSafePathAsWritten(BaseDir, resolved) then Chmod(Reply(403, AccessDenied), None)
    else if !PermissionsFormat(permissions) then Chmod(Reply(400, InvalidPermissions), None)
    else if chmodError.Some? then Chmod(Reply(500, chmodError.value), Some(OctalValue(permissions.s)))
    else Chmod(Reply(200, PermissionsChanged), Some(OctalValue(permissions.s)))
  }

  /** Every mode the corrected route applies is a permission mode written as
      three octal digits; a non-octal string is refused with 400 before any
      change, and a request is applied only on a safe path. */
  lemma ChangePermissionsApplies(filepath: Json, resolved: string, permissions: Json,
                                 chmodError: Option<string>)
    ensures var r := ChangePermissions(filepath, resolved, permissions, chmodError);
      (r.applied.Some? ==> IsSafePathAsWritten(BaseDir, resolved) && PermissionsFormat(permissions)
                           && r.applied.value < 512 && r.applied.value == OctalValue(permissions.s))
      && (!Falsy(filepath) && !Falsy(permissions) && IsSafePathAsWritten(BaseDir, resolved) && !PermissionsFormat(permissions)
          ==> r == Chmod(Reply(400, InvalidPermissions), None))
      && (r.reply.status == 200 <==> r.applied.Some? && chmodError.None?)
  {
    if permissions.Str? && PermissionsFormat(permissions) {
      var s := permissions.s;
      assert s[..2][..1] == [s[0]] && [s[0]][..0] == [];
      assert OctalValue([s[0]]) == OctalDigitValue(s[0]);
      assert OctalValue(s[..2]) == 8 * OctalDigitValue(s[0]) + OctalDigitValue(s[1]);
      assert OctalValue(s) == 64 * OctalDigitValue(s[0]) + 8 * OctalDigitValue(s[1]) + OctalDigitValue(s[2]);
    }
  }

  /** The permissions column of a listing is accepted by the corrected route
      and sets the same permission bits again. */
  lemma ListedPermissionsRoundTrip(mode: nat)
    requires mode >= 64
    ensures PermissionsFormat(Str(Permissions(mode)))
    ensures ChangePermissions(Str("/home/nsatt-admin"), BaseDir, Str(Permissions(mode)), None).applied == Some(mode % 512)
  {
    PermissionsAreModeBits(mode);
  }

  // ---------------------------------------------------------------------
  // Bulk delete and bulk move

  /** The first path whose resolved form is unsafe. */
  function FirstUnsafe(paths: seq<string>, resolve: string -> string): (r: Option<string>)
    ensures r.None? <==> forall i :: 0 <= i < |paths| ==> IsSafePathAsWritten(BaseDir, resolve(paths[i]))
    ensures r.Some? ==> exists i :: (0 <= i < |paths| && paths[i] == r.value && !IsSafePathAsWritten(BaseDir, resolve(paths[i]))
                                     && forall j :: 0 <= j < i ==> IsSafePathAsWritten(BaseDir, resolve(paths[j])))
    decreases |paths|
  {
    if paths == [] then None
    else if !IsSafePathAsWritten(BaseDir, resolve(paths[0])) then Some(paths[0])
    else
      var r := FirstUnsafe(paths[1..], resolve);
      assert forall i :: 1 <= i < |paths| ==> paths[1..][i - 1] == paths[i];
      r
  }

  /** The error lines of the operations that failed, in order. */
  function Errors(paths: seq<string>, failure: string -> Option<string>): seq<string> {
    if paths == [] then []
    else
      var rest := Errors(paths[..|paths| - 1], failure);
      var p := paths[|paths| - 1];
      if failure(p).Some? then rest + [p + ": " + failure(p).value] else rest
  }

  /** No error is reported exactly when no operation failed. */
  lemma {:induction false} ErrorsEmpty(paths: seq<string>, failure: string -> Option<string>)
    ensures Errors(paths, failure) == [] <==> forall i :: 0 <= i < |paths| ==> failure(paths[i]).None?
    ensures |Errors(paths, failure)| <= |paths|
    decreases |paths|
  {
    if paths != [] {
      var init := paths[..|paths| - 1];
      ErrorsEmpty(init, failure);
      assert forall i :: 0 <= i < |init| ==> init[i] == paths[i];
    }
  }

  /** The answer of a bulk route: a message, or the list of errors. */
  datatype BulkReply = Done(status: nat, message: string) | Failed(errors: seq<string>)

  /** The checking loop: the first unsafe path, if any. */
  method CheckAll(paths: seq<string>, resolve: string -> string) returns (unsafe: Option<string>)
    ensures unsafe == FirstUnsafe(paths, resolve)
  {
    var i := 0;
    while i < |paths|
      invariant 0 <= i <= |paths|
      invariant FirstUnsafe(paths, resolve) == FirstUnsafe(paths[i..], resolve)
    {
      if !IsSafePathAsWritten(BaseDir, resolve(paths[i])) {
        return Some(paths[i]);
      }
      assert paths[i..][1..] == paths[i + 1..];
      i := i + 1;
    }
    return None;
  }

  /** The operating loop: every path is attempted, in order, and the failures
      are collected. */
  method ApplyAll(paths: seq<string>, failure: string -> Option<string>)
    returns (attempted: seq<string>, errors: seq<string>)
    ensures attempted == paths && errors == Errors(paths, failure)
  {
    attempted := [];
    errors := [];
    for i := 0 to |paths|
      invariant attempted == paths[..i] && errors == Errors(paths[..i], failure)
    {
      assert paths[..i + 1][..i] == paths[..i];
      attempted := attempted + [paths[i]];
      var e := failure(paths[i]);
      if e.Some? {
        errors := errors + [paths[i] + ": " + e.value];
      }
    }
    assert paths[..|paths|] == paths;
  }

  function Outcome(errors: seq<string>, success: string): BulkReply {
    if errors == [] then Done(200, success) else Failed(errors)
  }

  /** The bulk delete route. `resolve` gives each path's real path and
      `failure` the error removing it raises, if any; `attempted` lists the
      paths the route removes. */
  method BulkDelete(filepaths: seq<string>, resolve: string -> string,
                    failure: string -> Option<string>)
    returns (reply: BulkReply, attempted: seq<string>)
    ensures filepaths == [] ==> reply == Done(400, "No filepaths specified") && attempted == []
    ensures filepaths != [] && FirstUnsafe(filepaths, resolve).Some? ==>
      reply == Done(403, "Access denied for " + FirstUnsafe(filepaths, resolve).value) && attempted == []
    ensures filepaths != [] && FirstUnsafe(filepaths, resolve).None? ==>
      attempted == filepaths && reply == Outcome(Errors(filepaths, failure), "Files deleted successfully")
  {
    if filepaths == [] {
      return Done(400, "No filepaths specified"), [];
    }
    var unsafe := CheckAll(filepaths, resolve);
    if unsafe.Some? {
      return Done(403, "Access denied for " + unsafe.value), [];
    }
    var errors;
    attempted, errors := ApplyAll(filepaths, failure);
    reply := Outcome(errors, "Files deleted successfully");
  }

  /** The bulk move route: the destination is checked first, then every
      path; `attempted` lists the paths moved into `destination`. */
  method BulkMove(filepaths: seq<string>, destination: Option<string>, resolve: string -> string,
                  failure: string -> Option<string>)
    returns (reply: BulkReply, attempted: seq<string>)
    ensures filepaths == [] || destination.None? || destination == Some("") ==>
      reply == Done(400, InvalidParameters) && attempted == []
    ensures filepaths != [] && destination.Some? && destination.value != "" ==>
      if !IsSafePathAsWritten(BaseDir, resolve(destination.value)) then
        reply == Done(403, "Access denied for destination directory") && attempted == []
      else if FirstUnsafe(filepaths, resolve).Some? then
        reply == Done(403, "Access denied for " + FirstUnsafe(filepaths, resolve).value) && attempted == []
      else
        attempted == filepaths && reply == Outcome(Errors(filepaths, failure), "Files moved successfully")
  {
    if filepaths == [] || destination.None? || destination.value == "" {
      return Done(400, InvalidParameters), [];
    }
    if !IsSafePathAsWritten(BaseDir, resolve(destination.value)) {
      return Done(403, "Access denied for destination directory"), [];
    }
    var unsafe := CheckAll(filepaths, resolve);
    if unsafe.Some? {
      return Done(403, "Access denied for " + unsafe.value), [];
    }
    var errors;
    attempted, errors := ApplyAll(filepaths, failure);
    reply := Outcome(errors, "Files moved successfully");
  }
}
