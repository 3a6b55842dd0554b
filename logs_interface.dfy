/** The log viewer's two PHP endpoints over the `logs` table of the
    networking log database: fetching the latest hundred entries as text
    lines, and deleting all entries or the listed ones. The table is the
    state of a `LogDatabase` object; SQL statements are modelled by their
    effect on its rows. */
module LogsInterface {
  import opened Strings

  /** One row of the `logs` table. */
  datatype LogRow = LogRow(id: int, timestamp: string, level: string, message: string)

  /** `LIMIT 100` of the fetch query. */
  const FetchLimit: nat := 100

  const MissingDatabase: string := "Log database does not exist."

  // ---------------------------------------------------------------------
  // Entry text

  /** The text of one entry: `[timestamp] [level] message`. */
  function Format(r: LogRow): string {
    "[" + r.timestamp + "] [" + r.level + "] " + r.message
  }

  /** The three parts a reader of an entry line recovers. */
  datatype Parts = Parts(timestamp: string, level: string, message: string)

  /** The index of the first `c` in `s`, or `|s|` when there is none. */
  function FirstIndex(s: string, c: char): (i: nat)
    ensures i <= |s| && (i < |s| ==> s[i] == c) && forall j :: 0 <= j < i ==> s[j] != c
  {
    if s == [] then 0 else if s[0] == c then 0 else 1 + FirstIndex(s[1..], c)
  }

  lemma {:induction false} FirstIndexAfter(a: string, c: char, b: string)
    requires c !in a
    ensures FirstIndex(a + [c] + b, c) == |a|
    decreases |a|
  {
    var s := a + [c] + b;
    if a == [] {
      assert s[0] == c;
    } else {
      assert s[0] == a[0] && s[1..] == a[1..] + [c] + b;
      FirstIndexAfter(a[1..], c, b);
    }
  }

  /** The text up to the first `]`, when `]` is followed by `sep`, and the
      text after `sep`. */
  function Bracketed(s: string, sep: string): Option<(string, string)> {
    var i := FirstIndex(s, ']');
    if i + 1 + |sep| > |s| || s[i + 1..i + 1 + |sep|] != sep then None
    else Some((s[..i], s[i + 1 + |sep|..]))
  }

  lemma BracketedOf(a: string, sep: string, b: string)
    requires ']' !in a
    ensures Bracketed(a + "]" + sep + b, sep) == Some((a, b))
  {
    var s := a + "]" + sep + b;
    assert s == a + [']'] + (sep + b);
    FirstIndexAfter(a, ']', sep + b);
    var i := |a|;
    assert s[i + 1..i + 1 + |sep|] == sep;
    assert s[..i] == a && s[i + 1 + |sep|..] == b;
  }

  /** Reads an entry line back into its parts. */
  function ParseEntry(s: string): Option<Parts> {
    if s == [] || s[0] != '[' then None
    else
      match Bracketed(s[1..], " [")
      case None => None
      case Some((timestamp, rest)) =>
        match Bracketed(rest, " ")
        case None => None
        case Some((level, message)) => Some(Parts(timestamp, level, message))
  }

  /** An entry line gives back its row's timestamp, level and message when
      neither the timestamp nor the level holds a `]`. */
  lemma ParseFormat(r: LogRow)
    requires ']' !in r.timestamp && ']' !in r.level
    ensures ParseEntry(Format(r)) == Some(Parts(r.timestamp, r.level, r.message))
  {
    var rest := r.level + "]" + " " + r.message;
    var s := Format(r);
    assert s == "[" + (r.timestamp + "]" + " [" + rest);
    assert s[1..] == r.timestamp + "]" + " [" + rest;
    BracketedOf(r.timestamp, " [", rest);
    BracketedOf(r.level, " ", r.message);
  }

  /** The entry lines of some rows, in the same order. */
  function Formatted(rows: seq<LogRow>): (r: seq<string>)
    ensures |r| == |rows|
  {
    if rows == [] then [] else Formatted(rows[..|rows| - 1]) + [Format(rows[|rows| - 1])]
  }

  lemma {:induction false} FormattedAt(rows: seq<LogRow>, k: nat)
    requires k < |rows|
    ensures Formatted(rows)[k] == Format(rows[k])
    decreases |rows|
  {
    if k < |rows| - 1 {
      FormattedAt(rows[..|rows| - 1], k);
    }
  }

  /** PHP's `array_reverse`. */
  function Reverse<T>(s: seq<T>): (r: seq<T>)
    ensures |r| == |s| && forall i :: 0 <= i < |s| ==> r[i] == s[|s| - 1 - i]
  {
    if s == [] then [] else Reverse(s[1..]) + [s[0]]
  }

  lemma ReverseFormatted(rows: seq<LogRow>)
    ensures Reverse(Formatted(rows)) == Formatted(Reverse(rows))
  {
    var a := Reverse(Formatted(rows));
    var b := Formatted(Reverse(rows));
    forall k | 0 <= k < |rows|
      ensures a[k] == b[k]
    {
      FormattedAt(rows, |rows| - 1 - k);
      FormattedAt(Reverse(rows), k);
    }
  }

  // ---------------------------------------------------------------------
  // ORDER BY id DESC LIMIT 100

  /** Places `x` among rows in descending id order. */
  function InsertById(sorted: seq<LogRow>, x: LogRow): (r: seq<LogRow>)
    ensures multiset(r) == multiset(sorted) + multiset{x} && |r| == |sorted| + 1
  {
    if sorted == [] then [x]
    else if x.id > sorted[0].id then [x] + sorted
    else
      assert sorted == [sorted[0]] + sorted[1..];
      [sorted[0]] + InsertById(sorted[1..], x)
  }

  /** `ORDER BY id DESC`. */
  function ByIdDescending(rows: seq<LogRow>): (r: seq<LogRow>)
    ensures multiset(r) == multiset(rows) && |r| == |rows|
  {
    if rows == [] then []
    else
      assert rows == [rows[0]] + rows[1..];
      InsertById(ByIdDescending(rows[1..]), rows[0])
  }

  predicate Descending(rows: seq<LogRow>) {
    forall i, j :: 0 <= i < j < |rows| ==> rows[i].id >= rows[j].id
  }

  lemma {:induction false} InsertDescending(sorted: seq<LogRow>, x: LogRow)
    requires Descending(sorted)
    ensures Descending(InsertById(sorted, x))
    decreases |sorted|
  {
    if sorted != [] && x.id <= sorted[0].id {
      var tail := InsertById(sorted[1..], x);
      InsertDescending(sorted[1..], x);
      forall y: LogRow | y in multiset(tail)
        ensures y.id <= sorted[0].id
      {
        if y != x {
          assert y in multiset(sorted[1..]);
          var k :| 0 <= k < |sorted[1..]| && sorted[1..][k] == y;
          assert sorted[k + 1] == y;
        }
      }
      forall k | 0 <= k < |tail|
        ensures tail[k].id <= sorted[0].id
      {
        assert tail[k] in multiset(tail);
      }
    }
  }

  lemma {:induction false} ByIdDescendingSorted(rows: seq<LogRow>)
    ensures Descending(ByIdDescending(rows))
    decreases |rows|
  {
    if rows != [] {
      ByIdDescendingSorted(rows[1..]);
      InsertDescending(ByIdDescending(rows[1..]), rows[0]);
    }
  }

  function Min(a: nat, b: nat): nat { if a <= b then a else b }

  /** The rows the fetch query returns, in the order it returns them. */
  function Selected(rows: seq<LogRow>): (r: seq<LogRow>)
    ensures |r| == Min(FetchLimit, |rows|)
  {
    ByIdDescending(rows)[..Min(FetchLimit, |rows|)]
  }

  /** The rows behind the fetched lines: at most the hundred rows with the
      highest ids, in ascending id order. */
  function Latest(rows: seq<LogRow>): seq<LogRow> {
    Reverse(Selected(rows))
  }

  /** No row outside the selection has a higher id than a selected row. */
  lemma SelectedHighest(rows: seq<LogRow>, x: LogRow, k: nat)
    requires x in rows && x !in Selected(rows) && k < |Selected(rows)|
    ensures x.id <= Selected(rows)[k].id
  {
    var sorted := ByIdDescending(rows);
    var n := Min(FetchLimit, |rows|);
    ByIdDescendingSorted(rows);
    assert x in multiset(sorted);
    var m :| 0 <= m < |sorted| && sorted[m] == x;
    if m < n {
      assert Selected(rows)[m] == x;
    }
    assert Selected(rows)[k] == sorted[k];
  }

  /** The fetched rows are in ascending id order. */
  lemma LatestAscending(rows: seq<LogRow>)
    ensures var l := Latest(rows); forall i, j :: 0 <= i < j < |l| ==> l[i].id <= l[j].id
  {
    var sorted := ByIdDescending(rows);
    var n := Min(FetchLimit, |rows|);
    var l := Latest(rows);
    ByIdDescendingSorted(rows);
    forall i, j | 0 <= i < j < |l|
      ensures l[i].id <= l[j].id
    {
      assert l[i] == sorted[n - 1 - i] && l[j] == sorted[n - 1 - j];
    }
  }

  /** The fetched rows are rows of the table, as many as the limit allows. */
  lemma LatestFromTable(rows: seq<LogRow>)
    ensures |Latest(rows)| == Min(FetchLimit, |rows|)
    ensures multiset(Latest(rows)) <= multiset(rows)
  {
    var sorted := ByIdDescending(rows);
    var n := Min(FetchLimit, |rows|);
    var sel := Selected(rows);
    ReverseMultiset(sel);
    assert sorted == sel + sorted[n..];
    assert multiset(sorted) == multiset(sel) + multiset(sorted[n..]);
  }

  lemma LatestHighestAt(rows: seq<LogRow>, x: LogRow, k: nat)
    requires x in rows && x !in Latest(rows) && k < |Latest(rows)|
    ensures x.id <= Latest(rows)[k].id
  {
    var sel := Selected(rows);
    var l := Latest(rows);
    forall m | 0 <= m < |sel|
      ensures sel[m] != x
    {
      assert l[|sel| - 1 - m] == sel[m];
    }
    assert l[k] == sel[|sel| - 1 - k];
    SelectedHighest(rows, x, |sel| - 1 - k);
  }

  /** No row left out has a higher id than a fetched row. */
  lemma LatestHighest(rows: seq<LogRow>)
    ensures var l := Latest(rows);
      forall x, k :: x in rows && x !in l && 0 <= k < |l| ==> x.id <= l[k].id
  {
    forall x, k | x in rows && x !in Latest(rows) && 0 <= k < |Latest(rows)|
      ensures x.id <= Latest(rows)[k].id
    {
      LatestHighestAt(rows, x, k);
    }
  }

  lemma {:induction false} ReverseMultiset<T>(s: seq<T>)
    ensures multiset(Reverse(s)) == multiset(s)
    decreases |s|
  {
    if s != [] {
      ReverseMultiset(s[1..]);
      assert s == [s[0]] + s[1..];
    }
  }

  // ---------------------------------------------------------------------
  // Deleting rows

  /** `DELETE FROM logs WHERE id IN ids`: the rows whose id is not listed. */
  function Keep(rows: seq<LogRow>, ids: set<int>): (r: seq<LogRow>)
    ensures forall x :: x in r <==> x in rows && x.id !in ids
    ensures |r| <= |rows|
  {
    if rows == [] then []
    else Keep(rows[..|rows| - 1], ids) + (if rows[|rows| - 1].id in ids then [] else [rows[|rows| - 1]])
  }

  lemma {:induction false} KeepNone(rows: seq<LogRow>)
    ensures Keep(rows, {}) == rows
    decreases |rows|
  {
    if rows != [] {
      KeepNone(rows[..|rows| - 1]);
      assert rows[..|rows| - 1] + [rows[|rows| - 1]] == rows;
    }
  }

  /** Deleting one more id after a set of them deletes the larger set. */
  lemma {:induction false} KeepMore(rows: seq<LogRow>, ids: set<int>, id: int)
    ensures Keep(Keep(rows, ids), {id}) == Keep(rows, ids + {id})
    decreases |rows|
  {
    if rows != [] {
      var init := rows[..|rows| - 1];
      var last := rows[|rows| - 1];
      KeepMore(init, ids, id);
      var once := Keep(init, ids);
      if last.id in ids {
        assert Keep(rows, ids) == once + [];
        assert once + [] == once;
      } else {
        var r := once + [last];
        assert r[..|r| - 1] == once;
      }
    }
  }

  /** The primary key: no two rows share an id. */
  predicate UniqueIds(rows: seq<LogRow>) {
    forall i, j :: 0 <= i < j < |rows| ==> rows[i].id != rows[j].id
  }

  lemma {:induction false} KeepUnique(rows: seq<LogRow>, ids: set<int>)
    requires UniqueIds(rows)
    ensures UniqueIds(Keep(rows, ids))
    decreases |rows|
  {
    if rows != [] {
      var init := rows[..|rows| - 1];
      var last := rows[|rows| - 1];
      KeepUnique(init, ids);
      forall x: LogRow | x in Keep(init, ids)
        ensures x.id != last.id
      {
        var k :| 0 <= k < |init| && init[k] == x;
        assert rows[k] == x;
      }
    }
  }

  datatype Reply = Logs(lines: seq<string>) | Status(status: string) | Error(error: string)

  /** The `lines` request field: absent, a list of ids, or something else. */
  datatype Lines = NoLines | LineIds(ids: seq<int>) | NotAList

  /** The log database: whether its file exists, and the `logs` table. */
  class LogDatabase {
    var present: bool
    var rows: seq<LogRow>

    predicate Valid()
      reads this
    {
      UniqueIds(rows)
    }

    constructor(present: bool, rows: seq<LogRow>)
      requires UniqueIds(rows)
      ensures Valid() && this.present == present && this.rows == rows
    {
      this.present := present;
      this.rows := rows;
    }

    /** `fetch_logs.php`: the query's rows are formatted in the order they
        arrive, and the list is then reversed. `openError` is the exception
        `new SQLite3` throws for a file it cannot open; the catch replies
        with its message. */
    method Fetch(openError: Option<string>) returns (reply: Reply)
      ensures !present ==> reply == Error(MissingDatabase)
      ensures present && openError.Some? ==> reply == Error(openError.value)
      ensures present && openError.None? ==> reply == Logs(Formatted(Latest(rows)))
    {
      if !present {
        return Error(MissingDatabase);
      }
      if openError.Some? {
        return Error(openError.value);
      }
      var result := Selected(rows);
      var logs: seq<string> := [];
      var i := 0;
      while i < |result|
        invariant 0 <= i <= |result|
        invariant logs == Formatted(result[..i])
      {
        assert result[..i + 1][..i] == result[..i];
        logs := logs + [Format(result[i])];
        i := i + 1;
      }
      assert result[..|result|] == result;
      ReverseFormatted(result);
      return Logs(Reverse(logs));
    }

    /** One `DELETE FROM logs WHERE id = :id` per listed id. */
    method DeleteIds(ids: seq<int>)
      requires Valid()
      modifies this
      ensures Valid() && present == old(present) && rows == Keep(old(rows), IdSet(ids))
    {
      var start := rows;
      var kept := rows;
      KeepNone(start);
      for i := 0 to |ids|
        invariant kept == Keep(start, IdSet(ids[..i])) && UniqueIds(kept)
        invariant present == old(present)
      {
        ghost var before := IdSet(ids[..i]);
        assert ids[..i + 1][..i] == ids[..i];
        assert IdSet(ids[..i + 1]) == before + {ids[i]};
        KeepMore(start, before, ids[i]);
        KeepUnique(kept, {ids[i]});
        kept := Keep(kept, {ids[i]});
      }
      assert ids[..|ids|] == ids;
      rows := kept;
    }

    /** `delete_logs.php`. `action` is `None` when the request carries no
        string action. `openError` is the exception `new SQLite3` throws for
        a file it cannot open: the catch replies with its message and
        nothing is deleted. */
    method Delete(action: Option<string>, lines: Lines, openError: Option<string>) returns (reply: Reply)
      requires Valid()
      modifies this
      ensures Valid() && present == old(present)
      ensures !present ==> reply == Error(MissingDatabase) && rows == old(rows)
      ensures present && openError.Some? ==> reply == Error(openError.value) && rows == old(rows)
      ensures present && openError.None? && action == Some("delete_all") ==>
        reply == Status("All logs deleted successfully.") && rows == []
      ensures present && openError.None? && action == Some("delete_specific") ==>
        match lines
        case NotAList => reply == Error("Invalid lines format.") && rows == old(rows)
        case NoLines => reply == Status("Specified logs deleted successfully.") && rows == old(rows)
        case LineIds(ids) => reply == Status("Specified logs deleted successfully.") && rows == Keep(old(rows), IdSet(ids))
      ensures present && openError.None? && action != Some("delete_all") && action != Some("delete_specific") ==>
        reply == Error("Invalid action.") && rows == old(rows)
    {
      if !present {
        return Error(MissingDatabase);
      }
      if openError.Some? {
        return Error(openError.value);
      }
      if action == Some("delete_all") {
        rows := [];
        return Status("All logs deleted successfully.");
      } else if action == Some("delete_specific") {
        if lines.NotAList? {
          return Error("Invalid lines format.");
        }
        var ids := if lines.LineIds? then lines.ids else [];
        DeleteIds(ids);
        if lines.NoLines? {
          KeepNone(old(rows));
        }
        return Status("Specified logs deleted successfully.");
      }
      return Error("Invalid action.");
    }
  }
}
