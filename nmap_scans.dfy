/** Nmap scans started from the web interface
    (storage/scripts/nsatt_web/modules/nmap_scans.py): the command a scan
    runs, the checks on a user-supplied command, and the stored-results
    actions. Running nmap and streaming its output are outside the model. */
module NmapScans {
  import opened Strings

  /** The first message run_nmap_scan yields when it refuses a command. */
  const MustStartWithNmap: string := "Invalid command: Must start with 'nmap'."
  const NoSeparators: string := "Invalid command: Cannot contain ';' or '&' for security reasons."

  /** The command run_nmap_scan runs: a non-empty custom command when it
      starts with `nmap` and holds no `;` or `&`; otherwise
      `nmap {type} {options joined by spaces} {target}`. */
  function ScanCommand(target: string, scanType: string, options: seq<string>, custom: string): (r: Result<string>)
    ensures custom != "" && !StartsWith(custom, "nmap") ==> r == Err(MustStartWithNmap)
    ensures custom != "" && StartsWith(custom, "nmap") && (';' in custom || '&' in custom) ==> r == Err(NoSeparators)
    ensures custom != "" && r.Ok? ==> r.value == custom && StartsWith(custom, "nmap") && ';' !in custom && '&' !in custom
    ensures custom == "" ==> r == Ok("nmap " + scanType + " " + Join(options, " ") + " " + target)
  {
    if custom != "" then
      if !StartsWith(custom, "nmap") then Err(MustStartWithNmap)
      else if ';' in custom || '&' in custom then Err(NoSeparators)
      else Ok(custom)
    else Ok("nmap " + scanType + " " + Join(options, " ") + " " + target)
  }

  /** Whatever the inputs, an accepted command starts with `nmap`. */
  lemma AcceptedCommandsRunNmap(target: string, scanType: string, options: seq<string>, custom: string)
    ensures ScanCommand(target, scanType, options, custom).Ok? ==> StartsWith(ScanCommand(target, scanType, options, custom).value, "nmap")
    ensures custom == "" ==> ScanCommand(target, scanType, options, custom).Ok?
  {
    if custom == "" {
      var c := "nmap " + scanType + " " + Join(options, " ") + " " + target;
      assert c[..4] == "nmap";
    }
  }

  /** A row of the `nmap_results` table. */
  datatype ScanResult = ScanResult(id: int, time: string, scanType: string, options: string, target: string, result: string)

  /** The rows whose id is not in `ids`, in order. */
  function WithoutIds(rows: seq<ScanResult>, ids: set<int>): (r: seq<ScanResult>)
    ensures forall x :: x in r <==> x in rows && x.id !in ids
    ensures |r| <= |rows|
    decreases |rows|
  {
    if rows == [] then []
    else WithoutIds(rows[..|rows| - 1], ids) + (if rows[|rows| - 1].id in ids then [] else [rows[|rows| - 1]])
  }

  /** Deleting no ids keeps every row. */
  lemma {:induction false} WithoutNoIds(rows: seq<ScanResult>)
    ensures WithoutIds(rows, {}) == rows
    decreases |rows|
  {
    if rows != [] {
      WithoutNoIds(rows[..|rows| - 1]);
      assert rows[..|rows| - 1] + [rows[|rows| - 1]] == rows;
    }
  }

  /** Deleting one id after a set of them is deleting the larger set. */
  lemma {:induction false} WithoutIdsTwice(rows: seq<ScanResult>, ids: set<int>, id: int)
    ensures WithoutIds(WithoutIds(rows, ids), {id}) == WithoutIds(rows, ids + {id})
    decreases |rows|
  {
    if rows != [] {
      var init := rows[..|rows| - 1];
      var last := rows[|rows| - 1];
      WithoutIdsTwice(init, ids, id);
      var once := WithoutIds(init, ids);
      if last.id in ids {
        assert WithoutIds(rows, ids) == once + [];
        assert once + [] == once;
      } else {
        var r := once + [last];
        assert r[..|r| - 1] == once;
      }
    }
  }

  /** sqlite3's refusal of a SELECT passed to `executemany`. */
  const ExportFailure: string := "executemany() can only execute DML statements."

  class ResultStore {
    var rows: seq<ScanResult>

    constructor ()
      ensures rows == []
    {
      rows := [];
    }

    /** manage_nmap_results: "delete_selected" with a non-empty selection
        runs one DELETE per selected id; "delete_all" empties the table;
        "export" with a selection hands its SELECT to `executemany`, which
        refuses a statement that is not DML, so the call fails before the
        commit; "export" without a selection and anything else change
        nothing. `dbError` is an error raised by the connection or a
        statement: nothing is committed and its text is returned. */
    method Manage(action: string, selectedIds: seq<int>, dbError: Option<string>) returns (message: string)
      modifies this
      ensures dbError.Some? ==> rows == old(rows) && message == "Error: " + dbError.value
      ensures dbError.None? && action == "delete_selected" && selectedIds != [] ==>
        rows == WithoutIds(old(rows), IdSet(selectedIds))
      ensures dbError.None? && action == "delete_all" ==> rows == []
      ensures action != "delete_all" && !(action == "delete_selected" && selectedIds != []) ==> rows == old(rows)
      ensures dbError.None? ==>
        message == (if action == "export" && selectedIds != [] then "Error: " + ExportFailure
                    else "Action completed successfully.")
    {
      if dbError.Some? {
        return "Error: " + dbError.value;
      }
      if action == "export" && selectedIds != [] {
        return "Error: " + ExportFailure;
      }
      if action == "delete_selected" && selectedIds != [] {
        WithoutNoIds(rows);
        for i := 0 to |selectedIds|
          invariant rows == WithoutIds(old(rows), IdSet(selectedIds[..i]))
        {
          WithoutIdsTwice(old(rows), IdSet(selectedIds[..i]), selectedIds[i]);
          assert selectedIds[..i + 1][..i] == selectedIds[..i];
          rows := WithoutIds(rows, {selectedIds[i]});
        }
        assert selectedIds[..|selectedIds|] == selectedIds;
      } else if action == "delete_all" {
        rows := [];
      }
      message := "Action completed successfully.";
    }
  }
}
