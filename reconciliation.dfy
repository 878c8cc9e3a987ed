/**
 * The account reconciliation of `database_kunden_new_konto_nr.py`: the
 * customer numbers and account numbers of a DATEV customer export are read
 * with a `csv.DictReader`, merged with the account numbers the database
 * holds for the same customers, and every customer is classified. The file
 * arrives as its lines, the query result as (customer number, account
 * number) pairs in the text `str()` makes of them.
 */
module Reconciliation {
  import opened Common
  import CsvDialect

  const CustomerNumberKey: string := "Kundennummer"
  const AccountKey: string := "Konto"

  // ---------------------------------------------------------------------------
  // Reading the export
  // ---------------------------------------------------------------------------

  /** A row as `DictReader` yields it: each column with its field, None where the line was short. */
  type Row = map<string, Option<string>>

  /**
   * `dict(zip(fieldnames, row))`, then the missing columns set to the
   * `restval` None; a column name given twice keeps its last field.
   */
  function RowOf(header: seq<string>, values: seq<string>): (r: Row)
    ensures forall k :: k in r <==> k in header
  {
    if |header| == 0 then map[]
    else
      var j := |header| - 1;
      RowOf(header[..j], values)[header[j] := if j < |values| then Some(values[j]) else None]
  }

  /** A column named once holds the field at its position, or None past the end of the line. */
  lemma {:induction false} RowOfAt(header: seq<string>, values: seq<string>, j: nat)
    requires j < |header|
    requires forall i :: j < i < |header| ==> header[i] != header[j]
    ensures RowOf(header, values)[header[j]] == if j < |values| then Some(values[j]) else None
  {
    var last := |header| - 1;
    if j < last {
      var front := header[..last];
      assert front[j] == header[j];
      assert forall i :: j < i < |front| ==> front[i] != front[j] by {
        forall i | j < i < |front| ensures front[i] != front[j] {
          assert front[i] == header[i];
        }
      }
      RowOfAt(front, values, j);
      assert header[last] != header[j];
      assert RowOf(header, values) == RowOf(front, values)[header[last] := if last < |values| then Some(values[last]) else None];
    }
  }

  /** The records of the data lines, each made a row; blank lines are skipped. */
  function DataRows(header: seq<string>, lines: seq<string>): Result<seq<Row>>
  {
    if |lines| == 0 then Ok([])
    else
      var front :- DataRows(header, lines[..|lines| - 1]);
      var line := lines[|lines| - 1];
      if line == "" then Ok(front)
      else
        var values :- CsvDialect.ReadFirstRow(line);
        if values == [] then Ok(front) else Ok(front + [RowOf(header, values)])
  }

  /** Every row read has exactly the header's columns. */
  lemma {:induction false} DataRowsColumns(header: seq<string>, lines: seq<string>)
    requires DataRows(header, lines).Ok?
    ensures forall r :: r in DataRows(header, lines).value ==> forall k :: k in r <==> k in header
  {
    if |lines| > 0 {
      DataRowsColumns(header, lines[..|lines| - 1]);
    }
  }

  /**
   * `csv.DictReader(f.readlines()[1:], delimiter=";")`: the file's first
   * line is skipped, the second names the columns, the rest are data.
   */
  function ReadRows(lines: seq<string>): Result<seq<Row>>
  {
    if |lines| <= 1 then Ok([])
    else
      var header :- CsvDialect.ReadFirstRow(lines[1]);
      DataRows(header, lines[2..])
  }

  /** The file's first line plays no part: only the lines after it are read. */
  lemma FirstLineSkipped(first: string, other: string, rest: seq<string>)
    ensures ReadRows([first] + rest) == ReadRows([other] + rest)
  {
    if |rest| > 0 {
      assert ([first] + rest)[1] == rest[0] == ([other] + rest)[1];
      assert ([first] + rest)[2..] == rest[1..] == ([other] + rest)[2..];
    }
  }

  // ---------------------------------------------------------------------------
  // The export's accounts
  // ---------------------------------------------------------------------------

  /** `k[key]`: KeyError for a column the header lacks. */
  function Field(row: Row, key: string): Result<Option<string>>
  {
    if key in row then Ok(row[key]) else Err(KeyError(key))
  }

  /** `s.strip()` on a field: None has no `strip`. */
  function StripField(f: Option<string>): Result<string>
  {
    // the AttributeError is named by the failing call
    if f.None? then Err(AttributeError("None.strip()")) else Ok(StripSpace(f.value))
  }

  /**
   * The comprehension's filter, `k[KDR_NR].strip() and k[KONTO_NR].strip()`:
   * the account column is looked at only when the customer number is not
   * blank.
   */
  function Complete(row: Row): Result<bool>
  {
    var kd :- Field(row, CustomerNumberKey);
    var kdStripped :- StripField(kd);
    if kdStripped == "" then Ok(false)
    else
      var konto :- Field(row, AccountKey);
      var kontoStripped :- StripField(konto);
      Ok(kontoStripped != "")
  }

  /** A dict that keeps its insertion order: (key, value) pairs. */
  type Assoc = seq<(string, string)>

  function Keys(a: Assoc): set<string>
  {
    if |a| == 0 then {} else {a[0].0} + Keys(a[1..])
  }

  predicate KeysDistinct(a: Assoc)
  {
    |a| == 0 || (a[0].0 !in Keys(a[1..]) && KeysDistinct(a[1..]))
  }

  /** `d[k] = v`: a present key keeps its place and takes the new value, a new key goes last. */
  function Put(a: Assoc, k: string, v: string): (r: Assoc)
  {
    if |a| == 0 then [(k, v)]
    else if a[0].0 == k then [(k, v)] + a[1..]
    else [a[0]] + Put(a[1..], k, v)
  }

  /** `d.get(k)`. */
  function Lookup(a: Assoc, k: string): Option<string>
  {
    if |a| == 0 then None
    else if a[0].0 == k then Some(a[0].1)
    else Lookup(a[1..], k)
  }

  /** A key is found exactly when it is among the keys. */
  lemma {:induction false} LookupKeys(a: Assoc, x: string)
    ensures Lookup(a, x).Some? <==> x in Keys(a)
  {
    if |a| > 0 {
      LookupKeys(a[1..], x);
    }
  }

  /**
   * After `d[k] = v` the keys are the old ones and `k`, still distinct;
   * the old keys keep their places; `k` finds `v` and every other key what
   * it found before.
   */
  lemma {:induction false} PutSpec(a: Assoc, k: string, v: string, x: string)
    requires KeysDistinct(a)
    ensures KeysDistinct(Put(a, k, v))
    ensures Keys(Put(a, k, v)) == Keys(a) + {k}
    ensures |Put(a, k, v)| == if k in Keys(a) then |a| else |a| + 1
    ensures forall i :: 0 <= i < |a| ==> Put(a, k, v)[i].0 == a[i].0
    ensures Lookup(Put(a, k, v), x) == if x == k then Some(v) else Lookup(a, x)
  {
    if |a| > 0 && a[0].0 != k {
      PutSpec(a[1..], k, v, x);
      var r := Put(a, k, v);
      assert r[1..] == Put(a[1..], k, v);
      forall i | 0 <= i < |a| ensures r[i].0 == a[i].0 {
        if i > 0 { assert r[i] == r[1..][i - 1]; }
      }
    } else if |a| > 0 {
      assert Put(a, k, v)[1..] == a[1..];
    }
  }

  /**
   * `csv_data`: customer number to account number, for every complete row
   * in order; a later row overwrites the account of an earlier one with the
   * same customer number, which keeps its first place.
   */
  function CsvAccounts(rows: seq<Row>): (r: Result<Assoc>)
  {
    if |rows| == 0 then Ok([])
    else
      var front :- CsvAccounts(rows[..|rows| - 1]);
      var row := rows[|rows| - 1];
      var keep :- Complete(row);
      if keep then Ok(Put(front, row[CustomerNumberKey].value, row[AccountKey].value)) else Ok(front)
  }

  /** The row passes the filter. */
  predicate Kept(row: Row)
  {
    Complete(row) == Ok(true)
  }

  /** The account of the last complete row with customer number `k`, if any: what `csv_data[k]` holds. */
  function LastAccount(rows: seq<Row>, k: string): Option<string>
  {
    if |rows| == 0 then None
    else
      var row := rows[|rows| - 1];
      if Kept(row) && row[CustomerNumberKey].value == k then Some(row[AccountKey].value)
      else LastAccount(rows[..|rows| - 1], k)
  }

  /** Reading the accounts fails exactly when some row cannot be filtered. */
  lemma {:induction false} CsvAccountsOk(rows: seq<Row>)
    ensures CsvAccounts(rows).Ok? <==> forall i :: 0 <= i < |rows| ==> Complete(rows[i]).Ok?
  {
    if |rows| > 0 {
      var front := rows[..|rows| - 1];
      CsvAccountsOk(front);
      if (forall i :: 0 <= i < |front| ==> Complete(front[i]).Ok?) && Complete(rows[|rows| - 1]).Ok? {
        forall i | 0 <= i < |rows| ensures Complete(rows[i]).Ok? {
          if i < |front| { assert rows[i] == front[i]; }
        }
      }
    }
  }

  /**
   * The customer numbers read are distinct, and each maps to the account
   * of its last complete row: a customer is a key exactly when one of its
   * rows is complete.
   */
  lemma {:induction false} CsvAccountsLast(rows: seq<Row>, k: string)
    requires CsvAccounts(rows).Ok?
    ensures KeysDistinct(CsvAccounts(rows).value)
    ensures Lookup(CsvAccounts(rows).value, k) == LastAccount(rows, k)
  {
    if |rows| > 0 {
      var front := rows[..|rows| - 1];
      var row := rows[|rows| - 1];
      CsvAccountsLast(front, k);
      if Kept(row) {
        PutSpec(CsvAccounts(front).value, row[CustomerNumberKey].value, row[AccountKey].value, k);
      }
    }
  }

  /** `database_data`: each database customer number with its account number, a later row overwriting. */
  function DbAccounts(dbRows: seq<(string, string)>): Assoc
  {
    if |dbRows| == 0 then []
    else
      var (kd, konto) := dbRows[|dbRows| - 1];
      Put(DbAccounts(dbRows[..|dbRows| - 1]), kd, konto)
  }

  /** The account of the last database row for customer `k`, if any. */
  function LastDbAccount(dbRows: seq<(string, string)>, k: string): Option<string>
  {
    if |dbRows| == 0 then None
    else if dbRows[|dbRows| - 1].0 == k then Some(dbRows[|dbRows| - 1].1)
    else LastDbAccount(dbRows[..|dbRows| - 1], k)
  }

  /** `database_data.get(k)` is the account of the customer's last database row, None for a customer not there. */
  lemma {:induction false} DbAccountsLast(dbRows: seq<(string, string)>, k: string)
    ensures KeysDistinct(DbAccounts(dbRows))
    ensures Lookup(DbAccounts(dbRows), k) == LastDbAccount(dbRows, k)
  {
    if |dbRows| > 0 {
      var front := dbRows[..|dbRows| - 1];
      DbAccountsLast(front, k);
      PutSpec(DbAccounts(front), dbRows[|dbRows| - 1].0, dbRows[|dbRows| - 1].1, k);
    }
  }

  // ---------------------------------------------------------------------------
  // Merging and classifying
  // ---------------------------------------------------------------------------

  /** A customer number with its account in the export and in the database, if it is there. */
  type Merged = (string, (string, Option<string>))

  function MergeWith(db: Assoc): ((string, string)) -> Merged
  {
    (e: (string, string)) => (e.0, (e.1, Lookup(db, e.0)))
  }

  /** `merged_data`: the export's customers in its order, each with both account numbers. */
  function Merge(csv: Assoc, db: Assoc): (r: seq<Merged>)
    ensures |r| == |csv|
  {
    Map(csv, MergeWith(db))
  }

  /** The merge has exactly the export's customers, in order, each with its database account or None. */
  lemma MergeEntries(csv: Assoc, db: Assoc, i: nat)
    requires i < |csv|
    ensures Merge(csv, db)[i] == (csv[i].0, (csv[i].1, Lookup(db, csv[i].0)))
  {
    MapAt(csv, MergeWith(db), i);
  }

  /** How the loop treats one customer. */
  datatype Outcome = Match | NotInDatabase | MissingInDatabase | Differ

  /**
   * Equal accounts match; a customer the database lacks, an account of
   * zeros only (`not konto_nr_db.strip("0")`), and any other difference
   * are conflicts.
   */
  function Classify(csvValue: string, dbValue: Option<string>): Outcome
  {
    if dbValue == Some(csvValue) then Match
    else if dbValue.None? then NotInDatabase
    else if StripChar(dbValue.value, '0') == "" then MissingInDatabase
    else Differ
  }

  predicate AllZeros(s: string)
  {
    forall i :: 0 <= i < |s| ==> s[i] == '0'
  }

  /** `s.strip("0")` is empty exactly when `s` holds nothing but '0' characters, the empty text included. */
  lemma {:induction false} StripZerosEmpty(s: string)
    ensures StripChar(s, '0') == "" <==> AllZeros(s)
  {
    if |s| > 0 && s[0] == '0' {
      StripZerosEmpty(s[1..]);
      assert AllZeros(s) <==> AllZeros(s[1..]) by {
        if AllZeros(s[1..]) {
          forall i | 0 <= i < |s| ensures s[i] == '0' {
            if i > 0 { assert s[i] == s[1..][i - 1]; }
          }
        }
      }
    } else if |s| > 0 {
      assert DropLeading(s, '0') == s;
      DropTrailingKeepsFirst(s, '0');
    }
  }

  lemma {:induction false} DropTrailingKeepsFirst(s: string, c: char)
    requires |s| > 0 && s[0] != c
    ensures |DropTrailing(s, c)| > 0
  {
    if s[|s| - 1] == c {
      DropTrailingKeepsFirst(s[..|s| - 1], c);
    }
  }

  function OutcomeOf(m: Merged): Outcome
  {
    Classify(m.1.0, m.1.1)
  }

  /** `found_conflicts` after the loop: every customer not matching. */
  function ConflictCount(merged: seq<Merged>): nat
  {
    if |merged| == 0 then 0
    else ConflictCount(merged[..|merged| - 1]) + if OutcomeOf(merged[|merged| - 1]) == Match then 0 else 1
  }

  /** `missing_data` after the loop: (customer number, export account) of each zero account, in order. */
  function MissingData(merged: seq<Merged>): seq<(string, string)>
  {
    if |merged| == 0 then []
    else
      var m := merged[|merged| - 1];
      MissingData(merged[..|merged| - 1]) + if OutcomeOf(m) == MissingInDatabase then [(m.0, m.1.0)] else []
  }

  /** The classification loop of the script. */
  method Reconcile(merged: seq<Merged>) returns (missing: seq<(string, string)>, conflicts: nat)
    ensures missing == MissingData(merged)
    ensures conflicts == ConflictCount(merged)
  {
    missing := [];
    conflicts := 0;
    for i := 0 to |merged|
      invariant missing == MissingData(merged[..i])
      invariant conflicts == ConflictCount(merged[..i])
    {
      assert merged[..i + 1][..i] == merged[..i];
      var (kdr, (csvValue, dbValue)) := merged[i];
      if dbValue == Some(csvValue) {
        continue;
      }
      if dbValue.None? {
        conflicts := conflicts + 1;
        continue;
      }
      if StripChar(dbValue.value, '0') == "" {
        conflicts := conflicts + 1;
        missing := missing + [(kdr, csvValue)];
        continue;
      }
      conflicts := conflicts + 1;
    }
    assert merged[..|merged|] == merged;
  }

  /** "No conflicts found" is printed exactly when every customer's accounts match. */
  lemma {:induction false} NoConflictsIffAllMatch(merged: seq<Merged>)
    ensures ConflictCount(merged) == 0 <==> forall i :: 0 <= i < |merged| ==> OutcomeOf(merged[i]) == Match
  {
    if |merged| > 0 {
      var front := merged[..|merged| - 1];
      NoConflictsIffAllMatch(front);
      if ConflictCount(merged) == 0 {
        forall i | 0 <= i < |merged| ensures OutcomeOf(merged[i]) == Match {
          if i < |front| { assert merged[i] == front[i]; }
        }
      }
    }
  }

  /** Each customer in the missing list is also counted as a conflict. */
  lemma {:induction false} MissingCounted(merged: seq<Merged>)
    ensures |MissingData(merged)| <= ConflictCount(merged)
  {
    if |merged| > 0 {
      MissingCounted(merged[..|merged| - 1]);
    }
  }

  /** `e` is (customer number, export account) of a customer whose database account is zeros only. */
  predicate ZeroAccountEntry(merged: seq<Merged>, e: (string, string))
  {
    exists i :: 0 <= i < |merged| && OutcomeOf(merged[i]) == MissingInDatabase && e == (merged[i].0, merged[i].1.0)
  }

  /** Every entry of the missing list is a customer whose database account is zeros only, with its export account. */
  lemma {:induction false} MissingSound(merged: seq<Merged>)
    ensures forall k :: 0 <= k < |MissingData(merged)| ==> ZeroAccountEntry(merged, MissingData(merged)[k])
  {
    if |merged| > 0 {
      var front := merged[..|merged| - 1];
      var last := merged[|merged| - 1];
      MissingSound(front);
      var all := MissingData(merged);
      forall k | 0 <= k < |all|
        ensures ZeroAccountEntry(merged, all[k])
      {
        if k < |MissingData(front)| {
          assert ZeroAccountEntry(front, MissingData(front)[k]);
          var i :| 0 <= i < |front| && OutcomeOf(front[i]) == MissingInDatabase
            && MissingData(front)[k] == (front[i].0, front[i].1.0);
          assert merged[i] == front[i];
          assert all[k] == MissingData(front)[k];
        } else {
          assert all[k] == (last.0, last.1.0);
          assert merged[|merged| - 1] == last;
        }
      }
    }
  }

  /** Every customer whose database account is zeros only is in the missing list, with its export account. */
  lemma {:induction false} MissingComplete(merged: seq<Merged>)
    ensures forall i :: 0 <= i < |merged| && OutcomeOf(merged[i]) == MissingInDatabase ==>
      (merged[i].0, merged[i].1.0) in MissingData(merged)
  {
    if |merged| > 0 {
      var front := merged[..|merged| - 1];
      var last := merged[|merged| - 1];
      MissingComplete(front);
      var all := MissingData(merged);
      forall i | 0 <= i < |merged| && OutcomeOf(merged[i]) == MissingInDatabase
        ensures (merged[i].0, merged[i].1.0) in all
      {
        if i < |front| {
          assert merged[i] == front[i];
          var k :| 0 <= k < |MissingData(front)| && MissingData(front)[k] == (front[i].0, front[i].1.0);
          assert all[k] == MissingData(front)[k];
        } else {
          assert all[|all| - 1] == (last.0, last.1.0);
        }
      }
    }
  }

  /** No two entries of the merge share a customer number, as the keys of a dict do not. */
  predicate DistinctCustomers(merged: seq<Merged>)
  {
    forall a, b :: 0 <= a < b < |merged| ==> merged[a].0 != merged[b].0
  }

  lemma {:induction false} KeysHold(a: Assoc, j: nat)
    requires j < |a|
    ensures a[j].0 in Keys(a)
  {
    if j > 0 {
      KeysHold(a[1..], j - 1);
    }
  }

  /** The merge of a dict's entries has distinct customer numbers. */
  lemma {:induction false} MergeDistinctCustomers(csv: Assoc, db: Assoc)
    requires KeysDistinct(csv)
    ensures DistinctCustomers(Merge(csv, db))
  {
    var merged := Merge(csv, db);
    forall a, b | 0 <= a < b < |merged| ensures merged[a].0 != merged[b].0 {
      MergeEntries(csv, db, a);
      MergeEntries(csv, db, b);
      DistinctAt(csv, a, b);
    }
  }

  lemma {:induction false} DistinctAt(a: Assoc, i: nat, j: nat)
    requires KeysDistinct(a) && i < j < |a|
    ensures a[i].0 != a[j].0
  {
    if i == 0 {
      KeysHold(a[1..], j - 1);
    } else {
      DistinctAt(a[1..], i - 1, j - 1);
    }
  }

  /**
   * A customer the database lacks is classified as not in the database,
   * counts as a conflict, and no entry of the missing list carries its
   * customer number.
   */
  lemma NotInDatabaseNotMissing(merged: seq<Merged>, i: nat)
    requires DistinctCustomers(merged)
    requires i < |merged| && merged[i].1.1.None?
    ensures OutcomeOf(merged[i]) == NotInDatabase
    ensures ConflictCount(merged) >= 1
    ensures forall k :: 0 <= k < |MissingData(merged)| ==> MissingData(merged)[k].0 != merged[i].0
  {
    NoConflictsIffAllMatch(merged);
    MissingSound(merged);
    forall k | 0 <= k < |MissingData(merged)| ensures MissingData(merged)[k].0 != merged[i].0 {
      assert ZeroAccountEntry(merged, MissingData(merged)[k]);
      var j :| 0 <= j < |merged| && OutcomeOf(merged[j]) == MissingInDatabase
        && MissingData(merged)[k] == (merged[j].0, merged[j].1.0);
      assert j != i;
    }
  }

  /**
   * The script's data, before the loop: the export's rows read and
   * filtered, then merged with the database's accounts. With no complete
   * row the query reads `KdNr in ()`, which the database rejects.
   */
  function MergedData(lines: seq<string>, dbRows: seq<(string, string)>): Result<seq<Merged>>
  {
    var rows :- ReadRows(lines);
    var csv :- CsvAccounts(rows);
    if |csv| == 0 then Err(ProgrammingError("You have an error in your SQL syntax"))
    else Ok(Merge(csv, DbAccounts(dbRows)))
  }

  /**
   * The loop runs on a non-empty merge of distinct customers, one per
   * complete customer of the export; the script stops with the database's
   * error when no row is complete.
   */
  lemma MergedDataShape(lines: seq<string>, dbRows: seq<(string, string)>)
    ensures MergedData(lines, dbRows).Ok? ==>
      var merged := MergedData(lines, dbRows).value;
      && |merged| > 0
      && DistinctCustomers(merged)
      && merged == Merge(CsvAccounts(ReadRows(lines).value).value, DbAccounts(dbRows))
    ensures ReadRows(lines).Ok? && CsvAccounts(ReadRows(lines).value) == Ok([]) ==>
      MergedData(lines, dbRows).Err? && MergedData(lines, dbRows).error.ProgrammingError?
  {
    if ReadRows(lines).Ok? && CsvAccounts(ReadRows(lines).value).Ok? {
      CsvAccountsLast(ReadRows(lines).value, "");
      MergeDistinctCustomers(CsvAccounts(ReadRows(lines).value).value, DbAccounts(dbRows));
    }
  }
}
