/**
 * The CSV ingestion loop, myapp/utils/csv_utils.py `upload_csv`.
 *
 * Reading the upload, detecting its encoding and splitting it into rows are
 * foreign code: their outcome is an input, `None` when reading or decoding
 * failed and otherwise the rows `csv.DictReader` yields.  The date of the run
 * (`datetime.date.today()`) is a parameter.  The database is a `PersonStore`
 * whose bulk insert may fail.
 */
module Ingest {
  import opened Wrappers
  import opened Dates

  /** One data row: header field name to cell text. */
  type Row = map<string, string>

  /** The `Person` built for an accepted row (myapp/models.py), before `uploaded_at` is stamped. */
  datatype Person = Person(externalId: string, dateOfBirth: Date, gender: string, region: Option<string>)

  /** Why a row was counted as an error. */
  datatype Reason =
    | MalformedDate   // `date_of_birth` missing (KeyError) or not `%d/%m/%Y` (ValueError)
    | FutureDate      // parsed date strictly after today
    | NumericRegion   // region made only of digits
    | MissingField    // `id` or `gender` missing when the Person is built

  datatype RowOutcome = Accepted(person: Person) | Rejected(reason: Reason)

  /** `result_status`. */
  datatype Report = Report(errorCount: nat, successCount: nat, totalCount: nat)

  /** A header-only upload never binds the loop variable `rownum`, which line 87 then reads. */
  datatype UploadError = RowNumUnbound

  /** `str.isdigit()`, restricted to ASCII digits: non-empty and all digits. */
  predicate IsDigitString(s: string) {
    |s| > 0 && forall i :: 0 <= i < |s| ==> IsDigit(s[i])
  }

  /** `row.get('region', '')` */
  function RegionText(row: Row): string {
    if "region" in row then row["region"] else ""
  }

  /** `row.get('region') or None`: an absent or empty region is stored as no region. */
  function NormalRegion(row: Row): Option<string> {
    if RegionText(row) == "" then None else Some(RegionText(row))
  }

  /** What the store may hold: no birth date after the processing date, no empty or all-digit region. */
  predicate StorableOn(p: Person, today: Date) {
    ValidDate(p.dateOfBirth) && !Before(today, p.dateOfBirth)
    && (p.region.Some? ==> p.region.value != "" && !IsDigitString(p.region.value))
  }

  /** The checks one iteration of the upload loop applies, in the loop's order, first failure wins. */
  function ValidateRow(row: Row, today: Date): (r: RowOutcome)
    ensures r.Accepted? ==> StorableOn(r.person, today)
    ensures r.Accepted? ==> "date_of_birth" in row && ParseDate(row["date_of_birth"]) == Some(r.person.dateOfBirth)
    ensures r.Accepted? ==> "id" in row && "gender" in row && r.person.externalId == row["id"]
                            && r.person.gender == row["gender"] && r.person.region == NormalRegion(row)
  {
    if "date_of_birth" !in row then Rejected(MalformedDate)
    else
      match ParseDate(row["date_of_birth"])
      case None => Rejected(MalformedDate)
      case Some(dob) =>
        if Before(today, dob) then Rejected(FutureDate)
        else if IsDigitString(RegionText(row)) then Rejected(NumericRegion)
        else if "id" !in row || "gender" !in row then Rejected(MissingField)
        else Accepted(Person(row["id"], dob, row["gender"], NormalRegion(row)))
  }

  /** The pending list after the loop has seen `rows`: the accepted rows' Persons, in input order. */
  function AcceptedPersons(rows: seq<Row>, today: Date): seq<Person> {
    if rows == [] then []
    else
      var last := ValidateRow(rows[|rows| - 1], today);
      AcceptedPersons(rows[..|rows| - 1], today) + (if last.Accepted? then [last.person] else [])
  }

  /** `error_count` after the loop has seen `rows`. */
  function RejectedCount(rows: seq<Row>, today: Date): nat {
    if rows == [] then 0
    else RejectedCount(rows[..|rows| - 1], today) + (if ValidateRow(rows[|rows| - 1], today).Rejected? then 1 else 0)
  }

  /**
   * The record store `Person.objects`.  Whether its next bulk insert succeeds
   * is outside the program; `available` stands for it.
   */
  class PersonStore {
    var records: seq<Person>
    var available: bool
    var bulkInserts: nat

    constructor (records: seq<Person>, available: bool)
      ensures this.records == records && this.available == available && bulkInserts == 0
    {
      this.records := records;
      this.available := available;
      bulkInserts := 0;
    }

    /** `Person.objects.bulk_create(batch)`: all rows are stored, or on failure none. */
    method BulkCreate(batch: seq<Person>) returns (ok: bool)
      modifies this
      ensures ok == old(available) && available == old(available)
      ensures records == if ok then old(records) + batch else old(records)
      ensures bulkInserts == old(bulkInserts) + 1
    {
      bulkInserts := bulkInserts + 1;
      ok := available;
      if ok {
        records := records + batch;
      }
    }
  }

  /**
   * `upload_csv`.  A read or decode failure reports all zeros and touches
   * nothing; a header-only file fails; otherwise every row is counted once,
   * the accepted ones are bulk-inserted in one call when there are any, and
   * the report does not depend on whether that insert succeeded.
   */
  method UploadCsv(decoded: Option<seq<Row>>, today: Date, store: PersonStore) returns (r: Result<Report, UploadError>)
    modifies store
    ensures decoded.None? ==> r == Success(Report(0, 0, 0))
    ensures decoded == Some([]) ==> r == Failure(RowNumUnbound)
    ensures decoded.Some? && decoded.value != [] ==>
              r == Success(Report(RejectedCount(decoded.value, today),
                                  |AcceptedPersons(decoded.value, today)|,
                                  |decoded.value|))
    ensures store.available == old(store.available)
    ensures var batch := if decoded.Some? then AcceptedPersons(decoded.value, today) else [];
            && store.bulkInserts == old(store.bulkInserts) + (if batch != [] && r.Success? then 1 else 0)
            && store.records == if batch != [] && r.Success? && old(store.available)
                                then old(store.records) + batch else old(store.records)
  {
    if decoded.None? {
      return Success(Report(0, 0, 0));
    }
    var rows := decoded.value;
    var errorCount, successCount := 0, 0;
    var bulkCreateList: seq<Person> := [];
    var rownum := 0;
    while rownum < |rows|
      invariant 0 <= rownum <= |rows|
      invariant bulkCreateList == AcceptedPersons(rows[..rownum], today)
      invariant successCount == |bulkCreateList|
      invariant errorCount == RejectedCount(rows[..rownum], today)
    {
      rownum := rownum + 1;
      var row := rows[rownum - 1];
      assert rows[..rownum][..rownum - 1] == rows[..rownum - 1];
      if "date_of_birth" !in row {
        errorCount := errorCount + 1;
        continue;
      }
      var parsed := ParseDate(row["date_of_birth"]);
      if parsed.None? {
        errorCount := errorCount + 1;
        continue;
      }
      var dob := parsed.value;
      if Before(today, dob) {
        errorCount := errorCount + 1;
        continue;
      }
      if IsDigitString(RegionText(row)) {
        errorCount := errorCount + 1;
        continue;
      }
      if "id" !in row || "gender" !in row {
        errorCount := errorCount + 1;
        continue;
      }
      var person := Person(row["id"], dob, row["gender"], NormalRegion(row));
      bulkCreateList := bulkCreateList + [person];
      successCount := successCount + 1;
    }
    assert rows[..rownum] == rows;
    // Python leaves `rownum` unbound when the loop body never ran.
    if rownum == 0 {
      return Failure(RowNumUnbound);
    }
    var report := Report(errorCount, successCount, rownum);
    if bulkCreateList != [] {
      // A failed insert is only logged.
      var inserted := store.BulkCreate(bulkCreateList);
    }
    r := Success(report);
  }

  // ---------------------------------------------------------------------
  // Properties of the specification
  // ---------------------------------------------------------------------

  /** Every data row is counted exactly once, as a success or as an error. */
  lemma {:induction false} ReportBalanced(rows: seq<Row>, today: Date)
    ensures RejectedCount(rows, today) + |AcceptedPersons(rows, today)| == |rows|
  {
    if rows != [] {
      ReportBalanced(rows[..|rows| - 1], today);
    }
  }

  /** Processing two runs of rows one after the other yields their pending lists in order. */
  lemma {:induction false} AcceptedPersonsAppend(a: seq<Row>, b: seq<Row>, today: Date)
    ensures AcceptedPersons(a + b, today) == AcceptedPersons(a, today) + AcceptedPersons(b, today)
    decreases |b|
  {
    if b == [] {
      assert a + b == a;
    } else {
      assert (a + b)[..|a + b| - 1] == a + b[..|b| - 1];
      AcceptedPersonsAppend(a, b[..|b| - 1], today);
    }
  }

  /** The pending list holds exactly the Persons of accepted rows. */
  lemma {:induction false} AcceptedPersonsMembers(rows: seq<Row>, today: Date, p: Person)
    ensures p in AcceptedPersons(rows, today) <==> exists i :: 0 <= i < |rows| && ValidateRow(rows[i], today) == Accepted(p)
  {
    if rows != [] {
      var init := rows[..|rows| - 1];
      AcceptedPersonsMembers(init, today, p);
      if p in AcceptedPersons(rows, today) && p !in AcceptedPersons(init, today) {
        assert ValidateRow(rows[|rows| - 1], today) == Accepted(p);
      }
      if exists i :: 0 <= i < |rows| && ValidateRow(rows[i], today) == Accepted(p) {
        var i :| 0 <= i < |rows| && ValidateRow(rows[i], today) == Accepted(p);
        if i < |rows| - 1 {
          assert init[i] == rows[i];
        }
      }
    }
  }

  /** Nothing the upload hands to the store has a future birth date or an all-digit region. */
  lemma AcceptedPersonsStorable(rows: seq<Row>, today: Date, p: Person)
    requires p in AcceptedPersons(rows, today)
    ensures StorableOn(p, today)
  {
    AcceptedPersonsMembers(rows, today, p);
  }

  /** The first failing check decides a rejection; a row passes when every check does. */
  lemma ValidateRowRules(row: Row, today: Date)
    ensures ValidateRow(row, today) == Rejected(MalformedDate) <==>
              "date_of_birth" !in row || ParseDate(row["date_of_birth"]).None?
    ensures ValidateRow(row, today) == Rejected(FutureDate) <==>
              "date_of_birth" in row && ParseDate(row["date_of_birth"]).Some?
              && Before(today, ParseDate(row["date_of_birth"]).value)
    ensures ValidateRow(row, today) == Rejected(NumericRegion) <==>
              "date_of_birth" in row && ParseDate(row["date_of_birth"]).Some?
              && !Before(today, ParseDate(row["date_of_birth"]).value) && IsDigitString(RegionText(row))
    ensures ValidateRow(row, today).Accepted? <==>
              "date_of_birth" in row && ParseDate(row["date_of_birth"]).Some?
              && !Before(today, ParseDate(row["date_of_birth"]).value) && !IsDigitString(RegionText(row))
              && "id" in row && "gender" in row
    ensures "date_of_birth" in row && ParseDate(row["date_of_birth"]) == Some(today) ==>
              ValidateRow(row, today) != Rejected(MalformedDate) && ValidateRow(row, today) != Rejected(FutureDate)
  {
  }

  /**
   * Both rows of myapp/tests.py carry ISO dates, so each is rejected by the
   * date-format check, before the future-date or region rules are reached;
   * a one-row upload of either reports one error, no success, one row.
   */
  lemma UploadTestRows(today: Date)
    ensures var futureRow := map["id" := "1", "date_of_birth" := "2025-01-01", "gender" := "F", "region" := "North"];
            && ValidateRow(futureRow, today) == Rejected(MalformedDate)
            && RejectedCount([futureRow], today) == 1 && AcceptedPersons([futureRow], today) == []
    ensures var numericRow := map["id" := "1", "date_of_birth" := "1990-01-01", "gender" := "M", "region" := "123"];
            && ValidateRow(numericRow, today) == Rejected(MalformedDate)
            && RejectedCount([numericRow], today) == 1 && AcceptedPersons([numericRow], today) == []
  {
    IsoDatesRejected();
  }

  /** A client running the two one-row uploads of myapp/tests.py against an empty store. */
  method UploadTestScenario(today: Date) {
    var futureRow := map["id" := "1", "date_of_birth" := "2025-01-01", "gender" := "F", "region" := "North"];
    var numericRow := map["id" := "1", "date_of_birth" := "1990-01-01", "gender" := "M", "region" := "123"];
    UploadTestRows(today);
    var store := new PersonStore([], true);
    var r := UploadCsv(Some([futureRow]), today, store);
    assert r == Success(Report(1, 0, 1));
    r := UploadCsv(Some([numericRow]), today, store);
    assert r == Success(Report(1, 0, 1));
    assert store.records == [] && store.bulkInserts == 0;
  }
}
