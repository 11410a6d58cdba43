/**
 * The reports list hook: a `reports` row turned into the record the pages
 * show, and the loading / error / list state a fetch walks through.
 */
module UseReports {

  import opened Common
  import opened ReportMappers

  /** A `reports` row, as far as the mapping reads it; the nullable columns
      (and the enum columns a stale row may lack) are options. `created_at`
      is a non-null column. */
  datatype DbReport = DbReport(
    id: string,
    reporterId: Option<string>,
    reportType: DbType,
    title: string,
    description: string,
    location: string,
    priority: Option<DbPriority>,
    status: Option<DbStatus>,
    isAnonymous: Option<bool>,
    createdAt: string)

  datatype Point = Point(x: int, y: int)

  /** The campus location a report is pinned to (read by the reports map). */
  datatype LocationRef = LocationRef(id: string, icon: Option<string>)

  /** The record the pages show. `date` and `time` are left out (locale formatting). */
  datatype Report = Report(
    id: string,
    title: string,
    reportType: FrontendType,
    description: string,
    location: string,
    coordinates: Option<Point>,
    status: FrontendStatus,
    reporter: string,
    priority: FrontendPriority,
    isAnonymous: bool,
    createdAt: string,
    reporterId: Option<string>,
    locationData: Option<LocationRef>)

  /** mapDbReportToFrontend. */
  function MapDbReport(db: DbReport): (r: Report)
    ensures r.reporter == (if db.isAnonymous == Some(true) then "Anónimo" else "Usuario")
    ensures r.isAnonymous <==> db.isAnonymous == Some(true)
    ensures r.coordinates.None? && r.locationData.None?
    ensures r.reportType == TypeFromDb(db.reportType)
    ensures r.status == StatusFromDb(db.status) && r.priority == PriorityFromDb(db.priority)
    ensures r.id == db.id && r.title == db.title && r.description == db.description
    ensures r.location == db.location && r.reporterId == db.reporterId
    ensures r.createdAt == db.createdAt
  {
    Report(
      id := db.id,
      title := db.title,
      reportType := TypeFromDb(db.reportType),
      description := db.description,
      location := db.location,
      coordinates := None,
      status := StatusFromDb(db.status),
      reporter := if db.isAnonymous == Some(true) then "Anónimo" else "Usuario",
      priority := PriorityFromDb(db.priority),
      isAnonymous := db.isAnonymous == Some(true),
      createdAt := db.createdAt,
      reporterId := db.reporterId,
      locationData := None)
  }

  /** `data.map(mapDbReportToFrontend)` */
  function MapReports(rows: seq<DbReport>): (r: seq<Report>)
    ensures |r| == |rows|
    ensures forall i :: 0 <= i < |r| ==> r[i] == MapDbReport(rows[i])
  {
    seq(|rows|, i requires 0 <= i < |rows| => MapDbReport(rows[i]))
  }

  /** No mapped report carries coordinates, and the anonymous ones name no
      reporter on screen. */
  lemma MappedReportsUnplaced(rows: seq<DbReport>)
    ensures forall r :: r in MapReports(rows) ==> r.coordinates.None? && r.locationData.None?
    ensures forall r :: r in MapReports(rows) && r.isAnonymous ==> r.reporter == "Anónimo"
  {
    var ms := MapReports(rows);
    forall r | r in ms ensures r.coordinates.None? && r.locationData.None? && (r.isAnonymous ==> r.reporter == "Anónimo") {
      var i :| 0 <= i < |ms| && ms[i] == r;
      assert r == MapDbReport(rows[i]);
    }
  }

  /** `new Date(created_at || '')` is a valid date: never for the empty
      string, otherwise as the date parser `dateValid` says. */
  predicate DateReadable(dateValid: string -> bool, createdAt: string) {
    createdAt != "" && dateValid(createdAt)
  }

  predicate AllDatesReadable(dateValid: string -> bool, rows: seq<DbReport>) {
    forall i :: 0 <= i < |rows| ==> DateReadable(dateValid, rows[i].createdAt)
  }

  /** The message of the RangeError `toISOString` throws on an invalid date. */
  const InvalidTimeValue := "Invalid time value"

  /** `data.map(mapDbReportToFrontend)` as it runs: every row mapped, or the
      RangeError thrown by the first row whose date is invalid. */
  function MapAll(rows: seq<DbReport>, dateValid: string -> bool): (r: Result<seq<Report>, Thrown>)
    ensures r.Ok? <==> AllDatesReadable(dateValid, rows)
    ensures r.Ok? ==> r.value == MapReports(rows)
    ensures r.Err? ==> r.error == ErrorObject(InvalidTimeValue)
  {
    if rows == [] then Ok([])
    else if !DateReadable(dateValid, rows[0].createdAt) then Err(ErrorObject(InvalidTimeValue))
    else
      match MapAll(rows[1..], dateValid)
      case Ok(rest) =>
        assert MapReports(rows) == [MapDbReport(rows[0])] + MapReports(rows[1..]);
        Ok([MapDbReport(rows[0])] + rest)
      case Err(e) => Err(e)
  }

  const LoadFallback := "Error al cargar reportes"

  /** The state of useReports. */
  class ReportsHook {
    var reports: seq<Report>
    var loading: bool
    var error: Option<string>

    constructor ()
      ensures reports == [] && loading && error == None
    {
      reports := [];
      loading := true;
      error := None;
    }

    /** fetchReports, with `answer` standing for getReports' outcome and
        `dateValid` for the date parser: the error is cleared first; a failed
        query, or a row whose date cannot be shown, sets it and keeps the
        previous list; loading is off at the end either way. */
    method FetchReports(answer: Result<seq<DbReport>, Thrown>, dateValid: string -> bool)
      modifies this
      ensures !loading
      ensures answer.Ok? && AllDatesReadable(dateValid, answer.value) ==>
                reports == MapReports(answer.value) && error == None
      ensures answer.Ok? && !AllDatesReadable(dateValid, answer.value) ==>
                reports == old(reports) && error == Some(InvalidTimeValue)
      ensures answer.Err? ==> reports == old(reports) && error == Some(ErrorMessage(answer.error, LoadFallback))
    {
      loading := true;
      error := None;
      match answer {
        case Ok(data) =>
          var mapped := MapAll(data, dateValid);
          match mapped {
            case Ok(mappedReports) =>
              reports := mappedReports;
            case Err(e) =>
              error := Some(ErrorMessage(e, LoadFallback));
          }
        case Err(e) =>
          error := Some(ErrorMessage(e, LoadFallback));
      }
      loading := false;
    }
  }
}
