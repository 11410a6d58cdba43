/**
 * The report creation hook: the row a new report is inserted as, and the
 * isCreating / error / success flags around the insert.
 */
module UseCreateReport {

  import opened Common
  import opened ReportMappers

  /** The form data the create dialog hands over. */
  datatype CreateReportData = CreateReportData(
    title: string,
    reportType: FrontendType,
    description: string,
    location: string,
    priority: FrontendPriority,
    anonymous: bool)

  /** The `reports` insert. */
  datatype ReportInsert = ReportInsert(
    title: string,
    reportType: DbType,
    description: string,
    location: string,
    priority: DbPriority,
    isAnonymous: bool,
    reporterId: Option<string>,
    status: DbStatus)

  /** The payload of createNewReport; `userId` is the signed-in user's id, if any. */
  function BuildReportInsert(data: CreateReportData, userId: Option<string>): (r: ReportInsert)
    ensures data.anonymous ==> r.reporterId.None?
    ensures !data.anonymous ==>
              (r.reporterId.None? <==> userId.None? || userId.value == "") && (r.reporterId.Some? ==> r.reporterId == userId)
    ensures r.status == Open && r.isAnonymous == data.anonymous
    ensures r.reportType == TypeToDb(data.reportType) && r.priority == PriorityToDb(data.priority)
    ensures r.title == data.title && r.description == data.description && r.location == data.location
  {
    ReportInsert(
      title := data.title,
      reportType := TypeToDb(data.reportType),
      description := data.description,
      location := data.location,
      priority := PriorityToDb(data.priority),
      isAnonymous := data.anonymous,
      reporterId := if data.anonymous then None else if userId.Some? && userId.value != "" then userId else None,
      status := Open)
  }

  /** An anonymous report never records who sent it, whoever is signed in. */
  lemma AnonymousReportsHideReporter(data: CreateReportData, u1: Option<string>, u2: Option<string>)
    requires data.anonymous
    ensures BuildReportInsert(data, u1) == BuildReportInsert(data, u2)
  {
  }

  const CreateFallback := "Error al crear el reporte"

  /** The state of useCreateReport. */
  class CreateReportHook {
    var isCreating: bool
    var error: Option<string>
    var success: bool

    constructor ()
      ensures !isCreating && error == None && !success
    {
      isCreating := false;
      error := None;
      success := false;
    }

    /** createNewReport; `failure` stands for createReport's outcome (None when
        it resolved). Returns the row sent and, on failure, the error rethrown. */
    method CreateNewReport(data: CreateReportData, userId: Option<string>, failure: Option<Thrown>)
      returns (sent: ReportInsert, rethrown: Option<string>)
      modifies this
      ensures sent == BuildReportInsert(data, userId)
      ensures !isCreating
      ensures success <==> failure.None?
      ensures failure.None? ==> error == None && rethrown == None
      ensures failure.Some? ==> error == Some(ErrorMessage(failure.value, CreateFallback)) && rethrown == error
    {
      isCreating := true;
      error := None;
      success := false;
      sent := BuildReportInsert(data, userId);
      if failure.None? {
        success := true;
        rethrown := None;
      } else {
        error := Some(ErrorMessage(failure.value, CreateFallback));
        rethrown := error;
      }
      isCreating := false;
    }

    /** reset: clears the error and the success flag. */
    method Reset()
      modifies this
      ensures error == None && !success && isCreating == old(isCreating)
    {
      error := None;
      success := false;
    }
  }
}
