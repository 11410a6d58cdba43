/**
 * The reports service: the update record a status change writes, and the
 * dashboard statistics counted over the `reports` table.
 */
module ReportsService {

  import opened Common
  import opened ReportMappers

  /** The `reports` update updateReportStatus sends. */
  datatype ReportUpdate = ReportUpdate(
    status: DbStatus,
    resolvedAt: Option<string>,
    resolutionNotes: Option<string>)

  predicate Finished(status: DbStatus) {
    status == Resolved || status == Closed
  }

  /** updateReportStatus' record; `now` is the ISO timestamp of the call. The
      resolution date is stamped exactly when the report is resolved or closed,
      and the notes only then and only when non-empty. */
  function BuildStatusUpdate(status: DbStatus, now: string, notes: Option<string>): (r: ReportUpdate)
    ensures r.status == status
    ensures r.resolvedAt.Some? <==> Finished(status)
    ensures r.resolvedAt.Some? ==> r.resolvedAt.value == now
    ensures r.resolutionNotes.Some? <==> Finished(status) && notes.Some? && notes.value != ""
    ensures r.resolutionNotes.Some? ==> r.resolutionNotes == notes
  {
    var updates := ReportUpdate(status, None, None);
    if Finished(status) then
      var stamped := updates.(resolvedAt := Some(now));
      if notes.Some? && notes.value != "" then stamped.(resolutionNotes := notes) else stamped
    else updates
  }

  /** The columns the statistics read from a row. */
  datatype StatsRow = StatsRow(status: DbStatus, priority: DbPriority, reportType: DbType)

  function HasStatus(s: DbStatus): StatsRow -> bool {
    (r: StatsRow) => r.status == s
  }

  function HasPriority(p: DbPriority): StatsRow -> bool {
    (r: StatsRow) => r.priority == p
  }

  function HasType(t: DbType): StatsRow -> bool {
    (r: StatsRow) => r.reportType == t
  }

  /** `.not('status', 'eq', 'closed')` */
  function NotClosed(): StatsRow -> bool {
    (r: StatsRow) => r.status != Closed
  }

  /** `.in('status', ['open', 'in_progress'])` */
  function OpenOrInProgress(): StatsRow -> bool {
    (r: StatsRow) => r.status == Open || r.status == InProgress
  }

  function OpenWithPriority(p: DbPriority): StatsRow -> bool {
    (r: StatsRow) => r.status == Open && r.priority == p
  }

  function ActiveWithType(t: DbType): StatsRow -> bool {
    (r: StatsRow) => OpenOrInProgress()(r) && r.reportType == t
  }

  datatype ReportStats = ReportStats(
    total: nat,
    open: nat, inProgress: nat, resolved: nat,
    critical: nat, high: nat, medium: nat, low: nat,
    security: nat, emergency: nat, maintenance: nat, lostFound: nat, other: nat)

  /** getReportStats over the table (None when a query failed): three queries
      filter the table, and each figure counts its query's rows. Every figure
      equals a count over the whole table. */
  function GetReportStats(table: Option<seq<StatsRow>>): (r: Option<ReportStats>)
    ensures r.Some? <==> table.Some?
    ensures r.Some? ==>
              var t := table.value;
              && r.value.total == Count(t, NotClosed())
              && r.value.open == Count(t, HasStatus(Open))
              && r.value.inProgress == Count(t, HasStatus(InProgress))
              && r.value.resolved == Count(t, HasStatus(Resolved))
              && r.value.critical == Count(t, OpenWithPriority(Critical))
              && r.value.high == Count(t, OpenWithPriority(High))
              && r.value.medium == Count(t, OpenWithPriority(Medium))
              && r.value.low == Count(t, OpenWithPriority(Low))
              && r.value.security == Count(t, ActiveWithType(Security))
              && r.value.emergency == Count(t, ActiveWithType(Emergency))
              && r.value.maintenance == Count(t, ActiveWithType(Maintenance))
              && r.value.lostFound == Count(t, ActiveWithType(LostFound))
              && r.value.other == Count(t, ActiveWithType(OtherType))
  {
    if table.None? then None
    else
      var t := table.value;
      var statusData := Filter(t, NotClosed());
      var priorityData := Filter(t, HasStatus(Open));
      var typeData := Filter(t, OpenOrInProgress());
      FilterLength(t, NotClosed());
      CountFilteredAnd(t, NotClosed(), HasStatus(Open), HasStatus(Open));
      CountFilteredAnd(t, NotClosed(), HasStatus(InProgress), HasStatus(InProgress));
      CountFilteredAnd(t, NotClosed(), HasStatus(Resolved), HasStatus(Resolved));
      CountFilteredAnd(t, HasStatus(Open), HasPriority(Critical), OpenWithPriority(Critical));
      CountFilteredAnd(t, HasStatus(Open), HasPriority(High), OpenWithPriority(High));
      CountFilteredAnd(t, HasStatus(Open), HasPriority(Medium), OpenWithPriority(Medium));
      CountFilteredAnd(t, HasStatus(Open), HasPriority(Low), OpenWithPriority(Low));
      CountFilteredAnd(t, OpenOrInProgress(), HasType(Security), ActiveWithType(Security));
      CountFilteredAnd(t, OpenOrInProgress(), HasType(Emergency), ActiveWithType(Emergency));
      CountFilteredAnd(t, OpenOrInProgress(), HasType(Maintenance), ActiveWithType(Maintenance));
      CountFilteredAnd(t, OpenOrInProgress(), HasType(LostFound), ActiveWithType(LostFound));
      CountFilteredAnd(t, OpenOrInProgress(), HasType(OtherType), ActiveWithType(OtherType));
      Some(ReportStats(
        total := |statusData|,
        open := Count(statusData, HasStatus(Open)),
        inProgress := Count(statusData, HasStatus(InProgress)),
        resolved := Count(statusData, HasStatus(Resolved)),
        critical := Count(priorityData, HasPriority(Critical)),
        high := Count(priorityData, HasPriority(High)),
        medium := Count(priorityData, HasPriority(Medium)),
        low := Count(priorityData, HasPriority(Low)),
        security := Count(typeData, HasType(Security)),
        emergency := Count(typeData, HasType(Emergency)),
        maintenance := Count(typeData, HasType(Maintenance)),
        lostFound := Count(typeData, HasType(LostFound)),
        other := Count(typeData, HasType(OtherType))))
  }

  /** The status figures never exceed the total: a rejected report counts
      toward the total and toward no status. */
  lemma StatusFiguresBound(table: seq<StatsRow>)
    ensures var st := GetReportStats(Some(table)).value;
            && st.open + st.inProgress + st.resolved + Count(table, HasStatus(Rejected)) == st.total
            && st.open + st.inProgress + st.resolved <= st.total
  {
    StatusPartition(table);
  }

  lemma {:induction false} StatusPartition(s: seq<StatsRow>)
    ensures Count(s, HasStatus(Open)) + Count(s, HasStatus(InProgress)) + Count(s, HasStatus(Resolved))
            + Count(s, HasStatus(Rejected)) == Count(s, NotClosed())
  {
    if s != [] {
      StatusPartition(s[1..]);
    }
  }

  /** The priority figures split exactly the open reports. */
  lemma PriorityFiguresSplitOpen(table: seq<StatsRow>)
    ensures var st := GetReportStats(Some(table)).value;
            st.critical + st.high + st.medium + st.low == st.open
  {
    var open := Filter(table, HasStatus(Open));
    PriorityPartition(open);
    FilterLength(table, HasStatus(Open));
  }

  lemma {:induction false} PriorityPartition(s: seq<StatsRow>)
    ensures Count(s, HasPriority(Critical)) + Count(s, HasPriority(High)) + Count(s, HasPriority(Medium))
            + Count(s, HasPriority(Low)) == |s|
  {
    if s != [] {
      PriorityPartition(s[1..]);
    }
  }

  /** The type figures split exactly the open and in-progress reports. */
  lemma TypeFiguresSplitActive(table: seq<StatsRow>)
    ensures var st := GetReportStats(Some(table)).value;
            st.security + st.emergency + st.maintenance + st.lostFound + st.other == st.open + st.inProgress
  {
    var active := Filter(table, OpenOrInProgress());
    TypePartition(active);
    FilterLength(table, OpenOrInProgress());
    CountDisjoint(table, HasStatus(Open), HasStatus(InProgress), OpenOrInProgress());
  }

  lemma {:induction false} TypePartition(s: seq<StatsRow>)
    ensures Count(s, HasType(Security)) + Count(s, HasType(Emergency)) + Count(s, HasType(Maintenance))
            + Count(s, HasType(LostFound)) + Count(s, HasType(OtherType)) == |s|
  {
    if s != [] {
      TypePartition(s[1..]);
    }
  }
}
