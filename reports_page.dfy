/**
 * The security reports page: the three list filters and the figures shown
 * above the list, the grouping of pinned reports by campus location for the
 * map, and the selection state set by map markers and list items.
 */
module ReportsPage {

  import opened Common
  import opened ReportMappers
  import opened UseReports

  /** The filter selects; None is the "all" entry. */
  datatype Filters = Filters(
    reportType: Option<FrontendType>,
    status: Option<FrontendStatus>,
    priority: Option<FrontendPriority>)

  const NoFilters := Filters(None, None, None)

  predicate Matches(f: Filters, r: Report) {
    && (f.reportType.None? || r.reportType == f.reportType.value)
    && (f.status.None? || r.status == f.status.value)
    && (f.priority.None? || r.priority == f.priority.value)
  }

  function MatchesAll(f: Filters): Report -> bool {
    (r: Report) => Matches(f, r)
  }

  /** filteredReports: the reports equal to every chosen filter, in list order. */
  function FilteredReports(f: Filters, reports: seq<Report>): (r: seq<Report>)
    ensures forall x :: x in r <==> x in reports && Matches(f, x)
    ensures f == NoFilters ==> r == reports
  {
    if f == NoFilters then
      FilterAll(reports, MatchesAll(f));
      Filter(reports, MatchesAll(f))
    else Filter(reports, MatchesAll(f))
  }

  function IsActive(): Report -> bool {
    (r: Report) => r.status == Activo
  }

  function IsInvestigating(): Report -> bool {
    (r: Report) => r.status == Investigando
  }

  function IsHighPriority(): Report -> bool {
    (r: Report) => r.priority == Alta
  }

  /** The three figures above the list never exceed the filtered list's length,
      and the active and investigating ones together do not either. */
  lemma FiguresBound(f: Filters, reports: seq<Report>)
    ensures var shown := FilteredReports(f, reports);
            && Count(shown, IsActive()) <= |shown|
            && Count(shown, IsInvestigating()) <= |shown|
            && Count(shown, IsHighPriority()) <= |shown|
            && Count(shown, IsActive()) + Count(shown, IsInvestigating()) <= |shown|
  {
    var shown := FilteredReports(f, reports);
    var either := (r: Report) => r.status == Activo || r.status == Investigando;
    CountDisjoint(shown, IsActive(), IsInvestigating(), either);
  }

  // ---------------------------------------------------------------------
  // Grouping pinned reports by location
  // ---------------------------------------------------------------------

  /** `report.coordinates !== null && report.locationData !== null` */
  function Placed(): Report -> bool {
    (r: Report) => r.coordinates.Some? && r.locationData.Some?
  }

  /** The pinned reports at location `id`. */
  function PlacedAt(id: string): Report -> bool {
    (r: Report) => Placed()(r) && r.locationData.value.id == id
  }

  function AtLocation(id: string): Report -> bool {
    (r: Report) => r.locationData.Some? && r.locationData.value.id == id
  }

  /** A location's group, or the empty list when it has none. */
  function GroupOf(groups: map<string, seq<Report>>, id: string): seq<Report> {
    if id in groups then groups[id] else []
  }

  /** The pinned reports grouped by location: one group per location id,
      holding that location's pinned reports in list order; a location without
      pinned reports has no group, and every id is listed once. */
  method GroupByLocation(reports: seq<Report>) returns (ids: seq<string>, groups: map<string, seq<Report>>)
    ensures NoDuplicates(ids)
    ensures forall id :: id in ids <==> id in groups
    ensures forall id :: GroupOf(groups, id) == Filter(reports, PlacedAt(id))
    ensures forall id :: id in groups ==> groups[id] != []
  {
    var placed := Filter(reports, Placed());
    forall i | 0 <= i < |placed| ensures placed[i].locationData.Some? {
      assert placed[i] in placed;
      assert Placed()(placed[i]);
    }
    ids, groups := ReduceByLocation(placed);
    forall id ensures Filter(placed, AtLocation(id)) == Filter(reports, PlacedAt(id)) {
      FilterOfFilter(reports, Placed(), AtLocation(id), PlacedAt(id));
    }
  }

  /** `groups` and `ids` hold the reports of `seen` by location: every id once,
      each group the location's reports in order, no empty group. */
  ghost predicate Grouped(seen: seq<Report>, ids: seq<string>, groups: map<string, seq<Report>>) {
    && NoDuplicates(ids)
    && (forall id :: id in ids <==> id in groups)
    && (forall id :: GroupOf(groups, id) == Filter(seen, AtLocation(id)))
    && (forall id :: id in groups ==> groups[id] != [])
  }

  /** The `reduce` that pushes each report onto its location's list. */
  method ReduceByLocation(placed: seq<Report>) returns (ids: seq<string>, groups: map<string, seq<Report>>)
    requires forall i :: 0 <= i < |placed| ==> placed[i].locationData.Some?
    ensures Grouped(placed, ids, groups)
  {
    ids := [];
    groups := map[];
    var i := 0;
    while i < |placed|
      invariant 0 <= i <= |placed|
      invariant Grouped(placed[..i], ids, groups)
    {
      PushKeepsGrouped(placed[..i], placed[i], ids, groups);
      PrefixNext(placed, i);
      ids, groups := PushReport(ids, groups, placed[i]);
      i := i + 1;
    }
    assert placed[..|placed|] == placed;
  }

  /** One step of the `reduce`: the location's list is created when missing,
      then the report is pushed onto it. */
  method PushReport(ids: seq<string>, groups: map<string, seq<Report>>, report: Report)
    returns (ids': seq<string>, groups': map<string, seq<Report>>)
    requires report.locationData.Some?
    ensures var loc := report.locationData.value.id;
            && ids' == (if loc in groups then ids else ids + [loc])
            && groups' == groups[loc := GroupOf(groups, loc) + [report]]
  {
    var locationId := report.locationData.value.id;
    ids', groups' := ids, groups;
    if locationId !in groups' {
      ids' := ids' + [locationId];
      groups' := groups'[locationId := []];
    }
    assert groups'[locationId] == GroupOf(groups, locationId);
    groups' := groups'[locationId := groups'[locationId] + [report]];
  }

  /** Pushing one more report onto its location's list (creating the list and
      listing the id when the location is new) keeps the grouping exact. */
  lemma PushKeepsGrouped(seen: seq<Report>, r: Report, ids: seq<string>, groups: map<string, seq<Report>>)
    requires r.locationData.Some? && Grouped(seen, ids, groups)
    ensures var loc := r.locationData.value.id;
            Grouped(seen + [r], if loc in groups then ids else ids + [loc], groups[loc := GroupOf(groups, loc) + [r]])
  {
    var loc := r.locationData.value.id;
    var ids' := if loc in groups then ids else ids + [loc];
    var groups' := groups[loc := GroupOf(groups, loc) + [r]];
    if loc !in groups {
      AppendFreshNoDuplicates(ids, loc);
    }
    forall id ensures GroupOf(groups', id) == Filter(seen + [r], AtLocation(id)) {
      PushGroupOf(seen, r, groups, id);
    }
  }

  /** One location's group after the push. */
  lemma PushGroupOf(seen: seq<Report>, r: Report, groups: map<string, seq<Report>>, id: string)
    requires r.locationData.Some? && GroupOf(groups, id) == Filter(seen, AtLocation(id))
    ensures var loc := r.locationData.value.id;
            GroupOf(groups[loc := GroupOf(groups, loc) + [r]], id) == Filter(seen + [r], AtLocation(id))
  {
    FilterAppend(seen, [r], AtLocation(id));
    assert Filter([r], AtLocation(id)) == (if AtLocation(id)(r) then [r] else []) + Filter([r][1..], AtLocation(id));
  }

  /** The reports the page loads carry no coordinates, so the map shows no
      location group at all. */
  lemma NoPinsForLoadedReports(rows: seq<DbReport>, id: string)
    ensures Filter(MapReports(rows), PlacedAt(id)) == []
  {
    MappedReportsUnplaced(rows);
    var shown := MapReports(rows);
    forall i | 0 <= i < |shown| ensures !PlacedAt(id)(shown[i]) {
      assert shown[i] in shown;
      assert shown[i].coordinates.None?;
      assert !Placed()(shown[i]);
    }
    FilterNone(shown, PlacedAt(id));
  }

  // ---------------------------------------------------------------------
  // Filters and selection state
  // ---------------------------------------------------------------------

  class ReportsPageState {
    var filters: Filters
    var selectedReports: seq<Report>
    var selectedReportIndex: nat

    constructor ()
      ensures filters == NoFilters && selectedReports == [] && selectedReportIndex == 0
    {
      filters := NoFilters;
      selectedReports := [];
      selectedReportIndex := 0;
    }

    /** "Limpiar filtros": all three filters back to "all". */
    method ClearFilters()
      modifies this
      ensures filters == NoFilters
      ensures selectedReports == old(selectedReports) && selectedReportIndex == old(selectedReportIndex)
    {
      filters := filters.(reportType := None);
      filters := filters.(status := None);
      filters := filters.(priority := None);
    }

    /** A marker is drawn selected when the first selected report is at its location. */
    predicate IsSelected(locationId: string)
      reads this
    {
      |selectedReports| > 0 && selectedReports[0].locationData.Some?
      && selectedReports[0].locationData.value.id == locationId
    }

    /** A click on the marker of `locationId`, whose group is `reportsInLocation`:
        the selected marker deselects; any other selects its group from the first report. */
    method ClickMarker(locationId: string, reportsInLocation: seq<Report>)
      modifies this
      ensures old(IsSelected(locationId)) ==> selectedReports == [] && selectedReportIndex == old(selectedReportIndex)
      ensures !old(IsSelected(locationId)) ==> selectedReports == reportsInLocation && selectedReportIndex == 0
      ensures !old(IsSelected(locationId)) && reportsInLocation != [] && AtLocation(locationId)(reportsInLocation[0]) ==>
                IsSelected(locationId)
      ensures filters == old(filters)
    {
      if IsSelected(locationId) {
        selectedReports := [];
      } else {
        selectedReports := reportsInLocation;
        selectedReportIndex := 0;
      }
    }

    /** A click on a list item selects that report alone. */
    method ClickListItem(report: Report)
      modifies this
      ensures selectedReports == [report] && selectedReportIndex == 0
      ensures filters == old(filters)
    {
      selectedReports := [report];
      selectedReportIndex := 0;
    }
  }
}
