/**
 * The translation between the Spanish vocabulary of the reports pages
 * (type, priority, status) and the English enums of the `reports` table,
 * and the Spanish labels shown for each value.
 */
module ReportMappers {

  import opened Common

  datatype FrontendType = Robo | Vandalismo | Sospechoso | Emergencia
  datatype FrontendPriority = Alta | Media | Baja
  datatype FrontendStatus = Activo | Investigando | Resuelto

  datatype DbType = Security | Emergency | Maintenance | LostFound | OtherType
  datatype DbPriority = Low | Medium | High | Critical
  datatype DbStatus = Open | InProgress | Resolved | Closed | Rejected

  /** mapTypeToDb: the three kinds of incident share the `security` type. */
  function TypeToDb(t: FrontendType): (r: DbType)
    ensures r == Emergency <==> t == Emergencia
    ensures r != Emergency ==> r == Security
  {
    match t
    case Robo => Security
    case Vandalismo => Security
    case Sospechoso => Security
    case Emergencia => Emergency
  }

  /** mapTypeFromDb: every type but `emergency` reads back as `sospechoso`. */
  function TypeFromDb(t: DbType): (r: FrontendType)
    ensures r == Emergencia <==> t == Emergency
    ensures r != Emergencia ==> r == Sospechoso
  {
    if t == Emergency then Emergencia else Sospechoso
  }

  /** The type round trip recovers only `sospechoso` and `emergencia`. */
  lemma TypeRoundTrip(t: FrontendType)
    ensures TypeFromDb(TypeToDb(t)) == t <==> t == Sospechoso || t == Emergencia
    ensures TypeToDb(Robo) == TypeToDb(Vandalismo) == TypeToDb(Sospechoso)
  {
  }

  function PriorityToDb(p: FrontendPriority): (r: DbPriority)
    ensures r != Critical
  {
    match p
    case Baja => Low
    case Media => Medium
    case Alta => High
  }

  /** mapPriorityFromDb: `critical` shows as `alta`, and a missing priority as `media`. */
  function PriorityFromDb(p: Option<DbPriority>): (r: FrontendPriority)
    ensures p == None ==> r == Media
    ensures p == Some(Critical) ==> r == Alta
  {
    match p
    case None => Media
    case Some(Low) => Baja
    case Some(Medium) => Media
    case Some(High) => Alta
    case Some(Critical) => Alta
  }

  /** The priority round trip is the identity, and mapping to the table is injective. */
  lemma PriorityRoundTrip(p: FrontendPriority, q: FrontendPriority)
    ensures PriorityFromDb(Some(PriorityToDb(p))) == p
    ensures PriorityToDb(p) == PriorityToDb(q) ==> p == q
  {
  }

  function StatusToDb(s: FrontendStatus): (r: DbStatus)
    ensures r != Closed && r != Rejected
  {
    match s
    case Activo => Open
    case Investigando => InProgress
    case Resuelto => Resolved
  }

  /** mapStatusFromDb: `closed` shows as `resuelto`, `rejected` and a missing
      status as `activo`. */
  function StatusFromDb(s: Option<DbStatus>): (r: FrontendStatus)
    ensures s == None ==> r == Activo
    ensures s == Some(Closed) ==> r == Resuelto
    ensures s == Some(Rejected) ==> r == Activo
  {
    match s
    case None => Activo
    case Some(Open) => Activo
    case Some(InProgress) => Investigando
    case Some(Resolved) => Resuelto
    case Some(Closed) => Resuelto
    case Some(Rejected) => Activo
  }

  /** The status round trip is the identity, and mapping to the table is injective. */
  lemma StatusRoundTrip(s: FrontendStatus, t: FrontendStatus)
    ensures StatusFromDb(Some(StatusToDb(s))) == s
    ensures StatusToDb(s) == StatusToDb(t) ==> s == t
  {
  }

  function TypeLabel(t: FrontendType): (r: string)
    ensures r != ""
  {
    match t
    case Robo => "Robo"
    case Vandalismo => "Vandalismo"
    case Sospechoso => "Actividad Sospechosa"
    case Emergencia => "Emergencia"
  }

  function PriorityLabel(p: FrontendPriority): (r: string)
    ensures r != ""
  {
    match p
    case Baja => "Baja"
    case Media => "Media"
    case Alta => "Alta"
  }

  function StatusLabel(s: FrontendStatus): (r: string)
    ensures r != ""
  {
    match s
    case Activo => "Activo"
    case Investigando => "En Investigación"
    case Resuelto => "Resuelto"
  }

  /** Every value has a non-empty label, and no two values of one enum share a label. */
  lemma LabelsDistinct(t1: FrontendType, t2: FrontendType, p1: FrontendPriority, p2: FrontendPriority,
                       s1: FrontendStatus, s2: FrontendStatus)
    ensures TypeLabel(t1) != "" && PriorityLabel(p1) != "" && StatusLabel(s1) != ""
    ensures TypeLabel(t1) == TypeLabel(t2) ==> t1 == t2
    ensures PriorityLabel(p1) == PriorityLabel(p2) ==> p1 == p2
    ensures StatusLabel(s1) == StatusLabel(s2) ==> s1 == s2
  {
  }
}
