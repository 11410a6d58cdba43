/**
 * The user profile service's own logic: the public profile projected from a
 * `users` row (contact data only when the user shows it), the defaults of the
 * privacy settings, and which update errors are reported.
 */
module UserProfile {

  import opened Common

  /** The `users` columns the service selects; null columns are None. */
  datatype UserRow = UserRow(
    id: string,
    fullName: string,
    avatarUrl: Option<string>,
    rating: Option<real>,
    totalSales: Option<int>,
    bio: Option<string>,
    isProfilePublic: Option<bool>,
    showContactInfo: Option<bool>,
    phone: Option<string>,
    email: Option<string>)

  datatype PublicUserProfile = PublicUserProfile(
    id: string,
    fullName: string,
    avatarUrl: Option<string>,
    rating: Option<real>,
    totalSales: Option<int>,
    bio: Option<string>,
    isProfilePublic: bool,
    showContactInfo: bool,
    phone: Option<string>,
    email: Option<string>)

  /** A PostgREST error: its code and (possibly missing) message. */
  datatype QueryError = QueryError(code: string, message: Option<string>)

  /** `value ?? fallback` */
  function OrElse(b: Option<bool>, fallback: bool): (r: bool)
    ensures b.Some? ==> r == b.value
    ensures b.None? ==> r == fallback
  {
    if b.Some? then b.value else fallback
  }

  /** The profile a row shows: contact data only when the user chose to show
      it (a missing choice hides it), a missing visibility counts as public,
      the other columns copied. */
  function ProjectProfile(row: UserRow): (p: PublicUserProfile)
    ensures p.showContactInfo <==> row.showContactInfo == Some(true)
    ensures p.isProfilePublic <==> row.isProfilePublic != Some(false)
    ensures p.showContactInfo ==> p.phone == row.phone && p.email == row.email
    ensures !p.showContactInfo ==> p.phone.None? && p.email.None?
    ensures p.id == row.id && p.fullName == row.fullName && p.avatarUrl == row.avatarUrl
    ensures p.rating == row.rating && p.totalSales == row.totalSales && p.bio == row.bio
  {
    var showContact := OrElse(row.showContactInfo, false);
    PublicUserProfile(
      id := row.id,
      fullName := row.fullName,
      avatarUrl := row.avatarUrl,
      rating := row.rating,
      totalSales := row.totalSales,
      bio := row.bio,
      isProfilePublic := OrElse(row.isProfilePublic, true),
      showContactInfo := showContact,
      phone := if showContact then row.phone else None,
      email := if showContact then row.email else None)
  }

  /** getPublicProfile with `answer` the query's outcome (Ok(None) for no row). */
  function GetPublicProfile(answer: Result<Option<UserRow>, QueryError>): (r: Result<Option<PublicUserProfile>, string>)
    ensures answer.Err? ==> r == Err("No se pudo cargar el perfil")
    ensures answer.Ok? && answer.value.None? ==> r == Ok(None)
    ensures answer.Ok? && answer.value.Some? ==> r == Ok(Some(ProjectProfile(answer.value.value)))
  {
    match answer
    case Err(_) => Err("No se pudo cargar el perfil")
    case Ok(None) => Ok(None)
    case Ok(Some(row)) => Ok(Some(ProjectProfile(row)))
  }

  /** A profile marked private is still returned, flagged as private, and
      whatever the visibility a hidden contact never leaks. */
  lemma PrivateProfileIsFlaggedNotWithheld(row: UserRow)
    requires row.isProfilePublic == Some(false)
    ensures GetPublicProfile(Ok(Some(row))).Ok?
    ensures GetPublicProfile(Ok(Some(row))).value.Some?
    ensures !GetPublicProfile(Ok(Some(row))).value.value.isProfilePublic
  {
  }

  /** Two users who both hide their contact, by choice or by leaving the
      column null, show the same contact details, none, whatever phone and
      email they stored. */
  lemma ContactDependsOnlyOnChoice(a: UserRow, b: UserRow)
    requires a.showContactInfo != Some(true) && b.showContactInfo != Some(true)
    ensures ProjectProfile(a).phone == ProjectProfile(b).phone == None
    ensures ProjectProfile(a).email == ProjectProfile(b).email == None
    ensures !ProjectProfile(a).showContactInfo && !ProjectProfile(b).showContactInfo
  {
  }

  datatype PrivacySettings = PrivacySettings(isProfilePublic: bool, showContactInfo: bool)

  /** getPrivacySetting with the selected column (None: no row; Some(None): null). */
  function GetPrivacySetting(answer: Result<Option<Option<bool>>, QueryError>): (r: Result<bool, string>)
    ensures answer.Err? ==> r == Err("No se pudo cargar la configuración de privacidad")
    ensures answer.Ok? ==> r.Ok? && (r.value <==> answer.value != Some(Some(false)))
  {
    match answer
    case Err(_) => Err("No se pudo cargar la configuración de privacidad")
    case Ok(None) => Ok(true)
    case Ok(Some(v)) => Ok(OrElse(v, true))
  }

  /** getPrivacySettings with the two selected columns (None: no row). */
  function GetPrivacySettings(answer: Result<Option<(Option<bool>, Option<bool>)>, QueryError>): (r: Result<PrivacySettings, string>)
    ensures answer.Err? ==> r == Err("No se pudo cargar la configuración de privacidad")
    ensures answer.Ok? && answer.value.None? ==> r == Ok(PrivacySettings(true, false))
    ensures answer.Ok? && answer.value.Some? ==>
              r.Ok? && (r.value.isProfilePublic <==> answer.value.value.0 != Some(false))
              && (r.value.showContactInfo <==> answer.value.value.1 == Some(true))
  {
    match answer
    case Err(_) => Err("No se pudo cargar la configuración de privacidad")
    case Ok(None) => Ok(PrivacySettings(true, false))
    case Ok(Some(cols)) => Ok(PrivacySettings(OrElse(cols.0, true), OrElse(cols.1, false)))
  }

  /** The error a missing `show_contact_info` column produces. */
  predicate MissingContactColumn(e: QueryError) {
    e.code == "42703" || e.code == "PGRST204"
    || (e.message.Some? && Includes(e.message.value, "show_contact_info"))
  }

  /** updateShowContactSetting with the update's error, if any: a missing
      column counts as success, any other error is reported. */
  function UpdateShowContactSetting(error: Option<QueryError>): (r: Result<(), string>)
    ensures r.Ok? <==> error.None? || MissingContactColumn(error.value)
    ensures r.Err? ==> r.error == "No se pudo actualizar la configuración de contacto"
  {
    if error.None? then Ok(())
    else if MissingContactColumn(error.value) then Ok(())
    else Err("No se pudo actualizar la configuración de contacto")
  }

  /** updatePrivacySetting: any error is reported. */
  function UpdatePrivacySetting(error: Option<QueryError>): (r: Result<(), string>)
    ensures r.Ok? <==> error.None?
    ensures r.Err? ==> r.error == "No se pudo actualizar la configuración de privacidad"
  {
    if error.None? then Ok(()) else Err("No se pudo actualizar la configuración de privacidad")
  }
}
