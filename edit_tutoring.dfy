/**
 * The edit-tutoring-session dialog: the form schema's bounds, the availability
 * grid the tutor toggles, and the guards and payload of a submit.
 */
module EditTutoring {

  import opened Common
  import opened Availability

  datatype SessionMode = Presential | Online | Both

  function ParseMode(s: string): (r: Option<SessionMode>)
    ensures r == Some(Presential) <==> s == "presential"
    ensures r == Some(Online) <==> s == "online"
    ensures r == Some(Both) <==> s == "both"
  {
    if s == "presential" then Some(Presential)
    else if s == "online" then Some(Online)
    else if s == "both" then Some(Both)
    else None
  }

  /** The raw form fields, before validation. The price is typed in (`valueAsNumber`)
      and may have a fractional part; duration and group size come from
      `parseInt` on a select, so they are whole numbers. */
  datatype FormInput = FormInput(
    title: string,
    description: string,
    subject: string,
    categoryId: Option<string>,
    pricePerHour: real,
    durationMinutes: int,
    mode: string,
    location: Option<string>,
    meetingUrl: Option<string>,
    maxStudents: Option<int>)

  /** The form values once the schema accepted them. */
  datatype EditSessionData = EditSessionData(
    title: string,
    description: string,
    subject: string,
    categoryId: Option<string>,
    pricePerHour: real,
    durationMinutes: int,
    mode: SessionMode,
    location: Option<string>,
    meetingUrl: Option<string>,
    maxStudents: Option<int>)

  /** `meeting_url`: absent, the empty string, or a URL (as judged by `isUrl`). */
  predicate MeetingUrlOk(url: Option<string>, isUrl: string -> bool) {
    url.None? || url.value == "" || isUrl(url.value)
  }

  predicate MaxStudentsOk(m: Option<int>) {
    m.None? || 1 <= m.value <= 50
  }

  /** The edit schema: the form is accepted exactly when every field is within its bounds. */
  function ParseEditSession(f: FormInput, isUrl: string -> bool): (r: Option<EditSessionData>)
    ensures r.Some? <==>
              && 5 <= |f.title| <= 100
              && 20 <= |f.description| <= 1000
              && |f.subject| >= 2
              && 1000.0 <= f.pricePerHour <= 500000.0
              && 30 <= f.durationMinutes <= 480
              && f.mode in {"presential", "online", "both"}
              && MeetingUrlOk(f.meetingUrl, isUrl)
              && MaxStudentsOk(f.maxStudents)
    ensures r.Some? ==>
              && r.value.title == f.title && r.value.description == f.description
              && r.value.subject == f.subject && r.value.categoryId == f.categoryId
              && r.value.pricePerHour == f.pricePerHour && r.value.durationMinutes == f.durationMinutes
              && ParseMode(f.mode) == Some(r.value.mode)
              && r.value.location == f.location && r.value.meetingUrl == f.meetingUrl
              && r.value.maxStudents == f.maxStudents
  {
    var mode := ParseMode(f.mode);
    if 5 <= |f.title| <= 100 && 20 <= |f.description| <= 1000 && |f.subject| >= 2
       && 1000.0 <= f.pricePerHour <= 500000.0 && 30 <= f.durationMinutes <= 480
       && mode.Some? && MeetingUrlOk(f.meetingUrl, isUrl) && MaxStudentsOk(f.maxStudents)
    then
      Some(EditSessionData(f.title, f.description, f.subject, f.categoryId, f.pricePerHour,
                           f.durationMinutes, mode.value, f.location, f.meetingUrl, f.maxStudents))
    else None
  }

  /** The dialog's availability grid, pre-loaded from the stored session. */
  class EditTutoringDialog {
    var availableHours: AvailableHours

    /** The grid opens on the sanitised stored value (`stored` is the parsed
        `available_hours`; a missing one parses to null). */
    constructor (stored: Json)
      ensures forall d :: d in availableHours <==> SanitizedDay(stored, d) != []
      ensures forall d :: d in availableHours ==> availableHours[d] == SanitizedDay(stored, d)
    {
      var hours := ValidateAvailableHours(stored);
      availableHours := hours;
    }

    /** A click on a slot button of the grid. */
    method HandleToggleSlot(day: Day, slot: Slot)
      modifies this
      ensures availableHours == ToggleSlot(old(availableHours), day, slot)
    {
      availableHours := ToggleSlot(availableHours, day, slot);
    }
  }

  /** Some day of the grid holds at least one slot (`Object.values(...).some(...)`). */
  function HasAvailability(hours: AvailableHours): (r: bool)
    ensures r <==> !IsAvailabilityEmpty(hours)
    ensures r <==> |GetAvailableDays(hours)| > 0
  {
    var days := GetAvailableDays(hours);
    assert days != [] ==> days[0] in days;
    assert forall d :: HasAvailabilityOnDay(hours, d) <==> d in hours && |hours[d]| > 0;
    exists d :: d in hours && |hours[d]| > 0
  }

  /** `x || null` on an optional text field: the empty text counts as missing. */
  function OrNull(s: Option<string>): (r: Option<string>)
    ensures r.None? <==> s.None? || s.value == ""
    ensures r.Some? ==> r == s
  {
    if s.Some? && s.value != "" then s else None
  }

  predicate NeedsLocation(mode: SessionMode) {
    mode == Presential || mode == Both
  }

  datatype SubmitError = InvalidForm | NotSignedIn | NoAvailability | MissingLocation

  datatype UpdatePayload = UpdatePayload(
    title: string,
    description: string,
    subject: string,
    categoryId: Option<string>,
    pricePerHour: real,
    durationMinutes: int,
    mode: SessionMode,
    location: Option<string>,
    meetingUrl: Option<string>,
    maxStudents: int,
    availableHours: Json)

  /** onSubmit on validated data: the three guards in order, then the update payload. */
  function OnSubmit(userId: Option<string>, hours: AvailableHours, data: EditSessionData): (r: Result<UpdatePayload, SubmitError>)
    ensures r == Err(NotSignedIn) <==> userId.None? || userId.value == ""
    ensures r == Err(NoAvailability) <==>
              userId.Some? && userId.value != "" && IsAvailabilityEmpty(hours)
    ensures r == Err(MissingLocation) <==>
              userId.Some? && userId.value != "" && !IsAvailabilityEmpty(hours)
              && NeedsLocation(data.mode) && OrNull(data.location).None?
    ensures r != Err(InvalidForm)
    ensures r.Ok? ==>
              && r.value.title == data.title && r.value.description == data.description
              && r.value.subject == data.subject && r.value.mode == data.mode
              && r.value.pricePerHour == data.pricePerHour
              && r.value.durationMinutes == data.durationMinutes
              && r.value.categoryId == OrNull(data.categoryId)
              && r.value.location == OrNull(data.location)
              && r.value.meetingUrl == OrNull(data.meetingUrl)
              && (data.maxStudents.None? ==> r.value.maxStudents == 1)
              && (data.maxStudents.Some? && data.maxStudents.value != 0 ==>
                    r.value.maxStudents == data.maxStudents.value)
              && r.value.availableHours == ToJson(hours)
  {
    if userId.None? || userId.value == "" then Err(NotSignedIn)
    else if !HasAvailability(hours) then Err(NoAvailability)
    else if NeedsLocation(data.mode) && OrNull(data.location).None? then Err(MissingLocation)
    else
      Ok(UpdatePayload(
        title := data.title,
        description := data.description,
        subject := data.subject,
        categoryId := OrNull(data.categoryId),
        pricePerHour := data.pricePerHour,
        durationMinutes := data.durationMinutes,
        mode := data.mode,
        location := OrNull(data.location),
        meetingUrl := OrNull(data.meetingUrl),
        maxStudents := if data.maxStudents.None? || data.maxStudents.value == 0 then 1 else data.maxStudents.value,
        availableHours := ToJson(hours)))
  }

  /** handleSubmit: the schema runs first; onSubmit only sees accepted data. */
  function SubmitForm(userId: Option<string>, hours: AvailableHours, f: FormInput, isUrl: string -> bool): (r: Result<UpdatePayload, SubmitError>)
    ensures r == Err(InvalidForm) <==> ParseEditSession(f, isUrl).None?
    ensures r.Ok? ==> ParseEditSession(f, isUrl).Some?
  {
    match ParseEditSession(f, isUrl)
    case None => Err(InvalidForm)
    case Some(data) => OnSubmit(userId, hours, data)
  }

  /** Every update that leaves the dialog is within the schema's bounds, has a
      location whenever the mode is presential, and carries at least one slot. */
  lemma SubmittedPayloadInBounds(userId: Option<string>, hours: AvailableHours, f: FormInput, isUrl: string -> bool)
    requires SubmitForm(userId, hours, f, isUrl).Ok?
    ensures var p := SubmitForm(userId, hours, f, isUrl).value;
            && 1 <= p.maxStudents <= 50
            && 1000.0 <= p.pricePerHour <= 500000.0
            && 30 <= p.durationMinutes <= 480
            && 5 <= |p.title| <= 100
            && (NeedsLocation(p.mode) ==> p.location.Some? && p.location.value != "")
            && |GetAvailableDays(hours)| > 0
  {
    var data := ParseEditSession(f, isUrl).value;
    assert HasAvailability(hours);
  }
}
