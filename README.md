# Campus app core, modelled in Dafny

A Dafny model of the logic at the heart of a university campus web app
(React and TypeScript over a Supabase database). The model covers:

- the tutoring booking life-cycle: the six-state transition table, the tutor's and the student's action flags, and the timestamp column each status stamps;
- weekly tutoring availability: the day-to-slots map, its sanitising validator, slot toggling, hourly booking slots and the display summaries;
- the create and edit tutoring dialogs;
- tutoring and marketplace messaging: send-time validation, and the grouping of a newest-first message list into conversations with their last message and unread count;
- security reports: the database/frontend mappers, the report list hook, the creation hook, the status update record and dashboard statistics, and the reports page filters, figures, map grouping and selection;
- the notifications page filters and read/delete actions;
- password rules and strength score, and the per-email login rate limiter;
- coupon validation and discounts;
- product form and image validation, storage paths, and the edit-product dialog's image bookkeeping;
- favourites (products and campus locations), public profiles and privacy settings;
- role permissions, the location icon catalogue, and the campus map page's filter, ordering, selection and image gallery.

There is one Dafny module per source file, plus two shared modules.
`Conversations` holds the message grouping that both message services
use. `Common` holds the shared vocabulary: Option and Result, trimming, substring search, lower-casing,
counting and filtering, and the stable newest-first sort. Pure functions of
the source are Dafny functions with lemmas about them. Component and hook
state that the source updates in place (dialogs, pages, the rate limiter,
the favourites context, the report hooks) is a class whose methods state
the whole new state. Server answers, the signed-in user, the current time
and file metadata are parameters.

## Model

| member | source | states |
|---|---|---|
| BookingStates.ValidTransitions | src/lib/booking-states.ts:15-22 | no status leads back to pending; only pending and confirmed bookings can be cancelled; an in-progress session can only complete; no target is listed twice |
| BookingStates.CanTransition | src/lib/booking-states.ts:27-29 | no transition stays in place or leads to pending, and from in progress only completed is reachable |
| BookingStates.IsTerminalState | src/lib/booking-states.ts:34-36 | a status is terminal exactly when no transition leaves it, i.e. exactly completed, cancelled and no-show |
| BookingStates.GetAvailableTransitions | src/lib/booking-states.ts:41-43 | the list holds exactly the statuses canTransition allows, and is empty exactly for terminal statuses |
| BookingStates.GetTutorActions | src/lib/booking-states.ts:61-71 | each tutor button is offered exactly when the matching transition is valid; confirm and reject come together; a tutor never reviews |
| BookingStates.GetStudentActions | src/lib/booking-states.ts:76-86 | a student may only cancel (pending or confirmed) or review (completed); cancelling is always a valid transition |
| BookingStates.GetTimestampFieldForStatus | src/lib/booking-states.ts:91-102 | confirmed stamps confirmed_at, completed stamps completed_at, every other status stamps nothing |
| BookingStates.CanModifyBooking | src/lib/booking-states.ts:183-185 | a booking can be modified exactly when the tutor, and equally the student, may cancel it; modifiable bookings are active |
| BookingStates.IsActiveStatus | src/lib/booking-states.ts:168-170 | a status is active exactly when it is not terminal |
| BookingStates.IsPastStatus | src/lib/booking-states.ts:175-177 | a status is past exactly when it is terminal |
| BookingStates.ActivePastPartition | src/lib/booking-states.ts:170-179 | every status is either active or past and not both; the past statuses are exactly the terminal ones |
| BookingStates.StageIncreases | src/lib/booking-states.ts:15-22 | every valid transition moves strictly forward in the life-cycle |
| BookingStates.TransitionChainAcyclic | src/lib/booking-states.ts:15-29 | a chain of valid transitions never revisits a status or returns to pending, so a booking changes status at most three times |
| Availability.AllDaysListed | src/lib/availability-utils.ts:42-44 | the seven days are listed once each, Monday to Sunday |
| Availability.DayKeyInjective | src/types/tutoring.types.ts:28-35 | distinct days are stored under distinct keys |
| Availability.ParseTwoDigitsOfTwoDigits | src/lib/availability-utils.ts:109-114 | reading an hour back from its two-digit padded form gives the hour |
| Availability.HourLabelOrder | src/lib/availability-utils.ts:91-94 | on "HH:00" labels the string comparison the source uses is the order of the hours |
| Availability.BoundaryOrder | src/lib/availability-utils.ts:45 | the slot boundaries 06:00, 10:00, 14:00, 18:00, 22:00 are increasing in string order |
| Availability.SlotText | src/lib/availability-utils.ts:45 | a slot's stored text is its start boundary, a dash and its end boundary |
| Availability.SlotTextOrder | src/lib/availability-utils.ts:219 | the string order `sort()` uses on slot texts is the order of the slots in the day; distinct slots have distinct texts |
| Availability.ParseSlot | src/lib/availability-utils.ts:52-54 | a string is accepted exactly when it is the stored text of some slot, and then it names that slot |
| Availability.ParseSlotText | src/lib/availability-utils.ts:52-54 | every slot's stored text is accepted as that slot |
| Availability.ValidSlots | src/lib/availability-utils.ts:52-54 | the kept items are exactly the valid slot strings of the array, never more than its length |
| Availability.ValidateAvailableHours | src/lib/availability-utils.ts:39-62 | anything but an object gives the empty map; a day is present exactly when its array holds a valid slot, and then holds the valid slots in order |
| Availability.ToJson | src/lib/availability-utils.ts:32-34 | the stored object has a key exactly for each day of the map |
| Availability.ValidSlotsOfSlots | src/lib/availability-utils.ts:52-54 | sanitising the stored texts of a list of slots gives the list back |
| Availability.SanitizeStored | src/lib/availability-utils.ts:17-62 | a map without empty days, stored and sanitised again, gives every day its slots back |
| Availability.GetSlotsForDay | src/lib/availability-utils.ts:84-86 | a day in the map yields its own list, and a day missing from it no slots |
| Availability.HasAvailabilityOnDay | src/lib/availability-utils.ts:67-69 | a day has availability exactly when it is in the map with a non-empty slot list |
| Availability.DaysWithSlots | src/lib/availability-utils.ts:74-79 | keeps exactly the given days that have at least one slot |
| Availability.DaysWithSlotsOrdered | src/lib/availability-utils.ts:74-79 | the filter keeps the week order of the days |
| Availability.GetAvailableDays | src/lib/availability-utils.ts:74-79 | lists exactly the days with availability, Monday to Sunday, each once |
| Availability.IsAvailabilityEmpty | src/lib/availability-utils.ts:230-232 | true exactly when no day has a slot |
| Availability.IsTimeInSlot | src/lib/availability-utils.ts:91-94 | a time inside any slot lies between 06:00 and 22:00 |
| Availability.GetSlotForTime | src/lib/availability-utils.ts:99-102 | a found slot contains the time and is the only one that does; nothing is found exactly when the time is before 06:00 or at or after 22:00 |
| Availability.SlotLookupUnique | src/lib/availability-utils.ts:91-94 | a time lies in at most one slot |
| Availability.SlotLookupRange | src/lib/availability-utils.ts:91-94 | a time lies in some slot exactly when it is from 06:00 up to but excluding 22:00 |
| Availability.HourlySlots | src/lib/availability-utils.ts:107-119 | a slot yields four "HH:00" times, one per hour from its start |
| Availability.GenerateHourlySlots | src/lib/availability-utils.ts:107-119 | the loop over the hours read back from the slot's text produces exactly the slot's hourly times |
| Availability.HourlySlotsInSlot | src/lib/availability-utils.ts:99-119 | every hourly time of a slot is looked up back to that slot, and the times are increasing |
| Availability.GetBookingSlotsForDay | src/lib/availability-utils.ts:124-127 | four booking times per slot of the day, the i-th slot's times at positions 4i to 4i+3 |
| Availability.SortSlots | src/lib/availability-utils.ts:219 | the sorted list is a permutation of the input in day order |
| Availability.ToggledDay | src/lib/availability-utils.ts:214-219 | the toggled slot is present exactly when it was absent, every other slot keeps its presence, and an added slot leaves the list sorted |
| Availability.ToggleSlot | src/lib/availability-utils.ts:209-225 | other days are untouched; the slot flips its presence on the day and no other slot does; a day left with no slot is dropped |
| Availability.ToggledDayWellFormed | src/lib/availability-utils.ts:214-219 | a toggle keeps a day's list strictly ordered |
| Availability.ToggledDayTwice | src/lib/availability-utils.ts:214-219 | toggling a slot twice gives a well-formed day back |
| Availability.ToggleWellFormed | src/lib/availability-utils.ts:209-225 | the toggle keeps every day of the map non-empty and strictly ordered |
| Availability.ToggleTwice | src/lib/availability-utils.ts:209-225 | on a well-formed map, toggling the same slot twice gives the map back |
| Availability.DisplayHour | src/lib/availability-utils.ts:135 | the 12-hour clock hour is from 1 to 12 and agrees with the hour modulo 12 |
| Availability.Period | src/lib/availability-utils.ts:134 | PM exactly from noon on, AM otherwise |
| Availability.FormatTimeForDisplay | src/lib/availability-utils.ts:132-137 | the 12-hour clock hour, a colon, the minutes padded to two digits, a space and the period |
| Availability.DisplayedMinutes | src/lib/availability-utils.ts:136 | under an hour, the minutes are shown as two digits that read back as the minutes |
| Availability.PaddedIsTwoDigits | src/lib/availability-utils.ts:136 | padding a number below 100 to two places with zeros gives its two-digit form |
| Availability.AfternoonExample | src/lib/availability-utils.ts:129-137 | 14:00 is shown as 2:00 PM |
| Availability.DayShortLabel | src/lib/availability-utils.ts:175-183 | every short day name has three characters and none begins like "Sin" |
| Availability.FormatAvailabilitySummary | src/lib/availability-utils.ts:168-187 | the summary is "Sin disponibilidad" exactly when no day has a slot; otherwise it is the short labels of the available days in week order, joined with ", " |
| Availability.FormatDaySlots | src/lib/availability-utils.ts:192-204 | empty exactly when the day has no slot; otherwise the short labels of the day's slots in stored order, joined with ", " |
| Availability.SummaryNamesAvailableDays | src/lib/availability-utils.ts:168-187 | read back as a ", " list, a non-empty summary names each available day once, in week order, and no other day |
| Availability.DaySlotsNameTheSlots | src/lib/availability-utils.ts:192-204 | read back as a ", " list, a day's slot text names each of its slots in order, and no other slot |
| Availability.SlotsDisjoint | src/lib/availability-utils.ts:91-94 | no time falls inside two different slots |
| EditTutoring.ParseMode | src/components/tutoring/edit-tutoring-dialog.tsx:35 | exactly the three mode names are accepted, each as its own mode |
| EditTutoring.ParseEditSession | src/components/tutoring/edit-tutoring-dialog.tsx:28-39 | the form is accepted exactly when every field is within the schema's bounds (title 5-100, description 20-1000, subject at least 2, a price from 1000 to 500000 that may have a fractional part, duration 30-480, a known mode, an empty or valid meeting URL, 1-50 students), and then the parsed values are the form's |
| EditTutoring.EditTutoringDialog.HandleToggleSlot | src/components/tutoring/edit-tutoring-dialog.tsx:108-110 | the grid becomes the toggle of the previous grid |
| EditTutoring.HasAvailability | src/components/tutoring/edit-tutoring-dialog.tsx:123 | some day holds a slot exactly when the availability is not empty |
| EditTutoring.OrNull | src/components/tutoring/edit-tutoring-dialog.tsx:150-156 | `x \|\| null` sends nothing exactly for a missing or empty text, else the text itself |
| EditTutoring.OnSubmit | src/components/tutoring/edit-tutoring-dialog.tsx:112-173 | the three guards in order (signed in, some availability, a location for presential or both), each rejection named; an accepted submit sends the form's values, with category, location and meeting URL equal to OrNull of the form's (the value, or null when missing or empty), at least one student, and the grid as stored JSON |
| EditTutoring.SubmitForm | src/components/tutoring/edit-tutoring-dialog.tsx:28-39 | a form the schema rejects never reaches onSubmit; an accepted update came from an accepted form |
| EditTutoring.SubmittedPayloadInBounds | src/components/tutoring/edit-tutoring-dialog.tsx:112-160 | every update sent is within the schema's bounds, has a location when the mode needs one, and carries at least one available day |
| EditTutoring.EditTutoringDialog.constructor | src/components/tutoring/edit-tutoring-dialog.tsx:103-104 | the grid opens on the stored value after sanitising: a day is present exactly when its stored list has a valid slot, holding those slots |
| CreateTutoring.ToggleEntry | src/components/tutoring/create-tutoring-dialog.tsx:100-116 | the entry flips its membership, every other entry keeps its own, and an added entry goes at the end |
| CreateTutoring.ToggleEntryKeepsNoDuplicates | src/components/tutoring/create-tutoring-dialog.tsx:100-116 | a toggle keeps a list free of duplicates |
| CreateTutoring.ToggleEntryTwice | src/components/tutoring/create-tutoring-dialog.tsx:100-116 | toggling twice restores every membership, and the very list when the entry was absent |
| CreateTutoring.AcceptedSubjectKeepsValid | src/components/tutoring/create-tutoring-dialog.tsx:83-91 | appending an accepted subject keeps the list free of duplicates and of blank or untrimmed entries |
| CreateTutoring.WithField | src/components/tutoring/create-tutoring-dialog.tsx:79-81 | a typed value changes its own text field and nothing else |
| CreateTutoring.CreateTutoringDialog.HandleChange | src/components/tutoring/create-tutoring-dialog.tsx:79-81 | the form becomes the previous form with the field replaced; the form stays valid |
| CreateTutoring.CreateTutoringDialog.AddSubject | src/components/tutoring/create-tutoring-dialog.tsx:83-91 | an accepted input is appended trimmed and the input cleared; otherwise nothing changes; the form stays valid |
| CreateTutoring.CreateTutoringDialog.RemoveSubject | src/components/tutoring/create-tutoring-dialog.tsx:93-98 | the subject is gone and the others stay in order |
| CreateTutoring.CreateTutoringDialog.ToggleAvailability | src/components/tutoring/create-tutoring-dialog.tsx:100-107 | the availability list becomes its toggle; nothing else changes |
| CreateTutoring.CreateTutoringDialog.ToggleLanguage | src/components/tutoring/create-tutoring-dialog.tsx:109-116 | the language list becomes its toggle; nothing else changes |
| CreateTutoring.CreateTutoringDialog.SubmitDisabled | src/components/tutoring/create-tutoring-dialog.tsx:250 | the submit button is disabled whenever no subject is listed, and when not submitting exactly then |
| CreateTutoring.CreateTutoringDialog.HandleSubmit | src/components/tutoring/create-tutoring-dialog.tsx:57-77 | the form is emptied, the dialog closed, and the submit button left disabled |
| CreateTutoring.CreateTutoringDialog.constructor | src/components/tutoring/create-tutoring-dialog.tsx:22-32 | the form opens empty, not submitting, and already satisfies the handlers' invariant |
| Conversations.OtherId | src/services/tutoring-messages.service.ts:256-257 | the other participant is the recipient of the user's own messages and the sender of the others |
| Conversations.RecordCounts | src/services/tutoring-messages.service.ts:275-278 | a message counts once toward its conversation's unread figure exactly when it was sent to the viewer and is unread; otherwise nothing changes |
| Conversations.GroupKeys | src/services/tutoring-messages.service.ts:256-272 | the map's keys are listed once each, in insertion order, and are exactly the keys of the messages not skipped |
| Conversations.GroupLastMessage | src/services/tutoring-messages.service.ts:264-272 | each conversation's lastMessage is the first row of that conversation in the list |
| Conversations.GroupUnreadCount | src/services/tutoring-messages.service.ts:275-278 | each conversation's unread figure counts the unread rows sent to the viewer in that conversation |
| Conversations.GroupCountBound | src/services/marketplace-messages.service.ts:157-181 | there are never more conversations than rows that are not skipped, nor than rows |
| Conversations.StudentGroupMessages | src/services/tutoring-messages.service.ts:171-198 | in the per-student grouping each conversation holds exactly its rows in list order, and its first row is the one shown as lastMessage |
| Conversations.LastMessageIsNewest | src/services/tutoring-messages.service.ts:198 | on newest-first rows a conversation's lastMessage is at least as recent as each of its rows |
| Conversations.GroupsInNewestOrder | src/services/tutoring-messages.service.ts:282-288 | on newest-first rows the conversations come out of the map already ordered newest first |
| Conversations.GroupValuesDistinct | src/services/tutoring-messages.service.ts:282 | the listed conversations have pairwise distinct keys and are no more than the rows |
| Conversations.GroupValuesCover | src/services/tutoring-messages.service.ts:282 | every row that is not skipped has its conversation listed |
| Conversations.GroupValuesEntries | src/services/tutoring-messages.service.ts:264-282 | every listed conversation shows the first row of its key and the number of its unread rows |
| TutoringMessages.ValidateTutoringMessage | src/services/tutoring-messages.service.ts:36-66 | a message to oneself is refused first, blank content next; an accepted message is stored trimmed, non-empty and unread, with the given session id when it is non-empty and none otherwise |
| TutoringMessages.IdeographicSpaceIsBlank | src/services/tutoring-messages.service.ts:50-52 | content made only of ideographic spaces (U+3000) trims to nothing and is refused as empty |
| TutoringMessages.ConversationList | src/services/tutoring-messages.service.ts:284-288 | the result is sorted newest first and is a permutation of the grouped conversations |
| TutoringMessages.GroupByStudentRows | src/services/tutoring-messages.service.ts:165-192 | the loop's map equals the per-student grouping of the rows |
| TutoringMessages.GetTutoringMessagesGroupedByStudent | src/services/tutoring-messages.service.ts:122-210 | a failed session lookup and a failed query give their errors, in that order; otherwise the per-student conversation list |
| TutoringMessages.StudentGroups | src/services/tutoring-messages.service.ts:195-203 | one conversation per map entry, in the map's order |
| TutoringMessages.GroupUserRows | src/services/tutoring-messages.service.ts:248-280 | the loop's map equals the grouping by session and peer |
| TutoringMessages.AddUserRow | src/services/tutoring-messages.service.ts:256-279 | one loop pass is one step of the grouping |
| TutoringMessages.GetAllUserConversations | src/services/tutoring-messages.service.ts:217-291 | a failed query gives the error; otherwise the conversation list grouped by session and peer |
| TutoringMessages.UserConversationsDistinct | src/services/tutoring-messages.service.ts:217-291 | one conversation per (session, peer) pair, never more than there are rows |
| TutoringMessages.UserConversationsCover | src/services/tutoring-messages.service.ts:217-291 | every row lands in the conversation of its (session, peer) pair |
| TutoringMessages.UserConversationsEntries | src/services/tutoring-messages.service.ts:264-279 | each conversation shows the newest row of its pair, its unread count and the other participant; with a session, its id and its title, or "Mensaje directo" for an untitled one; without one, the direct-message defaults |
| TutoringMessages.StudentConversationsDistinct | src/services/tutoring-messages.service.ts:122-210 | one conversation per student, never more than there are rows |
| TutoringMessages.StudentConversationsCover | src/services/tutoring-messages.service.ts:171-192 | every row lands in the conversation of its student |
| TutoringMessages.StudentConversationsEntries | src/services/tutoring-messages.service.ts:171-203 | each conversation shows the student's newest row and the unread rows sent to the tutor, under the session's id and title |
| TutoringMessages.ConversationsOfNewest | src/services/tutoring-messages.service.ts:206-209 | on newest-first rows the final sort leaves the map's order unchanged |
| MarketplaceMessages.ValidateMarketplaceMessage | src/services/marketplace-messages.service.ts:39-69 | a message to oneself is refused first, blank content next; an accepted message is stored trimmed, non-empty and unread |
| MarketplaceMessages.MarketplaceList | src/services/marketplace-messages.service.ts:184-190 | the result is sorted newest first and is a permutation of the grouped conversations |
| MarketplaceMessages.GroupProductRows | src/services/marketplace-messages.service.ts:150-181 | the loop's map equals the grouping by product and peer, rows without a product skipped |
| MarketplaceMessages.GetMarketplaceConversations | src/services/marketplace-messages.service.ts:117-192 | a failed query gives the error; otherwise the conversation list grouped by product and peer |
| MarketplaceMessages.ProductGroups | src/services/marketplace-messages.service.ts:183 | one conversation per map entry, in the map's order |
| MarketplaceMessages.MarketplaceListOfNewest | src/services/marketplace-messages.service.ts:186-190 | on newest-first rows the final sort leaves the map's order unchanged |
| MarketplaceMessages.MarketplaceSkipsProductless | src/services/marketplace-messages.service.ts:161-163 | no more conversations than rows with a product, and each shows the product of its newest row |
| MarketplaceMessages.MarketplaceDistinctAndCover | src/services/marketplace-messages.service.ts:157-181 | one conversation per (product, peer) pair, and every row with a product lands in its pair's conversation |
| MarketplaceMessages.MarketplaceEntries | src/services/marketplace-messages.service.ts:167-180 | each conversation shows its pair's newest row, the other participant and the unread rows the user received |
| MarketplaceMessages.GroupProducts | src/services/marketplace-messages.service.ts:150-181 | every marketplace conversation has a product, and it is its last message's product |
| ReportMappers.TypeToDb | src/utils/report-mappers.ts:20-28 | only "emergencia" maps to emergency; the other three kinds all map to security |
| ReportMappers.TypeFromDb | src/utils/report-mappers.ts:34-43 | emergency reads back as "emergencia", every other stored type as "sospechoso" |
| ReportMappers.TypeRoundTrip | src/utils/report-mappers.ts:20-43 | a kind survives storing and reading back exactly when it is "sospechoso" or "emergencia"; robbery, vandalism and suspicious activity are stored alike |
| ReportMappers.PriorityToDb | src/utils/report-mappers.ts:48-55 | no frontend priority is stored as critical |
| ReportMappers.PriorityFromDb | src/utils/report-mappers.ts:60-70 | a missing priority reads as "media", critical as "alta" |
| ReportMappers.PriorityRoundTrip | src/utils/report-mappers.ts:48-70 | every priority survives storing and reading back, and distinct priorities are stored differently |
| ReportMappers.StatusToDb | src/utils/report-mappers.ts:75-82 | no frontend status is stored as closed or rejected |
| ReportMappers.StatusFromDb | src/utils/report-mappers.ts:87-98 | a missing status reads as "activo", closed as "resuelto", rejected as "activo" |
| ReportMappers.StatusRoundTrip | src/utils/report-mappers.ts:75-98 | every status survives storing and reading back, and distinct statuses are stored differently |
| ReportMappers.TypeLabel | src/utils/report-mappers.ts:103-111 | every report type has a non-empty label |
| ReportMappers.PriorityLabel | src/utils/report-mappers.ts:116-123 | every priority has a non-empty label |
| ReportMappers.StatusLabel | src/utils/report-mappers.ts:128-135 | every status has a non-empty label |
| ReportMappers.LabelsDistinct | src/utils/report-mappers.ts:103-135 | every label is non-empty and distinct values have distinct labels |
| UseReports.MapDbReport | src/hooks/useReports.ts:29-48 | the shown record copies the row, created_at included; anonymous exactly when the flag is true, then shown as "Anónimo"; no coordinates; the enum columns read through the mappers with their defaults |
| UseReports.MapReports | src/hooks/useReports.ts:73 | one shown record per row, in order |
| UseReports.MapAll | src/hooks/useReports.ts:29-39 | the mapping of all rows succeeds exactly when every created_at is a non-empty valid date, giving one record per row in order; otherwise it throws the RangeError "Invalid time value" |
| UseReports.MappedReportsUnplaced | src/hooks/useReports.ts:38 | no loaded report carries coordinates, and anonymous ones name no reporter |
| UseReports.ReportsHook.constructor | src/hooks/useReports.ts:63-65 | starts loading with no reports and no error |
| UseReports.ReportsHook.FetchReports | src/hooks/useReports.ts:67-82 | loading is off afterwards; a successful query whose dates are all valid replaces the list and clears the error; a row with an invalid date keeps the list and sets the "Invalid time value" error; a failed query keeps the list and sets the error or its fallback message |
| UseCreateReport.BuildReportInsert | src/hooks/useCreateReport.ts:40-50 | an anonymous report records no reporter; otherwise the signed-in id when there is one; status open; type and priority through the mappers; texts copied |
| UseCreateReport.AnonymousReportsHideReporter | src/hooks/useCreateReport.ts:48 | an anonymous report's row does not depend on who is signed in |
| UseCreateReport.CreateReportHook.CreateNewReport | src/hooks/useCreateReport.ts:33-62 | the row sent is the built one; isCreating is off afterwards; success exactly when the insert resolved; a failure sets the error and rethrows it |
| UseCreateReport.CreateReportHook.Reset | src/hooks/useCreateReport.ts:64-67 | clears the error and the success flag |
| UseCreateReport.CreateReportHook.constructor | src/hooks/useCreateReport.ts:29-31 | the hook starts not creating, without an error and without success |
| ReportsService.BuildStatusUpdate | src/services/reports.service.ts:136-152 | the resolution date is stamped exactly for resolved or closed, and the notes only then and only when non-empty |
| ReportsService.GetReportStats | src/services/reports.service.ts:168-222 | fails exactly when a query failed; every figure equals a count over the table: the total excludes closed reports, the priority figures count open reports, the type figures count open and in-progress reports |
| ReportsService.StatusFiguresBound | src/services/reports.service.ts:202-207 | open, in-progress, resolved and rejected reports add up to the total, so the status figures never exceed it |
| ReportsService.PriorityFiguresSplitOpen | src/services/reports.service.ts:209-212 | the four priority figures add up to the open figure |
| ReportsService.TypeFiguresSplitActive | src/services/reports.service.ts:215-219 | the five type figures add up to the open plus in-progress figures |
| ReportsPage.FilteredReports | src/pages/ReportsPage.tsx:54-59 | keeps exactly the reports equal to every chosen filter, in order; with no filter, the whole list |
| ReportsPage.FiguresBound | src/pages/ReportsPage.tsx:247-249 | no figure exceeds the filtered list's length, nor do the active and investigating figures together |
| ReportsPage.GroupByLocation | src/pages/ReportsPage.tsx:133-142 | one group per location id, each id once; each group holds that location's pinned reports in order; no group is empty |
| ReportsPage.ReduceByLocation | src/pages/ReportsPage.tsx:135-142 | the reduce's loop keeps the grouping of the reports seen so far exact |
| ReportsPage.PushReport | src/pages/ReportsPage.tsx:136-141 | the location's list is created when missing, then the report pushed onto it |
| ReportsPage.PushKeepsGrouped | src/pages/ReportsPage.tsx:136-141 | one push keeps the grouping exact |
| ReportsPage.NoPinsForLoadedReports | src/pages/ReportsPage.tsx:133-134 | the loaded reports carry no coordinates, so no location group is shown |
| ReportsPage.ReportsPageState.ClearFilters | src/pages/ReportsPage.tsx:440-444 | all three filters go back to "all"; the selection is kept |
| ReportsPage.ReportsPageState.ClickMarker | src/pages/ReportsPage.tsx:146-167 | the selected marker deselects; any other selects its group from the first report |
| ReportsPage.ReportsPageState.ClickListItem | src/pages/ReportsPage.tsx:462-465 | selects that report alone, from index 0 |
| ReportsPage.ReportsPageState.constructor | src/pages/ReportsPage.tsx:26-31 | the page starts with no filter and nothing selected |
| NotificationsPage.DateCategory | src/pages/NotificationsPage.tsx:114-119 | every timestamp falls in one of "hoy", "semana", "mes"; "hoy" exactly when it mentions minutes or hours; "semana" exactly when otherwise it mentions days, yesterday or weeks |
| NotificationsPage.FilteredNotifications | src/pages/NotificationsPage.tsx:121-133 | a notification is shown exactly when it is in the list and passes both the type and the date test; with no filter the whole list; with no date filter, "no-leidas" shows exactly the unread notifications and a type exactly the notifications of that type |
| NotificationsPage.TodayFilterMatchesAll | src/pages/NotificationsPage.tsx:130 | the "hoy" date filter keeps the same notifications as no date filter |
| NotificationsPage.DateFilterByCategory | src/pages/NotificationsPage.tsx:129-132 | any other date filter keeps a notification exactly when its type matches and its category is the chosen one |
| NotificationsPage.MarkRead | src/pages/NotificationsPage.tsx:137-139 | only the read flags change, and a notification ends read exactly when it was read or has the id |
| NotificationsPage.MarkReadUnreadCount | src/pages/NotificationsPage.tsx:135-139 | marking drops the unread count by the unread notifications with that id |
| NotificationsPage.MarkAll | src/pages/NotificationsPage.tsx:145-147 | every notification is kept with its read flag set |
| NotificationsPage.MarkAllFacts | src/pages/NotificationsPage.tsx:145-147 | afterwards nothing is unread, and marking all again changes nothing |
| NotificationsPage.DeleteFacts | src/pages/NotificationsPage.tsx:141-143 | the list keeps exactly the notifications with another id, shorter by the number with that id |
| NotificationsPage.NotificationsPageState.UnreadCount | src/pages/NotificationsPage.tsx:135 | the unread count never exceeds the list's length |
| NotificationsPage.NotificationsPageState.MarkAsRead | src/pages/NotificationsPage.tsx:137-139 | the list becomes its marked copy, the unread count drops accordingly, the filters are kept |
| NotificationsPage.NotificationsPageState.DeleteNotification | src/pages/NotificationsPage.tsx:141-143 | the list loses exactly the notifications with the id; the filters are kept |
| NotificationsPage.NotificationsPageState.MarkAllAsRead | src/pages/NotificationsPage.tsx:145-147 | the unread count becomes zero; the filters are kept |
| NotificationsPage.NotificationsPageState.ClearFilters | src/pages/NotificationsPage.tsx:251-254 | both filters are cleared; the list is kept |
| NotificationsPage.NotificationsPageState.constructor | src/pages/NotificationsPage.tsx:20-74 | the page starts with the given notifications and no type or date filter |
| PasswordValidation.ValidatePasswordRequirements | src/lib/password-validation.ts:85-93 | each flag holds exactly when its requirement does: at least 8 characters, a lower-case letter, an upper-case letter, a digit, a character that is none of these |
| PasswordValidation.SchemaIssues | src/lib/password-validation.ts:12-18 | at most five issues, and none exactly when every requirement is met |
| PasswordValidation.Score | src/lib/password-validation.ts:30-47 | the score is at most 5 and is 0 exactly for the empty password |
| PasswordValidation.NonEmptyScores | src/lib/password-validation.ts:36-44 | every character is a lower-case or upper-case letter, a digit or special, so a non-empty password earns a point |
| PasswordValidation.AllRequirementsScoreFive | src/lib/password-validation.ts:36-47 | a password meeting every requirement scores 5 |
| PasswordValidation.AcceptedIsVeryStrong | src/lib/password-validation.ts:12-78 | every password the schema accepts is labelled "Muy fuerte" |
| PasswordValidation.CalculatePasswordStrength | src/lib/password-validation.ts:25-78 | the empty password gets score 0, no label and the grey colour; any other scores at least 1 with the label and colour of its score |
| RateLimiter.Attempts | src/lib/rate-limiter.ts:17-27 | an email without a record has no attempts and no lock |
| RateLimiter.Recorded | src/lib/rate-limiter.ts:43-53 | the count grows by one; at five or more the lock ends five minutes from now, else it is kept; other emails are untouched |
| RateLimiter.Check | src/lib/rate-limiter.ts:70-104 | locked exactly while a set lock lies in the future, then no attempts remain and the minutes left are rounded up; an expired lock removes the record and reports all attempts; otherwise the attempts left |
| RateLimiter.RecordKeepsValid | src/lib/rate-limiter.ts:43-53 | every record counts at least one failure and carries a lock exactly from the fifth |
| RateLimiter.UnlockedHasAttemptsLeft | src/lib/rate-limiter.ts:98-103 | an email that is not locked has from 1 to 5 attempts left |
| RateLimiter.FailureAtMaximumLocks | src/lib/rate-limiter.ts:43-53 | the failure that reaches the maximum locks the email for 5 minutes with no attempts left |
| RateLimiter.FiveFailuresLock | src/lib/rate-limiter.ts:11-12 | five failures in a row lock a fresh email |
| RateLimiter.LoginRateLimiter.GetFailedAttempts | src/lib/rate-limiter.ts:109-112 | zero for an email without a record, at least one for a recorded one |
| RateLimiter.LoginRateLimiter.RecordFailedLogin | src/lib/rate-limiter.ts:43-53 | the store becomes the recorded store, and the failed attempts grow by one |
| RateLimiter.LoginRateLimiter.ResetLoginAttempts | src/lib/rate-limiter.ts:58-64 | the email's record is removed and nothing else changes |
| RateLimiter.LoginRateLimiter.CheckLoginLock | src/lib/rate-limiter.ts:70-104 | answers as Check, removing the record exactly when the lock expired |
| RateLimiter.CeilDiv | src/lib/rate-limiter.ts:80 | the remaining minutes are the least whole number of minutes covering the remaining time, at least one |
| RateLimiter.LoginRateLimiter.constructor | src/lib/rate-limiter.ts:17-27 | a fresh store holds no attempts for any e-mail |
| Coupons.Failures | src/services/coupons.service.ts:123-173 | a coupon passes every check exactly when it is active, within its dates, under its usage limit, applicable to the purchase kind and category, above the minimum purchase and under the user's limit |
| Coupons.Discount | src/services/coupons.service.ts:176-188 | a fixed discount is the smaller of its value and the amount; a percentage discount is amount × value / 100, or the set, non-zero cap when that is smaller, so it never exceeds either |
| Coupons.FixedAmountNeverNegative | src/services/coupons.service.ts:187 | a fixed-amount coupon never makes the final amount negative |
| Coupons.PercentageWithinAmount | src/services/coupons.service.ts:178-184 | a percentage of at most 100 with a non-negative cap keeps the final amount between zero and the purchase amount |
| Coupons.ValidateCoupon | src/services/coupons.service.ts:100-200 | a missing coupon is not found; otherwise the first failed check in source order is the error, and an accepted coupon returns its discount and the amount less that discount |
| ProductValidation.ValidateImageFile | src/lib/product-validation.ts:75-97 | a file is accepted exactly when its type is accepted and it is at most 5 MB; a wrong type is reported before the size |
| ProductValidation.SizeLimitInclusive | src/lib/product-validation.ts:88 | a file of exactly 5 MB passes and one byte more fails |
| ProductValidation.FirstInvalid | src/lib/product-validation.ts:124-130 | nothing is reported exactly when every file passes, else the error of one of the files |
| ProductValidation.ValidateImageFiles | src/lib/product-validation.ts:104-132 | the list passes exactly when it holds 1 to 5 files that all pass; no files and too many files are reported first; otherwise the first bad file's error |
| ProductValidation.ProductIssues | src/lib/product-validation.ts:18-66 | the form passes exactly when the title has 5-100 characters, the description 10-1000, the price is positive, at most 999999999 and in whole cents, the category is a UUID, the location has 3-100 characters and there are at most 10 tags |
| ProductValidation.TranslateCondition | src/lib/product-validation.ts:153-164 | every condition has a non-empty Spanish name |
| ProductValidation.ConditionNamesDistinct | src/lib/product-validation.ts:153-164 | every condition has a non-empty name and distinct conditions have distinct names |
| Storage.AfterLastDot | src/services/storage.service.ts:37-38 | the text after the last dot is a dot-free suffix of the name, the whole name when there is no dot |
| Storage.Extension | src/services/storage.service.ts:35-45 | the extension is empty or a dot followed by dot-free text: a file's own last extension, or the one its MIME type names for a blob |
| Storage.DeriveExtension | src/services/storage.service.ts:35-45 | the assignments produce exactly the extension |
| Storage.FilePath | src/services/storage.service.ts:47 | a name with a dot is used as given, any other gets the extension appended |
| Storage.ProductImagePath | src/services/storage.service.ts:144-162 | a product image's path starts with its owner's folder |
| Storage.ProductImageStaysInOwnerFolder | src/services/storage.service.ts:138-164 | the upload stores the image exactly at the built path, inside its owner's folder |
| Storage.ValidateStorageImage | src/services/storage.service.ts:218-241 | a file passes exactly when it is an accepted image type within the size limit; a wrong type is reported first |
| Storage.StorageCheckAgreesWithFormCheck | src/services/storage.service.ts:218-241 | with the default 5 MB the storage check accepts exactly the files the form check accepts |
| EditProduct.RemainingImages | src/components/marketplace/edit-product-dialog.tsx:249 | keeps exactly the existing images not marked deleted, never more than there were |
| EditProduct.DropIndex | src/components/marketplace/edit-product-dialog.tsx:185-186 | an index in range drops exactly that entry and keeps the others in order; any other index changes nothing |
| EditProduct.UploadNewImages | src/components/marketplace/edit-product-dialog.tsx:189-214 | succeeds exactly when every upload does, returning their URLs in order; otherwise fails naming a failed image by its 1-based number |
| EditProduct.FinalImages | src/components/marketplace/edit-product-dialog.tsx:264-267 | the saved images are the remaining existing ones followed by the uploaded URLs in upload order |
| EditProduct.CleanedData | src/components/marketplace/edit-product-dialog.tsx:232-237 | title, description and location are trimmed; every other field is kept |
| EditProduct.ValidatedBeforeTrimming | src/components/marketplace/edit-product-dialog.tsx:230-237 | the form rules see the untrimmed text: a form whose title is four spaces and a letter, with valid other fields, has no issues, yet its cleaned data has the title "x" and would fail the same rules |
| EditProduct.EditProductDialog.TotalImages | src/components/marketplace/edit-product-dialog.tsx:134 | the total counts the remaining existing images and the new files |
| EditProduct.EditProductDialog.constructor | src/components/marketplace/edit-product-dialog.tsx:134 | starts from the product's images, nothing deleted and nothing new |
| EditProduct.EditProductDialog.HandleNewImageUpload | src/components/marketplace/edit-product-dialog.tsx:136-171 | no choice changes nothing; going over five images is refused with the current total; otherwise the files are added, with one preview each, exactly when the whole new list passes validation |
| EditProduct.EditProductDialog.RemoveExistingImage | src/components/marketplace/edit-product-dialog.tsx:173-175 | the image is marked deleted and leaves the remaining images; no other image changes |
| EditProduct.EditProductDialog.RestoreExistingImage | src/components/marketplace/edit-product-dialog.tsx:177-179 | the image is no longer marked deleted and is back among the remaining images if it was an existing one |
| EditProduct.EditProductDialog.RemoveNewImage | src/components/marketplace/edit-product-dialog.tsx:181-187 | the file and its preview at the index are dropped together |
| EditProduct.EditProductDialog.Submit | src/components/marketplace/edit-product-dialog.tsx:230-307 | without a user nothing is sent; with no image left nothing is sent; a failed upload is reported by its position; once all uploads succeed the trimmed form is sent with the remaining images followed by the uploaded ones, and the submit ends saved exactly when updateProduct succeeds |
| EditProduct.SubmitWith | src/components/marketplace/edit-product-dialog.tsx:230-307 | onSubmit over the kept images and the new files: not signed in exactly when no user, no image left exactly when both lists are empty, an upload failure exactly when some upload fails (at a failed position), otherwise the cleaned form and the kept images followed by the uploaded URLs are sent, saved exactly when updateProduct succeeds |
| EditProduct.RemoveThenRestore | src/components/marketplace/edit-product-dialog.tsx:173-179 | removing and then restoring an image that was not marked leaves the deleted list as it was |
| FavoritesContext.SeedCounts | src/contexts/favorites-context.tsx:75-86 | existing counters are kept and every listed product gets one |
| FavoritesContext.SeedTakesFirst | src/contexts/favorites-context.tsx:78-83 | a new counter takes the count of the first product listed with that id, zero when it has none |
| FavoritesContext.SeedIdempotent | src/contexts/favorites-context.tsx:75-86 | seeding twice with the same products is seeding once |
| FavoritesContext.ToggleSet | src/contexts/favorites-context.tsx:98-106 | the product is a favourite exactly when the server says so; no other id changes |
| FavoritesContext.ToggleCount | src/contexts/favorites-context.tsx:109-114 | the product's counter moves one up or down and never below zero; other counters are untouched |
| FavoritesContext.AddThenRemove | src/contexts/favorites-context.tsx:109-114 | adding and then removing a favourite restores a non-negative counter |
| FavoritesContext.FavoritesState.GetProductFavoritesCount | src/contexts/favorites-context.tsx:70-72 | the product's counter, or the fallback when it has none |
| FavoritesContext.FavoritesState.LoadFavorites | src/contexts/favorites-context.tsx:39-62 | signed out or on failure the set is emptied; otherwise it holds exactly the non-null product ids; counters are untouched |
| FavoritesContext.FavoritesState.SetInitialCounts | src/contexts/favorites-context.tsx:75-86 | the counters become the seeded counters |
| FavoritesContext.FavoritesState.ToggleFavorite | src/contexts/favorites-context.tsx:89-121 | signed out or on failure nothing changes and the error is returned; otherwise the set and the counter follow the server's answer, which is returned |
| FavoritesContext.FavoritesState.constructor | src/contexts/favorites-context.tsx:34-36 | the context starts with no favourites, no counts and not loading |
| UserProfile.ProjectProfile | src/services/user-profile.service.ts:47-64 | contact details are shown exactly when the user chose to show them, and are withheld otherwise; the profile is public unless set to false |
| UserProfile.GetPublicProfile | src/services/user-profile.service.ts:30-65 | a failed query is the profile error; no row is no profile; a row gives its projected profile |
| UserProfile.PrivateProfileIsFlaggedNotWithheld | src/services/user-profile.service.ts:53-64 | a private profile is returned, flagged as not public |
| UserProfile.ContactDependsOnlyOnChoice | src/services/user-profile.service.ts:62-63 | two users who both hide their contact (false or null) show the same contact details, no phone and no email, whatever they stored |
| UserProfile.UpdatePrivacySetting | src/services/user-profile.service.ts:70-80 | succeeds exactly when the update did, else the privacy error |
| UserProfile.UpdateShowContactSetting | src/services/user-profile.service.ts:87-102 | succeeds when the update did or the column is missing, else the contact error |
| UserProfile.GetPrivacySetting | src/services/user-profile.service.ts:107-120 | a failed query is the privacy error; otherwise public unless the row says false |
| UserProfile.GetPrivacySettings | src/services/user-profile.service.ts:125-144 | a failed query is the privacy error; no row gives public with contact hidden; a row gives its settings with those defaults |
| Permissions.IsAdmin | src/lib/permissions.ts:24-26 | only a present role can be administrator |
| Permissions.IsUser | src/lib/permissions.ts:33-35 | a role is a user role exactly when it is present and not administrator |
| Permissions.RolesExclusive | src/lib/permissions.ts:24-35 | no role is both administrator and user, a missing role is neither, and a present role is exactly one of them |
| Permissions.HasPermission | src/lib/permissions.ts:81-92 | a permission is held exactly by administrators, whatever its name; a missing role or a user holds none |
| Permissions.IsRestricted | src/lib/permissions.ts:123-133 | an administrator is never restricted from a feature |
| Permissions.RestrictedIffNotAdmin | src/lib/permissions.ts:97-133 | every listed feature is restricted exactly for non-administrators, i.e. exactly for those who lack the permissions |
| Permissions.RoleName | src/lib/permissions.ts:154-163 | every case has a non-empty display name |
| Permissions.RoleColor | src/lib/permissions.ts:168-177 | every case's colour starts with a background class |
| Permissions.RoleDisplayDistinct | src/lib/permissions.ts:154-177 | administrator, user and missing role get three different display names and three different colours |
| IconMapper.ParseName | src/lib/icon-mapper.ts:24-40 | a string parsed as an icon name is that name's own spelling |
| IconMapper.ParseNameString | src/lib/icon-mapper.ts:24-40 | every icon name's spelling parses back to that name |
| IconMapper.NameStringInjective | src/lib/icon-mapper.ts:24-40 | no two icon names share a spelling |
| IconMapper.LocationIconMap | src/lib/icon-mapper.ts:56-73 | the fallback icon MapPin is the table's icon for its own name and for no other |
| IconMapper.IconMapInjective | src/lib/icon-mapper.ts:56-73 | the icon table gives different names different icons |
| IconMapper.CatalogueIndex | src/lib/icon-mapper.ts:78-193 | every icon name has an entry in the catalogue, at this index |
| IconMapper.CatalogueNames | src/lib/icon-mapper.ts:78-193 | the catalogue's names, position by position |
| IconMapper.EntriesAtTheirIndex | src/lib/icon-mapper.ts:78-193 | each catalogue entry sits at its own name's index |
| IconMapper.CatalogueListsEveryNameOnce | src/lib/icon-mapper.ts:78-193 | the catalogue lists every icon name, none twice |
| IconMapper.CatalogueMatchesTable | src/lib/icon-mapper.ts:56-193 | each catalogue entry's component is the icon table's icon for its name |
| IconMapper.TableLookup | src/lib/icon-mapper.ts:56-73 | indexing the table object gives the icon of a known name, the inherited member for an Object.prototype name, and undefined otherwise |
| IconMapper.GetIconComponentAsWritten | src/lib/icon-mapper.ts:200-205 | a missing or empty name gives MapPin; a known name gives the table's icon |
| IconMapper.ConstructorIsNotAnIcon | src/lib/icon-mapper.ts:200-205 | "constructor" is no icon name, yet the lookup as written returns something that is not an icon |
| IconMapper.GetIconComponent | src/lib/icon-mapper.ts:200-205 | a known name gives the table's icon; a missing, empty or unknown name gives MapPin |
| IconMapper.AsWrittenAgreesOffPrototype | src/lib/icon-mapper.ts:200-205 | off the inherited Object.prototype names, the lookup as written and the intended one agree |
| IconMapper.FindByName | src/lib/icon-mapper.ts:212-216 | a found entry is in the list and carries the name; when none is found, no entry carries it |
| IconMapper.GetIconDefinition | src/lib/icon-mapper.ts:212-216 | a found definition is a catalogue entry with the given name |
| IconMapper.GetIconDefinitionFacts | src/lib/icon-mapper.ts:212-216 | a definition is found exactly for a known name, and it carries that name and the table's icon |
| IconMapper.GetIconsByCategory | src/lib/icon-mapper.ts:223-227 | the result holds exactly the catalogue entries of the category |
| IconMapper.CategoriesPartition | src/lib/icon-mapper.ts:223-227 | the two categories split any list of entries: their sizes add up to the list's and each keeps the list order |
| IconMapper.SearchIcons | src/lib/icon-mapper.ts:234-241 | the result holds exactly the entries whose lower-cased label or description contains the lower-cased query |
| IconMapper.SearchIconsFacts | src/lib/icon-mapper.ts:234-241 | the search keeps catalogue order, and the empty query returns the whole catalogue |
| MapsPage.FilteredLocations | src/pages/MapsPage.tsx:127-139 | with no active filter every location shows; otherwise a location shows when it matches the name search or the type filter; the order is kept |
| MapsPage.BlankQueryShowsAll | src/pages/MapsPage.tsx:128-132 | a query of blanks with the type set to "all" filters nothing |
| MapsPage.PaddedQueryMissesShortNames | src/pages/MapsPage.tsx:128-138 | an active query longer than a location's name never matches it, since the query is matched untrimmed |
| MapsPage.FindById | src/pages/MapsPage.tsx:152 | a found location is in the list and has the id; when none is found, no location has it |
| MapsPage.OrderedLocations | src/pages/MapsPage.tsx:149-157 | without a selection, or with one not in the list, the order is unchanged; otherwise the selected location comes first, followed by the others in order |
| MapsPage.OrderedIsPermutation | src/pages/MapsPage.tsx:149-157 | with unique ids the reordering is a permutation of the filtered list |
| MapsPage.NextIndex | src/pages/MapsPage.tsx:166 | the next image index stays in range, moving one forward and wrapping from the last to the first |
| MapsPage.PrevIndex | src/pages/MapsPage.tsx:170 | the previous image index stays in range, moving one back and wrapping from the first to the last |
| MapsPage.PrevNextInverse | src/pages/MapsPage.tsx:165-171 | previous undoes next, and next undoes previous |
| MapsPage.MapsPageState.constructor | src/pages/MapsPage.tsx:45-66 | the page opens with nothing selected, no filter, the filter panel and the gallery closed |
| MapsPage.MapsPageState.ClearCampusFilters | src/pages/MapsPage.tsx:141-146 | afterwards no filter is active; selection and gallery are untouched |
| MapsPage.MapsPageState.ClickMarker | src/pages/MapsPage.tsx:220-225 | the selected marker deselects; any other is selected and closes the filter panel |
| MapsPage.MapsPageState.ClickListCard | src/pages/MapsPage.tsx:666-667 | a list card toggles its location's selection and leaves the filter panel as it is |
| MapsPage.MapsPageState.OpenGallery | src/pages/MapsPage.tsx:159-163 | the gallery opens on the given images at the given index |
| MapsPage.MapsPageState.NextImage | src/pages/MapsPage.tsx:165-167 | the index moves to NextIndex and stays within the gallery; the images are kept |
| MapsPage.MapsPageState.PrevImage | src/pages/MapsPage.tsx:169-171 | the index moves to PrevIndex and stays within the gallery; the images are kept |
| MapsPage.MapsPageState.ShowImage | src/pages/MapsPage.tsx:824 | a gallery thumbnail jumps to its image |
| FavoriteLocations.FavoriteLocationsModal.constructor | src/components/FavoriteLocationsModal.tsx:41-48 | the dialog opens empty, with no filter, not loading and toggling nothing |
| FavoriteLocations.FavoriteLocationsModal.LoadData | src/components/FavoriteLocationsModal.tsx:57-82 | signed out nothing happens; on success the locations and the favourite ids are replaced by the fetched ones; on failure they are kept; loading ends off |
| FavoriteLocations.FavoriteLocationsModal.HandleToggleFavorite | src/components/FavoriteLocationsModal.tsx:97-132 | signed out nothing happens; otherwise the id is a favourite exactly when the server says so and no other id changes, a failure keeps the set, and the toggling mark is cleared |
| FavoriteLocations.FavoriteLocationsModal.ClearFilters | src/components/FavoriteLocationsModal.tsx:135-140 | afterwards no filter is active and every location is listed |

## Left out

- Supabase queries and RPCs are not modelled. Rows fetched and server answers (success or the error thrown) are parameters. getTutoringMessages, markMessagesAsRead and the unread-count queries are plain queries with no logic of their own.
- React Query caching, invalidation and polling; toasts; console logging; scrolling and timers. The create-tutoring dialog's handleSubmit waits a simulated 2 seconds (create-tutoring-dialog.tsx:62); CreateTutoring.CreateTutoringDialog.HandleSubmit gives the state after that wait.
- JSON.parse and JSON.stringify in parseAvailableHours and stringifyAvailableHours: the validator takes a small JSON value datatype, and serialisation is a plain encoding of the map.
- Date handling: getDayOfWeekFromDate, hasAvailabilityOnDate and getBookingSlotsForDate parse dates; invalid dates and time zones are not modelled. Timestamps are integers (milliseconds), and report dates and times are kept as the strings the database returns. Whether `new Date(created_at)` is a valid date is the parameter `dateValid` of fetchReports; the empty string never is.
- Intl currency formatting and toLocale date formatting.
- URL.createObjectURL previews and their revocation; the upload progress and isSubmitting flags of the edit-product dialog. deleteRemovedImages runs after a successful update and only logs the deletions that failed, so it has no outcome in the model.
- Date.now and Math.random in storage file names: the random name is a parameter.
- localStorage in the rate limiter: a map from e-mail to attempts, with an explicit `now`. checkLoginLock reads Date.now twice; the model treats both reads as one instant.
- Regular expressions and zod schemas are plain predicates. URL validity is the parameter `isUrl`.
- String length counts code points where JavaScript counts UTF-16 units. Lower-casing covers ASCII and Latin-1 only.
- Money, prices and the percentage discount use exact real arithmetic instead of IEEE floating point. The tutoring session's duration and group size are whole numbers because the dialog reads them with `parseInt`. A price left empty reads as NaN, which the schema refuses; the model has no NaN and leaves that input out.
- Availability.FormatTimeForDisplay: takes the hour and the minutes as numbers. The split on ':' and Number() of the "HH:MM" text are not modelled, nor what a malformed time prints (NaN).
- Error-message wording for numeric bounds is an enumeration (below minimum, too large, over limit), not the formatted text.
- Object.entries ordering of a JavaScript object is not modelled. Conversation map keys are pairs rather than the `${a}-${b}` strings, which is the same thing for the UUID ids the app uses.
- Availability: a day whose slot list becomes empty is removed from the map. JavaScript keeps the key with `undefined`, but every reader, and JSON.stringify, treats both the same way.
- Array.prototype.sort is modelled as a stable insertion sort on values; the source has no loop of its own there.
- The categories list of the favourite-locations dialog is fetched and only displayed; it is not modelled.
- The doc comment of getPublicProfile says that private profiles give null, but the code returns them with a privacy flag. The model follows the code.
- The doc comment of formatAvailabilitySummary gives "Lun, Mié, Vie 10AM-2PM" as an example, but the code prints only the day labels. The model follows the code.
- MapsPage.MapsPageState.OpenGallery: requires the start index to be within the images. Both call sites pass a thumbnail index below 4, or 4 when there are more than 4 images.
- MapsPage.MapsPageState.NextImage: requires a non-empty gallery. On an empty one the source computes a remainder by zero (NaN); the gallery is only opened from a location that has images.
- MapsPage.MapsPageState.PrevImage: requires a non-empty gallery, for the same reason as NextImage.

## Findings

| source | as written | input that shows it | evidently intended | confidence | as-written member | corrected member |
|---|---|---|---|---|---|---|
| src/lib/icon-mapper.ts:200-205 | looks the name up on a plain object literal, so a name inherited from Object.prototype yields that inherited member instead of an icon | the icon name "constructor" | MapPin for every name that is not an icon name | not executed | IconMapper.GetIconComponentAsWritten, IconMapper.ConstructorIsNotAnIcon | IconMapper.GetIconComponent |
