# CleanConnect core, modelled in Dafny

CleanConnect lets landlords post cleaning requests for their properties and
lets cleaners accept, decline, schedule and complete them. The two sides
also exchange messages and report missing supplies. This project models the
client-side logic of the app:

- **The realtime hook** (`realtime.dfy`). It keeps a snapshot of one table
  for one viewer and one role. The snapshot is loaded once, filtered by
  role, and then kept current by the table's INSERT, UPDATE and DELETE
  change events. The hook is a class whose methods update the snapshot.
  Each update is proved equal to a pure function (`Inserted`, `Updated`,
  `Deleted`, `Reconciled`). Those functions are proved to keep record ids
  distinct across any sequence of events.
- **The message center** (`message_center.dfy`). Messages are grouped into
  conversations by the other participant. The left fold and the loop that
  computes it are proved equal. Each conversation is proved to hold exactly
  that participant's messages, in order, with the right latest message and
  unread count. The list of conversations is sorted newest first, and is
  proved to be a permutation of the groups. The model also covers the
  selected conversation, the ids a click marks as read, and the send guard
  with its trimming.
- **The two dashboards** (`cleaner_dashboard.dfy`, `landlord_dashboard.dfy`):
  - which requests a cleaner sees;
  - the hide-set that a decline grows;
  - the write an accept sends and the rows the insert forms send;
  - the counters, which never count a request twice;
  - the lists the tabs receive, the unread badge and the recent slices;
  - the modal flags.
- **The supply report form** (`supply_report_form.dfy`). The property
  picker keeps one entry per property id, each from the first row with that
  id, in first-seen order. The reduce that builds it can throw on a row
  whose joined property is missing. The model also covers the checklist
  toggle, the property selection and the submit guard.
- **The request card** (`request_card.dfy`): the two-step accept, the
  decline, the fallback texts, and the supply list with its key labels.
- **The calendar** (`calendar.dfy`):
  - event titles by status and role;
  - the start time from the checkout date and time, which models
    `split(':')` and `parseInt`;
  - the end three hours later;
  - the colour for each status.
- **The notification helpers** (`notifications.dfy`): the fixed toasts, the
  messages of a promise toast, the time label, and the status and urgency
  badge classes.

`values.dfy` models the JavaScript values the app handles: `undefined`,
`null`, strings, numbers, booleans and objects. It also models truthiness,
`||`, optional chaining, object spread and conversion to a string.
`seqs.dfy` holds the `filter`/count lemmas shared by the modules.

Rows of the backend are `map<string, Value>`. A missing key reads as
`undefined`. Backend calls are replaced as follows:

- The result of a query is a parameter.
- A write or insert is returned as the value describing it.
- Whether an awaited call succeeds is a boolean parameter.

Date parsing is a function parameter. It maps a date value to the start of
its local day, or to its month and year.

### Behaviour of the hook worth knowing

- **UPDATE events.** An UPDATE event for an id that is not in the snapshot
  changes nothing: the hook maps only over the records it already holds
  (`Realtime.Updated`).
- **Relevance.** Relevance is decided on the event's new record alone. A
  DELETE event carries no new record, so for `properties`,
  `cleaning_requests` and `messages` every DELETE is dropped and the
  deleted row stays in the snapshot
  (`Realtime.DeleteWithoutNewRecordIgnored`).
- **Unassigned requests.** The load filter and the relevance test differ.
  A cleaner loads unassigned requests but does not receive their change
  events (`Realtime.UnassignedRequestLoadedButNotRelevant`).
- **Assignment after an unseen insert.** A cleaner who sees an unassigned
  request inserted and then assigned to them ends with an empty snapshot:
  the insert is not relevant to them, and the update only merges into
  records already held (`Realtime.AssignedAfterIrrelevantInsert`).
- **No enrichment or load ordering.** An inserted request is kept as the
  event delivers it, without its joined property. Two loads that overlap
  are applied in the order their queries resolve.

## Model

| member | source | states |
|---|---|---|
| Values.Spread | components/LandlordDashboard.js:37-40 | `{...base, ...over}` has the keys of both, and every key reads from `over` when `over` has it, else from `base` |
| Values.LeadingSpaces | components/MessageCenter.js:58 | the number of leading white-space characters: all of them are white space and the next one is not |
| Realtime.Loaded | hooks/useRealtime.js:58-64 | a failed load leaves an empty snapshot; a successful one holds the rows returned, or none when there is no data |
| Realtime.Inserted | hooks/useRealtime.js:88-94 | an INSERT whose id is present changes nothing; otherwise the record is put in front of the unchanged rest; the id is present afterwards and distinct ids stay distinct |
| Realtime.Updated | hooks/useRealtime.js:104-107 | an UPDATE keeps length and ids, leaves every record with another id unchanged, gives the records with the payload's id the keys of both and the payload's values for its fields, adds nothing for an absent id, and keeps ids distinct |
| Realtime.Deleted | hooks/useRealtime.js:119-121 | a DELETE leaves no record with the old record's id, keeps every other record and adds none, removes exactly one record when the ids were distinct, and changes nothing for an absent id |
| Realtime.DeletedKeepsOrder | hooks/useRealtime.js:120 | DELETE keeps the order of the records it keeps: deleting from a concatenation deletes from each part, and a single record stays exactly when its id differs |
| Realtime.DeletedFacts | hooks/useRealtime.js:120 | the filter by `item.id !== id` removes the id, keeps ids distinct, shrinks by one for a present id and is the identity for an absent one |
| Realtime.DeletedKeepsDistinct | hooks/useRealtime.js:120 | filtering a snapshot with distinct ids keeps them distinct |
| Realtime.DeletedRemovesOne | hooks/useRealtime.js:120 | with distinct ids, deleting a present id removes exactly one record |
| Realtime.Reconciled | hooks/useRealtime.js:70-123 | an event that is not relevant to the viewer changes nothing; any event keeps ids distinct and adds at most one record |
| Realtime.ReplayKeepsIdsDistinct | hooks/useRealtime.js:70-123 | after any sequence of change events, a snapshot with distinct ids still has distinct ids and has grown by at most one record per event |
| Realtime.LoadThenInsertNoDuplicate | hooks/useRealtime.js:89-93 | an INSERT of a record that the load already returned leaves the snapshot unchanged |
| Realtime.DeleteWithoutNewRecordIgnored | hooks/useRealtime.js:74-85 | for the three filtered tables, a DELETE whose new record is empty is dropped before the switch |
| Realtime.LoadFilter | hooks/useRealtime.js:41-56 | which rows the initial query selects per table and role (a landlord's own requests; for a cleaner, unassigned requests and its own; own properties; messages sent or received); characterised by `LoadFilterAndRelevance` and `UnassignedRequestLoadedButNotRelevant` |
| Realtime.Relevant | hooks/useRealtime.js:74-83 | whether a change concerns the viewer, read from the new record only; related to the load filter by `LoadFilterAndRelevance` and shown to miss an assignment by `AssignedAfterIrrelevantInsert` |
| Realtime.LoadFilterAndRelevance | hooks/useRealtime.js:41-56 | the load filter and the relevance test agree for properties, messages and other tables; for a landlord's requests, loaded implies relevant; a request assigned to the viewer is both |
| Realtime.UnassignedRequestLoadedButNotRelevant | hooks/useRealtime.js:50 | an unassigned request of another landlord is loaded for a cleaner, but its change events are not relevant to that cleaner |
| Realtime.AssignedAfterIrrelevantInsert | hooks/useRealtime.js:74-107 | inserting an unassigned request, inserting another cleaner's request, then assigning the first to the viewer leaves the cleaner's snapshot empty |
| Realtime.RealtimeSnapshot.constructor | hooks/useRealtime.js:5-7 | the hook starts with an empty snapshot, loading, and not subscribed |
| Realtime.RealtimeSnapshot.Start | hooks/useRealtime.js:9-29 | without a viewer nothing happens; otherwise a load begins and the channel is subscribed |
| Realtime.RealtimeSnapshot.Stop | hooks/useRealtime.js:31-33 | the cleanup removes the channel |
| Realtime.RealtimeSnapshot.BeginLoad | hooks/useRealtime.js:38 | the loading flag goes up when a load starts |
| Realtime.RealtimeSnapshot.FinishLoad | hooks/useRealtime.js:58-67 | the snapshot is replaced wholesale by `Loaded` of the query result and loading ends |
| Realtime.RealtimeSnapshot.ApplyInsert | hooks/useRealtime.js:90-94 | the snapshot becomes `Inserted` of the old one |
| Realtime.RealtimeSnapshot.ApplyUpdate | hooks/useRealtime.js:105-107 | the snapshot becomes `Updated` of the old one |
| Realtime.RealtimeSnapshot.ApplyDelete | hooks/useRealtime.js:120 | the snapshot becomes `Deleted` of the old one |
| Realtime.RealtimeSnapshot.HandleRealtimeUpdate | hooks/useRealtime.js:70-123 | the snapshot becomes `Reconciled` of the old one and the event, so a snapshot with distinct ids keeps them distinct |
| MessageCenter.OpenedWellFormed | components/MessageCenter.js:19-38 | a counterpart's first message makes a conversation whose profile, latest message and unread count are right |
| MessageCenter.JoinedWellFormed | components/MessageCenter.js:28-38 | a later message keeps a conversation well formed |
| MessageCenter.FirstLatestSnoc | components/MessageCenter.js:31-33 | the strict `>` keeps the first of the latest messages unless the new one is strictly newer |
| MessageCenter.CountSnoc | components/MessageCenter.js:36-38 | a message adds one to the unread count exactly when the viewer has not read it |
| MessageCenter.GroupedKeys | components/MessageCenter.js:15-41 | there is one conversation per counterpart that occurs, and the key order lists each once |
| MessageCenter.GroupedMessages | components/MessageCenter.js:15-41 | a conversation holds exactly the messages exchanged with its counterpart, in input order |
| MessageCenter.GroupedConversation | components/MessageCenter.js:15-41 | every conversation of the grouping is well formed |
| MessageCenter.GroupSizesSum | components/MessageCenter.js:15-41 | the conversation sizes add up to the number of messages |
| MessageCenter.Grouped | components/MessageCenter.js:15-41 | the `reduce` that groups messages by counterpart; characterised by `GroupedFacts` (each counterpart once, first-seen order, exactly its messages, well-formed counts) |
| MessageCenter.GroupedFacts | components/MessageCenter.js:15-41 | the grouping as a whole: each counterpart once, in first-seen order, with a well-formed conversation holding exactly its messages |
| MessageCenter.GroupedExtend | components/MessageCenter.js:15-41 | grouping one more message is one more step of the reduce |
| MessageCenter.GroupConversations | components/MessageCenter.js:15-41 | the loop that updates the accumulator in place computes the grouping |
| MessageCenter.NewestFirstOrdered | components/MessageCenter.js:44-46 | newest first between neighbours means newest first between any two entries |
| MessageCenter.InsertByLatest | components/MessageCenter.js:44-46 | inserting an entry into a newest-first list keeps it newest first and adds exactly that entry |
| MessageCenter.ConsNewestFirst | components/MessageCenter.js:44-46 | an entry at least as new as the head can go in front |
| MessageCenter.SortByLatest | components/MessageCenter.js:44-46 | the sort is newest first and a permutation of its input |
| MessageCenter.InsertByLatestStable | components/MessageCenter.js:44-46 | an inserted entry goes before every entry exactly as new as it, and entries of any other time keep their order |
| MessageCenter.SortByLatestStable | components/MessageCenter.js:44-46 | the sort is stable: entries with the same latest time keep their `Object.entries` order |
| MessageCenter.Entries | components/MessageCenter.js:44 | `Object.entries` gives each key once with its own conversation, in insertion order |
| MessageCenter.SortedConversations | components/MessageCenter.js:15-46 | the conversation list is newest first and a permutation of the grouping's entries |
| MessageCenter.EntriesRearranged | components/MessageCenter.js:44-46 | a permutation of the entries of a complete grouping lists every conversation once under its own key |
| MessageCenter.SortedConversationsComplete | components/MessageCenter.js:15-46 | the sorted list has one entry per conversation, each under its own counterpart, and misses none |
| MessageCenter.SelectedMessages | components/MessageCenter.js:125 | the selected conversation's messages, none when nothing is selected; characterised by `SelectedIsConversation` |
| MessageCenter.SelectedIsConversation | components/MessageCenter.js:125 | the selected conversation shows exactly the messages exchanged with that counterpart, and none when nothing is selected |
| MessageCenter.ToMarkRead | components/MessageCenter.js:195-197 | the ids of the messages to the viewer that are still unread, in order; characterised by `MarkReadMatchesBadge` |
| MessageCenter.MarkReadMatchesBadge | components/MessageCenter.js:192-198 | a click marks as many messages read as the conversation's badge shows, which is the number of unread messages from that counterpart |
| MessageCenter.TrailingSpaces | components/MessageCenter.js:58 | the number of trailing white-space characters: all of them are white space and the one before is not |
| MessageCenter.Trim | components/MessageCenter.js:58 | `trim()` is empty exactly for all-white-space text; otherwise it neither starts nor ends with white space; it is the text after the leading white space, and everything after it is white space |
| MessageCenter.TrimIdempotent | components/MessageCenter.js:58 | trimming trimmed text changes nothing |
| MessageCenter.Composer.constructor | components/MessageCenter.js:7-9 | nothing selected, an empty draft, not sending |
| MessageCenter.Composer.OpenConversation | components/MessageCenter.js:192-198 | a click selects the conversation and marks its unread messages read |
| MessageCenter.Composer.SendMessage | components/MessageCenter.js:56-80 | blank text, no conversation or a send in progress sends nothing; otherwise the trimmed text goes to the counterpart, the draft clears only on success, and sending ends |
| CleanerDashboard.Visible | components/CleanerDashboard.js:20-27 | the filter's condition: not declined, and open and pending or assigned to the viewer; `FilteredRequests` shows a request exactly when it holds |
| CleanerDashboard.FilteredRequests | components/CleanerDashboard.js:20-27 | a request is shown exactly when it is not declined and either open and pending or assigned to the viewer |
| CleanerDashboard.DeclineHides | components/CleanerDashboard.js:47 | declining an id removes that id's rows from the shown list and changes nothing else |
| CleanerDashboard.AcceptPayload | components/CleanerDashboard.js:33-37 | an accept writes exactly the viewer as cleaner, the approved status and the price |
| CleanerDashboard.SupplyReportRow | components/CleanerDashboard.js:79-82 | the report row is the report data plus the viewer as cleaner, unless the data names a cleaner |
| CleanerDashboard.CleanerView.constructor | components/CleanerDashboard.js:12-13 | nothing declined, the report form closed |
| CleanerDashboard.CleanerView.HandleRequestAction | components/CleanerDashboard.js:29-54 | an accept writes the assignment and hides nothing; any other action writes nothing and hides the id; the hide-set never shrinks |
| CleanerDashboard.CleanerView.SetShowSupplyReport | components/CleanerDashboard.js:272-283 | the supply buttons open and close the report form |
| CleanerDashboard.CleanerView.SubmitSupplyReport | components/CleanerDashboard.js:75-93 | the report row is sent, and the form closes unless the insert fails |
| CleanerDashboard.Stats | components/CleanerDashboard.js:96-98 | the three counters count the pending requests, the approved requests assigned to the viewer and the completed requests assigned to the viewer; they never count a request twice, and the first two match the lists of the requests tab and the schedule |
| CleanerDashboard.RequestsTab | components/CleanerDashboard.js:209 | the pending requests among those shown; characterised by `RequestsTabContents` |
| CleanerDashboard.RequestsTabContents | components/CleanerDashboard.js:209 | the requests tab lists, in loaded order, the pending requests that are not declined and not taken by another cleaner |
| CleanerDashboard.Schedule | components/CleanerDashboard.js:218-236 | the viewer's approved requests among those shown; characterised by `ScheduleContents` |
| CleanerDashboard.ScheduleContents | components/CleanerDashboard.js:218-236 | the schedule lists, in loaded order, the approved requests assigned to the viewer and not declined |
| CleanerDashboard.MessagesBadge | components/CleanerDashboard.js:194-198 | the badge shows exactly when some message to the viewer is unread, with the number of such messages; the landlord's badge at LandlordDashboard.js:158-160 is the same |
| CleanerDashboard.RecentActivity | components/CleanerDashboard.js:292 | the first five shown requests, in order |
| LandlordDashboard.Stats | components/LandlordDashboard.js:21-31 | the property count, the pending requests, the approved requests and the requests completed this month; no request is counted twice, and the month's completions are among the completed requests |
| LandlordDashboard.CompletedThisMonthAreCompleted | components/LandlordDashboard.js:27-30 | the requests completed this month are exactly the completed requests updated this month |
| LandlordDashboard.OwnedRow | components/LandlordDashboard.js:37-40 | the inserted row is the form data plus the viewer as landlord, unless the data names a landlord |
| LandlordDashboard.RecentRequests | components/LandlordDashboard.js:216 | the first five requests, in order |
| LandlordDashboard.LandlordView.constructor | components/LandlordDashboard.js:11-13 | both modals closed, no property selected |
| LandlordDashboard.LandlordView.AddProperty | components/LandlordDashboard.js:33-54 | the owned row is inserted into properties; the form closes unless the insert rejects |
| LandlordDashboard.LandlordView.CreateCleaningRequest | components/LandlordDashboard.js:56-77 | the owned row is inserted into cleaning_requests; the modal closes unless the insert rejects |
| LandlordDashboard.LandlordView.RequestCleaning | components/LandlordDashboard.js:179-180 | the property is remembered and the request modal opens |
| LandlordDashboard.LandlordView.OpenCreateRequest | components/LandlordDashboard.js:189 | the request modal opens |
| LandlordDashboard.LandlordView.CloseCreateRequest | components/LandlordDashboard.js:204-207 | the modal closes and the selected property is forgotten |
| LandlordDashboard.LandlordView.SetShowAddProperty | components/LandlordDashboard.js:278-298 | the add-property form opens or closes |
| SupplyReportForm.HasRowIdSnoc | components/SupplyReportForm.js:35-45 | a property id occurs in the rows plus one exactly when it occurs before or in the new row |
| SupplyReportForm.HasOptionIdSnoc | components/SupplyReportForm.js:36 | an id is listed after a push exactly when it was listed before or is the pushed one |
| SupplyReportForm.UniqueStep | components/SupplyReportForm.js:35-45 | one step of the `reduce`: skip a listed id, append a new one, throw on a missing `properties`; characterised with `Unique` by the lemmas below |
| SupplyReportForm.Unique | components/SupplyReportForm.js:35-45 | the picker's property list, or a throw; characterised by `UniqueCovers`, `UniqueDistinct`, `UniqueFirst`, `UniqueOrdered` and `UniqueThrowSticks` |
| SupplyReportForm.UniqueCovers | components/SupplyReportForm.js:35-45 | the picker lists a property id exactly when some row has it |
| SupplyReportForm.UniqueDistinct | components/SupplyReportForm.js:35-45 | the picker lists every property id at most once |
| SupplyReportForm.UniqueFirst | components/SupplyReportForm.js:35-45 | every entry is made from the first row with its property id |
| SupplyReportForm.UniqueOrdered | components/SupplyReportForm.js:35-45 | entries keep the order in which their ids first occur |
| SupplyReportForm.UniqueProperties | components/SupplyReportForm.js:35-45 | the loop that pushes into the accumulator computes the reduce, including its throw |
| SupplyReportForm.UniqueThrowSticks | components/SupplyReportForm.js:35-45 | once the reduce has thrown, the remaining rows do not matter |
| SupplyReportForm.Toggled | components/SupplyReportForm.js:69-81 | the toggled supply is ticked exactly when it was not; the other fields are kept |
| SupplyReportForm.ToggledList | components/SupplyReportForm.js:69-81 | unticking removes every copy and keeps the other supplies in order; ticking appends; other supplies keep their state |
| SupplyReportForm.ToggleTwice | components/SupplyReportForm.js:69-81 | ticking then unticking a supply restores the form |
| SupplyReportForm.ToggleKeepsNoDup | components/SupplyReportForm.js:69-81 | toggling keeps a checklist free of duplicates |
| SupplyReportForm.FindOption | components/SupplyReportForm.js:84 | `find` returns the first entry with the id, and nothing exactly when no entry has it |
| SupplyReportForm.PropertySelected | components/SupplyReportForm.js:83-90 | the chosen id is stored with the landlord of the first matching entry, or `''`; the rest of the form is kept |
| SupplyReportForm.SupplyReportFormState.constructor | components/SupplyReportForm.js:5-13 | no properties, the initial form, not loading |
| SupplyReportForm.SupplyReportFormState.LoadProperties | components/SupplyReportForm.js:20-51 | on success the picker gets the unique properties; an error or a throw in the reduce leaves it unchanged |
| SupplyReportForm.SupplyReportFormState.SetUrgency | components/SupplyReportForm.js:171 | the urgency is set and the rest of the form kept |
| SupplyReportForm.SupplyReportFormState.SetNotes | components/SupplyReportForm.js:186 | the notes are set and the rest of the form kept |
| SupplyReportForm.SupplyReportFormState.ToggleSupply | components/SupplyReportForm.js:69-81 | the form becomes `Toggled` of the old one |
| SupplyReportForm.SupplyReportFormState.HandlePropertySelect | components/SupplyReportForm.js:83-90 | the form becomes `PropertySelected` of the old one and the picker |
| SupplyReportForm.SupplyReportFormState.HandleSubmit | components/SupplyReportForm.js:92-105 | with no supply ticked nothing is submitted; otherwise the form is submitted once, a throw reaches the caller, and loading ends either way |
| RequestCard.RequestCardState.constructor | components/RequestCard.js:5-7 | details hidden, price form closed, no price typed |
| RequestCard.RequestCardState.ToggleDetails | components/RequestCard.js:135 | the details button flips whether details show |
| RequestCard.RequestCardState.SetPrice | components/RequestCard.js:112 | typing sets the price text |
| RequestCard.RequestCardState.HandleAccept | components/RequestCard.js:13-21 | with the form open and a price typed, one accept is sent and the form resets; otherwise nothing is sent and the form opens, keeping the price |
| RequestCard.RequestCardState.HandleDecline | components/RequestCard.js:23-25 | a decline for this request with no price |
| RequestCard.WithFallback | components/RequestCard.js:28-29 | the shown value is always truthy: the value when truthy, else the fallback |
| RequestCard.PropertyName | components/RequestCard.js:28 | the property name when it is truthy, otherwise "Property Name Not Available" |
| RequestCard.PropertyAddress | components/RequestCard.js:29 | the address when it is truthy, otherwise "Address Not Available" |
| RequestCard.SupplyLabels | components/RequestCard.js:161-169 | the list renders exactly when the supply list is truthy and has a truthy value, and labels each truthy key in order |
| RequestCard.KeptIffSomeTruthy | components/RequestCard.js:161-169 | some entry survives the filter exactly when some entry has a truthy value |
| RequestCard.Upper | components/RequestCard.js:169 | upper-casing turns `a`-`z` into the capital 32 code points below and leaves every other character unchanged |
| RequestCard.FormatKey | components/RequestCard.js:169 | the label has the key's length and no `_`; each `_` becomes a space; a character starting a word is upper-cased; every other character is unchanged |
| RequestCard.FormatKeyIdempotent | components/RequestCard.js:169 | formatting a label again changes nothing |
| Calendar.BaseTitle | components/Calendar.js:10 | the property name when truthy, else "Property Cleaning" |
| Calendar.Title | components/Calendar.js:10-18 | a cleaner's pending request gets the bell and "(Pending)", an approved one the broom, a completed one the tick and "(Completed)"; any other title is the base title |
| Calendar.LandlordPendingUnmarked | components/Calendar.js:12-18 | a landlord's pending request keeps its plain title |
| Calendar.IndexOf | components/Calendar.js:23 | the position of the first occurrence of a character, or none when it does not occur |
| Calendar.SplitClock | components/Calendar.js:23 | the first two parts of `split(':')`; characterised by `SplitClockAt` |
| Calendar.Accumulate | components/Calendar.js:24 | the number a leading run of digits spells; characterised by `ParseIntDigits` and `TwoDigitsValue` |
| Calendar.ParseInt | components/Calendar.js:24 | `parseInt`: spaces, sign, longest digit run, NaN without digits; characterised by `ParseIntDigits` |
| Calendar.ClockOffset | components/Calendar.js:24 | the minutes `setHours(h, m)` adds to the day, NaN when either part is not a number; characterised by `ClockOffsetDigits` |
| Calendar.StartMinutes | components/Calendar.js:21-27 | when a cleaning starts; characterised by `DefaultStart`, `ClockStart`, `ClockStartAt` and `WrittenTimeStart` |
| Calendar.ParseIntDigits | components/Calendar.js:24 | `parseInt` of text starting with a digit is the number its leading digits spell |
| Calendar.DefaultStart | components/Calendar.js:25-27 | without a checkout time the cleaning starts at 10:00 on the checkout day |
| Calendar.ClockStart | components/Calendar.js:21-24 | a checkout time whose parts before and after the colon start with digits starts the cleaning that many hours and minutes into the day |
| Calendar.ClockOffsetDigits | components/Calendar.js:24 | two parts that start with digits give their hours and minutes |
| Calendar.ClockStartAt | components/Calendar.js:21-24 | a checkout time `HH:MM` of digits starts the cleaning HH hours and MM minutes into the day |
| Calendar.NoColonInDigits | components/Calendar.js:23 | a string of digits has no colon |
| Calendar.SplitClockAt | components/Calendar.js:23 | splitting `hh:mm` at its only colon gives both halves |
| Calendar.IndexOfAfter | components/Calendar.js:23 | the first colon after colon-free text is found right after it |
| Calendar.TwoDigits | components/Calendar.js:23 | a number below 100 written as two digits |
| Calendar.TwoDigitsValue | components/Calendar.js:24 | two digits parse back to the number they were written from |
| Calendar.WrittenTimeStart | components/Calendar.js:21-27 | a checkout time written as two-digit hours and minutes starts the cleaning that many hours and minutes into the checkout day |
| Calendar.EndMinutes | components/Calendar.js:30-31 | an event ends exactly three hours after it starts, and has an end exactly when it has a start |
| Calendar.EventOf | components/Calendar.js:33-40 | the event carries the request's id, title, start, end, the request itself and a class named by the status |
| Calendar.Events | components/Calendar.js:9-41 | one event per request, in the same order |
| Calendar.EventsShape | components/Calendar.js:9-41 | every event ends three hours after its start, and takes its id and class name from its own request |
| Calendar.StatusBackground | components/Calendar.js:43-59 | the colour per status, blue for any other; characterised by `StyleOf`, whose contract pins the five colours and when blue is used |
| Calendar.StyleOf | components/Calendar.js:43-70 | background and border are the status colour, blue exactly for a status other than the four named ones; white text, no border, 4px radius |
| Notifications.NoticeToast | utils/notifications.js:9-14 | only the declined notice is an error, and each notice text starts with its own emoji |
| Notifications.NoticeTextsDistinct | utils/notifications.js:9-14 | different notices never show the same text |
| Notifications.PromiseToast | utils/notifications.js:17-23 | every phase of a promise toast has a truthy text: the given message when truthy, else its default |
| Notifications.FormatTime | utils/notifications.js:34-41 | "Flexible" for a missing or empty time, otherwise the clock text of the time |
| Notifications.StatusColor | utils/notifications.js:54-63 | a listed status gets its classes; gray exactly for a status outside the four coloured ones; always one of the table's classes |
| Notifications.StatusColorsDistinct | utils/notifications.js:55-61 | the five statuses the table lists get pairwise different classes |
| Notifications.UrgencyColor | utils/notifications.js:65-72 | low, medium and high get their classes, and gray is given exactly to any other urgency |

## Left out

- Backend I/O is not modelled: the queries, inserts, updates, channel subscription and the read-receipt writes. Query results and whether a call succeeds are parameters; the writes are returned as values.
- Showing toasts is not modelled. This covers `notify.success`, `notify.error` and `notify.loading` (utils/notifications.js:4-6), and the toasts the realtime hook shows on INSERT and UPDATE (hooks/useRealtime.js:96-101, 109-116). Only the fixed texts and the promise messages are modelled.
- `formatDate` and `formatDateTime` (utils/notifications.js:26-32, 43-52) are left out because they depend only on the locale.
- FormatTime: the locale's 12-hour clock text is a function parameter, so the model states only the "Flexible" case exactly.
- Date parsing and time zones are not modelled. `new Date(...)`, `getMonth` and `getFullYear` are function parameters. `EndMinutes` adds 180 minutes; the code's `setHours(+3)` differs on a daylight-saving change.
- StartMinutes: a truthy `checkout_time` that is not a string makes `split` throw in the code; the model gives `None` instead.
- ParseInt: the `0x` prefix and very long digit runs are not modelled; only optional white space, an optional sign and decimal digits are.
- The cleaner's earnings (components/CleanerDashboard.js:99-101, 107) are left out. They use `parseFloat` and `toFixed`, which are floating point.
- `handleCompleteJob` (components/CleanerDashboard.js:56-73) is left out. A cancelled confirm does nothing. A confirmed click calls `updateRequest`, which the realtime hook does not return, so the call throws inside the function's own `try`; the `catch` logs the error and shows the "Failed to complete job" toast, and no state changes.
- `startNewConversation` (components/MessageCenter.js:82-111) is left out. It looks up a user by e-mail in the backend's auth table, which the model cannot see.
- Concurrency is not modelled. This includes a load racing with change events or with another load; `FinishLoad` replaces the snapshot wholesale, which is what the code does.
- Object keys such as `constructor` or `toString` are not modelled. They exist on every JavaScript object and would be found by `colors[status]` and `acc[otherUserId]`; the model treats them as absent.
- Entries: `Object.entries` lists integer-like keys first, in ascending order. The model lists keys in insertion order, so it assumes counterpart ids are not integer-like, which holds for the UUIDs the backend issues.
- Realtime.Loaded: the rows a query returns are a parameter. The model does not assume that the backend returns only rows satisfying `LoadFilter`.
- Message times are integers. A `created_at` that does not parse makes the comparator return NaN, and that case is not modelled.
- Rendering, tab selection, scrolling, forms other than the ones named above, and logging to the console are not modelled.
