# CRM front-end core, modelled in Dafny

This project models the logic layer of a small CRM web front-end. The front-end
keeps contacts, deals, tasks and dashboard data in a remote record store
(`ApperClient`). The model covers:

- **Task service** (`task_service.dfy`):
  - the `fetchRecords` parameters of `getAll` and of the three task buckets (due today, upcoming, completed), with their ordered `where` lists and sort orders;
  - the records sent by `create`, `update` and `markComplete`;
  - how their replies are read.
- **Contact, deal and dashboard services** (`contact_service.dfy`, `deal_service.dfy`, `dashboard_service.dfy`, `record_store.dfy`):
  - the storage records built from form data (aliases where the first truthy value wins, defaults, audit stamps);
  - the partial deal update;
  - the mapping of stored records to view objects;
  - the common way the contact and deal services read a save or delete reply.
- **Contacts page** (`contacts_page.dfy`): the search filter, and the list updates on add, edit, delete and inline edit. These are modelled as a `Page` class whose methods reassign its `contacts` sequence.
- **Contact table** (`contact_table.dfy`): the sort-column state machine (a `SortState` class), and the key-mapped, case-insensitive comparator and the sort on a copy.
- **Contact form** (`contact_form.dfy`): the validation that fills an error map field by field, the submit gate and the change handler. These are modelled as a `Form` class.
- **Tasks page** (`tasks_page.dfy`):
  - the statistics cards and the overdue test;
  - the query each tab sends;
  - the required-field gate;
  - the form defaults;
  - the edit form, with its due-date truncation;
  - the priority badges.

  The page state is a `Page` class.

JavaScript values are modelled by `Js.Value`: `undefined`, `null`, booleans, numbers as reals, `NaN`, strings and records. `Js` also models truthiness, `||`, `===`, `parseInt` and `parseFloat`. `Text` models the string builtins the code uses: `trim`, `toLowerCase`, `includes`, `split` and `substring`.

The remote client is not modelled. Each reply is an input of type `RecordStore.Response`. It is either a reply `{success, message, data, results}` or an exception thrown by the client. The current time is also an input: an ISO string, and the en-US label of today. Date parsing and the calendar day of an instant are function parameters.

## Model

| member | source | states |
|---|---|---|
| Text.TrimEmptyIffBlank | src/components/organisms/ContactForm.jsx:38 | `!s.trim()` holds exactly for strings made only of whitespace |
| Text.Lower | src/components/pages/Contacts.jsx:58-60 | `toLowerCase` keeps the length and folds each character on its own |
| Text.ContainsAt | src/components/pages/Contacts.jsx:58-61 | `includes` finds the needle exactly when some position of the text starts an occurrence of it |
| Text.Split | src/components/pages/Tasks.jsx:162 | `split('T')` gives at least one piece, and no piece contains the separator |
| Text.SplitJoin | src/components/pages/Tasks.jsx:162 | joining the pieces of a split gives back the original string |
| Text.SplitFirstPieces | src/components/pages/Tasks.jsx:162 | there is a single piece, the whole string, exactly when the separator does not occur; otherwise the string starts with the first piece, the separator and the second piece |
| Text.DatePart | src/services/api/contactService.js:111 | `iso.split('T')[0]` is a prefix without 'T'; it is the text up to the first 'T', or the whole string when there is none |
| Text.Take | src/components/pages/Tasks.jsx:162 | `substring(0, n)` is a prefix of at most n characters, of exactly n when the string is long enough |
| Js.ParsedInt | src/services/api/taskService.js:65 | `parseInt` yields a number, or `NaN` exactly when nothing parses |
| Js.ParsedFloat | src/services/api/dealService.js:111 | `parseFloat` yields a number, or `NaN` exactly when nothing parses |
| Js.ParseIntOfDecimal | src/services/api/taskService.js:444 | `parseInt` reads back the decimal text of every integer id |
| RecordStore.Successful | src/services/api/taskService.js:408 | `filter(r => r.success)` keeps exactly the entries that succeeded |
| RecordStore.Failed | src/services/api/contactService.js:128 | `filter(r => !r.success)` keeps exactly the entries that failed |
| RecordStore.SuccessfulHead | src/services/api/contactService.js:137-138 | the filtered list is non-empty exactly when some entry succeeded, and its head is the first entry that did |
| RecordStore.FirstMessage | src/services/api/contactService.js:132-134 | the message the `forEach` throws is a truthy one |
| RecordStore.FailedMessages | src/services/api/contactService.js:128-134 | a message is thrown exactly when some failed entry has one, and it is the first such entry's message |
| RecordStore.ReadSaveReply | src/services/api/contactService.js:122-147 | a failed request or a client exception throws its message; otherwise the first failed entry that has a message throws, even when another entry succeeded; otherwise the data of the first entry that succeeded is returned, or null; no `results` returns undefined (also dealService.js:125-141, 182-198) |
| RecordStore.ReadDeleteReply | src/services/api/contactService.js:221-237 | the same throwing rules as a save: a request-level failure throws its message, otherwise the message of the first failed entry that has one is thrown; otherwise true exactly when some entry succeeded (also dealService.js:225-241) |
| TaskService.ConditionsSource | src/services/api/taskService.js:38-79 | every emitted condition is the `EqualTo` of the filter on its field, and that filter's value is truthy |
| TaskService.ConditionsOrdered | src/services/api/taskService.js:38-79 | conditions come in the order of their filters |
| TaskService.ConditionsMention | src/services/api/taskService.js:38-79 | a filter's field is constrained exactly when its value is truthy |
| TaskService.MentionedIsTruthy | src/services/api/taskService.js:38-79 | a field is constrained only when its filter's value is truthy |
| TaskService.TruthyIsMentioned | src/services/api/taskService.js:38-79 | a filter whose value is truthy constrains its field |
| TaskService.AllTasksWhereSteps | src/services/api/taskService.js:38-79 | the `where` of `getAll` is the status, priority, contact and deal contributions, concatenated in that order |
| TaskService.BuildAllTasksParams | src/services/api/taskService.js:15-79 | the step-by-step construction (creating `where` on the first filter that applies and pushing onto it after) gives exactly the parameters `AllTasksParams` describes |
| TaskService.AllTasksFilterOrder | src/services/api/taskService.js:38-79 | the filters of `getAll` are status, priority, contact, deal, at positions 0 to 3; `type` is not among them |
| TaskService.AllTasksQuery | src/services/api/taskService.js:15-79 | no `where` key at all exactly when none of status, priority, contact and deal is set; each of those fields is constrained exactly when set; `type` never is; sort is due date ascending |
| TaskService.AllTasksValues | src/services/api/taskService.js:38-79 | every condition of `getAll` is the `EqualTo` of status or priority as given, or of contact or deal through `parseInt`, and they come in the order status, priority, contact, deal |
| TaskService.BucketConditionsSteps | src/services/api/taskService.js:120-150 | the extra bucket filters are contact, deal, priority and type, concatenated in that order |
| TaskService.PushBucketFilters | src/services/api/taskService.js:120-150 | the guarded pushes append exactly those extra conditions to the given list |
| TaskService.GetDueTodayParams | src/services/api/taskService.js:102-171 | `getDueToday` builds the due-today bucket parameters: the prefix, then the pushes, sorted by due date ascending |
| TaskService.GetUpcomingParams | src/services/api/taskService.js:187-254 | `getUpcoming` builds the upcoming bucket parameters |
| TaskService.GetCompletedParams | src/services/api/taskService.js:270-332 | `getCompleted` builds the completed bucket parameters, sorted by ModifiedOn descending |
| TaskService.BucketFilterOrder | src/services/api/taskService.js:120-150 | the extra filters are contact, deal, priority and type at positions 0 to 3; status is not among them |
| TaskService.BucketQueryPrefix | src/services/api/taskService.js:105-117 | every bucket query has a `where` that starts with its fixed prefix: status Open and due date ExactMatch/Day today; status Open and due date GreaterThan now; or status Completed. Due date ascending for the first two, ModifiedOn descending for completed (also lines 189-200, 272-278, 165-170, 248-253, 326-331) |
| TaskService.BucketQueryFilters | src/services/api/taskService.js:120-150 | after the prefix come only contact, deal, priority and type, each exactly when set and in that order; status is never constrained again |
| TaskService.CreateRecord | src/services/api/taskService.js:383-397 | the create record has exactly nine keys; the text fields are copied; status is always "Open"; contact and deal are the parsed id when truthy and null otherwise; notes default to "" |
| TaskService.UpdateRecord | src/services/api/taskService.js:443-454 | the update record adds the parsed Id, takes the status as given, and agrees with the create record on every other field |
| TaskService.CompleteRecord | src/services/api/taskService.js:549-552 | `markComplete` sends only Id (parsed) and status "Completed" |
| TaskService.ReadTaskList | src/services/api/taskService.js:81-99 | a list getter returns the data of a successful reply, and [] on failure, missing data or an exception |
| TaskService.ReadTaskSave | src/services/api/taskService.js:399-437 | `create` and `update` return a value exactly when the reply succeeded and some entry succeeded, and it is the data of the first such entry; otherwise null (also lines 460-499) |
| TaskService.ReadTaskDone | src/services/api/taskService.js:508-544 | `delete` and `markComplete` return true exactly when the reply succeeded and some entry succeeded (also lines 558-580) |
| ContactService.AliasFields | src/services/api/contactService.js:105-110 | exactly the six mapped keys; each takes the UI-facing value when it is truthy, the stored key's value otherwise |
| ContactService.CreateRecord | src/services/api/contactService.js:103-114 | Name equals company_c; every mapped field follows its alias rule; last_contact_date_c is the date part of now; created_at_c and updated_at_c are now; no other key |
| ContactService.UpdateRecord | src/services/api/contactService.js:160-170 | Id is the parsed id; Name equals company_c; aliases as on create; only updated_at_c is stamped, never created_at_c or last_contact_date_c |
| ContactService.CreateUpdateAgree | src/services/api/contactService.js:103-114 | create and update send the same value for every key they share (also lines 160-170) |
| DealService.CreateRecord | src/services/api/dealService.js:109-117 | exactly the seven updatable keys; each field is taken from its storage key when that is truthy and otherwise from its UI alias (`name`, `value`, `expectedCloseDate`, `stage`, `probability`, `companyId`), case by case; value and probability are parsed and are 0 when neither is set; stage falls back to "Lead", so it is always truthy; the close date goes through the date formatter; last_activity_date_c is the date part of now, without its 'T' |
| DealService.UpdateRecordKeys | src/services/api/dealService.js:163-175 | the update sends Id (parsed) and exactly the updatable fields whose input is not undefined |
| DealService.FieldSent | src/services/api/dealService.js:168-175 | each updatable field is sent exactly when its input is not undefined, with its converted value |
| DealService.UpdateRecordPlainFields | src/services/api/dealService.js:168-174 | Name, stage_c and last_activity_date_c are sent as given, each exactly when its input is not undefined |
| DealService.UpdateRecordParsedFields | src/services/api/dealService.js:169-173 | value_c, probability_percentage_c and company_c are sent parsed, each exactly when its input is not undefined |
| DealService.UpdateRecordCloseDate | src/services/api/dealService.js:170-175 | expected_close_date_c is sent exactly when defined, and it carries the formatter's result, which overwrites the raw value |
| DealService.BuildUpdateRecord | src/services/api/dealService.js:163-175 | adding one field per conditional, in the source's order, gives the record the lemmas above describe |
| DealService.AssignIfDefined | src/services/api/dealService.js:168-174 | one conditional assignment adds its field to the fields assigned so far exactly when its input is defined |
| DealService.AssignCloseDate | src/services/api/dealService.js:175 | the second close-date assignment turns the raw fields into the fields `update` sends |
| DealService.FormatCloseDate | src/services/api/dealService.js:170-175 | the formatted close date overwrites the raw one and leaves every other field as it was |
| DashboardService.ToMetrics | src/services/api/dashboardService.js:35-41 | one metric per record, same length and order |
| DashboardService.ToActivities | src/services/api/dashboardService.js:89-95 | one activity per record, same length and order |
| DashboardService.GetMetrics | src/services/api/dashboardService.js:27-50 | a failed reply or an exception throws its message; otherwise label_c, value_c, trend_c, trend_direction_c and icon_c become label, value, trend, trendDirection and icon, in order; missing data gives [] |
| DashboardService.GetRecentActivities | src/services/api/dashboardService.js:81-95 | the same error handling; Id is kept and description_c, contact_c, time_c and type_c are renamed, in order; missing data gives [] |
| DashboardService.MappingsReadRequestedFields | src/services/api/dashboardService.js:10-25 | every metric key the mapping reads is requested; of the activity keys, all but Id are requested (also lines 61-79) |
| ContactsPage.EffectiveQuery | src/components/pages/Contacts.jsx:54 | the search term when it is non-empty, otherwise the global search |
| ContactsPage.ContactMatchMeaning | src/components/pages/Contacts.jsx:57-62 | for a contact whose searched fields are strings or missing, the match never throws and holds exactly when the lowercased query occurs in the lowercased company, contact person or email, or the raw query occurs in the phone; a missing field never matches |
| ContactsPage.SearchAll | src/components/pages/Contacts.jsx:57-62 | the filter throws exactly when some contact's match throws; otherwise the result is an order-preserving subsequence that holds every copy of each matching contact and nothing else (stated as a multiset count) |
| ContactsPage.FilterContacts | src/components/pages/Contacts.jsx:52-66 | an empty query leaves the list unchanged; any result is an order-preserving subsequence of the contacts |
| ContactsPage.SubsequenceOfSelf | src/components/pages/Contacts.jsx:53 | the unfiltered list is a subsequence of itself |
| ContactsPage.FilterSearchable | src/components/pages/Contacts.jsx:56-62 | with a non-empty query over searchable contacts, the filter succeeds and keeps every copy of each matching contact and nothing else |
| ContactsPage.ReplaceById | src/components/pages/Contacts.jsx:84-88 | same length; each entry whose Id is strictly equal to the id is replaced, and every other entry is unchanged |
| ContactsPage.RemoveById | src/components/pages/Contacts.jsx:103 | an order-preserving subsequence holding every copy of each entry whose Id differs and no entry with that Id |
| ContactsPage.ReplaceByIdSame | src/components/pages/Contacts.jsx:119-121 | replacing with the value already held under that Id changes nothing |
| ContactsPage.RemoveThenReplace | src/components/pages/Contacts.jsx:103 | after a delete no entry has that Id: deleting again or editing that Id changes nothing |
| ContactsPage.RemoveNoneLeft | src/components/pages/Contacts.jsx:103 | deleting an Id no entry has leaves the list as it was |
| ContactsPage.Page.constructor | src/components/pages/Contacts.jsx:19-29 | an empty list, an empty search, closed forms, no selection |
| ContactsPage.Page.AddContact | src/components/pages/Contacts.jsx:68-79 | on success the new contact is prepended (length grows by one) and the form closes; on failure nothing changes and the failure is reported |
| ContactsPage.Page.EditContact | src/components/pages/Contacts.jsx:81-97 | on success the entries with the edited Id are replaced, the updated contact is selected and the form closes; with no contact being edited, or on failure, nothing changes |
| ContactsPage.Page.DeleteContact | src/components/pages/Contacts.jsx:99-109 | after confirmation and a successful delete, the entries with that Id are removed; otherwise the list is unchanged; nothing else changes |
| ContactsPage.Page.EditClick | src/components/pages/Contacts.jsx:116-128 | inline: entries with the contact's Id are replaced by it; modal: the contact becomes the one edited, the form opens and the detail closes |
| ContactTable.NextSort | src/components/organisms/ContactTable.jsx:11-18 | choosing the current column flips the direction; choosing another selects it ascending |
| ContactTable.NextSortTwice | src/components/organisms/ContactTable.jsx:13 | choosing the current column twice restores its direction; choosing another column twice leaves it descending |
| ContactTable.DbField | src/components/organisms/ContactTable.jsx:22-32 | the seven UI columns map to their storage keys; any other name is used as given |
| ContactTable.StrLessIrreflexive | src/components/organisms/ContactTable.jsx:45 | no string is below itself under `<` |
| ContactTable.StrLessTransitive | src/components/organisms/ContactTable.jsx:45 | string `<` is transitive |
| ContactTable.StrLessTotal | src/components/organisms/ContactTable.jsx:45 | of two different strings one is below the other |
| ContactTable.Compare | src/components/organisms/ContactTable.jsx:44-48 | the comparator returns -1 exactly when a goes first, 1 exactly when b does, and 0 when neither does |
| ContactTable.KeyAsymmetric | src/components/organisms/ContactTable.jsx:44-48 | no two contacts each go before the other |
| ContactTable.Insert | src/components/organisms/ContactTable.jsx:20 | inserting adds exactly the one element |
| ContactTable.SortContacts | src/components/organisms/ContactTable.jsx:20 | sorting the copy is a permutation of the input |
| ContactTable.PrecedesSplit | src/components/organisms/ContactTable.jsx:44-48 | among keys of one kind, if a goes before c then any b goes after a or before c |
| ContactTable.InsertSorted | src/components/organisms/ContactTable.jsx:20 | inserting into a sorted list keeps it sorted |
| ContactTable.SortContactsSorted | src/components/organisms/ContactTable.jsx:36-48 | when the column's keys are all text or all dates, the result has non-decreasing keys for asc and non-increasing keys for desc |
| ContactTable.SortState.constructor | src/components/organisms/ContactTable.jsx:8-9 | the table starts on column "company", ascending |
| ContactTable.SortState.HandleSort | src/components/organisms/ContactTable.jsx:11-18 | the new state is the transition `NextSort` of the old one |
| ContactTable.SortState.SortedContacts | src/components/organisms/ContactTable.jsx:20-49 | a permutation of the contacts; sorted in the state's order when the keys are comparable |
| ContactForm.EmailShapeNeeds | src/components/organisms/ContactForm.jsx:48 | an email matching `\S+@\S+\.\S+` contains '@' and '.', has at least five characters and is not blank |
| ContactForm.ErrorKeys | src/components/organisms/ContactForm.jsx:35-61 | the error keys are among company, contactPerson, email, phone and industry; notes are never checked |
| ContactForm.RequiredFieldErrors | src/components/organisms/ContactForm.jsx:38-58 | company, contact person and phone get their message exactly when blank, and industry exactly when empty |
| ContactForm.EmailErrors | src/components/organisms/ContactForm.jsx:46-50 | a blank email gets "Email is required"; a non-blank one that does not match the pattern gets "Email format is invalid"; a matching one gets no error, so the two messages never appear together |
| ContactForm.ValidIffAllPass | src/components/organisms/ContactForm.jsx:35-61 | the form is valid exactly when every field passes its check |
| ContactForm.NoErrorsIffValid | src/components/organisms/ContactForm.jsx:66-67 | the error map is empty exactly when the form is valid |
| ContactForm.ValidateForm | src/components/organisms/ContactForm.jsx:35-61 | filling the error map by successive checks gives exactly the errors the per-field rules describe; it is empty exactly when the form is valid |
| ContactForm.InitialFormAsWritten | src/components/organisms/ContactForm.jsx:23-30 | as written, the initial form reads the UI keys (company, contactPerson, …) from the contact |
| ContactForm.InitialFormAsWrittenIsBlank | src/components/organisms/ContactForm.jsx:23-30 | for a stored record (only `_c` keys), the form as written starts blank, so submitting it unchanged is refused |
| ContactForm.StoredCompanyExample | src/components/organisms/ContactForm.jsx:24 | for the stored record {company_c: "Acme"}, the form as written shows "" and reports the company missing; the corrected form shows "Acme" |
| ContactForm.InitialForm | src/components/organisms/ContactForm.jsx:23-30 | the corrected initial form reads each field from its storage key |
| ContactForm.InitialFormFilled | src/components/organisms/ContactForm.jsx:23-30 | for a stored record whose fields are strings, the corrected form holds those strings |
| ContactForm.AsRecord | src/components/organisms/ContactForm.jsx:76 | the submitted form data holds each field's text under its UI key |
| ContactForm.InitialFormRoundTrip | src/services/api/contactService.js:160-170 | submitting the corrected form unchanged makes the update send back every stored field as it was |
| ContactForm.Form.constructor | src/components/organisms/ContactForm.jsx:23-33 | the form starts from the corrected `InitialForm` of the contact (see Findings), with no errors and not submitting |
| ContactForm.Form.HandleSubmit | src/components/organisms/ContactForm.jsx:63-82 | submits exactly when the form is valid, then clears the errors; otherwise it stores the validation errors and does not submit; the form data never changes |
| ContactForm.Form.HandleChange | src/components/organisms/ContactForm.jsx:84-89 | only the named field changes; its error is reset to "" only when one was set, and the other errors stay |
| TasksPage.OverdueMeansEarlierDay | src/components/pages/Tasks.jsx:184-191 | a missing or unparsable date is never overdue; otherwise a task is overdue exactly when its due date falls on a day before today |
| TasksPage.StatsBounds | src/components/pages/Tasks.jsx:206-214 | overdue ≤ open, and completed + open ≤ total |
| TasksPage.StatsAppend | src/components/pages/Tasks.jsx:210-212 | each count over two lists of tasks is the sum of the counts over each |
| TasksPage.TabQueryMeaning | src/components/pages/Tasks.jsx:73-88 | the due-today, upcoming and completed tabs send only their bucket prefix (no filters); "all-tasks" and any unknown tab send `getAll(filters)` |
| TasksPage.TypeFilterIgnored | src/components/pages/Tasks.jsx:75 | the page's type filter has no effect on the `getAll` query |
| TasksPage.DefaultFormBlocked | src/components/pages/Tasks.jsx:28-37 | the default form has priority "Medium" and type "Follow-up Call", and fails the required-field gate |
| TasksPage.DueDateForEditAsWrittenNoTime | src/components/pages/Tasks.jsx:162 | as written, a due date without 'T' opens as the date followed by "Tundefined", unlike the intended value |
| TasksPage.DueDateForEdit | src/components/pages/Tasks.jsx:162 | the edit value is the date part, 'T', then at most five characters of the time; with a time it is a prefix of the stored value |
| TasksPage.DueDateForEditAgrees | src/components/pages/Tasks.jsx:162 | for a due date with a time, the code as written and the corrected value agree |
| TasksPage.EditThenUpdate | src/components/pages/Tasks.jsx:156-167 | saving the edit form unchanged sends the task's name, description, priority and type; contact and deal are the parsed linked Id or null; no status |
| TasksPage.PriorityBadge | src/components/pages/Tasks.jsx:171-182 | High, Medium and Low show error, warning and secondary badges with their own text; any other value shows the default badge "Normal" (Badge's default variant, src/components/atoms/Badge.jsx:13) |
| TasksPage.PriorityBadgesDistinct | src/components/pages/Tasks.jsx:171-178 | the three priorities show their own name and have distinct variants |
| TasksPage.Page.constructor | src/components/pages/Tasks.jsx:20-43 | no tasks, loading, no error, the due-today tab, a closed modal, the default form, empty filters |
| TasksPage.Page.Stats | src/components/pages/Tasks.jsx:206-214 | the cards of the current tasks: total is their number, overdue ≤ open, completed + open ≤ total |
| TasksPage.Page.LoadTasks | src/components/pages/Tasks.jsx:68-96 | sends the active tab's query, stores the getter's list, clears the error and stops loading; the tab, filters, form and modal are unchanged |
| TasksPage.Page.ResetTaskForm | src/components/pages/Tasks.jsx:143-154 | the form returns to its defaults; nothing else changes |
| TasksPage.Page.HandleCreateTask | src/components/pages/Tasks.jsx:98-110 | with Name, description or due date empty nothing is sent and nothing changes; otherwise the create record of the form is sent, and on a saved reply the modal closes, the form resets and the list reloads; the tasks, the editing task, the tab, the filters, the loading flag and the error never change |
| TasksPage.Page.HandleUpdateTask | src/components/pages/Tasks.jsx:112-125 | the same gate; the update of the edited task's Id is sent; on a saved reply the modal closes, editing ends, the form resets and the list reloads; the tasks, the tab, the filters, the loading flag and the error never change |
| TasksPage.Page.OpenEditModal | src/components/pages/Tasks.jsx:156-169 | the task becomes the one edited, the form is its edit form (with the corrected due date, see Findings), and the modal opens; the tasks, the tab, the filters, the loading flag and the error are unchanged |

## Left out

- The record-store client (`fetchRecords`, `createRecord`, `updateRecord`, `deleteRecord`, `getRecordById`), `toast`, `console` and `window.confirm` are foreign I/O. Their replies and the user's confirmation are inputs. The notifications are not modelled.
- `async`/`await` and `Promise.all` are not modelled. Each handler is one atomic step that receives the reply of the call it makes.
- Wall-clock reads (`new Date()`, `toISOString`, `toLocaleDateString`) are inputs. `parseISO`, `new Date(string)`, `isPast` and `isToday` are modelled as a parser parameter and a calendar-day function.
- `formatDueDate` and the other date-fns formatting are presentation and are not modelled.
- Numbers are mathematical reals. IEEE rounding and the exponent notation of `parseFloat` are not modelled.
- Js.ParseInt: a number is truncated toward zero. JavaScript converts it to text first, so `parseInt(0.0000005)` is 5 and `parseInt(1e21)` is 1. Those exponent-notation cases are not modelled.
- `toLowerCase` folds only the ASCII letters. Unicode case mapping is left out.
- `===` on records compares their contents, where JavaScript compares identity.
- DealService.CreateRecord: `this.formatDateForAPI` is not defined on the deal service object, so the call as written throws a `TypeError`. The model treats it as an uninterpreted function parameter.
- DealService.UpdateRecordCloseDate: the model treats `this.formatDateForAPI` the same way.
- DealService.UpdateRecord: the record is the parsed Id beside a map keyed by the seven updatable fields, each with its storage key (`StorageKey`), not one object keyed by strings. The order in which the keys were inserted is not modelled.
- ContactsPage.ReplaceById: reading `contact.Id` of a `null` or `undefined` entry throws in the source. The model reads it as missing.
- ContactsPage.RemoveById: the same.
- ContactTable.Compare: the source throws when the first key is a string and the second is not (`bValue.toLowerCase`). Comparisons between mixed kinds, which JavaScript coerces, are modelled as "neither goes first".
- ContactTable.Compare: a number in the date column is modelled the same way.
- ContactTable.Compare: a `null` or `undefined` contact throws in the source, where reading `a[dbField]` is a `TypeError`. The model reads its field as missing, so it gets no key and compares as 0. Such an entry can reach the table, because the contacts page prepends whatever `create` returns, and that can be `null` or `undefined`.
- ContactTable.SortContacts: for the same reason, sorting a list of two or more entries that holds a `null` or `undefined` contact throws in the source. The model returns a permutation.
- ContactTable.SortState.SortedContacts: the same. The table's render throws in the source, and the model returns the sorted copy.
- ContactTable.KeyOf: a boolean field value has no key, so two booleans compare as "neither goes first". JavaScript orders `false < true`, and `new Date(true)` is a valid date. No contact column holds booleans.
- ContactTable.StrLess: strings are compared by Unicode scalar value. JavaScript's `<` compares UTF-16 code units, and the two orders differ for characters above U+FFFF.
- ContactTable.SortState.SortedContacts: sortedness is proved only when the column's keys are all text or all valid dates.
- ContactTable.SortState.SortedContacts: stability is built into the insertion sort but not stated.
- ContactForm.FieldText: a stored value that is not a string is read as "". The source would keep it and then fail on `.trim()`.
- TasksPage.DueDateField: the same.
- ContactForm.Form.constructor: the form class opens on the corrected `InitialForm`, which reads the storage keys. As written, ContactForm.jsx:23-30 reads the UI keys, so a stored contact opens a blank form (`InitialFormAsWritten`, see Findings). The class models the intended form, not that blank one.
- TasksPage.Page.OpenEditModal: the edit form takes its due date from the corrected `DueDateForEdit` through `DueDateField` and `EditForm`. As written, Tasks.jsx:162 gives "2024-05-01Tundefined" for a date with no time (`DueDateForEditAsWritten`, see Findings). The page class models the intended "2024-05-01T".
- TasksPage.Page.LoadTasks: the `catch` branch is not modelled. The task getters never throw: they return [] on any failure.
- TasksPage.Page.HandleUpdateTask: with no task being edited, the source throws a `TypeError` on `editingTask.Id`. The model sends nothing.
- `handleDeleteTask` and `handleCompleteTask` on the tasks page only call the service and reload. Their reply reading is `TaskService.ReadTaskDone`, and no page method models them.
- Deal and contact `getAll` and `getById`, and every page outside the contacts and tasks pages, are not part of this model.

## Findings

| source | as written | input that shows it | evidently intended | confidence | as-written member | corrected member |
|---|---|---|---|---|---|---|
| src/components/pages/Tasks.jsx:162 | `a + 'T' + b?.substring(0, 5) \|\| ''` parses as `(a + 'T' + b?.substring(0, 5)) \|\| ''`, because `+` binds tighter than `\|\|` | a due date without a time, such as "2024-05-01" | the edit form gets "2024-05-01T" (the `\|\| ''` was meant for the missing time) | not executed | TasksPage.DueDateForEditAsWrittenNoTime | TasksPage.DueDateForEdit |
| src/components/organisms/ContactForm.jsx:23-30 | the initial form reads `contact.company`, `contact.contactPerson` and the other UI keys, but the stored contacts the page passes in carry `company_c`, `contact_person_c` and so on | the stored record {company_c: "Acme"} | the edit form starts with "Acme"; resubmitting it unchanged sends the stored values back | not executed | ContactForm.InitialFormAsWrittenIsBlank | ContactForm.InitialFormRoundTrip |
