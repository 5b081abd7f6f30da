# DeployFlow core in Dafny

A model of the rules at the heart of DeployFlow, a small endpoint-management
system. The backend keeps devices, actions, deployment profiles and their
tasks, and scripts. Agents enrol with a token, poll with heartbeats that
hand them their pending actions, and report results. A profile is applied
to a set of devices by fanning out one action per eligible device and task.
The web client adds a profile editor and some small display helpers.

The model has one module per source file:

- `Store` (store.dfy) holds the rows as datatypes, the whole database as the value
  `Tables`, and the class `Db` whose fields the handlers update.
- Each FastAPI handler is two members. A function `XStep(t, ...)` gives the
  response and the new `Tables`. A method `X(db, ...)` updates the `Db` in place
  and is proved to do exactly what `XStep` says. The properties of the handler
  are lemmas about `XStep`.
- A handler that loops in the source keeps its loop in a method with
  invariants. This covers the heartbeat's dispatch, the bulk task insert, the
  template task copy, the apply fan-out and the editor's task requests.
- The client helpers are pure functions. The exception is the profile editor:
  it is a class `Editor` whose methods are the form's state updates and its
  submit handler.
- `Common`, `Constants` and `Ordering` hold the shared pieces:
  - optional values, patches and results;
  - decimal formatting and parsing;
  - JavaScript `trim`;
  - the allowed-value tuples;
  - a stable sort standing in for SQL `ORDER BY`.

Timestamps (`now`), the browser's clock difference (`diffMs`), the id the server
gives a new profile (`createdId`) and the random row keys of the editor
(`localId`) are parameters.

## Model

| member | source | states |
|---|---|---|
| Agent.ResolveOsType | backend/app/api/v1/agent.py:42-48 | the supplied OS type if non-empty, else the device's existing one if non-empty, else "windows" |
| Agent.DeviceWithHostname | backend/app/api/v1/agent.py:41 | a found id holds a device with that hostname; none found means no device has it |
| Agent.TokenAccepted | backend/app/api/v1/agent.py:35 | no contract; a token is accepted when it is known and not past its expiry, and RegisterStep's contract states that registration fails exactly when it is not |
| Agent.RegisterStep | backend/app/api/v1/agent.py:28-63 | fails exactly when the token is unknown or expired, then with 401 and nothing changed; the tables stay valid (hostnames unique) |
| Agent.RegisteredDevice | backend/app/api/v1/agent.py:44-57 | no contract; its properties are lemmas RegisterExistingHostname and RegisterNewHostname |
| Agent.RegisterExistingHostname | backend/app/api/v1/agent.py:43-48 | a known hostname answers with that device's id and interval 30, creates no device, and updates only its status, check-in, OS version, hardware summary and OS type |
| Agent.RegisterNewHostname | backend/app/api/v1/agent.py:49-63 | a new hostname adds exactly one device under a fresh id, online, checked in now, OS type defaulted to "windows", not deleted, and changes nothing else |
| Agent.RegisterTwiceSameDevice | backend/app/api/v1/agent.py:41-58 | registering the same hostname twice returns the same device id and adds no second device |
| Agent.PendingIds | backend/app/api/v1/agent.py:84-88 | exactly the ids of this device's pending actions, in ascending order |
| Agent.Payloads | backend/app/api/v1/agent.py:93-95 | one payload per id, each the action's id, type and payload |
| Agent.MarkRunning | backend/app/api/v1/agent.py:91-92 | the listed actions become running; every other action is unchanged |
| Agent.HeartbeatStep | backend/app/api/v1/agent.py:71-99 | fails exactly for an unknown device id, then with 404 and nothing changed |
| Agent.BeatDevice | backend/app/api/v1/agent.py:77-82 | no contract; its properties are lemma HeartbeatRefreshesDevice |
| Agent.PendingPayloads | backend/app/api/v1/agent.py:84-95 | the payloads sent are exactly those of the device's pending actions, by ascending id |
| Agent.HeartbeatDispatchesPending | backend/app/api/v1/agent.py:84-97 | a heartbeat returns exactly the device's pending actions and marks each running; all other actions are untouched |
| Agent.HeartbeatRefreshesDevice | backend/app/api/v1/agent.py:77-82 | status, OS version and hardware summary are overwritten only by non-empty values; check-in becomes now; nothing else changes |
| Agent.SecondHeartbeatIsEmpty | backend/app/api/v1/agent.py:84-97 | an immediate second heartbeat of the same device returns no actions |
| Agent.NoteExitCode | backend/app/api/v1/agent.py:116-121 | without an exit code the payload is kept; with one, "exit_code=N" is appended after a newline, or is the whole payload when that was empty |
| Agent.ExitCodeReadsBack | backend/app/api/v1/agent.py:116-121 | the number at the end of the noted payload parses back to the exit code |
| Agent.RecordResult | backend/app/api/v1/agent.py:111-121 | no contract; its properties are lemmas ResultRecorded and LifecycleNeverRegresses |
| Agent.ResultStep | backend/app/api/v1/agent.py:102-125 | 404 for an unknown action and 400 for a status other than succeeded/failed, both changing nothing; succeeds otherwise |
| Agent.ResultRecorded | backend/app/api/v1/agent.py:111-121 | a report sets the status, sets logs only when given, sets the completion time defaulting to now, notes the exit code, and changes nothing else |
| Agent.LastReportWins | backend/app/api/v1/agent.py:108-114 | a second report on the same action is accepted and overwrites the first (no prior-status check) |
| Agent.LifecycleNeverRegresses | backend/app/api/v1/agent.py:84-114 | neither a heartbeat nor a report moves an action back along pending, running, succeeded/failed; a heartbeat moves only the owning device's actions out of pending, and only into running; a report changes only the reported action's status, to the reported succeeded/failed, whatever it was before (a pending action included) |
| Agent.RegisterAgent | backend/app/api/v1/agent.py:28-63 | updates the database exactly as RegisterStep and keeps it valid |
| Agent.DispatchPending | backend/app/api/v1/agent.py:90-95 | the loop marks the selected actions running and collects their payloads in order |
| Agent.Heartbeat | backend/app/api/v1/agent.py:71-99 | updates the database exactly as HeartbeatStep and keeps it valid |
| Agent.ActionResult | backend/app/api/v1/agent.py:102-125 | updates the database exactly as ResultStep and keeps it valid |
| Profiles.ValidateScriptReference | backend/app/api/v1/deployment_profiles.py:29-40 | a missing script gives 404; a PowerShell action type on a non-PowerShell script gives 400; otherwise the script |
| Profiles.ProfileNamed | backend/app/api/v1/deployment_profiles.py:51-56 | a found id holds a profile of that name; none found means no profile has it |
| Profiles.CreateProfileStep | backend/app/api/v1/deployment_profiles.py:49-73 | succeeds exactly when the name is unused and the OS type allowed; otherwise 400 and nothing inserted |
| Profiles.CreateProfileAdds | backend/app/api/v1/deployment_profiles.py:64-73 | a create stores exactly the supplied fields under a fresh id, changes nothing else, and keeps names unique |
| Profiles.UpdateProfileStep | backend/app/api/v1/deployment_profiles.py:76-99 | 404 for a missing profile, 400 for a disallowed OS type, both changing nothing; succeeds otherwise |
| Profiles.UpdateProfileChangesOnlyPresent | backend/app/api/v1/deployment_profiles.py:84-94 | each field present in the request is set, each absent field kept, and no other row changes |
| Profiles.EmptyUpdateIsNoOp | backend/app/api/v1/deployment_profiles.py:84-94 | an update with no fields returns the profile and changes nothing |
| Profiles.CreateProfile | backend/app/api/v1/deployment_profiles.py:49-73 | updates the database exactly as CreateProfileStep and keeps it valid |
| Profiles.UpdateProfile | backend/app/api/v1/deployment_profiles.py:76-99 | updates the database exactly as UpdateProfileStep and keeps it valid |
| Profiles.NewTask | backend/app/api/v1/deployment_profiles.py:214-222 | no contract; its properties are lemmas NewTaskDefaults and NewTaskRoundTrip |
| Profiles.NewTaskDefaults | backend/app/api/v1/deployment_profiles.py:209-222 | a bulk entry gets name "Task {idx+1}", order idx, type powershell_inline and continue-on-error true when absent, and keeps every supplied value |
| Profiles.NewTaskRoundTrip | backend/app/api/v1/deployment_profiles.py:209-222 | resubmitting a stored task as an entry rebuilds the same row |
| Profiles.CheckTask | backend/app/api/v1/deployment_profiles.py:208-210 | no contract; an entry with a script passes exactly when ValidateScriptReference passes with the defaulted action type; its properties are the contracts of CheckTasks and BuildTask |
| Profiles.CheckTasks | backend/app/api/v1/deployment_profiles.py:209-213 | the list passes exactly when every entry's script reference passes |
| Profiles.CheckTasksFirstFailure | backend/app/api/v1/deployment_profiles.py:209-213 | the error reported is that of the first failing entry |
| Profiles.CheckTasksPrefix | backend/app/api/v1/deployment_profiles.py:209-213 | once a prefix fails, later entries do not change the error |
| Profiles.NewTasks | backend/app/api/v1/deployment_profiles.py:209-224 | one row per entry, in order, numbered from the next id |
| Profiles.ReplaceTaskList | backend/app/api/v1/deployment_profiles.py:206-230 | fails exactly when an entry's check fails, with that error and nothing changed |
| Profiles.ReplacedRows | backend/app/api/v1/deployment_profiles.py:206-224 | after replacement the profile's rows are exactly the new rows |
| Profiles.KeptRows | backend/app/api/v1/deployment_profiles.py:206 | other profiles' rows survive the replacement unchanged |
| Profiles.ReplaceTaskListResult | backend/app/api/v1/deployment_profiles.py:206-230 | the response is the new rows; the profile's old tasks are all gone and the new ones stored under fresh ids |
| Profiles.ReplaceTaskListKeepsOthers | backend/app/api/v1/deployment_profiles.py:206-230 | tasks of other profiles and all other tables are unchanged |
| Profiles.ReplaceTasksStep | backend/app/api/v1/deployment_profiles.py:198-230 | 404 for a missing profile; succeeds exactly when the profile exists and every entry passes; a failure changes nothing |
| Profiles.BuildTask | backend/app/api/v1/deployment_profiles.py:209-222 | one entry's check and defaulted row |
| Profiles.BuildTasks | backend/app/api/v1/deployment_profiles.py:209-224 | the loop stops at the first failing entry with its error, else yields all new rows in order |
| Profiles.CommitTasks | backend/app/api/v1/deployment_profiles.py:206-230 | updates the database exactly as ReplaceTaskList and keeps it valid |
| Profiles.ReplaceProfileTasks | backend/app/api/v1/deployment_profiles.py:198-230 | updates the database exactly as ReplaceTasksStep and keeps it valid |
| Profiles.TaskOrderTotal | backend/app/api/v1/deployment_profiles.py:246-251 | the (order_index, id) order is a total preorder |
| Profiles.ProfileTasks | backend/app/api/v1/deployment_profiles.py:246-251 | the tasks come sorted by (order_index, id) |
| Profiles.ProfileTasksMembers | backend/app/api/v1/deployment_profiles.py:246-251 | the listing holds exactly the stored tasks of that profile |
| Profiles.ProfileTasksOrderDetermined | backend/app/api/v1/deployment_profiles.py:116-121 | any sorted arrangement of the same tasks is that listing: the order is fully determined |
| Profiles.ProfileTasksAre | backend/app/api/v1/deployment_profiles.py:246-251 | a sorted sequence that is stored under consecutive ids and is all of the profile's tasks is the listing |
| Profiles.TaskAction | backend/app/api/v1/deployment_profiles.py:266-295 | none exactly when the task is skipped; otherwise an action for the device with the task's type and script, carrying the script's content |
| Profiles.PlanForDevice | backend/app/api/v1/deployment_profiles.py:266-295 | at most one action per task; the full order and content are lemma PlanForDeviceInOrder |
| Profiles.Unskipped | backend/app/api/v1/deployment_profiles.py:266-285 | the tasks a device is not skipped for, kept in task order, a subsequence no longer than the task list |
| Profiles.UnskippedAppend | backend/app/api/v1/deployment_profiles.py:266-285 | filtering a list with one more task at its end filters the list and then keeps that task exactly when it is not skipped |
| Profiles.PlanForDeviceInOrder | backend/app/api/v1/deployment_profiles.py:266-295 | a device's plan has one action per task it is not skipped for, in task order, each that task's action, and none for a skipped task |
| Profiles.PlanApply | backend/app/api/v1/deployment_profiles.py:256-264 | no contract; its properties are lemmas PlanApplyBound and PlanApplyDevices, and PlanDevices computes it |
| Profiles.PlanForDeviceMembers | backend/app/api/v1/deployment_profiles.py:266-295 | every planned action comes from one of the tasks, and every task not skipped yields its action |
| Profiles.PlanApplyBound | backend/app/api/v1/deployment_profiles.py:256-299 | at most one action per requested device and task |
| Profiles.PlanApplyDevices | backend/app/api/v1/deployment_profiles.py:258-264 | every planned action is for a requested, eligible device |
| Profiles.PendingActions | backend/app/api/v1/deployment_profiles.py:287-295 | one pending action per planned action, numbered from the next id |
| Profiles.ApplyStep | backend/app/api/v1/deployment_profiles.py:237-299 | 404 for a missing profile, then 400 for no devices, then 400 for no tasks, each changing nothing; succeeds otherwise |
| Profiles.AddedActions | backend/app/api/v1/deployment_profiles.py:287-297 | inserting the new actions keeps the old ones and adds exactly the planned ones |
| Profiles.ApplyCreatesPendingActions | backend/app/api/v1/deployment_profiles.py:256-299 | the count returned is the number of actions added, in plan order under fresh ids; nothing else changes |
| Profiles.ApplyCountBound | backend/app/api/v1/deployment_profiles.py:256-299 | the count is at most the number of devices times the number of tasks |
| Profiles.ApplyNewActionsArePending | backend/app/api/v1/deployment_profiles.py:287-295 | every new action is pending, created now, not completed, and for a requested eligible device |
| Profiles.ApplySkipsIneligibleDevice | backend/app/api/v1/deployment_profiles.py:258-264 | a missing, deleted or OS-mismatched device gets no action |
| Profiles.PlanDevice | backend/app/api/v1/deployment_profiles.py:266-295 | the inner task loop computes PlanForDevice |
| Profiles.PlanDevices | backend/app/api/v1/deployment_profiles.py:256-295 | the outer device loop computes PlanApply |
| Profiles.ApplyCommits | backend/app/api/v1/deployment_profiles.py:287-299 | a passing apply inserts all planned actions at once and returns their count |
| Profiles.FanOut | backend/app/api/v1/deployment_profiles.py:286-296 | storing the planned actions as pending rows under fresh ids keeps the tables valid |
| Profiles.CommitFanOut | backend/app/api/v1/deployment_profiles.py:293-296 | the session's tables become FanOut of the tables before the call |
| Profiles.ApplyProfileToDevices | backend/app/api/v1/deployment_profiles.py:237-299 | updates the database exactly as ApplyStep and keeps it valid |
| Templates.TemplateGuard | backend/app/api/v1/templates.py:98-107 | found exactly when the id exists and is a template; otherwise 404 |
| Templates.GetTemplate | backend/app/api/v1/templates.py:50-69 | 404 exactly when the id is not a template; otherwise the template and its task listing (ProfileTasks), sorted by (order_index, id) |
| Templates.GetTemplateTasks | backend/app/api/v1/templates.py:62-67 | the tasks answered are exactly the template's stored tasks, each as stored |
| Templates.NameOrderTotal | backend/app/api/v1/templates.py:44 | ordering by name is a total preorder |
| Templates.ListTemplates | backend/app/api/v1/templates.py:39-47 | the listing is sorted by name |
| Templates.ListTemplatesMembers | backend/app/api/v1/templates.py:41-46 | the listing holds exactly the stored template profiles |
| Templates.ReplaceTemplateTasksStep | backend/app/api/v1/templates.py:94-133 | 404 when not a template; succeeds exactly when a template and every entry passes |
| Templates.ReplaceTemplateTasksAsProfile | backend/app/api/v1/templates.py:109-133 | on a template it behaves exactly as the profile bulk replacement, with the same defaults |
| Templates.ReplaceTemplateTasks | backend/app/api/v1/templates.py:94-133 | updates the database exactly as ReplaceTemplateTasksStep and keeps it valid |
| Templates.Clones | backend/app/api/v1/templates.py:269-279 | one copy per task, in order, with only the id and profile id changed |
| Templates.Instance | backend/app/api/v1/templates.py:253-258 | no contract; its properties are lemma InstantiateCreatesProfile |
| Templates.Clone | backend/app/api/v1/templates.py:270-278 | no contract; its properties are the contract of Clones and lemma InstantiateClonesTasks |
| Templates.InstantiateStep | backend/app/api/v1/templates.py:236-293 | succeeds exactly for a template; otherwise 404 and nothing changed |
| Templates.ClonesKeyed | backend/app/api/v1/templates.py:269-281 | inserting the copies keeps the task table keyed by id |
| Templates.InstantiateCreatesProfile | backend/app/api/v1/templates.py:253-260 | a new non-template profile under a fresh id, name defaulting to "{name} (copy)", description falling back to the template's, OS copied; the template itself unchanged |
| Templates.ClonedRows | backend/app/api/v1/templates.py:269-281 | the copies are stored under consecutive new ids and old rows are kept |
| Templates.InstantiateClonesTasks | backend/app/api/v1/templates.py:262-281 | every template task is copied, in order, with identical fields except id and profile id; existing tasks are unchanged |
| Templates.ClonesSorted | backend/app/api/v1/templates.py:262-279 | copying keeps the (order_index, id) order |
| Templates.InstantiateReloadsClones | backend/app/api/v1/templates.py:284-291 | reloading the new profile's tasks gives exactly the copies, in order |
| Templates.CopiesReload | backend/app/api/v1/templates.py:284-291 | the sorted listing of the new profile is the copy sequence |
| Templates.ClonedProfileRows | backend/app/api/v1/templates.py:269-281 | the new profile owns exactly the copied rows |
| Templates.CloneTasks | backend/app/api/v1/templates.py:269-279 | the copy loop computes Clones |
| Templates.CommitInstance | backend/app/api/v1/templates.py:259-281 | the new profile is stored under the next profile id and its copies under the next task ids; nothing else changes |
| Templates.InstantiateTemplate | backend/app/api/v1/templates.py:236-293 | updates the database exactly as InstantiateStep and keeps it valid |
| Templates.UpdateTemplateStep | backend/app/api/v1/templates.py:298-331 | 404 when not a template, 400 for a disallowed OS type, both changing nothing; succeeds otherwise |
| Templates.UpdateTemplateStaysTemplate | backend/app/api/v1/templates.py:313-326 | the updated profile is still a template, whatever the request says |
| Templates.UpdateTemplateAsProfile | backend/app/api/v1/templates.py:313-326 | a template update is a profile update with is_template dropped from the request |
| Templates.UpdateTemplate | backend/app/api/v1/templates.py:298-331 | updates the database exactly as UpdateTemplateStep and keeps it valid |
| DeviceActions.CheckActionCreate | backend/app/api/v1/device_actions.py:17-52 | 404 for a missing or deleted device or a missing script; 400 for a language or OS mismatch or no payload; passes exactly when none applies, with the script's content replacing the payload |
| DeviceActions.ResolvedPayload | backend/app/api/v1/device_actions.py:46 | no contract; CheckActionCreate's contract states that a passing create carries it, and lemma CreateActionAdds that the new action stores it |
| DeviceActions.CreateActionStep | backend/app/api/v1/device_actions.py:15-64 | succeeds exactly when the checks pass; a failure changes nothing |
| DeviceActions.CreateActionAdds | backend/app/api/v1/device_actions.py:46-60 | the new action is pending, for the requested device, with the resolved payload, under a fresh id; nothing else changes |
| DeviceActions.CreateActionNeedsPayload | backend/app/api/v1/device_actions.py:48-52 | no payload and no script gives 400 and creates nothing |
| DeviceActions.CreateActionForDevice | backend/app/api/v1/device_actions.py:15-64 | updates the database exactly as CreateActionStep and keeps it valid |
| DeviceActions.NewestFirstTotal | backend/app/api/v1/device_actions.py:80 | newest-first order is a total preorder |
| DeviceActions.ListActionsForDevice | backend/app/api/v1/device_actions.py:67-83 | 404 exactly for a missing or deleted device; otherwise sorted by creation time, newest first |
| DeviceActions.ListActionsMembers | backend/app/api/v1/device_actions.py:77-82 | the listing holds exactly the device's stored actions |
| Scripts.ValidateTargetOs | backend/app/api/v1/scripts.py:14-19 | passes exactly for none or an allowed OS type; otherwise 400 with the list of allowed types |
| Scripts.ValidateLanguage | backend/app/api/v1/scripts.py:22-27 | passes exactly for none, powershell or bash; otherwise 400 |
| Scripts.CreateScriptStep | backend/app/api/v1/scripts.py:35-44 | OS type checked first, then language, each failing with 400 and inserting nothing; succeeds exactly when the OS type is absent or allowed and the language is absent or allowed; the stored language is then always an allowed one |
| Scripts.CreateScriptAdds | backend/app/api/v1/scripts.py:40-44 | a create stores exactly the supplied fields under a fresh id and changes nothing else; a null language stores the column default "powershell" (backend/app/models/script.py:14) |
| Scripts.CreateScript | backend/app/api/v1/scripts.py:35-44 | updates the database exactly as CreateScriptStep and keeps it valid |
| Scripts.GetScript | backend/app/api/v1/scripts.py:47-52 | the stored script, or 404 exactly when the id is unknown |
| Scripts.UpdateScriptStep | backend/app/api/v1/scripts.py:55-72 | 404 for an unknown id; 400 when a present key fails its check; 500 when the language key is present and null, which the NOT NULL column (backend/app/models/script.py:14) rejects; succeeds exactly when none of these applies; a failure changes nothing |
| Scripts.UpdateScriptChangesOnlyPresent | backend/app/api/v1/scripts.py:61-69 | each present key is set (a present language to its given value), each absent key kept, and no other script changes |
| Scripts.UpdateIgnoresAbsentKeys | backend/app/api/v1/scripts.py:63-66 | an update naming neither OS type nor language is never rejected |
| Scripts.UpdateScript | backend/app/api/v1/scripts.py:55-72 | updates the database exactly as UpdateScriptStep and keeps it valid |
| Scripts.DeleteScriptStep | backend/app/api/v1/scripts.py:75-82 | succeeds exactly for a known id; otherwise 404 and nothing changed |
| Scripts.DeleteScriptRemovesOnlyTarget | backend/app/api/v1/scripts.py:80-81 | delete removes only the target, which can no longer be fetched |
| Scripts.DeleteScript | backend/app/api/v1/scripts.py:75-82 | updates the database exactly as DeleteScriptStep and keeps it valid |
| ScriptsLibrary.ScriptNameOrderTotal | backend/app/api/v1/scripts_library.py:15 | ordering by name is a total preorder |
| ScriptsLibrary.ListScripts | backend/app/api/v1/scripts_library.py:13-16 | the listing is sorted by name |
| ScriptsLibrary.ListScriptsMembers | backend/app/api/v1/scripts_library.py:15 | the listing holds exactly the stored scripts |
| ScriptsLibrary.ScriptNamed | backend/app/api/v1/scripts_library.py:31 | a found id holds a script of that name; none found means no script has it |
| ScriptsLibrary.CreateLibraryScriptStep | backend/app/api/v1/scripts_library.py:29-48 | succeeds exactly when no script has the name; otherwise 400 "Script with this name already exists" and nothing inserted |
| ScriptsLibrary.CreateLibraryScriptAdds | backend/app/api/v1/scripts_library.py:38-44 | a create stores exactly the supplied fields under a fresh id, a null language as the column default "powershell" (backend/app/models/script.py:14), changes nothing else, and keeps names unique |
| ScriptsLibrary.CreateLibraryScript | backend/app/api/v1/scripts_library.py:29-48 | updates the database exactly as CreateLibraryScriptStep and keeps it valid |
| SoftwareSchema.CreateErrors | backend/app/schemas/software.py:20-38 | one error per failing validator: installer type, source type, target OS; none exactly when all three pass |
| SoftwareSchema.UpdateErrors | backend/app/schemas/software.py:56-78 | the same three validators, each passing an absent value |
| SoftwareSchema.ParseCreate | backend/app/schemas/software.py:9-42 | the body unchanged when valid, else 422 with every failing field |
| SoftwareSchema.ParseUpdate | backend/app/schemas/software.py:45-78 | the body unchanged when valid, else 422 with every failing field |
| SoftwareSchema.UpdateChecksLikeCreate | backend/app/schemas/software.py:56-78 | an update giving all three fields is judged exactly as a create with them |
| SoftwareSchema.UpdateWithoutCheckedFieldsPasses | backend/app/schemas/software.py:56-78 | an update leaving the three fields out always passes |
| OsTypes.FindOption | web/lib/osTypes.ts:28 | the first option with that value, or none exactly when no option has it |
| OsTypes.FormatTargetOs | web/lib/osTypes.ts:26-30 | no contract; its properties are lemmas FormatFalsy, FormatKnown and FormatUnknown |
| OsTypes.OptionsMatchBackend | web/lib/osTypes.ts:14-24 | nine options with distinct values, in the backend's order |
| OsTypes.FormatFalsy | web/lib/osTypes.ts:27 | a missing or empty value shows "Any OS" |
| OsTypes.FormatKnown | web/lib/osTypes.ts:28-29 | each known value shows its own label |
| OsTypes.FormatUnknown | web/lib/osTypes.ts:29 | an unknown value is shown as it is |
| DeviceStatusBadge.BucketOf | web/components/DeviceStatusBadge.tsx:15-22 | the four buckets are disjoint and exhaustive; each count is the floor of the difference in its unit |
| DeviceStatusBadge.Render | web/components/DeviceStatusBadge.tsx:19-22 | the text ends in "w" for just now and in "o" ("ago") otherwise |
| DeviceStatusBadge.RenderInjective | web/components/DeviceStatusBadge.tsx:19-22 | different buckets never render alike |
| DeviceStatusBadge.FormatRelative | web/components/DeviceStatusBadge.tsx:9-23 | no contract; its properties are lemma FormatRelativeCases |
| DeviceStatusBadge.FormatRelativeCases | web/components/DeviceStatusBadge.tsx:9-23 | no check-in, an unparsable time, under a minute (future included), minutes, hours, days: each range gives its text |
| DeviceStatusBadge.LowerAsciiIdempotent | web/components/DeviceStatusBadge.tsx:26 | lower-casing twice is lower-casing once |
| DeviceStatusBadge.IsOnline | web/components/DeviceStatusBadge.tsx:26-27 | no contract; its properties are lemmas OnlineIgnoresCase and OnlineExamples |
| DeviceStatusBadge.OnlineIgnoresCase | web/components/DeviceStatusBadge.tsx:26-27 | the online decision ignores case |
| DeviceStatusBadge.OnlineExamples | web/components/DeviceStatusBadge.tsx:26-27 | a missing status is offline; "online" in any case is online |
| ProfileEditor.DefaultTask | web/components/ProfileEditorModal.tsx:37-47 | a fresh row is named "Task {n+1}", ordered n, PowerShell inline, continuing on error, with an empty description and no script |
| ProfileEditor.UpdateTask | web/components/ProfileEditorModal.tsx:114-116 | no contract; its properties are lemma UpdateTaskChangesOnlyMatch |
| ProfileEditor.AddTask | web/components/ProfileEditorModal.tsx:118-120 | no contract; its properties are lemma AddTaskAppends |
| ProfileEditor.RemoveTask | web/components/ProfileEditorModal.tsx:122-124 | no contract; its properties are lemma RemoveTaskNeverEmpties |
| ProfileEditor.WithoutId | web/components/ProfileEditorModal.tsx:123 | keeps exactly the rows with a different key, and never grows |
| ProfileEditor.UpdateTaskChangesOnlyMatch | web/components/ProfileEditorModal.tsx:114-116 | length and order kept; only rows with the key are patched; keys stay distinct when the key is not patched |
| ProfileEditor.AddTaskAppends | web/components/ProfileEditorModal.tsx:118-120 | one row appended with order equal to the old length; existing rows unchanged |
| ProfileEditor.WithoutIdShape | web/components/ProfileEditorModal.tsx:123 | on distinct keys the filter removes exactly one row when the key is present and none otherwise |
| ProfileEditor.RemoveTaskNeverEmpties | web/components/ProfileEditorModal.tsx:122-124 | the list never becomes empty: a single row stays; otherwise exactly the rows with the key go |
| ProfileEditor.TrimmedOrNone | web/components/ProfileEditorModal.tsx:138 | absent exactly when the trimmed text is empty, else the trimmed text |
| ProfileEditor.BasePayload | web/components/ProfileEditorModal.tsx:136-141 | no contract; its properties are lemma BasePayloadFields |
| ProfileEditor.TaskPayloadOf | web/components/ProfileEditorModal.tsx:155-162 | no contract; its properties are lemmas TaskPayloadDefaults and DefaultRowSubmitsAsBlank |
| ProfileEditor.TaskPayloadDefaults | web/components/ProfileEditorModal.tsx:155-163 | a blank name becomes "Task {index+1}", order defaults to the index, type to powershell_inline, continue-on-error to true; filled-in values are kept |
| ProfileEditor.DefaultRowSubmitsAsBlank | web/components/ProfileEditorModal.tsx:37-47 | an untouched default row is submitted exactly like an empty row |
| ProfileEditor.TaskRequests | web/components/ProfileEditorModal.tsx:155-165 | one task request per row, in list order, each against the new profile |
| ProfileEditor.SubmitRequests | web/components/ProfileEditorModal.tsx:126-165 | no contract; its properties are lemmas SubmitBlankSendsNothing, SubmitEditSendsOneUpdate and SubmitCreateSendsProfileThenTasks |
| ProfileEditor.SubmitBlankSendsNothing | web/components/ProfileEditorModal.tsx:127-130 | a submit sends nothing exactly when the trimmed name is blank |
| ProfileEditor.BasePayloadFields | web/components/ProfileEditorModal.tsx:136-141 | the trimmed non-empty name; blank description and unset OS sent as absent; a template editor always sends is_template |
| ProfileEditor.SubmitEditSendsOneUpdate | web/components/ProfileEditorModal.tsx:143-150 | an edit sends one update of the edited profile, to the template route exactly when the editor or the profile is a template |
| ProfileEditor.SubmitCreateSendsProfileThenTasks | web/components/ProfileEditorModal.tsx:152-165 | a create sends the profile first, then one request per row in order |
| ProfileEditor.Editor.constructor | web/components/ProfileEditorModal.tsx:58-67 | an empty form with one default row, no error, not submitting |
| ProfileEditor.Editor.Open | web/components/ProfileEditorModal.tsx:76-112 | clears the error; loads the edited profile or resets the form; a create form restarts from one default row; the rows stay valid |
| ProfileEditor.Editor.EditRow | web/components/ProfileEditorModal.tsx:114-116 | the rows become UpdateTask of the old rows and stay non-empty with distinct keys |
| ProfileEditor.Editor.AddRow | web/components/ProfileEditorModal.tsx:118-120 | the rows become AddTask of the old rows and stay non-empty with distinct keys |
| ProfileEditor.Editor.RemoveRow | web/components/ProfileEditorModal.tsx:122-124 | the rows become RemoveTask of the old rows and stay non-empty with distinct keys |
| ProfileEditor.Editor.SendTaskRequests | web/components/ProfileEditorModal.tsx:155-165 | the loop sends exactly TaskRequests, in order, after what was sent before |
| ProfileEditor.Editor.SendCreateRequests | web/components/ProfileEditorModal.tsx:152-165 | the profile create, then the task requests |
| ProfileEditor.Editor.HandleSubmit | web/components/ProfileEditorModal.tsx:126-175 | sends exactly SubmitRequests of the form; sets "Name is required" only for a blank name; busy flag cleared after a send |
| Store.InsertAt | backend/app/api/v1/deployment_profiles.py:287-297 | rows added under consecutive new ids above every existing key, existing rows kept |
| Common.NatToStringRoundTrip | backend/app/api/v1/deployment_profiles.py:216 | the decimal text of a number parses back to it |
| Common.IntToStringRoundTrip | backend/app/api/v1/agent.py:117 | the decimal text of an integer, sign included, parses back to it |
| Common.Trim | web/components/ProfileEditorModal.tsx:127 | no contract; its properties are lemmas TrimSlice and TrimEmptyIff |
| Common.TrimSlice | web/components/ProfileEditorModal.tsx:127 | trim removes only leading and trailing blanks: the result is a slice of the input |
| Common.TrimEmptyIff | web/components/ProfileEditorModal.tsx:127 | a string trims to empty exactly when it is all blanks |
| Ordering.SortBy | backend/app/api/v1/scripts_library.py:15 | the sorted sequence is ordered and a permutation of the input |
| Ordering.SortedUnique | backend/app/api/v1/deployment_profiles.py:246-251 | two sorted arrangements of the same rows are equal when no two different rows tie |
| Ordering.Select | backend/app/api/v1/deployment_profiles.py:246-251 | the keys of the matching rows, ascending |
| Ordering.SortedSelectionMembers | backend/app/api/v1/templates.py:41-46 | a sorted filtered listing holds exactly the matching stored rows |

The script library's `get_script` (backend/app/api/v1/scripts_library.py:19-26)
behaves exactly as the scripts router's and is modelled by `Scripts.GetScript`.

## Left out

- Sessions, commits, rollback and concurrency. Each handler is one sequential step on an in-memory
  store. The heartbeat's select-then-mark takes no lock, so nothing is claimed about
  concurrent heartbeats.
- Database unique constraints that the handlers do not check themselves, for example a
  duplicate profile name on update. In the source these end as a database error, a 500; the model
  stores the row.
- Wall-clock reads (`datetime.utcnow`, `Date.now`, `new Date` parsing) and the browser's
  `crypto.randomUUID`. They are the parameters `now`, `diffMs` and `localId`; a time that does not
  parse is `None`.
- Field drift between the handlers and the declared models and schemas:
  - the handlers read `Device.is_deleted`, `Action.script_id`, `Script.target_os_type`, `DeploymentProfile.is_template`
    and the register request's `os_type`, which the declared models lack; these are modelled as the handlers read them;
  - the `ACTION_STATUS_*` names are not defined where they are imported; the literal statuses
    "pending", "running", "succeeded" and "failed" are used;
  - the schemas `DeploymentProfileUpdate`, `ProfileTaskUpsert` and `ProfileTasksBulkUpdate` are not
    part of this model; their fields are taken from what the handlers read;
  - the declared `ScriptCreate` (backend/app/schemas/script.py:7-15) has `name`, `description`, `body` and
    `tags`, with no `language`, `target_os_type` or `content`, and `ScriptUpdate`, imported at
    backend/app/api/v1/scripts.py:9, is not declared at all. The creates of both script routers
    (backend/app/api/v1/scripts.py:37-40, backend/app/api/v1/scripts_library.py:38-44) read the fields
    the schema lacks. The model's create body carries the fields those handlers read: `name`,
    `description`, an optional `language` and `target_os_type`, and `content`. `body` and `tags` are
    left out.
  - the declared `ActionCreate` (backend/app/schemas/action.py:7-17) requires a body `device_id` and
    has `status`, `logs` and `completed_at`, but no `script_id`. `create_action_for_device` reads
    `body.script_id` (backend/app/api/v1/device_actions.py:27-28, :58), takes the device from the path
    and stores the action as pending. The model's `DeviceActions.ActionCreate` carries what the handler
    reads: the action type, the payload and an optional script id. The body's `device_id`, `status`,
    `logs` and `completed_at`, which the handler ignores, are left out.
- Routing. backend/app/api/v1/routes.py mounts neither templates.py nor scripts.py, and
  `PUT /profiles/{id}/tasks/bulk` is declared after `PUT /profiles/{id}/tasks/{task_id}`, which
  matches first. The handlers are modelled on their own.
- Agent.PendingIds: the heartbeat's query has no `ORDER BY`. The model returns the pending actions
  by ascending id and claims no other delivery order.
- Listing order ties: rows with equal names or creation times come out by ascending id. Names compare by
  code point, not by a database collation.
- Agent.HeartbeatStep: the heartbeat does not check `is_deleted`, and neither does the model.
- DeviceStatusBadge.IsOnline: lower-casing covers ASCII letters only, not all of JavaScript's
  `toLowerCase`.
- Scripts.UpdateScriptStep: only the `language` key can be sent as null. `ScriptUpdate` is not declared,
  so the model gives `name` and `content` non-null values and does not show the 500 a null in them would
  also cause.
- The scripts router's `list_scripts` (backend/app/api/v1/scripts.py:30-32) returns rows in no stated
  order, and is not modelled.
- Endpoints with no rules beyond a lookup: list/get/delete profile, the per-task create, update and delete of
  profiles and templates, `list_template_tasks` and `delete_template`.
- ProfileEditor.Editor.HandleSubmit: every request is taken to succeed. The catch branch, the
  `onCreated`, `onSaved` and `onClose` callbacks and the script list fetched on open are not modelled.
- ProfileEditor.RemoveTaskNeverEmpties: the exact-membership part assumes the row keys are
  distinct, which `crypto.randomUUID` gives in practice and the editor's `RowsValid` keeps.
- `ProfileTask.software_id` (backend/app/models/profile_task.py:22) is not part of the task row.
  No handler of the model sets it, and `instantiate_template` (backend/app/api/v1/templates.py:270-278)
  does not copy it either.
- Templates.InstantiateReloadsClones: it assumes every stored task belongs to an existing
  profile (`TasksReferenceProfiles`), which the foreign key gives in the source.
- The agent program, its executor and HTTP client, the web pages and the other forms: process,
  network and presentation code.
