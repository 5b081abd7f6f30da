/** The profile editor of the web client (`web/components/ProfileEditorModal.tsx`):
    the task-list reducers behind the form, and the submit handler that turns
    the form into requests, one at a time. */
module ProfileEditor {
  import opened Common
  import opened Constants

  /** One row of the task form; `localId` is the client-side key. */
  datatype TaskInput = TaskInput(
    localId: string,
    name: Option<string>,
    description: Option<string>,
    orderIndex: Option<int>,
    actionType: Option<string>,
    scriptId: Option<int>,
    continueOnError: Option<bool>)

  /** `defaultTask(order)`; the random UUID is the parameter `localId`. */
  function DefaultTask(order: nat, localId: string): (t: TaskInput)
    ensures t.localId == localId
    ensures t.name == Some("Task " + NatToString(order + 1)) && t.description == Some("")
    ensures t.orderIndex == Some(order) && t.actionType == Some("powershell_inline")
    ensures t.scriptId.None? && t.continueOnError == Some(true)
  {
    TaskInput(localId, Some("Task " + NatToString(order + 1)), Some(""), Some(order), Some(DefaultActionType), None, Some(true))
  }

  // ---------------------------------------------------------------------------
  // The reducers

  /** `Partial<TaskInput>`: the keys an update spreads over the row. */
  datatype TaskPatch = TaskPatch(
    localId: Patch<string>,
    name: Patch<Option<string>>,
    description: Patch<Option<string>>,
    orderIndex: Patch<Option<int>>,
    actionType: Patch<Option<string>>,
    scriptId: Patch<Option<int>>,
    continueOnError: Patch<Option<bool>>)

  /** `{ ...task, ...updates }`. */
  function Spread(t: TaskInput, u: TaskPatch): TaskInput {
    TaskInput(u.localId.Apply(t.localId), u.name.Apply(t.name), u.description.Apply(t.description),
              u.orderIndex.Apply(t.orderIndex), u.actionType.Apply(t.actionType),
              u.scriptId.Apply(t.scriptId), u.continueOnError.Apply(t.continueOnError))
  }

  function UpdateTask(tasks: seq<TaskInput>, localId: string, u: TaskPatch): seq<TaskInput> {
    seq(|tasks|, i requires 0 <= i < |tasks| => if tasks[i].localId == localId then Spread(tasks[i], u) else tasks[i])
  }

  function AddTask(tasks: seq<TaskInput>, localId: string): seq<TaskInput> {
    tasks + [DefaultTask(|tasks|, localId)]
  }

  /** `prev.filter(task => task.localId !== localId)`. */
  function WithoutId(tasks: seq<TaskInput>, localId: string): (r: seq<TaskInput>)
    ensures |r| <= |tasks|
    ensures forall x :: x in r <==> x in tasks && x.localId != localId
  {
    if tasks == [] then []
    else
      var n := |tasks| - 1;
      var rest := WithoutId(tasks[..n], localId);
      assert tasks == tasks[..n] + [tasks[n]];
      if tasks[n].localId == localId then rest else rest + [tasks[n]]
  }

  function RemoveTask(tasks: seq<TaskInput>, localId: string): seq<TaskInput> {
    if |tasks| == 1 then tasks else WithoutId(tasks, localId)
  }

  /** The keys of the form are distinct, as random UUIDs are. */
  predicate DistinctIds(tasks: seq<TaskInput>) {
    forall i, j :: 0 <= i < j < |tasks| ==> tasks[i].localId != tasks[j].localId
  }

  /** An update keeps the length and the order and changes exactly the row
      with the key. */
  lemma UpdateTaskChangesOnlyMatch(tasks: seq<TaskInput>, localId: string, u: TaskPatch)
    ensures var r := UpdateTask(tasks, localId, u);
      && |r| == |tasks|
      && (forall i :: 0 <= i < |tasks| && tasks[i].localId != localId ==> r[i] == tasks[i])
      && (forall i :: 0 <= i < |tasks| && tasks[i].localId == localId ==> r[i] == Spread(tasks[i], u))
      && (u.localId.Keep? && DistinctIds(tasks) ==> DistinctIds(r))
  {
  }

  /** An add appends one default row numbered after the existing ones. */
  lemma AddTaskAppends(tasks: seq<TaskInput>, localId: string)
    ensures var r := AddTask(tasks, localId);
      && |r| == |tasks| + 1 && r[..|tasks|] == tasks
      && r[|tasks|].orderIndex == Some(|tasks|) && r[|tasks|].localId == localId
      && (DistinctIds(tasks) && (forall i :: 0 <= i < |tasks| ==> tasks[i].localId != localId) ==> DistinctIds(r))
  {
  }

  /** A filter keeps the order of what it keeps, and removes one row per
      matching key. */
  lemma {:induction false} WithoutIdShape(tasks: seq<TaskInput>, localId: string)
    requires DistinctIds(tasks)
    ensures DistinctIds(WithoutId(tasks, localId))
    ensures |WithoutId(tasks, localId)| == |tasks| - (if exists i :: 0 <= i < |tasks| && tasks[i].localId == localId then 1 else 0)
  {
    if tasks != [] {
      var n := |tasks| - 1;
      var rest := WithoutId(tasks[..n], localId);
      WithoutIdShape(tasks[..n], localId);
      if tasks[n].localId == localId {
        assert forall i :: 0 <= i < n ==> tasks[..n][i].localId != localId;
      } else {
        forall i | 0 <= i < |rest| ensures rest[i].localId != tasks[n].localId {
          assert rest[i] in rest;
          var k :| 0 <= k < n && tasks[k] == rest[i];
        }
        if exists i :: 0 <= i < |tasks| && tasks[i].localId == localId {
          var i :| 0 <= i < |tasks| && tasks[i].localId == localId;
          assert tasks[..n][i].localId == localId;
        }
      }
    }
  }

  /** A remove never empties a non-empty list of distinct keys: a single row
      stays, and otherwise exactly the row with the key goes. */
  lemma RemoveTaskNeverEmpties(tasks: seq<TaskInput>, localId: string)
    requires |tasks| >= 1 && DistinctIds(tasks)
    ensures var r := RemoveTask(tasks, localId);
      && |r| >= 1 && DistinctIds(r)
      && (|tasks| == 1 ==> r == tasks)
      && (|tasks| > 1 ==> forall x :: x in r <==> x in tasks && x.localId != localId)
  {
    if |tasks| > 1 {
      WithoutIdShape(tasks, localId);
    }
  }

  // ---------------------------------------------------------------------------
  // handleSubmit

  datatype Mode = ProfileMode | TemplateMode
  datatype Variant = CreateVariant | EditVariant

  /** The profile being edited, as the form reads it. */
  datatype Initial = Initial(
    id: int, name: string, description: Option<string>, targetOsType: Option<string>, isTemplate: bool)

  datatype ProfilePayload = ProfilePayload(
    name: string, description: Option<string>, targetOsType: Option<string>, isTemplate: bool)

  datatype TaskPayload = TaskPayload(
    name: string, description: Option<string>, orderIndex: int, actionType: string,
    scriptId: Option<int>, continueOnError: bool)

  /** The requests the editor sends, in the order it sends them. */
  datatype Request =
    | CreateProfileRequest(profile: ProfilePayload)
    | UpdateProfileRequest(id: int, profile: ProfilePayload)
    | UpdateTemplateRequest(id: int, profile: ProfilePayload)
    | CreateTaskRequest(profileId: int, task: TaskPayload)

  /** `s.trim() || undefined`. */
  function TrimmedOrNone(s: string): (r: Option<string>)
    ensures r.None? <==> Trim(s) == ""
    ensures r.Some? ==> r.value == Trim(s)
  {
    var t := Trim(s);
    if t == "" then None else Some(t)
  }

  function BasePayload(name: string, description: string, targetOsType: string, isTemplate: bool, mode: Mode): ProfilePayload {
    ProfilePayload(Trim(name), TrimmedOrNone(description),
                   if targetOsType == "" then None else Some(targetOsType),
                   mode == TemplateMode || isTemplate)
  }

  /** The payload of the task at `index`, every default applied. */
  function TaskPayloadOf(index: nat, t: TaskInput): TaskPayload {
    TaskPayload(
      if t.name.Some? && Trim(t.name.value) != "" then Trim(t.name.value) else "Task " + NatToString(index + 1),
      if t.description.Some? then TrimmedOrNone(t.description.value) else None,
      t.orderIndex.GetOr(index),
      if Truthy(t.actionType) then t.actionType.value else DefaultActionType,
      t.scriptId,
      t.continueOnError.GetOr(true))
  }

  /** Each default of a submitted task, and each filled-in value kept. */
  lemma TaskPayloadDefaults(index: nat, t: TaskInput)
    ensures var p := TaskPayloadOf(index, t);
      && (t.name.None? || Trim(t.name.value) == "" ==> p.name == "Task " + NatToString(index + 1))
      && (t.name.Some? && Trim(t.name.value) != "" ==> p.name == Trim(t.name.value))
      && p.name != ""
      && (t.orderIndex.None? ==> p.orderIndex == index)
      && (t.orderIndex.Some? ==> p.orderIndex == t.orderIndex.value)
      && (!Truthy(t.actionType) ==> p.actionType == "powershell_inline")
      && (t.continueOnError.None? ==> p.continueOnError)
      && (t.continueOnError.Some? ==> p.continueOnError == t.continueOnError.value)
      && p.scriptId == t.scriptId
  {
  }

  /** A row left as `defaultTask` made it is submitted exactly like a row
      left blank: the form's defaults and the submit defaults agree. */
  lemma DefaultRowSubmitsAsBlank(index: nat, localId: string)
    ensures TaskPayloadOf(index, DefaultTask(index, localId)) ==
      TaskPayloadOf(index, TaskInput(localId, None, None, None, None, None, None))
  {
    var n := "Task " + NatToString(index + 1);
    assert n[..5] == "Task " && |n| >= 6;
    TrimOfNonBlankEdges(n);
    TrimEmptyIff("");
  }

  /** A string whose first and last characters are not blank trims to itself. */
  lemma TrimOfNonBlankEdges(s: string)
    requires |s| >= 1 && !IsJsWhitespace(s[0]) && !IsJsWhitespace(s[|s| - 1])
    ensures Trim(s) == s
  {
  }

  /** `f(i, xs[i])` for every index `i`, in order. */
  function MapIndexed<A, B>(f: (nat, A) -> B, xs: seq<A>): (r: seq<B>)
    ensures |r| == |xs|
    ensures forall i :: 0 <= i < |xs| ==> r[i] == f(i, xs[i])
  {
    if xs == [] then []
    else
      var n := |xs| - 1;
      MapIndexed(f, xs[..n]) + [f(n, xs[n])]
  }

  /** The task requests for `tasks`, one per row, in list order. */
  function TaskRequests(profileId: int, tasks: seq<TaskInput>): (r: seq<Request>)
    ensures |r| == |tasks|
    ensures forall i :: 0 <= i < |tasks| ==> r[i] == CreateTaskRequest(profileId, TaskPayloadOf(i, tasks[i]))
  {
    MapIndexed((i: nat, t: TaskInput) => CreateTaskRequest(profileId, TaskPayloadOf(i, t)), tasks)
  }

  lemma AppendAssociates<T>(a: seq<T>, b: seq<T>, c: seq<T>)
    ensures a + b + c == a + (b + c)
  {
  }

  /** The requests one submit sends: none for a blank name; one update for an
      edit, to the template route when either the editor or the profile is a
      template; otherwise the create, then one request per task row. */
  function SubmitRequests(name: string, description: string, targetOsType: string, isTemplate: bool,
                          tasks: seq<TaskInput>, mode: Mode, variant: Variant, initial: Option<Initial>,
                          createdId: int): seq<Request>
  {
    if Trim(name) == "" then []
    else
      var base := BasePayload(name, description, targetOsType, isTemplate, mode);
      if variant == EditVariant && initial.Some? then
        if mode == TemplateMode || initial.value.isTemplate then [UpdateTemplateRequest(initial.value.id, base)]
        else [UpdateProfileRequest(initial.value.id, base)]
      else
        [CreateProfileRequest(base)] + TaskRequests(createdId, tasks)
  }

  /** A blank name sends nothing, and only a blank name. */
  lemma SubmitBlankSendsNothing(name: string, description: string, targetOsType: string, isTemplate: bool,
                                tasks: seq<TaskInput>, mode: Mode, variant: Variant, initial: Option<Initial>,
                                createdId: int)
    ensures SubmitRequests(name, description, targetOsType, isTemplate, tasks, mode, variant, initial, createdId) == []
            <==> Trim(name) == ""
  {
  }

  /** The profile fields sent: the trimmed name, never empty once past the
      check; a blank description or an unset OS as absent; `is_template` set
      by a template editor. */
  lemma BasePayloadFields(name: string, description: string, targetOsType: string, isTemplate: bool, mode: Mode)
    requires Trim(name) != ""
    ensures var p := BasePayload(name, description, targetOsType, isTemplate, mode);
      && p.name == Trim(name) && p.name != ""
      && (p.description.None? <==> Trim(description) == "")
      && (p.targetOsType.None? <==> targetOsType == "")
      && p.isTemplate == (mode == TemplateMode || isTemplate)
  {
  }

  /** An edit sends exactly one update of the edited profile, to the template
      route exactly when the editor or the profile is a template. */
  lemma SubmitEditSendsOneUpdate(name: string, description: string, targetOsType: string, isTemplate: bool,
                                 tasks: seq<TaskInput>, mode: Mode, initial: Initial, createdId: int)
    requires Trim(name) != ""
    ensures var r := SubmitRequests(name, description, targetOsType, isTemplate, tasks, mode, EditVariant, Some(initial), createdId);
      && |r| == 1 && !r[0].CreateProfileRequest? && !r[0].CreateTaskRequest?
      && r[0].id == initial.id
      && r[0].profile == BasePayload(name, description, targetOsType, isTemplate, mode)
      && (r[0].UpdateTemplateRequest? <==> mode == TemplateMode || initial.isTemplate)
  {
  }

  /** A create sends the profile first, then one request per row, in list
      order, each against the id the server gave the profile. */
  lemma SubmitCreateSendsProfileThenTasks(name: string, description: string, targetOsType: string, isTemplate: bool,
                                          tasks: seq<TaskInput>, mode: Mode, variant: Variant, initial: Option<Initial>,
                                          createdId: int)
    requires Trim(name) != "" && !(variant == EditVariant && initial.Some?)
    ensures var r := SubmitRequests(name, description, targetOsType, isTemplate, tasks, mode, variant, initial, createdId);
      && |r| == |tasks| + 1
      && r[0] == CreateProfileRequest(BasePayload(name, description, targetOsType, isTemplate, mode))
      && forall i :: 0 <= i < |tasks| ==> r[i + 1] == CreateTaskRequest(createdId, TaskPayloadOf(i, tasks[i]))
  {
    var r := SubmitRequests(name, description, targetOsType, isTemplate, tasks, mode, variant, initial, createdId);
    var rest := TaskRequests(createdId, tasks);
    assert r == [r[0]] + rest;
    forall i | 0 <= i < |tasks| ensures r[i + 1] == CreateTaskRequest(createdId, TaskPayloadOf(i, tasks[i])) {
      assert r[i + 1] == rest[i];
    }
  }

  /** The editor's state; `sent` records the requests made, in order. */
  class Editor {
    var name: string
    var description: string
    var targetOsType: string
    var isTemplate: bool
    var tasks: seq<TaskInput>
    var error: Option<string>
    var submitting: bool
    var sent: seq<Request>

    /** A freshly opened create form: one default row. */
    constructor (mode: Mode, localId: string)
      ensures name == "" && description == "" && targetOsType == ""
      ensures isTemplate == (mode == TemplateMode)
      ensures tasks == [DefaultTask(0, localId)]
      ensures error.None? && !submitting && sent == []
    {
      name, description, targetOsType := "", "", "";
      isTemplate := mode == TemplateMode;
      tasks := [DefaultTask(0, localId)];
      error, submitting, sent := None, false, [];
    }

    /** The task rows are a non-empty list with distinct keys. */
    predicate RowsValid()
      reads this
    {
      |tasks| >= 1 && DistinctIds(tasks)
    }

    /** The effect run when the editor opens: the error is cleared, the form is
        loaded from the edited profile or reset, and a create form starts from
        one default row. The script list it fetches is not part of this model. */
    method Open(mode: Mode, variant: Variant, initial: Option<Initial>, localId: string)
      modifies this`name, this`description, this`targetOsType, this`isTemplate, this`tasks, this`error
      ensures error.None?
      ensures initial.Some? ==>
        && name == initial.value.name && description == initial.value.description.GetOr("")
        && targetOsType == initial.value.targetOsType.GetOr("") && isTemplate == initial.value.isTemplate
      ensures initial.None? ==>
        name == "" && description == "" && targetOsType == "" && isTemplate == (mode == TemplateMode)
      ensures tasks == if initial.None? || variant == CreateVariant then [DefaultTask(0, localId)] else old(tasks)
      ensures old(RowsValid()) || initial.None? || variant == CreateVariant ==> RowsValid()
    {
      error := None;
      if initial.Some? {
        name := initial.value.name;
        description := initial.value.description.GetOr("");
        targetOsType := initial.value.targetOsType.GetOr("");
        isTemplate := initial.value.isTemplate;
      } else {
        name, description, targetOsType := "", "", "";
        isTemplate := mode == TemplateMode;
        tasks := [DefaultTask(0, localId)];
      }
      if variant == CreateVariant {
        tasks := [DefaultTask(0, localId)];
      }
    }

    /** `updateTask`: the rows stay valid when the key is not patched. */
    method EditRow(localId: string, u: TaskPatch)
      requires RowsValid() && u.localId.Keep?
      modifies this`tasks
      ensures tasks == UpdateTask(old(tasks), localId, u)
      ensures RowsValid()
    {
      UpdateTaskChangesOnlyMatch(tasks, localId, u);
      tasks := UpdateTask(tasks, localId, u);
    }

    /** `addTask`, with a fresh key. */
    method AddRow(localId: string)
      requires RowsValid() && forall i :: 0 <= i < |tasks| ==> tasks[i].localId != localId
      modifies this`tasks
      ensures tasks == AddTask(old(tasks), localId)
      ensures RowsValid()
    {
      AddTaskAppends(tasks, localId);
      tasks := AddTask(tasks, localId);
    }

    /** `removeTask`: the list never becomes empty. */
    method RemoveRow(localId: string)
      requires RowsValid()
      modifies this`tasks
      ensures tasks == RemoveTask(old(tasks), localId)
      ensures RowsValid()
    {
      RemoveTaskNeverEmpties(tasks, localId);
      tasks := RemoveTask(tasks, localId);
    }

    /** Sends one task request per row, in list order, one at a time. */
    method SendTaskRequests(profileId: int)
      modifies this`sent
      ensures sent == old(sent) + TaskRequests(profileId, tasks)
    {
      ghost var before := sent;
      var rows := tasks;
      for index := 0 to |rows|
        invariant sent == before + TaskRequests(profileId, rows[..index])
      {
        assert rows[..index + 1][..index] == rows[..index];
        sent := sent + [CreateTaskRequest(profileId, TaskPayloadOf(index, rows[index]))];
      }
      assert rows[..|rows|] == rows;
    }

    /** The create branch: the profile first, then its task rows. */
    method SendCreateRequests(base: ProfilePayload, createdId: int)
      modifies this`sent
      ensures sent == old(sent) + ([CreateProfileRequest(base)] + TaskRequests(createdId, tasks))
    {
      sent := sent + [CreateProfileRequest(base)];
      SendTaskRequests(createdId);
      AppendAssociates(old(sent), [CreateProfileRequest(base)], TaskRequests(createdId, tasks));
    }

    /** `handleSubmit`, every request succeeding; `createdId` is the id the
        server gives the new profile. Only the error, the busy flag and the
        requests sent change. */
    method HandleSubmit(mode: Mode, variant: Variant, initial: Option<Initial>, createdId: int)
      modifies this`error, this`submitting, this`sent
      ensures sent == old(sent) + old(SubmitRequests(name, description, targetOsType, isTemplate, tasks, mode, variant, initial, createdId))
      ensures error == (if Trim(old(name)) == "" then Some("Name is required") else None)
      ensures submitting == (Trim(old(name)) == "" && old(submitting))
    {
      var n, d, os, tpl := name, description, targetOsType, isTemplate;
      if Trim(n) == "" {
        error := Some("Name is required");
      } else {
        submitting := true;
        error := None;
        var base := BasePayload(n, d, os, tpl, mode);
        if variant == EditVariant && initial.Some? {
          if mode == TemplateMode || initial.value.isTemplate {
            sent := sent + [UpdateTemplateRequest(initial.value.id, base)];
          } else {
            sent := sent + [UpdateProfileRequest(initial.value.id, base)];
          }
        } else {
          SendCreateRequests(base, createdId);
        }
        submitting := false;
      }
    }
  }
}
