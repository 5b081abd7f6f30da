/** Deployment profiles (`backend/app/api/v1/deployment_profiles.py`): the
    script-reference check, profile create and partial update, the bulk
    replacement of a profile's task list with its defaults, and the fan-out
    that turns a profile's tasks into pending actions on a list of devices. */
module Profiles {
  import opened Common
  import opened Constants
  import opened Ordering
  import opened Store

  // ---------------------------------------------------------------------------
  // _validate_script_reference

  /** A PowerShell action type paired with a script not written in PowerShell. */
  predicate LanguageMismatch(actionType: string, script: Script) {
    IsPowerShellType(actionType) && script.language != "powershell"
  }

  function ValidateScriptReference(scripts: map<int, Script>, actionType: string, scriptId: int): (r: Result<Script>)
    ensures scriptId !in scripts ==> r.Err? && r.code == NotFound
    ensures r.Ok? <==> scriptId in scripts && !LanguageMismatch(actionType, scripts[scriptId])
    ensures r.Ok? ==> r.value == scripts[scriptId]
    ensures r.Err? && scriptId in scripts ==> r.code == BadRequest
  {
    if scriptId !in scripts then Err(NotFound, "Script not found")
    else if LanguageMismatch(actionType, scripts[scriptId]) then
      Err(BadRequest, "Script language mismatch for PowerShell action")
    else Ok(scripts[scriptId])
  }

  // ---------------------------------------------------------------------------
  // create_profile / update_profile

  datatype ProfileCreate = ProfileCreate(
    name: string,
    description: Option<string>,
    targetOsType: Option<string>,
    isTemplate: bool)

  /** The keys a partial update sets; absent keys are `Keep`. */
  datatype ProfileUpdate = ProfileUpdate(
    name: Patch<string>,
    description: Patch<Option<string>>,
    targetOsType: Patch<Option<string>>,
    isTemplate: Patch<bool>)

  ghost predicate UniqueProfileNames(profiles: map<int, Profile>) {
    forall a, b :: a in profiles && b in profiles && profiles[a].name == profiles[b].name ==> a == b
  }

  /** The first profile, by id, called `name`. */
  function ProfileNamed(profiles: map<int, Profile>, next: nat, name: string): (r: Option<int>)
    ensures r.Some? ==> r.value in profiles && profiles[r.value].name == name
    ensures r.None? ==> forall k :: k in profiles && 0 <= k < next ==> profiles[k].name != name
  {
    var ks := Select(profiles, next, (p: Profile) => p.name == name);
    if ks == [] then None else Some(ks[0])
  }

  function CreateProfileStep(t: Tables, body: ProfileCreate): (out: (Result<Profile>, Tables))
    requires ValidTables(t)
    ensures ValidTables(out.1)
    ensures out.0.Ok? <==>
      (forall k :: k in t.profiles ==> t.profiles[k].name != body.name) && OsAllowed(body.targetOsType)
    ensures out.0.Err? ==> out.0.code == BadRequest && out.1 == t
  {
    if ProfileNamed(t.profiles, t.nextProfileId, body.name).Some? then
      (Err(BadRequest, "Profile with this name already exists"), t)
    else if !OsAllowed(body.targetOsType) then
      (Err(BadRequest, OsTypeError), t)
    else
      var p := Profile(t.nextProfileId, body.name, body.description, body.targetOsType, body.isTemplate);
      (Ok(p), t.(profiles := t.profiles[p.id := p], nextProfileId := p.id + 1))
  }

  /** A successful create stores exactly one new profile, under the next id,
      holding the supplied fields; nothing else changes, and profile names stay
      unique. */
  lemma CreateProfileAdds(t: Tables, body: ProfileCreate)
    requires ValidTables(t)
    requires CreateProfileStep(t, body).0.Ok?
    ensures var (r, t') := CreateProfileStep(t, body);
      var id := t.nextProfileId;
      && id !in t.profiles
      && r.value == Profile(id, body.name, body.description, body.targetOsType, body.isTemplate)
      && t'.profiles == t.profiles[id := r.value]
      && t'.(profiles := t.profiles, nextProfileId := t.nextProfileId) == t
      && (UniqueProfileNames(t.profiles) ==> UniqueProfileNames(t'.profiles))
  {
  }

  predicate PatchOsAllowed(p: Patch<Option<string>>) {
    p.Keep? || OsAllowed(p.value)
  }

  /** `setattr` of every key present in the update. */
  function Patched(p: Profile, u: ProfileUpdate): Profile {
    p.(name := u.name.Apply(p.name),
       description := u.description.Apply(p.description),
       targetOsType := u.targetOsType.Apply(p.targetOsType),
       isTemplate := u.isTemplate.Apply(p.isTemplate))
  }

  function UpdateProfileStep(t: Tables, id: int, u: ProfileUpdate): (out: (Result<Profile>, Tables))
    requires ValidTables(t)
    ensures ValidTables(out.1)
    ensures id !in t.profiles ==> out == (Err(NotFound, "Profile not found"), t)
    ensures id in t.profiles && !PatchOsAllowed(u.targetOsType) ==> out == (Err(BadRequest, OsTypeError), t)
    ensures out.0.Ok? <==> id in t.profiles && PatchOsAllowed(u.targetOsType)
  {
    if id !in t.profiles then (Err(NotFound, "Profile not found"), t)
    else if !PatchOsAllowed(u.targetOsType) then (Err(BadRequest, OsTypeError), t)
    else
      var p := Patched(t.profiles[id], u);
      (Ok(p), t.(profiles := t.profiles[id := p]))
  }

  /** An update changes only the keys present in the request, and only on the
      addressed profile. */
  lemma UpdateProfileChangesOnlyPresent(t: Tables, id: int, u: ProfileUpdate)
    requires ValidTables(t) && id in t.profiles && PatchOsAllowed(u.targetOsType)
    ensures var (r, t') := UpdateProfileStep(t, id, u);
      var before := t.profiles[id];
      var after := t'.profiles[id];
      && r == Ok(after)
      && after.id == id
      && (u.name.Keep? ==> after.name == before.name)
      && (u.name.Set? ==> after.name == u.name.value)
      && (u.description.Keep? ==> after.description == before.description)
      && (u.description.Set? ==> after.description == u.description.value)
      && (u.targetOsType.Keep? ==> after.targetOsType == before.targetOsType)
      && (u.targetOsType.Set? ==> after.targetOsType == u.targetOsType.value)
      && (u.isTemplate.Keep? ==> after.isTemplate == before.isTemplate)
      && (u.isTemplate.Set? ==> after.isTemplate == u.isTemplate.value)
      && t'.profiles.Keys == t.profiles.Keys
      && (forall k :: k in t.profiles && k != id ==> t'.profiles[k] == t.profiles[k])
      && t'.(profiles := t.profiles) == t
  {
  }

  /** An update with no keys present leaves the tables as they were. */
  lemma EmptyUpdateIsNoOp(t: Tables, id: int)
    requires ValidTables(t) && id in t.profiles
    ensures UpdateProfileStep(t, id, ProfileUpdate(Keep, Keep, Keep, Keep)) == (Ok(t.profiles[id]), t)
  {
    assert t.profiles[id := t.profiles[id]] == t.profiles;
  }

  method CreateProfile(db: Db, body: ProfileCreate) returns (r: Result<Profile>)
    requires db.Valid()
    modifies db
    ensures (r, db.State()) == CreateProfileStep(old(db.State()), body)
    ensures db.Valid()
  {
    var existing := ProfileNamed(db.profiles, db.nextProfileId, body.name);
    if existing.Some? {
      return Err(BadRequest, "Profile with this name already exists");
    }
    if body.targetOsType.Some? && body.targetOsType.value !in AllowedOsTypes {
      return Err(BadRequest, OsTypeError);
    }
    var p := Profile(db.nextProfileId, body.name, body.description, body.targetOsType, body.isTemplate);
    db.profiles := db.profiles[p.id := p];
    db.nextProfileId := db.nextProfileId + 1;
    r := Ok(p);
  }

  method UpdateProfile(db: Db, id: int, u: ProfileUpdate) returns (r: Result<Profile>)
    requires db.Valid()
    modifies db
    ensures (r, db.State()) == UpdateProfileStep(old(db.State()), id, u)
    ensures db.Valid()
  {
    if id !in db.profiles {
      return Err(NotFound, "Profile not found");
    }
    if u.targetOsType.Set? && u.targetOsType.value.Some? && u.targetOsType.value.value !in AllowedOsTypes {
      return Err(BadRequest, OsTypeError);
    }
    var p := db.profiles[id];
    if u.name.Set? {
      p := p.(name := u.name.value);
    }
    if u.description.Set? {
      p := p.(description := u.description.value);
    }
    if u.targetOsType.Set? {
      p := p.(targetOsType := u.targetOsType.value);
    }
    if u.isTemplate.Set? {
      p := p.(isTemplate := u.isTemplate.value);
    }
    db.profiles := db.profiles[id := p];
    r := Ok(p);
  }

  // ---------------------------------------------------------------------------
  // Bulk task replacement (shared by profiles and templates)

  /** One entry of a bulk task list; every field may be left out. */
  datatype TaskUpsert = TaskUpsert(
    name: Option<string>,
    description: Option<string>,
    orderIndex: Option<int>,
    actionType: Option<string>,
    scriptId: Option<int>,
    continueOnError: Option<bool>)

  function ActionTypeOrDefault(actionType: Option<string>): string {
    if Truthy(actionType) then actionType.value else DefaultActionType
  }

  /** The row stored for the entry at position `idx`, with every default applied. */
  function NewTask(profileId: int, id: int, idx: nat, u: TaskUpsert): ProfileTask {
    ProfileTask(
      id, profileId,
      if Truthy(u.name) then u.name.value else "Task " + NatToString(idx + 1),
      u.description,
      u.orderIndex.GetOr(idx),
      ActionTypeOrDefault(u.actionType),
      u.scriptId,
      u.continueOnError.GetOr(true))
  }

  /** Each default of the bulk replacement, and each supplied value kept. */
  lemma NewTaskDefaults(profileId: int, id: int, idx: nat, u: TaskUpsert)
    ensures var task := NewTask(profileId, id, idx, u);
      && task.id == id && task.profileId == profileId
      && (!Truthy(u.name) ==> task.name == "Task " + NatToString(idx + 1))
      && (Truthy(u.name) ==> task.name == u.name.value)
      && task.name != ""
      && (u.orderIndex.None? ==> task.orderIndex == idx)
      && (u.orderIndex.Some? ==> task.orderIndex == u.orderIndex.value)
      && (!Truthy(u.actionType) ==> task.actionType == "powershell_inline")
      && (Truthy(u.actionType) ==> task.actionType == u.actionType.value)
      && (u.continueOnError.None? ==> task.continueOnError)
      && (u.continueOnError.Some? ==> task.continueOnError == u.continueOnError.value)
      && task.description == u.description && task.scriptId == u.scriptId
  {
  }

  /** A stored task sent back as a fully populated entry is stored unchanged:
      the defaults never overwrite a value that is present. */
  lemma NewTaskRoundTrip(task: ProfileTask, idx: nat)
    requires task.name != "" && task.actionType != ""
    ensures NewTask(task.profileId, task.id, idx, AsUpsert(task)) == task
  {
  }

  function AsUpsert(task: ProfileTask): TaskUpsert {
    TaskUpsert(Some(task.name), task.description, Some(task.orderIndex), Some(task.actionType),
               task.scriptId, Some(task.continueOnError))
  }

  /** The script check of one entry, made with the defaulted action type. */
  function CheckTask(scripts: map<int, Script>, u: TaskUpsert): Result<()> {
    if u.scriptId.None? then Ok(())
    else
      match ValidateScriptReference(scripts, ActionTypeOrDefault(u.actionType), u.scriptId.value)
      case Ok(_) => Ok(())
      case Err(c, d) => Err(c, d)
  }

  /** The first failing check of a task list, in list order. */
  function CheckTasks(scripts: map<int, Script>, ups: seq<TaskUpsert>): (r: Result<()>)
    ensures r.Ok? <==> forall i :: 0 <= i < |ups| ==> CheckTask(scripts, ups[i]).Ok?
  {
    if ups == [] then Ok(())
    else
      var n := |ups| - 1;
      var r0 := CheckTasks(scripts, ups[..n]);
      assert forall i :: 0 <= i < n ==> ups[..n][i] == ups[i];
      if r0.Err? then r0 else CheckTask(scripts, ups[n])
  }

  /** The error of a task list is the error of its first failing entry. */
  lemma {:induction false} CheckTasksFirstFailure(scripts: map<int, Script>, ups: seq<TaskUpsert>, i: nat)
    requires i < |ups| && CheckTask(scripts, ups[i]).Err?
    requires forall j :: 0 <= j < i ==> CheckTask(scripts, ups[j]).Ok?
    ensures CheckTasks(scripts, ups) == CheckTask(scripts, ups[i])
  {
    var n := |ups| - 1;
    if i < n {
      assert ups[..n][i] == ups[i];
      assert forall j :: 0 <= j < i ==> ups[..n][j] == ups[j];
      CheckTasksFirstFailure(scripts, ups[..n], i);
      CheckTasksLast(scripts, ups);
    } else {
      assert CheckTasks(scripts, ups[..n]).Ok? by {
        assert forall j :: 0 <= j < n ==> ups[..n][j] == ups[j];
      }
    }
  }

  /** Once a prefix of the list fails, the whole list fails with that error. */
  lemma {:induction false} CheckTasksPrefix(scripts: map<int, Script>, ups: seq<TaskUpsert>, i: nat)
    requires i <= |ups| && CheckTasks(scripts, ups[..i]).Err?
    ensures CheckTasks(scripts, ups) == CheckTasks(scripts, ups[..i])
  {
    if i == |ups| {
      assert ups[..i] == ups;
    } else {
      var n := |ups| - 1;
      assert ups[..n][..i] == ups[..i];
      CheckTasksPrefix(scripts, ups[..n], i);
      CheckTasksLast(scripts, ups);
    }
  }

  /** One unfolding of `CheckTasks`: a failing list without its last entry
      fails the same way with it. */
  lemma CheckTasksLast(scripts: map<int, Script>, ups: seq<TaskUpsert>)
    requires ups != [] && CheckTasks(scripts, ups[..|ups| - 1]).Err?
    ensures CheckTasks(scripts, ups) == CheckTasks(scripts, ups[..|ups| - 1])
  {
  }

  /** The rows created for `ups`, numbered from `first`. */
  function NewTasks(profileId: int, first: int, ups: seq<TaskUpsert>): (r: seq<ProfileTask>)
    ensures |r| == |ups|
    ensures forall i :: 0 <= i < |ups| ==> r[i] == NewTask(profileId, first + i, i, ups[i])
  {
    if ups == [] then []
    else
      var n := |ups| - 1;
      NewTasks(profileId, first, ups[..n]) + [NewTask(profileId, first + n, n, ups[n])]
  }

  /** The tasks table without the rows of `profileId` (the bulk `DELETE`). */
  function WithoutProfile(tasks: map<int, ProfileTask>, profileId: int): map<int, ProfileTask> {
    map k | k in tasks && tasks[k].profileId != profileId :: tasks[k]
  }

  /** Replaces the task list of an existing profile: deletes its rows, then
      checks and inserts every entry; the first failing check aborts the whole
      request and nothing is committed. */
  function ReplaceTaskList(t: Tables, profileId: int, ups: seq<TaskUpsert>): (out: (Result<seq<ProfileTask>>, Tables))
    requires ValidTables(t)
    ensures ValidTables(out.1)
    ensures out.0.Err? <==> CheckTasks(t.scripts, ups).Err?
    ensures out.0.Err? ==> Err(out.0.code, out.0.detail) == CheckTasks(t.scripts, ups) && out.1 == t
  {
    match CheckTasks(t.scripts, ups)
    case Err(c, d) => (Err(c, d), t)
    case Ok(_) =>
      var rows := InsertAt(WithoutProfile(t.tasks, profileId), t.nextTaskId, NewTasks(profileId, t.nextTaskId, ups));
      (Ok(NewTasks(profileId, t.nextTaskId, ups)), t.(tasks := rows, nextTaskId := t.nextTaskId + |ups|))
  }

  /** The tasks table after a replacement, on maps: the new rows sit under
      `first`, `first + 1`, ... and are the profile's only rows. */
  lemma ReplacedRows(tasks: map<int, ProfileTask>, first: int, profileId: int, ups: seq<TaskUpsert>)
    requires forall k :: k in tasks ==> k < first
    ensures var m := InsertAt(WithoutProfile(tasks, profileId), first, NewTasks(profileId, first, ups));
      && (forall i :: 0 <= i < |ups| ==> first + i in m && m[first + i] == NewTask(profileId, first + i, i, ups[i]))
      && (forall k :: k in m && m[k].profileId == profileId <==> first <= k < first + |ups|)
  {
    NewRowsAt(tasks, first, profileId, ups);
    NewRowsOwned(tasks, first, profileId, ups);
  }

  lemma NewRowsAt(tasks: map<int, ProfileTask>, first: int, profileId: int, ups: seq<TaskUpsert>)
    requires forall k :: k in tasks ==> k < first
    ensures var m := InsertAt(WithoutProfile(tasks, profileId), first, NewTasks(profileId, first, ups));
      forall i :: 0 <= i < |ups| ==> first + i in m && m[first + i] == NewTask(profileId, first + i, i, ups[i])
  {
    var w := WithoutProfile(tasks, profileId);
    assert forall k :: k in w ==> k < first;
    InsertedAt(w, first, NewTasks(profileId, first, ups));
  }

  /** The `i`-th inserted row sits under `first + i`. */
  lemma InsertedAt<T>(m: map<int, T>, first: int, rows: seq<T>)
    requires forall k :: k in m ==> k < first
    ensures forall i :: 0 <= i < |rows| ==> first + i in InsertAt(m, first, rows) && InsertAt(m, first, rows)[first + i] == rows[i]
  {
    var r := InsertAt(m, first, rows);
    forall i | 0 <= i < |rows| ensures first + i in r && r[first + i] == rows[i] {
      assert first + i !in m;
    }
  }

  lemma NewRowsOwned(tasks: map<int, ProfileTask>, first: int, profileId: int, ups: seq<TaskUpsert>)
    requires forall k :: k in tasks ==> k < first
    ensures var m := InsertAt(WithoutProfile(tasks, profileId), first, NewTasks(profileId, first, ups));
      forall k :: k in m && m[k].profileId == profileId <==> first <= k < first + |ups|
  {
    var w := WithoutProfile(tasks, profileId);
    var rows := NewTasks(profileId, first, ups);
    assert forall k :: k in w ==> k < first && w[k].profileId != profileId;
    assert forall i :: 0 <= i < |rows| ==> rows[i].profileId == profileId;
    InsertedOwned(w, first, rows, profileId);
  }

  /** The owner of each key after an insertion below which `m` holds no row of `p`
      and whose rows all belong to `p`. */
  lemma InsertedOwned(m: map<int, ProfileTask>, first: int, rows: seq<ProfileTask>, p: int)
    requires forall k :: k in m ==> k < first && m[k].profileId != p
    requires forall i :: 0 <= i < |rows| ==> rows[i].profileId == p
    ensures forall k :: k in InsertAt(m, first, rows) && InsertAt(m, first, rows)[k].profileId == p
                        <==> first <= k < first + |rows|
  {
    var r := InsertAt(m, first, rows);
    forall k ensures k in r && r[k].profileId == p <==> first <= k < first + |rows| {
      if first <= k < first + |rows| {
        assert k !in m && r[k] == rows[k - first];
      }
    }
  }

  /** ... and every row of another profile is kept, and no id below `first` is new. */
  lemma KeptRows(tasks: map<int, ProfileTask>, first: int, profileId: int, ups: seq<TaskUpsert>)
    requires forall k :: k in tasks ==> k < first
    ensures var m := InsertAt(WithoutProfile(tasks, profileId), first, NewTasks(profileId, first, ups));
      && (forall k :: k in tasks && tasks[k].profileId != profileId ==> k in m && m[k] == tasks[k])
      && (forall k :: k in m && k < first ==> k in tasks)
  {
  }

  /** After a successful replacement the profile's tasks are exactly the new
      rows, in request order, under fresh ids, with the defaults applied. */
  lemma ReplaceTaskListResult(t: Tables, profileId: int, ups: seq<TaskUpsert>)
    requires ValidTables(t) && CheckTasks(t.scripts, ups).Ok?
    ensures var out := ReplaceTaskList(t, profileId, ups);
      var first := t.nextTaskId;
      && out.0 == Ok(NewTasks(profileId, first, ups))
      && (forall i :: 0 <= i < |ups| ==> first + i !in t.tasks && first + i in out.1.tasks
                                          && out.1.tasks[first + i] == NewTask(profileId, first + i, i, ups[i]))
      && (forall k :: k in out.1.tasks && out.1.tasks[k].profileId == profileId <==> first <= k < first + |ups|)
  {
    ReplacedRows(t.tasks, t.nextTaskId, profileId, ups);
  }

  /** A replacement touches no other profile's tasks and no other table. */
  lemma ReplaceTaskListKeepsOthers(t: Tables, profileId: int, ups: seq<TaskUpsert>)
    requires ValidTables(t) && CheckTasks(t.scripts, ups).Ok?
    ensures var t' := ReplaceTaskList(t, profileId, ups).1;
      && (forall k :: k in t.tasks && t.tasks[k].profileId != profileId ==> k in t'.tasks && t'.tasks[k] == t.tasks[k])
      && (forall k :: k in t'.tasks && k < t.nextTaskId ==> k in t.tasks)
      && t'.(tasks := t.tasks, nextTaskId := t.nextTaskId) == t
  {
    KeptRows(t.tasks, t.nextTaskId, profileId, ups);
  }

  function ReplaceTasksStep(t: Tables, profileId: int, ups: seq<TaskUpsert>): (out: (Result<seq<ProfileTask>>, Tables))
    requires ValidTables(t)
    ensures ValidTables(out.1)
    ensures profileId !in t.profiles ==> out == (Err(NotFound, "Profile not found"), t)
    ensures out.0.Ok? <==> profileId in t.profiles && CheckTasks(t.scripts, ups).Ok?
    ensures out.0.Err? ==> out.1 == t
  {
    if profileId !in t.profiles then (Err(NotFound, "Profile not found"), t)
    else ReplaceTaskList(t, profileId, ups)
  }

  /** One pass of the handler's loop: the script check of the entry at
      position `idx`, then its row. */
  method BuildTask(scripts: map<int, Script>, profileId: int, id: int, idx: nat, u: TaskUpsert)
    returns (r: Result<ProfileTask>)
    ensures r.Err? <==> CheckTask(scripts, u).Err?
    ensures r.Err? ==> Err(r.code, r.detail) == CheckTask(scripts, u)
    ensures r.Ok? ==> r.value == NewTask(profileId, id, idx, u)
  {
    var actionType := ActionTypeOrDefault(u.actionType);
    if u.scriptId.Some? {
      var checked := ValidateScriptReference(scripts, actionType, u.scriptId.value);
      if checked.Err? {
        return Err(checked.code, checked.detail);
      }
    }
    r := Ok(NewTask(profileId, id, idx, u));
  }

  /** Checks and builds the new rows one entry at a time, as the handler's loop
      does; the first failing check ends the loop. */
  method BuildTasks(scripts: map<int, Script>, profileId: int, first: int, ups: seq<TaskUpsert>)
    returns (r: Result<seq<ProfileTask>>)
    ensures r.Err? <==> CheckTasks(scripts, ups).Err?
    ensures r.Err? ==> Err(r.code, r.detail) == CheckTasks(scripts, ups)
    ensures r.Ok? ==> r.value == NewTasks(profileId, first, ups)
  {
    var created: seq<ProfileTask> := [];
    var i := 0;
    while i < |ups|
      invariant 0 <= i <= |ups|
      invariant forall j :: 0 <= j < i ==> CheckTask(scripts, ups[j]).Ok?
      invariant |created| == i
      invariant forall j :: 0 <= j < i ==> created[j] == NewTask(profileId, first + j, j, ups[j])
    {
      var task := BuildTask(scripts, profileId, first + i, i, ups[i]);
      if task.Err? {
        CheckTasksFirstFailure(scripts, ups, i);
        return Err(task.code, task.detail);
      }
      created := created + [task.value];
      i := i + 1;
    }
    r := Ok(created);
  }

  /** Deletes the profile's rows and commits the built task list in their place. */
  method CommitTasks(db: Db, profileId: int, ups: seq<TaskUpsert>) returns (r: Result<seq<ProfileTask>>)
    requires db.Valid()
    modifies db
    ensures (r, db.State()) == ReplaceTaskList(old(db.State()), profileId, ups)
    ensures db.Valid()
  {
    var built := BuildTasks(db.scripts, profileId, db.nextTaskId, ups);
    if built.Err? {
      return Err(built.code, built.detail);
    }
    db.tasks := InsertAt(WithoutProfile(db.tasks, profileId), db.nextTaskId, built.value);
    db.nextTaskId := db.nextTaskId + |ups|;
    r := Ok(built.value);
  }

  method ReplaceProfileTasks(db: Db, profileId: int, ups: seq<TaskUpsert>) returns (r: Result<seq<ProfileTask>>)
    requires db.Valid()
    modifies db
    ensures (r, db.State()) == ReplaceTasksStep(old(db.State()), profileId, ups)
    ensures db.Valid()
  {
    if profileId !in db.profiles {
      return Err(NotFound, "Profile not found");
    }
    r := CommitTasks(db, profileId, ups);
  }

  // ---------------------------------------------------------------------------
  // The tasks of a profile, `ORDER BY order_index, id`

  predicate TaskOrder(a: ProfileTask, b: ProfileTask) {
    a.orderIndex < b.orderIndex || (a.orderIndex == b.orderIndex && a.id <= b.id)
  }

  lemma TaskOrderTotal()
    ensures TotalPreorder(TaskOrder)
  {
  }

  function ProfileTasks(t: Tables, profileId: int): (r: seq<ProfileTask>)
    ensures SortedBy(r, TaskOrder)
  {
    TaskOrderTotal();
    SortBy(Lookup(t.tasks, Select(t.tasks, t.nextTaskId, (x: ProfileTask) => x.profileId == profileId)), TaskOrder)
  }

  /** The query returns exactly the rows of the profile. */
  lemma ProfileTasksMembers(t: Tables, profileId: int)
    requires ValidTables(t)
    ensures forall x :: x in ProfileTasks(t, profileId) <==>
      x.id in t.tasks && t.tasks[x.id] == x && x.profileId == profileId
  {
    SortedSelectionMembers(t.tasks, t.nextTaskId, (x: ProfileTask) => x.profileId == profileId, TaskOrder,
                           (x: ProfileTask) => x.id);
  }

  /** The order is total on a profile's rows, so the listing is determined:
      any other sorted arrangement of the same rows is this one. */
  lemma ProfileTasksOrderDetermined(t: Tables, profileId: int, s: seq<ProfileTask>)
    requires ValidTables(t)
    requires SortedBy(s, TaskOrder) && multiset(s) == multiset(ProfileTasks(t, profileId))
    ensures s == ProfileTasks(t, profileId)
  {
    var r := ProfileTasks(t, profileId);
    ProfileTasksMembers(t, profileId);
    forall a, b | a in r && b in r && TaskOrder(a, b) && TaskOrder(b, a)
      ensures a == b
    {
    }
    SortedUnique(r, s, TaskOrder);
  }

  /** When a profile's rows are exactly `c`, stored under `first`, `first + 1`,
      ..., and `c` is in `(order_index, id)` order, the query returns `c`. */
  lemma ProfileTasksAre(t: Tables, profileId: int, first: int, c: seq<ProfileTask>)
    requires ValidTables(t) && SortedBy(c, TaskOrder)
    requires forall i :: 0 <= i < |c| ==> first + i in t.tasks && t.tasks[first + i] == c[i]
    requires forall i :: 0 <= i < |c| ==> c[i].profileId == profileId
    requires forall k :: k in t.tasks && t.tasks[k].profileId == profileId ==> first <= k < first + |c|
    ensures ProfileTasks(t, profileId) == c
  {
    assert StoredAt(t.tasks, profileId, first, c) by {
      forall k | first <= k < first + |c| ensures k in t.tasks && t.tasks[k] == c[k - first] {
        var x := c[k - first];
      }
    }
    StoredRowsAre(t, profileId, first, c);
    ProfileTasksMultiset(t, profileId, c);
    ProfileTasksOrderDetermined(t, profileId, c);
  }

  /** `c` is stored under `first`, `first + 1`, ... and these are all the rows of `profileId`. */
  ghost predicate StoredAt(tasks: map<int, ProfileTask>, profileId: int, first: int, c: seq<ProfileTask>) {
    && (forall k :: first <= k < first + |c| ==> k in tasks && tasks[k] == c[k - first])
    && (forall i :: 0 <= i < |c| ==> c[i].profileId == profileId)
    && (forall k :: k in tasks && tasks[k].profileId == profileId ==> first <= k < first + |c|)
  }

  /** Rows stored under `first`, `first + 1`, ... that are all of a profile's
      rows are exactly its rows, each once. */
  lemma StoredRowsAre(t: Tables, profileId: int, first: int, c: seq<ProfileTask>)
    requires ValidTables(t) && StoredAt(t.tasks, profileId, first, c)
    ensures forall x :: x in c <==> x.id in t.tasks && t.tasks[x.id] == x && x.profileId == profileId
    ensures forall i, j :: 0 <= i < j < |c| ==> c[i] != c[j]
  {
    forall i | 0 <= i < |c| ensures c[i].id == first + i {
      assert t.tasks[first + i] == c[i];
    }
    forall x: ProfileTask | x.id in t.tasks && t.tasks[x.id] == x && x.profileId == profileId ensures x in c {
      assert c[x.id - first] == x;
    }
  }

  /** Any list of a profile's rows without repeats holds the same rows as the query. */
  lemma ProfileTasksMultiset(t: Tables, profileId: int, c: seq<ProfileTask>)
    requires ValidTables(t)
    requires forall x :: x in c <==> x.id in t.tasks && t.tasks[x.id] == x && x.profileId == profileId
    requires forall i, j :: 0 <= i < j < |c| ==> c[i] != c[j]
    ensures multiset(c) == multiset(ProfileTasks(t, profileId))
  {
    var ids := Select(t.tasks, t.nextTaskId, (x: ProfileTask) => x.profileId == profileId);
    var rows := Lookup(t.tasks, ids);
    forall i | 0 <= i < |rows| ensures rows[i].id == ids[i] && rows[i].profileId == profileId {
      assert ids[i] in ids;
    }
    forall x: ProfileTask ensures x in rows <==> x in c {
      if x in c {
        assert x.id in ids;
        var i :| 0 <= i < |ids| && ids[i] == x.id;
        assert rows[i] == x;
      }
    }
    forall i, j | 0 <= i < j < |rows| ensures rows[i] != rows[j] {
      assert rows[i].id == ids[i] && rows[j].id == ids[j];
    }
    SameElementsSameMultiset(rows, c);
  }

  // ---------------------------------------------------------------------------
  // apply_profile_to_devices

  /** The fields of an action the fan-out creates; it is stored as `pending`. */
  datatype ActionSpec = ActionSpec(deviceId: int, actionType: string, payload: Option<string>, scriptId: Option<int>)

  function PendingAction(id: int, spec: ActionSpec, now: int): Action {
    Action(id, spec.deviceId, spec.actionType, spec.payload, spec.scriptId, StatusPending, None, now, None)
  }

  /** A device the fan-out serves: present, not deleted, and not of an OS other
      than a set profile OS. */
  predicate DeviceEligible(t: Tables, profile: Profile, id: int) {
    id in t.devices && !t.devices[id].isDeleted && !OsMismatch(profile.targetOsType, t.devices[id].osType)
  }

  /** The tasks the fan-out skips on a device: a task without a script when its
      type is inline, and a task whose script is missing, of the wrong language
      or of another OS. */
  predicate SkipsTask(scripts: map<int, Script>, device: Device, task: ProfileTask) {
    match task.scriptId
    case None => IsInlineType(task.actionType)
    case Some(s) =>
      s !in scripts || LanguageMismatch(task.actionType, scripts[s])
      || OsMismatch(scripts[s].targetOsType, device.osType)
  }

  /** The action one task yields on one device, checked in the handler's order. */
  function TaskAction(scripts: map<int, Script>, device: Device, task: ProfileTask): (r: Option<ActionSpec>)
    ensures r.None? <==> SkipsTask(scripts, device, task)
    ensures r.Some? ==> && r.value.deviceId == device.id
                        && r.value.actionType == task.actionType
                        && r.value.scriptId == task.scriptId
    ensures r.Some? && task.scriptId.Some? ==> r.value.payload == Some(scripts[task.scriptId.value].content)
    ensures r.Some? && task.scriptId.None? ==> r.value.payload.None? && !IsInlineType(task.actionType)
  {
    if task.scriptId.Some? && task.scriptId.value !in scripts then None
    else if task.scriptId.Some? && LanguageMismatch(task.actionType, scripts[task.scriptId.value]) then None
    else if task.scriptId.Some? && OsMismatch(scripts[task.scriptId.value].targetOsType, device.osType) then None
    else
      var payload := if task.scriptId.Some? then Some(scripts[task.scriptId.value].content) else None;
      if IsInlineType(task.actionType) && payload.None? then None
      else Some(ActionSpec(device.id, task.actionType, payload, task.scriptId))
  }

  /** The actions of one device, one per task that is not skipped, in task order. */
  function PlanForDevice(scripts: map<int, Script>, device: Device, tasks: seq<ProfileTask>): (r: seq<ActionSpec>)
    ensures |r| <= |tasks|
  {
    if tasks == [] then []
    else
      var n := |tasks| - 1;
      var rest := PlanForDevice(scripts, device, tasks[..n]);
      match TaskAction(scripts, device, tasks[n])
      case Some(a) => rest + [a]
      case None => rest
  }

  /** Every action planned for a device is the action of one of its tasks, and
      every task that is not skipped has its action planned. */
  lemma {:induction false} PlanForDeviceMembers(scripts: map<int, Script>, device: Device, tasks: seq<ProfileTask>)
    ensures var r := PlanForDevice(scripts, device, tasks);
      && (forall a :: a in r ==>
            && a.deviceId == device.id
            && exists i :: 0 <= i < |tasks| && TaskAction(scripts, device, tasks[i]) == Some(a))
      && (forall i :: 0 <= i < |tasks| && !SkipsTask(scripts, device, tasks[i]) ==>
            TaskAction(scripts, device, tasks[i]).value in r)
  {
    if tasks != [] {
      var n := |tasks| - 1;
      PlanForDeviceMembers(scripts, device, tasks[..n]);
      assert forall i :: 0 <= i < n ==> tasks[..n][i] == tasks[i];
    }
  }

  /** The tasks a device is not skipped for, in task order. */
  function Unskipped(scripts: map<int, Script>, device: Device, tasks: seq<ProfileTask>): (r: seq<ProfileTask>)
    ensures |r| <= |tasks|
    ensures forall x :: x in r ==> x in tasks && !SkipsTask(scripts, device, x)
  {
    if tasks == [] then []
    else if SkipsTask(scripts, device, tasks[0]) then Unskipped(scripts, device, tasks[1..])
    else [tasks[0]] + Unskipped(scripts, device, tasks[1..])
  }

  lemma {:induction false} UnskippedAppend(scripts: map<int, Script>, device: Device, a: seq<ProfileTask>, x: ProfileTask)
    ensures Unskipped(scripts, device, a + [x])
         == Unskipped(scripts, device, a) + (if SkipsTask(scripts, device, x) then [] else [x])
  {
    if a == [] {
      assert [x][1..] == [];
    } else {
      assert (a + [x])[1..] == a[1..] + [x];
      UnskippedAppend(scripts, device, a[1..], x);
    }
  }

  /** A device's plan holds, in task order, exactly the actions of the tasks it
      is not skipped for: one action per such task and none for the others. */
  lemma {:induction false} PlanForDeviceInOrder(scripts: map<int, Script>, device: Device, tasks: seq<ProfileTask>)
    ensures var r := PlanForDevice(scripts, device, tasks);
      var kept := Unskipped(scripts, device, tasks);
      |r| == |kept| && forall i :: 0 <= i < |r| ==> Some(r[i]) == TaskAction(scripts, device, kept[i])
  {
    if tasks != [] {
      var n := |tasks| - 1;
      PlanForDeviceInOrder(scripts, device, tasks[..n]);
      assert tasks[..n] + [tasks[n]] == tasks;
      UnskippedAppend(scripts, device, tasks[..n], tasks[n]);
    }
  }

  /** The actions of the whole request: device by device, in request order,
      nothing for a device that is not eligible. */
  function PlanApply(t: Tables, profile: Profile, ids: seq<int>, tasks: seq<ProfileTask>): seq<ActionSpec> {
    if ids == [] then []
    else
      var n := |ids| - 1;
      var rest := PlanApply(t, profile, ids[..n], tasks);
      if DeviceEligible(t, profile, ids[n]) then
        rest + PlanForDevice(t.scripts, t.devices[ids[n]], tasks)
      else rest
  }

  /** At most one action per requested device and task. */
  lemma {:induction false} PlanApplyBound(t: Tables, profile: Profile, ids: seq<int>, tasks: seq<ProfileTask>)
    ensures |PlanApply(t, profile, ids, tasks)| <= |ids| * |tasks|
  {
    if ids != [] {
      var n := |ids| - 1;
      PlanApplyBound(t, profile, ids[..n], tasks);
      assert |ids| * |tasks| == n * |tasks| + |tasks|;
    }
  }

  /** Every planned action targets a requested, eligible device. */
  lemma {:induction false} PlanApplyDevices(t: Tables, profile: Profile, ids: seq<int>, tasks: seq<ProfileTask>)
    requires ValidTables(t)
    ensures forall a :: a in PlanApply(t, profile, ids, tasks) ==> a.deviceId in ids && DeviceEligible(t, profile, a.deviceId)
  {
    if ids != [] {
      var n := |ids| - 1;
      PlanApplyDevices(t, profile, ids[..n], tasks);
      if DeviceEligible(t, profile, ids[n]) {
        PlanForDeviceMembers(t.scripts, t.devices[ids[n]], tasks);
      }
    }
  }

  /** The rows the fan-out stores for `specs`, under `first`, `first + 1`, ... */
  function PendingActions(first: int, specs: seq<ActionSpec>, now: int): (r: seq<Action>)
    ensures |r| == |specs|
    ensures forall i :: 0 <= i < |specs| ==> r[i] == PendingAction(first + i, specs[i], now)
  {
    seq(|specs|, i requires 0 <= i < |specs| => PendingAction(first + i, specs[i], now))
  }

  function ApplyStep(t: Tables, profileId: int, deviceIds: seq<int>, now: int): (out: (Result<int>, Tables))
    requires ValidTables(t)
    ensures ValidTables(out.1)
    ensures profileId !in t.profiles ==> out == (Err(NotFound, "Profile not found"), t)
    ensures profileId in t.profiles && deviceIds == [] ==> out == (Err(BadRequest, "No device IDs provided"), t)
    ensures profileId in t.profiles && deviceIds != [] && ProfileTasks(t, profileId) == [] ==>
              out == (Err(BadRequest, "Profile has no tasks"), t)
    ensures out.0.Ok? <==> profileId in t.profiles && deviceIds != [] && ProfileTasks(t, profileId) != []
  {
    if profileId !in t.profiles then (Err(NotFound, "Profile not found"), t)
    else if deviceIds == [] then (Err(BadRequest, "No device IDs provided"), t)
    else
      var tasks := ProfileTasks(t, profileId);
      if tasks == [] then (Err(BadRequest, "Profile has no tasks"), t)
      else
        var specs := PlanApply(t, t.profiles[profileId], deviceIds, tasks);
        (Ok(|specs|), FanOut(t, specs, now))
  }

  /** The tables once `specs` are stored as pending actions under fresh ids. */
  function FanOut(t: Tables, specs: seq<ActionSpec>, now: int): (t': Tables)
    requires ValidTables(t)
    ensures ValidTables(t')
  {
    t.(actions := InsertAt(t.actions, t.nextActionId, PendingActions(t.nextActionId, specs, now)),
       nextActionId := t.nextActionId + |specs|)
  }

  /** The actions table after a fan-out, on maps: every old row kept, the
      planned rows added as pending under `first`, `first + 1`, ... */
  lemma AddedActions(actions: map<int, Action>, first: int, specs: seq<ActionSpec>, now: int)
    requires forall k :: k in actions ==> k < first
    ensures var m := InsertAt(actions, first, PendingActions(first, specs, now));
      && (forall k :: k in m <==> k in actions || first <= k < first + |specs|)
      && (forall k :: k in actions ==> m[k] == actions[k])
      && (forall i :: 0 <= i < |specs| ==> m[first + i] == PendingAction(first + i, specs[i], now))
      && (forall k :: k in m && k !in actions ==> m[k] == PendingAction(k, specs[k - first], now))
  {
    InsertedAt(actions, first, PendingActions(first, specs, now));
  }

  /** A successful fan-out answers with the number of actions it planned and stores them as pending under fresh ids,
      in plan order; existing actions and the other tables are untouched. */
  lemma ApplyCreatesPendingActions(t: Tables, profileId: int, deviceIds: seq<int>, now: int)
    requires ValidTables(t)
    requires ApplyStep(t, profileId, deviceIds, now).0.Ok?
    ensures var (r, t') := ApplyStep(t, profileId, deviceIds, now);
      var tasks := ProfileTasks(t, profileId);
      var specs := PlanApply(t, t.profiles[profileId], deviceIds, tasks);
      var first := t.nextActionId;
      && r == Ok(|specs|)
      && (forall k :: k in t'.actions <==> k in t.actions || first <= k < first + r.value)
      && (forall k :: k in t.actions ==> t'.actions[k] == t.actions[k])
      && (forall i :: 0 <= i < r.value ==> t'.actions[first + i] == PendingAction(first + i, specs[i], now))
      && t'.(actions := t.actions, nextActionId := t.nextActionId) == t
  {
    var specs := PlanApply(t, t.profiles[profileId], deviceIds, ProfileTasks(t, profileId));
    ApplyCommits(t, profileId, deviceIds, now);
    AddedActions(t.actions, t.nextActionId, specs, now);
  }

  /** `created_actions` is at most the number of devices times the number of tasks. */
  lemma ApplyCountBound(t: Tables, profileId: int, deviceIds: seq<int>, now: int)
    requires ValidTables(t)
    requires ApplyStep(t, profileId, deviceIds, now).0.Ok?
    ensures 0 <= ApplyStep(t, profileId, deviceIds, now).0.value <= |deviceIds| * |ProfileTasks(t, profileId)|
  {
    PlanApplyBound(t, t.profiles[profileId], deviceIds, ProfileTasks(t, profileId));
  }

  /** Every action the fan-out adds is pending, created now, for a requested
      device that is present, not deleted and of a compatible OS. */
  lemma ApplyNewActionsArePending(t: Tables, profileId: int, deviceIds: seq<int>, now: int)
    requires ValidTables(t)
    requires ApplyStep(t, profileId, deviceIds, now).0.Ok?
    ensures var t' := ApplyStep(t, profileId, deviceIds, now).1;
      forall k :: k in t'.actions && k !in t.actions ==>
        && t'.actions[k].status == StatusPending
        && t'.actions[k].createdAt == now
        && t'.actions[k].completedAt.None?
        && t'.actions[k].deviceId in deviceIds
        && DeviceEligible(t, t.profiles[profileId], t'.actions[k].deviceId)
  {
    var t' := ApplyStep(t, profileId, deviceIds, now).1;
    var specs := PlanApply(t, t.profiles[profileId], deviceIds, ProfileTasks(t, profileId));
    PlanApplyDevices(t, t.profiles[profileId], deviceIds, ProfileTasks(t, profileId));
    ApplyCommits(t, profileId, deviceIds, now);
    AddedActions(t.actions, t.nextActionId, specs, now);
    forall k | k in t'.actions && k !in t.actions
      ensures t'.actions[k].deviceId in deviceIds && DeviceEligible(t, t.profiles[profileId], t'.actions[k].deviceId)
    {
      assert specs[k - t.nextActionId] in specs;
    }
  }

  /** An ineligible device receives nothing from the fan-out. */
  lemma ApplySkipsIneligibleDevice(t: Tables, profileId: int, deviceIds: seq<int>, now: int, id: int)
    requires ValidTables(t)
    requires ApplyStep(t, profileId, deviceIds, now).0.Ok?
    requires !DeviceEligible(t, t.profiles[profileId], id)
    ensures var t' := ApplyStep(t, profileId, deviceIds, now).1;
      forall k :: k in t'.actions && t'.actions[k].deviceId == id ==> k in t.actions
  {
    ApplyNewActionsArePending(t, profileId, deviceIds, now);
  }

  /** Collects the actions of one eligible device, task by task. */
  method PlanDevice(scripts: map<int, Script>, device: Device, tasks: seq<ProfileTask>) returns (specs: seq<ActionSpec>)
    ensures specs == PlanForDevice(scripts, device, tasks)
  {
    specs := [];
    var j := 0;
    while j < |tasks|
      invariant 0 <= j <= |tasks|
      invariant specs == PlanForDevice(scripts, device, tasks[..j])
    {
      var task := tasks[j];
      assert tasks[..j + 1][..j] == tasks[..j];
      var payload: Option<string> := None;
      var skip := false;
      if task.scriptId.Some? {
        if task.scriptId.value !in scripts {
          skip := true;
        } else {
          var script := scripts[task.scriptId.value];
          if LanguageMismatch(task.actionType, script) {
            skip := true;
          } else if OsMismatch(script.targetOsType, device.osType) {
            skip := true;
          } else {
            payload := Some(script.content);
          }
        }
      }
      if !skip && IsInlineType(task.actionType) && payload.None? {
        skip := true;
      }
      if !skip {
        specs := specs + [ActionSpec(device.id, task.actionType, payload, task.scriptId)];
      }
      j := j + 1;
    }
    assert tasks[..j] == tasks;
  }

  /** Collects the actions of every requested device, device by device. */
  method PlanDevices(t: Tables, profile: Profile, deviceIds: seq<int>, tasks: seq<ProfileTask>) returns (specs: seq<ActionSpec>)
    ensures specs == PlanApply(t, profile, deviceIds, tasks)
  {
    specs := [];
    var i := 0;
    while i < |deviceIds|
      invariant 0 <= i <= |deviceIds|
      invariant specs == PlanApply(t, profile, deviceIds[..i], tasks)
    {
      var id := deviceIds[i];
      assert deviceIds[..i + 1][..i] == deviceIds[..i];
      if id in t.devices && !t.devices[id].isDeleted && !OsMismatch(profile.targetOsType, t.devices[id].osType) {
        var forDevice := PlanDevice(t.scripts, t.devices[id], tasks);
        specs := specs + forDevice;
      }
      i := i + 1;
    }
    assert deviceIds[..i] == deviceIds;
  }

  /** The state a successful fan-out commits. */
  lemma ApplyCommits(t: Tables, profileId: int, deviceIds: seq<int>, now: int)
    requires ValidTables(t) && profileId in t.profiles && deviceIds != [] && ProfileTasks(t, profileId) != []
    ensures var specs := PlanApply(t, t.profiles[profileId], deviceIds, ProfileTasks(t, profileId));
      ApplyStep(t, profileId, deviceIds, now) == (Ok(|specs|), FanOut(t, specs, now))
  {
  }

  method ApplyProfileToDevices(db: Db, profileId: int, deviceIds: seq<int>, now: int) returns (r: Result<int>)
    requires db.Valid()
    modifies db
    ensures (r, db.State()) == ApplyStep(old(db.State()), profileId, deviceIds, now)
    ensures db.Valid()
  {
    if profileId !in db.profiles {
      return Err(NotFound, "Profile not found");
    }
    var profile := db.profiles[profileId];
    if |deviceIds| == 0 {
      return Err(BadRequest, "No device IDs provided");
    }
    var t := db.State();
    var tasks := ProfileTasks(t, profileId);
    if |tasks| == 0 {
      return Err(BadRequest, "Profile has no tasks");
    }
    var specs := PlanDevices(t, profile, deviceIds, tasks);
    ApplyCommits(t, profileId, deviceIds, now);
    CommitFanOut(db, specs, now);
    r := Ok(|specs|);
    assert old(db.State()) == t;
    assert db.State() == ApplyStep(t, profileId, deviceIds, now).1;
  }

  /** Stores the planned actions as pending rows under the next free ids. */
  method CommitFanOut(db: Db, specs: seq<ActionSpec>, now: int)
    requires db.Valid()
    modifies db
    ensures db.State() == FanOut(old(db.State()), specs, now)
  {
    db.actions := InsertAt(db.actions, db.nextActionId, PendingActions(db.nextActionId, specs, now));
    db.nextActionId := db.nextActionId + |specs|;
  }
}
