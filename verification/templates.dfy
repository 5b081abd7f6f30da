/** Templates (`backend/app/api/v1/templates.py`): deployment profiles flagged
    `is_template`, reached only through a guard that hides ordinary profiles;
    listing by name, bulk task replacement, instantiation as an ordinary
    profile with cloned tasks, and an update that keeps the template flag. */
module Templates {
  import opened Common
  import opened Constants
  import opened Ordering
  import opened Store
  import opened Profiles

  // ---------------------------------------------------------------------------
  // The lookup every template endpoint starts with

  /** `WHERE id = template_id AND is_template`: an ordinary profile is as
      missing as an unknown id. */
  function TemplateGuard(t: Tables, id: int): (r: Result<Profile>)
    ensures r.Ok? <==> id in t.profiles && t.profiles[id].isTemplate
    ensures r.Ok? ==> r.value == t.profiles[id]
    ensures r.Err? ==> r.code == NotFound
  {
    if id in t.profiles && t.profiles[id].isTemplate then Ok(t.profiles[id])
    else Err(NotFound, "Template not found")
  }

  /** `get_template`: the template with its tasks in `(order_index, id)` order. */
  function GetTemplate(t: Tables, id: int): (r: Result<(Profile, seq<ProfileTask>)>)
    ensures r.Ok? <==> TemplateGuard(t, id).Ok?
    ensures r.Ok? ==> r.value.0 == t.profiles[id] && SortedBy(r.value.1, TaskOrder)
    ensures r.Ok? ==> r.value.1 == ProfileTasks(t, id)
    ensures r.Err? ==> r.code == NotFound
  {
    match TemplateGuard(t, id)
    case Err(c, d) => Err(c, d)
    case Ok(p) => Ok((p, ProfileTasks(t, id)))
  }

  /** The tasks `get_template` answers with are exactly the stored tasks of
      the template, each as stored. */
  lemma GetTemplateTasks(t: Tables, id: int)
    requires ValidTables(t) && GetTemplate(t, id).Ok?
    ensures forall x :: x in GetTemplate(t, id).value.1 <==>
      x.id in t.tasks && t.tasks[x.id] == x && x.profileId == id
  {
    ProfileTasksMembers(t, id);
  }

  // ---------------------------------------------------------------------------
  // list_templates: `WHERE is_template ORDER BY name`

  predicate NameOrder(a: Profile, b: Profile) {
    LexLe(a.name, b.name)
  }

  lemma NameOrderTotal()
    ensures TotalPreorder(NameOrder)
  {
    forall a: Profile, b: Profile ensures NameOrder(a, b) || NameOrder(b, a) {
      LexLeTotal(a.name, b.name);
    }
    forall a: Profile, b: Profile, c: Profile | NameOrder(a, b) && NameOrder(b, c)
      ensures NameOrder(a, c)
    {
      LexLeTransitive(a.name, b.name, c.name);
    }
  }

  /** Rows the database ties on name come out by id, a stable choice. */
  function ListTemplates(t: Tables): (r: seq<Profile>)
    ensures SortedBy(r, NameOrder)
  {
    NameOrderTotal();
    SortBy(Lookup(t.profiles, Select(t.profiles, t.nextProfileId, (p: Profile) => p.isTemplate)), NameOrder)
  }

  /** The listing holds exactly the stored templates: no ordinary profile. */
  lemma ListTemplatesMembers(t: Tables)
    requires ValidTables(t)
    ensures forall p :: p in ListTemplates(t) <==> p.id in t.profiles && t.profiles[p.id] == p && p.isTemplate
  {
    SortedSelectionMembers(t.profiles, t.nextProfileId, (p: Profile) => p.isTemplate, NameOrder, (p: Profile) => p.id);
  }

  // ---------------------------------------------------------------------------
  // replace_template_tasks

  function ReplaceTemplateTasksStep(t: Tables, id: int, ups: seq<TaskUpsert>): (out: (Result<seq<ProfileTask>>, Tables))
    requires ValidTables(t)
    ensures ValidTables(out.1)
    ensures TemplateGuard(t, id).Err? ==> out == (Err(NotFound, "Template not found"), t)
    ensures out.0.Ok? <==> TemplateGuard(t, id).Ok? && CheckTasks(t.scripts, ups).Ok?
  {
    if TemplateGuard(t, id).Err? then (Err(NotFound, "Template not found"), t)
    else ReplaceTaskList(t, id, ups)
  }

  /** Past the guard, replacing a template's tasks is replacing a profile's
      tasks: the same checks, the same defaults, the same rows. */
  lemma ReplaceTemplateTasksAsProfile(t: Tables, id: int, ups: seq<TaskUpsert>)
    requires ValidTables(t) && TemplateGuard(t, id).Ok?
    ensures ReplaceTemplateTasksStep(t, id, ups) == ReplaceTasksStep(t, id, ups)
  {
  }

  method ReplaceTemplateTasks(db: Db, id: int, ups: seq<TaskUpsert>) returns (r: Result<seq<ProfileTask>>)
    requires db.Valid()
    modifies db
    ensures (r, db.State()) == ReplaceTemplateTasksStep(old(db.State()), id, ups)
    ensures db.Valid()
  {
    if id !in db.profiles || !db.profiles[id].isTemplate {
      return Err(NotFound, "Template not found");
    }
    r := CommitTasks(db, id, ups);
  }

  // ---------------------------------------------------------------------------
  // instantiate_template

  datatype InstantiateRequest = InstantiateRequest(name: Option<string>, description: Option<string>)

  /** The profile created from `template`: a name, or `"{name} (copy)"` when
      the request's is empty; the request's description unless it is null;
      the template's OS; never a template. */
  function Instance(template: Profile, id: int, body: InstantiateRequest): Profile {
    Profile(
      id,
      if Truthy(body.name) then body.name.value else template.name + " (copy)",
      if body.description.Some? then body.description else template.description,
      template.targetOsType,
      false)
  }

  /** A task copied to the new profile under a new id. */
  function Clone(task: ProfileTask, profileId: int, id: int): ProfileTask {
    task.(id := id, profileId := profileId)
  }

  /** The copies of `tasks`, numbered from `first`, in the same order. */
  function Clones(tasks: seq<ProfileTask>, profileId: int, first: int): (r: seq<ProfileTask>)
    ensures |r| == |tasks|
    ensures forall i :: 0 <= i < |tasks| ==> r[i] == Clone(tasks[i], profileId, first + i)
  {
    if tasks == [] then []
    else
      var n := |tasks| - 1;
      Clones(tasks[..n], profileId, first) + [Clone(tasks[n], profileId, first + n)]
  }

  /** The new profile and its tasks, as the response returns them. */
  datatype Instantiated = Instantiated(profile: Profile, tasks: seq<ProfileTask>)

  function InstantiateStep(t: Tables, id: int, body: InstantiateRequest): (out: (Result<Instantiated>, Tables))
    requires ValidTables(t)
    ensures ValidTables(out.1)
    ensures out.0.Ok? <==> TemplateGuard(t, id).Ok?
    ensures out.0.Err? ==> out == (Err(NotFound, "Template not found"), t)
  {
    if TemplateGuard(t, id).Err? then (Err(NotFound, "Template not found"), t)
    else
      var p := Instance(t.profiles[id], t.nextProfileId, body);
      var clones := Clones(ProfileTasks(t, id), p.id, t.nextTaskId);
      ClonesKeyed(t.tasks, t.nextTaskId, ProfileTasks(t, id), p.id);
      (Ok(Instantiated(p, clones)),
       t.(profiles := t.profiles[p.id := p], nextProfileId := p.id + 1,
          tasks := InsertAt(t.tasks, t.nextTaskId, clones), nextTaskId := t.nextTaskId + |clones|))
  }

  /** Copies stored under their own ids keep the tasks table keyed. */
  lemma ClonesKeyed(tasks: map<int, ProfileTask>, first: nat, source: seq<ProfileTask>, profileId: int)
    requires first >= 1 && TasksKeyed(tasks, first)
    ensures TasksKeyed(InsertAt(tasks, first, Clones(source, profileId, first)), first + |source|)
  {
  }

  /** The new profile: fresh id, the name and description defaults, the
      template's OS, not a template; the template itself is unchanged. */
  lemma InstantiateCreatesProfile(t: Tables, id: int, body: InstantiateRequest)
    requires ValidTables(t) && TemplateGuard(t, id).Ok?
    ensures var (r, t') := InstantiateStep(t, id, body);
      var template := t.profiles[id];
      var p := r.value.profile;
      && p.id == t.nextProfileId && p.id !in t.profiles
      && t'.profiles == t.profiles[p.id := p]
      && (Truthy(body.name) ==> p.name == body.name.value)
      && (!Truthy(body.name) ==> p.name == template.name + " (copy)")
      && (body.description.Some? ==> p.description == body.description)
      && (body.description.None? ==> p.description == template.description)
      && p.targetOsType == template.targetOsType
      && !p.isTemplate
      && t'.profiles[id] == template
  {
  }

  /** The copies, on maps: under `first`, `first + 1`, ..., one per template
      task, in the template's order; every old row is kept. */
  lemma ClonedRows(tasks: map<int, ProfileTask>, first: int, source: seq<ProfileTask>, profileId: int)
    requires forall k :: k in tasks ==> k < first
    ensures var m := InsertAt(tasks, first, Clones(source, profileId, first));
      && (forall i :: 0 <= i < |source| ==> first + i in m && m[first + i] == Clone(source[i], profileId, first + i))
      && (forall k :: k in tasks ==> k in m && m[k] == tasks[k])
      && (forall k :: k in m && k !in tasks ==> first <= k < first + |source|)
  {
    var m := InsertAt(tasks, first, Clones(source, profileId, first));
    forall i | 0 <= i < |source| ensures first + i in m && m[first + i] == Clone(source[i], profileId, first + i) {
      assert first + i in m;
    }
  }

  /** Every template task is copied with identical fields except its id and
      profile, in `(order_index, id)` order; the template's rows are kept. */
  lemma InstantiateClonesTasks(t: Tables, id: int, body: InstantiateRequest)
    requires ValidTables(t) && TemplateGuard(t, id).Ok?
    ensures var (r, t') := InstantiateStep(t, id, body);
      var source := ProfileTasks(t, id);
      var first := t.nextTaskId;
      && r.value.tasks == Clones(source, t.nextProfileId, first)
      && (forall i :: 0 <= i < |source| ==>
            && first + i in t'.tasks
            && t'.tasks[first + i] == source[i].(id := first + i, profileId := t.nextProfileId))
      && (forall k :: k in t.tasks ==> k in t'.tasks && t'.tasks[k] == t.tasks[k])
  {
    ClonedRows(t.tasks, t.nextTaskId, ProfileTasks(t, id), t.nextProfileId);
  }

  /** Copies of rows sorted by `(order_index, id)` under increasing ids are
      sorted the same way. */
  lemma {:induction false} ClonesSorted(source: seq<ProfileTask>, profileId: int, first: int)
    requires SortedBy(source, TaskOrder)
    ensures SortedBy(Clones(source, profileId, first), TaskOrder)
  {
    var c := Clones(source, profileId, first);
    forall i, j | 0 <= i < j < |c| ensures TaskOrder(c[i], c[j]) {
      assert TaskOrder(source[i], source[j]);
    }
  }

  /** The response reloads the new profile's tasks with the same query; that
      reload returns exactly the copies, in the copying order (given the
      foreign key from tasks to profiles, so that no stray row already points
      at the new id). */
  lemma InstantiateReloadsClones(t: Tables, id: int, body: InstantiateRequest)
    requires ValidTables(t) && TasksReferenceProfiles(t) && TemplateGuard(t, id).Ok?
    ensures var out := InstantiateStep(t, id, body);
      ProfileTasks(out.1, out.0.value.profile.id) == out.0.value.tasks
  {
    var out := InstantiateStep(t, id, body);
    var source := ProfileTasks(t, id);
    var c := Clones(source, t.nextProfileId, t.nextTaskId);
    assert out.0.value.tasks == c && out.0.value.profile.id == t.nextProfileId;
    assert out.1.tasks == InsertAt(t.tasks, t.nextTaskId, c);
    CopiesReload(t.tasks, t.profiles, t.nextTaskId, source, t.nextProfileId, out.1);
  }

  /** Copies of sorted rows, inserted under fresh ids for a profile no row
      pointed at before, are what the profile's task query returns. */
  lemma CopiesReload(tasks: map<int, ProfileTask>, profiles: map<int, Profile>, first: int,
                     source: seq<ProfileTask>, profileId: int, t': Tables)
    requires forall k :: k in tasks ==> k < first && tasks[k].profileId in profiles
    requires profileId !in profiles && SortedBy(source, TaskOrder)
    requires ValidTables(t') && t'.tasks == InsertAt(tasks, first, Clones(source, profileId, first))
    ensures ProfileTasks(t', profileId) == Clones(source, profileId, first)
  {
    ClonedProfileRows(tasks, profiles, first, source, profileId);
    ClonesSorted(source, profileId, first);
    ProfileTasksAre(t', profileId, first, Clones(source, profileId, first));
  }

  /** On maps: once the copies are inserted, the rows of the new profile are
      exactly the copies, when every older row points at an existing profile. */
  lemma ClonedProfileRows(tasks: map<int, ProfileTask>, profiles: map<int, Profile>, first: int,
                          source: seq<ProfileTask>, profileId: int)
    requires forall k :: k in tasks ==> k < first && tasks[k].profileId in profiles
    requires profileId !in profiles
    ensures var c := Clones(source, profileId, first);
      var m := InsertAt(tasks, first, c);
      && (forall i :: 0 <= i < |c| ==> first + i in m && m[first + i] == c[i] && c[i].profileId == profileId)
      && (forall k :: k in m && m[k].profileId == profileId ==> first <= k < first + |c|)
  {
    ClonedRows(tasks, first, source, profileId);
  }

  /** Copies the template's tasks one by one, as the handler's loop does. */
  method CloneTasks(source: seq<ProfileTask>, profileId: int, first: int) returns (clones: seq<ProfileTask>)
    ensures clones == Clones(source, profileId, first)
  {
    clones := [];
    for i := 0 to |source|
      invariant clones == Clones(source[..i], profileId, first)
    {
      assert source[..i + 1][..i] == source[..i];
      clones := clones + [Clone(source[i], profileId, first + i)];
    }
    assert source[..|source|] == source;
  }

  method InstantiateTemplate(db: Db, id: int, body: InstantiateRequest) returns (r: Result<Instantiated>)
    requires db.Valid()
    modifies db
    ensures (r, db.State()) == InstantiateStep(old(db.State()), id, body)
    ensures db.Valid()
  {
    var t := db.State();
    if id !in db.profiles || !db.profiles[id].isTemplate {
      return Err(NotFound, "Template not found");
    }
    var p := Instance(db.profiles[id], db.nextProfileId, body);
    var source := ProfileTasks(t, id);
    var clones := CloneTasks(source, p.id, t.nextTaskId);
    CommitInstance(db, p, clones);
    r := Ok(Instantiated(p, clones));
    assert old(db.State()) == t;
    var out := InstantiateStep(t, id, body);
    assert out.0 == r;
    assert out.1 == db.State();
  }

  /** Stores the new profile under its id and its task copies under the next free task ids. */
  method CommitInstance(db: Db, p: Profile, clones: seq<ProfileTask>)
    requires db.Valid() && p.id == db.nextProfileId
    modifies db
    ensures db.State() == old(db.State()).(profiles := old(db.profiles)[p.id := p], nextProfileId := old(db.nextProfileId) + 1,
                                           tasks := InsertAt(old(db.tasks), old(db.nextTaskId), clones),
                                           nextTaskId := old(db.nextTaskId) + |clones|)
  {
    db.profiles := db.profiles[p.id := p];
    db.nextProfileId := db.nextProfileId + 1;
    db.tasks := InsertAt(db.tasks, db.nextTaskId, clones);
    db.nextTaskId := db.nextTaskId + |clones|;
  }

  // ---------------------------------------------------------------------------
  // update_template

  function UpdateTemplateStep(t: Tables, id: int, u: ProfileUpdate): (out: (Result<Profile>, Tables))
    requires ValidTables(t)
    ensures ValidTables(out.1)
    ensures TemplateGuard(t, id).Err? ==> out == (Err(NotFound, "Template not found"), t)
    ensures TemplateGuard(t, id).Ok? && !PatchOsAllowed(u.targetOsType) ==> out == (Err(BadRequest, OsTypeError), t)
    ensures out.0.Ok? <==> TemplateGuard(t, id).Ok? && PatchOsAllowed(u.targetOsType)
  {
    if TemplateGuard(t, id).Err? then (Err(NotFound, "Template not found"), t)
    else if !PatchOsAllowed(u.targetOsType) then (Err(BadRequest, OsTypeError), t)
    else
      var p := Patched(t.profiles[id], u.(isTemplate := Keep)).(isTemplate := true);
      (Ok(p), t.(profiles := t.profiles[id := p]))
  }

  /** Whatever the request says about `is_template`, the template stays one. */
  lemma UpdateTemplateStaysTemplate(t: Tables, id: int, u: ProfileUpdate)
    requires ValidTables(t) && UpdateTemplateStep(t, id, u).0.Ok?
    ensures var (r, t') := UpdateTemplateStep(t, id, u);
      && r.value.isTemplate && t'.profiles[id] == r.value
      && TemplateGuard(t', id) == Ok(r.value)
  {
  }

  /** A template update is the profile update with the `is_template` key
      dropped: it changes the other present keys and nothing else. */
  lemma UpdateTemplateAsProfile(t: Tables, id: int, u: ProfileUpdate)
    requires ValidTables(t) && TemplateGuard(t, id).Ok?
    ensures UpdateTemplateStep(t, id, u) == UpdateProfileStep(t, id, u.(isTemplate := Keep))
  {
  }

  method UpdateTemplate(db: Db, id: int, u: ProfileUpdate) returns (r: Result<Profile>)
    requires db.Valid()
    modifies db
    ensures (r, db.State()) == UpdateTemplateStep(old(db.State()), id, u)
    ensures db.Valid()
  {
    if id !in db.profiles || !db.profiles[id].isTemplate {
      return Err(NotFound, "Template not found");
    }
    if u.targetOsType.Set? && u.targetOsType.value.Some? && u.targetOsType.value.value !in AllowedOsTypes {
      return Err(BadRequest, OsTypeError);
    }
    var p := db.profiles[id];
    if u.name.Set? {
      p := p.(name := u.name.value);
    }
    if u.description.Set? {
      p := p.(description := u.description.value);
    }
    if u.targetOsType.Set? {
      p := p.(targetOsType := u.targetOsType.value);
    }
    p := p.(isTemplate := true);
    db.profiles := db.profiles[id := p];
    r := Ok(p);
  }
}
