/** The rows the handlers read and write (the ORM models under `backend/app/models`), and the
    in-memory database they share: one table per entity, keyed by primary key,
    each with the next id its autoincrement will hand out. */
module Store {
  import opened Common

  datatype Device = Device(
    id: int,
    hostname: string,
    profileId: Option<int>,
    status: string,
    osType: Option<string>,
    osVersion: Option<string>,
    hardwareSummary: Option<string>,
    lastCheckIn: Option<int>,
    isDeleted: bool)

  datatype Action = Action(
    id: int,
    deviceId: int,
    actionType: string,
    payload: Option<string>,
    scriptId: Option<int>,
    status: string,
    logs: Option<string>,
    createdAt: int,
    completedAt: Option<int>)

  datatype Profile = Profile(
    id: int,
    name: string,
    description: Option<string>,
    targetOsType: Option<string>,
    isTemplate: bool)

  datatype ProfileTask = ProfileTask(
    id: int,
    profileId: int,
    name: string,
    description: Option<string>,
    orderIndex: int,
    actionType: string,
    scriptId: Option<int>,
    continueOnError: bool)

  datatype Script = Script(
    id: int,
    name: string,
    description: Option<string>,
    language: string,
    targetOsType: Option<string>,
    content: string)

  datatype EnrollmentToken = EnrollmentToken(tokenValue: string, expiresAt: Option<int>)

  /** The unique constraint on `Device.hostname`. */
  ghost predicate UniqueHostnames(devices: map<int, Device>) {
    forall a, b :: a in devices && b in devices && devices[a].hostname == devices[b].hostname ==> a == b
  }

  /** A script with a set OS and a device with a set OS that differ: both
      values are truthy and unequal. */
  predicate OsMismatch(scriptOs: Option<string>, deviceOs: Option<string>) {
    Truthy(scriptOs) && Truthy(deviceOs) && scriptOs.value != deviceOs.value
  }

  /** The whole database as a value: what a handler reads and what it leaves behind. */
  datatype Tables = Tables(
    devices: map<int, Device>,
    actions: map<int, Action>,
    profiles: map<int, Profile>,
    tasks: map<int, ProfileTask>,
    scripts: map<int, Script>,
    tokens: map<string, EnrollmentToken>,
    nextDeviceId: nat,
    nextActionId: nat,
    nextProfileId: nat,
    nextTaskId: nat,
    nextScriptId: nat)

  /** Every row sits under its own primary key, and keys are positive and
      below the next id the table's autoincrement hands out. */
  ghost predicate DevicesKeyed(m: map<int, Device>, next: nat) {
    forall k :: k in m ==> 1 <= k < next && m[k].id == k
  }

  ghost predicate ActionsKeyed(m: map<int, Action>, next: nat) {
    forall k :: k in m ==> 1 <= k < next && m[k].id == k
  }

  ghost predicate ProfilesKeyed(m: map<int, Profile>, next: nat) {
    forall k :: k in m ==> 1 <= k < next && m[k].id == k
  }

  ghost predicate TasksKeyed(m: map<int, ProfileTask>, next: nat) {
    forall k :: k in m ==> 1 <= k < next && m[k].id == k
  }

  ghost predicate ScriptsKeyed(m: map<int, Script>, next: nat) {
    forall k :: k in m ==> 1 <= k < next && m[k].id == k
  }

  /** The database's own invariants: rows keyed by primary key, tokens keyed by
      their value, hostnames unique. */
  ghost predicate ValidTables(t: Tables) {
    && t.nextDeviceId >= 1 && t.nextActionId >= 1 && t.nextProfileId >= 1
    && t.nextTaskId >= 1 && t.nextScriptId >= 1
    && DevicesKeyed(t.devices, t.nextDeviceId)
    && ActionsKeyed(t.actions, t.nextActionId)
    && ProfilesKeyed(t.profiles, t.nextProfileId)
    && TasksKeyed(t.tasks, t.nextTaskId)
    && ScriptsKeyed(t.scripts, t.nextScriptId)
    && (forall v :: v in t.tokens ==> t.tokens[v].tokenValue == v)
    && UniqueHostnames(t.devices)
  }

  /** The foreign key from `profile_tasks.profile_id` to `deployment_profiles.id`. */
  ghost predicate TasksReferenceProfiles(t: Tables) {
    forall k :: k in t.tasks ==> t.tasks[k].profileId in t.profiles
  }

  /** Rewriting a device row in place, hostname kept, keeps the tables valid. */
  lemma PutDevice(t: Tables, d: Device)
    requires ValidTables(t) && d.id in t.devices && t.devices[d.id].hostname == d.hostname
    ensures ValidTables(t.(devices := t.devices[d.id := d]))
  {
    var m := t.devices[d.id := d];
    forall a, b | a in m && b in m && m[a].hostname == m[b].hostname
      ensures a == b
    {
      assert m[a].hostname == t.devices[a].hostname && m[b].hostname == t.devices[b].hostname;
    }
  }

  /** Inserting a device with a fresh hostname under the next id keeps the tables valid. */
  lemma AddDevice(t: Tables, d: Device)
    requires ValidTables(t) && d.id == t.nextDeviceId
    requires forall k :: k in t.devices ==> t.devices[k].hostname != d.hostname
    ensures ValidTables(t.(devices := t.devices[d.id := d], nextDeviceId := d.id + 1))
  {
    var m := t.devices[d.id := d];
    assert DevicesKeyed(m, d.id + 1);
    forall a, b | a in m && b in m && m[a].hostname == m[b].hostname
      ensures a == b
    {
      if a != d.id && b != d.id {
        assert m[a] == t.devices[a] && m[b] == t.devices[b];
      }
    }
  }

  /** `m` with `rows` added under the keys `first`, `first + 1`, ...: the ids
      the autoincrement hands out to a batch of inserts. */
  function InsertAt<T>(m: map<int, T>, first: int, rows: seq<T>): (r: map<int, T>)
    requires forall k :: k in m ==> k < first
    ensures forall k :: k in r <==> k in m || first <= k < first + |rows|
    ensures forall k :: k in r ==> r[k] == if k in m then m[k] else rows[k - first]
  {
    if rows == [] then m
    else
      var n := |rows| - 1;
      InsertAt(m, first, rows[..n])[first + n := rows[n]]
  }

  /** The database session every handler receives; handlers update its tables in place. */
  class Db {
    var devices: map<int, Device>
    var actions: map<int, Action>
    var profiles: map<int, Profile>
    var tasks: map<int, ProfileTask>
    var scripts: map<int, Script>
    var tokens: map<string, EnrollmentToken>
    var nextDeviceId: nat
    var nextActionId: nat
    var nextProfileId: nat
    var nextTaskId: nat
    var nextScriptId: nat

    function State(): Tables
      reads this
    {
      Tables(devices, actions, profiles, tasks, scripts, tokens,
             nextDeviceId, nextActionId, nextProfileId, nextTaskId, nextScriptId)
    }

    ghost predicate Valid()
      reads this
    {
      ValidTables(State())
    }

    constructor (tokens: map<string, EnrollmentToken>)
      requires forall v :: v in tokens ==> tokens[v].tokenValue == v
      ensures Valid()
      ensures State() == Tables(map[], map[], map[], map[], map[], tokens, 1, 1, 1, 1, 1)
    {
      devices, actions, profiles, tasks, scripts := map[], map[], map[], map[], map[];
      this.tokens := tokens;
      nextDeviceId, nextActionId, nextProfileId, nextTaskId, nextScriptId := 1, 1, 1, 1, 1;
    }
  }
}
