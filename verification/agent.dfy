/** The agent protocol of `backend/app/api/v1/agent.py`: enrollment, heartbeat
    (which hands out the device's pending actions and marks them running) and
    result reports. Together they drive an action through
    `pending -> running -> succeeded | failed`. */
module Agent {
  import opened Common
  import opened Constants
  import opened Ordering
  import opened Store

  /** The registration body. `osType` is read by the handler although the
      request schema does not declare it; it is modelled as an optional field. */
  datatype RegisterRequest = RegisterRequest(
    enrollmentToken: string,
    hostname: string,
    osVersion: Option<string>,
    hardwareSummary: Option<string>,
    osType: Option<string>)

  datatype RegisterResponse = RegisterResponse(deviceId: int, pollIntervalSeconds: int)

  /** `status` defaults to `"online"` when the agent leaves it out. */
  datatype HeartbeatRequest = HeartbeatRequest(
    deviceId: int,
    status: string,
    osVersion: Option<string>,
    hardwareSummary: Option<string>)

  /** One entry of the heartbeat response. */
  datatype ActionPayload = ActionPayload(id: int, actionType: string, payload: Option<string>)

  datatype ResultRequest = ResultRequest(
    status: string,
    exitCode: Option<int>,
    logs: Option<string>,
    completedAt: Option<int>)

  // ---------------------------------------------------------------------------
  // register_agent

  /** The token exists and has not expired (a token without an expiry never expires). */
  predicate TokenAccepted(tokens: map<string, EnrollmentToken>, value: string, now: int) {
    value in tokens && !(tokens[value].expiresAt.Some? && tokens[value].expiresAt.value < now)
  }

  /** `payload.os_type or device.os_type or "windows"`. */
  function ResolveOsType(requested: Option<string>, existing: Option<string>): (r: string)
    ensures Truthy(requested) ==> r == requested.value
    ensures !Truthy(requested) && Truthy(existing) ==> r == existing.value
    ensures !Truthy(requested) && !Truthy(existing) ==> r == "windows"
  {
    Or(requested, Or(existing, Some("windows"))).value
  }

  /** The device registered under `hostname`, if any. */
  function DeviceWithHostname(devices: map<int, Device>, next: nat, hostname: string): (r: Option<int>)
    ensures r.Some? ==> r.value in devices && devices[r.value].hostname == hostname
    ensures r.None? ==> forall k :: k in devices && 0 <= k < next ==> devices[k].hostname != hostname
  {
    var ks := Select(devices, next, (d: Device) => d.hostname == hostname);
    if ks == [] then None else assert ks[0] in ks; Some(ks[0])
  }

  /** The row a registration leaves: the existing device refreshed, or a new one. */
  function RegisteredDevice(existing: Option<Device>, id: int, req: RegisterRequest, now: int): Device {
    match existing
    case Some(d) =>
      d.(osVersion := req.osVersion, hardwareSummary := req.hardwareSummary,
         lastCheckIn := Some(now), status := "online",
         osType := Some(ResolveOsType(req.osType, d.osType)))
    case None =>
      Device(id, req.hostname, None, "online", Some(ResolveOsType(req.osType, None)),
             req.osVersion, req.hardwareSummary, Some(now), false)
  }

  /** `register_agent` on the database `t`: a rejected token changes nothing. */
  function RegisterStep(t: Tables, req: RegisterRequest, now: int): (out: (Result<RegisterResponse>, Tables))
    requires ValidTables(t)
    ensures ValidTables(out.1)
    ensures out.0.Err? <==> !TokenAccepted(t.tokens, req.enrollmentToken, now)
    ensures out.0.Err? ==> out.0.code == Unauthorized && out.1 == t
  {
    if !TokenAccepted(t.tokens, req.enrollmentToken, now) then
      (Err(Unauthorized, "Invalid enrollment token"), t)
    else
      match DeviceWithHostname(t.devices, t.nextDeviceId, req.hostname)
      case Some(id) =>
        var d := RegisteredDevice(Some(t.devices[id]), id, req, now);
        PutDevice(t, d);
        (Ok(RegisterResponse(id, PollIntervalSeconds)), t.(devices := t.devices[id := d]))
      case None =>
        var id := t.nextDeviceId;
        var d := RegisteredDevice(None, id, req, now);
        AddDevice(t, d);
        (Ok(RegisterResponse(id, PollIntervalSeconds)), t.(devices := t.devices[id := d], nextDeviceId := id + 1))
  }

  /** Registering a hostname that is already enrolled updates that device in
      place and answers with its id; no row is added. */
  lemma RegisterExistingHostname(t: Tables, req: RegisterRequest, now: int, k: int)
    requires ValidTables(t) && TokenAccepted(t.tokens, req.enrollmentToken, now)
    requires k in t.devices && t.devices[k].hostname == req.hostname
    ensures var (r, t') := RegisterStep(t, req, now);
      && r == Ok(RegisterResponse(k, PollIntervalSeconds))
      && t'.devices.Keys == t.devices.Keys
      && t'.devices[k].status == "online"
      && t'.devices[k].lastCheckIn == Some(now)
      && t'.devices[k].osVersion == req.osVersion
      && t'.devices[k].hardwareSummary == req.hardwareSummary
      && t'.devices[k].osType == Some(ResolveOsType(req.osType, t.devices[k].osType))
      && t'.devices[k].(status := t.devices[k].status, lastCheckIn := t.devices[k].lastCheckIn,
                        osVersion := t.devices[k].osVersion, hardwareSummary := t.devices[k].hardwareSummary,
                        osType := t.devices[k].osType) == t.devices[k]
      && (forall j :: j in t.devices && j != k ==> t'.devices[j] == t.devices[j])
      && t'.(devices := t.devices) == t
  {
    var found := DeviceWithHostname(t.devices, t.nextDeviceId, req.hostname);
    assert found.Some?;
    assert found.value == k;
  }

  /** Registering an unknown hostname adds exactly one device, under the next
      id, online and checked in now, with the resolved OS type. */
  lemma RegisterNewHostname(t: Tables, req: RegisterRequest, now: int)
    requires ValidTables(t) && TokenAccepted(t.tokens, req.enrollmentToken, now)
    requires forall k :: k in t.devices ==> t.devices[k].hostname != req.hostname
    ensures var (r, t') := RegisterStep(t, req, now);
      var id := t.nextDeviceId;
      && r == Ok(RegisterResponse(id, PollIntervalSeconds))
      && id !in t.devices
      && t'.devices.Keys == t.devices.Keys + {id}
      && t'.devices[id].hostname == req.hostname
      && t'.devices[id].status == "online"
      && t'.devices[id].lastCheckIn == Some(now)
      && t'.devices[id].osVersion == req.osVersion
      && t'.devices[id].hardwareSummary == req.hardwareSummary
      && t'.devices[id].osType == Some(if Truthy(req.osType) then req.osType.value else "windows")
      && t'.devices[id].profileId.None? && !t'.devices[id].isDeleted
      && (forall j :: j in t.devices ==> t'.devices[j] == t.devices[j])
      && t'.(devices := t.devices, nextDeviceId := t.nextDeviceId) == t
  {
  }

  /** Registering the same hostname twice yields the same device id, and the
      second registration adds no row. */
  lemma {:induction false} RegisterTwiceSameDevice(t: Tables, req1: RegisterRequest, req2: RegisterRequest, now1: int, now2: int)
    requires ValidTables(t)
    requires TokenAccepted(t.tokens, req1.enrollmentToken, now1)
    requires TokenAccepted(t.tokens, req2.enrollmentToken, now2)
    requires req1.hostname == req2.hostname
    ensures var (r1, t1) := RegisterStep(t, req1, now1);
            var (r2, t2) := RegisterStep(t1, req2, now2);
            r1.Ok? && r2.Ok? && r2.value.deviceId == r1.value.deviceId && t2.devices.Keys == t1.devices.Keys
  {
    var (r1, t1) := RegisterStep(t, req1, now1);
    if k :| k in t.devices && t.devices[k].hostname == req1.hostname {
      RegisterExistingHostname(t, req1, now1, k);
    } else {
      RegisterNewHostname(t, req1, now1);
    }
    RegisterExistingHostname(t1, req2, now2, r1.value.deviceId);
  }

  // ---------------------------------------------------------------------------
  // heartbeat

  predicate IsPendingFor(a: Action, deviceId: int) {
    a.deviceId == deviceId && a.status == StatusPending
  }

  /** The ids of the device's pending actions, ascending. The handler's query
      has no `ORDER BY`; this model fixes id order. */
  function PendingIds(actions: map<int, Action>, next: nat, deviceId: int): (ids: seq<int>)
    ensures forall k :: k in ids <==> k in actions && 0 <= k < next && IsPendingFor(actions[k], deviceId)
    ensures forall i, j :: 0 <= i < j < |ids| ==> ids[i] < ids[j]
  {
    Select(actions, next, (a: Action) => IsPendingFor(a, deviceId))
  }

  function PayloadOf(a: Action): ActionPayload {
    ActionPayload(a.id, a.actionType, a.payload)
  }

  function Payloads(actions: map<int, Action>, ids: seq<int>): (ps: seq<ActionPayload>)
    requires forall i :: 0 <= i < |ids| ==> ids[i] in actions
    ensures |ps| == |ids|
    ensures forall i :: 0 <= i < |ids| ==> ps[i] == PayloadOf(actions[ids[i]])
  {
    if ids == [] then [] else Payloads(actions, ids[..|ids| - 1]) + [PayloadOf(actions[ids[|ids| - 1]])]
  }

  /** The actions after those under `ids` have been marked running, one at a time. */
  function MarkRunning(actions: map<int, Action>, ids: seq<int>): (r: map<int, Action>)
    requires forall i :: 0 <= i < |ids| ==> ids[i] in actions
    ensures r.Keys == actions.Keys
    ensures forall k :: k in actions ==>
      r[k] == if k in ids then actions[k].(status := StatusRunning) else actions[k]
  {
    if ids == [] then actions
    else
      var init := ids[..|ids| - 1];
      var last := ids[|ids| - 1];
      assert forall k :: k in ids <==> k in init || k == last by {
        assert ids == init + [last];
      }
      var m := MarkRunning(actions, init);
      m[last := m[last].(status := StatusRunning)]
  }

  /** The device as a heartbeat leaves it: status from the request unless it is
      empty, OS version and hardware summary only when non-empty. */
  function BeatDevice(d: Device, req: HeartbeatRequest, now: int): Device {
    d.(status := if req.status != "" then req.status else d.status,
       osVersion := if Truthy(req.osVersion) then req.osVersion else d.osVersion,
       hardwareSummary := if Truthy(req.hardwareSummary) then req.hardwareSummary else d.hardwareSummary,
       lastCheckIn := Some(now))
  }

  /** `heartbeat` on the database `t`: an unknown device changes nothing. */
  function HeartbeatStep(t: Tables, req: HeartbeatRequest, now: int): (out: (Result<seq<ActionPayload>>, Tables))
    requires ValidTables(t)
    ensures ValidTables(out.1)
    ensures out.0.Err? <==> req.deviceId !in t.devices
    ensures out.0.Err? ==> out.0.code == NotFound && out.1 == t
  {
    if req.deviceId !in t.devices then
      (Err(NotFound, "Device not found"), t)
    else
      var d := BeatDevice(t.devices[req.deviceId], req, now);
      PutDevice(t, d);
      var t1 := t.(devices := t.devices[req.deviceId := d]);
      var ids := PendingIds(t1.actions, t1.nextActionId, req.deviceId);
      (Ok(Payloads(t1.actions, ids)), t1.(actions := MarkRunning(t1.actions, ids)))
  }

  /** The payloads of the pending actions are exactly the device's pending
      actions, each once, in id order. */
  lemma PendingPayloads(actions: map<int, Action>, next: nat, deviceId: int)
    requires forall k :: k in actions ==> 0 <= k < next && actions[k].id == k
    ensures var sent := Payloads(actions, PendingIds(actions, next, deviceId));
      && (forall a :: a in sent ==>
            (a.id in actions && IsPendingFor(actions[a.id], deviceId) && a == PayloadOf(actions[a.id])))
      && (forall k :: k in actions && IsPendingFor(actions[k], deviceId) ==> PayloadOf(actions[k]) in sent)
      && (forall i, j :: 0 <= i < j < |sent| ==> sent[i].id < sent[j].id)
  {
    var ids := PendingIds(actions, next, deviceId);
    var sent := Payloads(actions, ids);
    forall a | a in sent
      ensures a.id in actions && IsPendingFor(actions[a.id], deviceId) && a == PayloadOf(actions[a.id])
    {
      var i :| 0 <= i < |ids| && sent[i] == a;
      assert a == PayloadOf(actions[ids[i]]);
    }
    forall k | k in actions && IsPendingFor(actions[k], deviceId)
      ensures PayloadOf(actions[k]) in sent
    {
      var i :| 0 <= i < |ids| && ids[i] == k;
      assert sent[i] == PayloadOf(actions[k]);
    }
  }

  /** A heartbeat hands out exactly the device's pending actions, each once and
      in id order, and marks each of them running; every other action is untouched. */
  lemma HeartbeatDispatchesPending(t: Tables, req: HeartbeatRequest, now: int)
    requires ValidTables(t) && req.deviceId in t.devices
    ensures var (r, t') := HeartbeatStep(t, req, now);
      var sent := r.value;
      && r.Ok?
      && (forall a :: a in sent ==>
            (a.id in t.actions && IsPendingFor(t.actions[a.id], req.deviceId) && a == PayloadOf(t.actions[a.id])))
      && (forall k :: k in t.actions && IsPendingFor(t.actions[k], req.deviceId) ==> PayloadOf(t.actions[k]) in sent)
      && (forall i, j :: 0 <= i < j < |sent| ==> sent[i].id < sent[j].id)
      && t'.actions.Keys == t.actions.Keys
      && (forall k :: k in t.actions ==>
            t'.actions[k] == if IsPendingFor(t.actions[k], req.deviceId)
                             then t.actions[k].(status := StatusRunning) else t.actions[k])
  {
    var ids := PendingIds(t.actions, t.nextActionId, req.deviceId);
    assert HeartbeatStep(t, req, now).0 == Ok(Payloads(t.actions, ids));
    assert HeartbeatStep(t, req, now).1.actions == MarkRunning(t.actions, ids);
    PendingPayloads(t.actions, t.nextActionId, req.deviceId);
  }

  /** A heartbeat refreshes the device's liveness and leaves every other table alone. */
  lemma HeartbeatRefreshesDevice(t: Tables, req: HeartbeatRequest, now: int)
    requires ValidTables(t) && req.deviceId in t.devices
    ensures var t' := HeartbeatStep(t, req, now).1;
      var d := t.devices[req.deviceId];
      && t'.devices.Keys == t.devices.Keys
      && var d' := t'.devices[req.deviceId];
      && d'.status == (if req.status != "" then req.status else d.status)
      && d'.osVersion == (if Truthy(req.osVersion) then req.osVersion else d.osVersion)
      && d'.hardwareSummary == (if Truthy(req.hardwareSummary) then req.hardwareSummary else d.hardwareSummary)
      && d'.lastCheckIn == Some(now)
      && d'.(status := d.status, osVersion := d.osVersion, hardwareSummary := d.hardwareSummary,
             lastCheckIn := d.lastCheckIn) == d
      && (forall j :: j in t.devices && j != req.deviceId ==> t'.devices[j] == t.devices[j])
      && t'.(devices := t.devices, actions := t.actions) == t
  {
  }

  /** A second heartbeat right after a first one hands out nothing. */
  lemma {:induction false} SecondHeartbeatIsEmpty(t: Tables, req1: HeartbeatRequest, req2: HeartbeatRequest, now1: int, now2: int)
    requires ValidTables(t)
    requires req1.deviceId in t.devices && req2.deviceId == req1.deviceId
    ensures var (_, t1) := HeartbeatStep(t, req1, now1);
            HeartbeatStep(t1, req2, now2).0 == Ok([])
  {
    var t1 := HeartbeatStep(t, req1, now1).1;
    HeartbeatDispatchesPending(t, req1, now1);
    HeartbeatRefreshesDevice(t, req1, now1);
    SelectNone(t1.actions, t1.nextActionId, (a: Action) => IsPendingFor(a, req2.deviceId));
  }

  // ---------------------------------------------------------------------------
  // action_result

  predicate IsTerminal(status: string) {
    status == StatusSucceeded || status == StatusFailed
  }

  /** The payload after an exit code is noted: `exit_code=N` on a new last line,
      or as the whole payload when it was empty. */
  function NoteExitCode(payload: Option<string>, exitCode: Option<int>): (r: Option<string>)
    ensures exitCode.None? ==> r == payload
    ensures exitCode.Some? ==>
      var note := "exit_code=" + IntToString(exitCode.value);
      var keep := if Truthy(payload) then |payload.value| + 1 else 0;
      && r.Some?
      && |r.value| == keep + |note|
      && r.value[keep..] == note
      && (Truthy(payload) ==> r.value[..|payload.value|] == payload.value && r.value[|payload.value|] == '\n')
  {
    match exitCode
    case None => payload
    case Some(n) =>
      var note := "exit_code=" + IntToString(n);
      if Truthy(payload) then Some(payload.value + "\n" + note) else Some(note)
  }

  /** The exit code reads back from the end of the noted payload. */
  lemma ExitCodeReadsBack(payload: Option<string>, n: int)
    ensures var s := NoteExitCode(payload, Some(n)).value;
            var digits := s[|s| - |IntToString(n)|..];
            |digits| >= 1 && ((digits[0] == '-' && AllDigits(digits[1..])) || AllDigits(digits))
            && ParseInt(digits) == n
  {
    var s := NoteExitCode(payload, Some(n)).value;
    var note := "exit_code=" + IntToString(n);
    var keep := if Truthy(payload) then |payload.value| + 1 else 0;
    assert s[|s| - |IntToString(n)|..] == s[keep..][|note| - |IntToString(n)|..];
    assert note[|note| - |IntToString(n)|..] == IntToString(n);
    IntToStringRoundTrip(n);
  }

  function RecordResult(a: Action, req: ResultRequest, now: int): Action {
    a.(status := req.status,
       logs := if req.logs.Some? then req.logs else a.logs,
       completedAt := Some(req.completedAt.GetOr(now)),
       payload := NoteExitCode(a.payload, req.exitCode))
  }

  /** `action_result` on the database `t`: the two rejections change nothing. */
  function ResultStep(t: Tables, actionId: int, req: ResultRequest, now: int): (out: (Result<()>, Tables))
    requires ValidTables(t)
    ensures ValidTables(out.1)
    ensures actionId !in t.actions ==> out == (Err(NotFound, "Action not found"), t)
    ensures actionId in t.actions && !IsTerminal(req.status) ==> out == (Err(BadRequest, "Invalid status"), t)
    ensures out.0.Ok? <==> actionId in t.actions && IsTerminal(req.status)
  {
    if actionId !in t.actions then (Err(NotFound, "Action not found"), t)
    else if !IsTerminal(req.status) then (Err(BadRequest, "Invalid status"), t)
    else (Ok(()), t.(actions := t.actions[actionId := RecordResult(t.actions[actionId], req, now)]))
  }

  /** An accepted report overwrites status and completion time, replaces the logs
      only when given, notes the exit code, and touches nothing else. The prior
      status is not consulted. */
  lemma ResultRecorded(t: Tables, actionId: int, req: ResultRequest, now: int)
    requires ValidTables(t) && actionId in t.actions && IsTerminal(req.status)
    ensures var t' := ResultStep(t, actionId, req, now).1;
      var a := t.actions[actionId];
      && t'.actions.Keys == t.actions.Keys
      && var b := t'.actions[actionId];
      && b.status == req.status
      && b.logs == (if req.logs.Some? then req.logs else a.logs)
      && b.completedAt == (if req.completedAt.Some? then req.completedAt else Some(now))
      && b.payload == NoteExitCode(a.payload, req.exitCode)
      && b.(status := a.status, logs := a.logs, completedAt := a.completedAt, payload := a.payload) == a
      && (forall k :: k in t.actions && k != actionId ==> t'.actions[k] == t.actions[k])
      && t'.(actions := t.actions) == t
  {
  }

  /** Two accepted reports for one action: the second one's status and
      completion time stand, whatever the first said. */
  lemma {:induction false} LastReportWins(t: Tables, id: int, req1: ResultRequest, req2: ResultRequest, now1: int, now2: int)
    requires ValidTables(t) && id in t.actions
    requires IsTerminal(req1.status) && IsTerminal(req2.status)
    ensures var (_, t1) := ResultStep(t, id, req1, now1);
            var (r2, t2) := ResultStep(t1, id, req2, now2);
            r2.Ok? && t2.actions[id].status == req2.status
            && t2.actions[id].completedAt == Some(req2.completedAt.GetOr(now2))
  {
    ResultRecorded(t, id, req1, now1);
    var t1 := ResultStep(t, id, req1, now1).1;
    ResultRecorded(t1, id, req2, now2);
  }

  // ---------------------------------------------------------------------------
  // The lifecycle across the handlers.

  /** Position in `pending -> running -> succeeded | failed`; -1 for any other string. */
  function Stage(status: string): int {
    if status == StatusPending then 0
    else if status == StatusRunning then 1
    else if IsTerminal(status) then 2
    else -1
  }

  /** No agent handler moves an action backwards in its lifecycle. A heartbeat
      moves only the owning device's actions out of `pending`, and only into
      `running`; a report may move any action, a pending one included, straight
      to the reported `succeeded` or `failed`, since the prior status is not read. */
  lemma {:induction false} LifecycleNeverRegresses(t: Tables, k: int, hb: HeartbeatRequest, id: int, rep: ResultRequest, now: int)
    requires ValidTables(t) && k in t.actions && Stage(t.actions[k].status) >= 0
    ensures var t1 := HeartbeatStep(t, hb, now).1;
            k in t1.actions
            && Stage(t1.actions[k].status) >= Stage(t.actions[k].status)
            && (t.actions[k].status == StatusPending && t1.actions[k].status != StatusPending ==>
                  t.actions[k].deviceId == hb.deviceId && t1.actions[k].status == StatusRunning)
    ensures var t2 := ResultStep(t, id, rep, now).1;
            k in t2.actions && Stage(t2.actions[k].status) >= Stage(t.actions[k].status)
            && (t2.actions[k].status != t.actions[k].status ==> k == id && IsTerminal(t2.actions[k].status))
            && (k == id && IsTerminal(rep.status) ==> t2.actions[k].status == rep.status)
  {
    if hb.deviceId in t.devices {
      HeartbeatDispatchesPending(t, hb, now);
    }
    if id in t.actions && IsTerminal(rep.status) {
      ResultRecorded(t, id, rep, now);
    }
  }

  // ---------------------------------------------------------------------------
  // The handlers, updating the session in place.

  method RegisterAgent(db: Db, req: RegisterRequest, now: int) returns (r: Result<RegisterResponse>)
    requires db.Valid()
    modifies db
    ensures (r, db.State()) == RegisterStep(old(db.State()), req, now)
    ensures db.Valid()
  {
    if !TokenAccepted(db.tokens, req.enrollmentToken, now) {
      return Err(Unauthorized, "Invalid enrollment token");
    }
    var found := DeviceWithHostname(db.devices, db.nextDeviceId, req.hostname);
    var id: int;
    if found.Some? {
      id := found.value;
      db.devices := db.devices[id := RegisteredDevice(Some(db.devices[id]), id, req, now)];
    } else {
      id := db.nextDeviceId;
      db.devices := db.devices[id := RegisteredDevice(None, id, req, now)];
      db.nextDeviceId := db.nextDeviceId + 1;
    }
    r := Ok(RegisterResponse(id, PollIntervalSeconds));
  }

  /** The dispatch loop of `heartbeat`: marks each listed action running and
      collects its payload, in list order. */
  method DispatchPending(before: map<int, Action>, pending: seq<int>)
    returns (actions: map<int, Action>, sent: seq<ActionPayload>)
    requires forall i :: 0 <= i < |pending| ==> pending[i] in before
    ensures actions == MarkRunning(before, pending)
    ensures sent == Payloads(before, pending)
  {
    actions := before;
    sent := [];
    var i := 0;
    while i < |pending|
      invariant 0 <= i <= |pending|
      invariant actions == MarkRunning(before, pending[..i])
      invariant sent == Payloads(before, pending[..i])
    {
      var id := pending[i];
      assert pending[..i + 1][..i] == pending[..i];
      var action := actions[id];
      actions := actions[id := action.(status := StatusRunning)];
      sent := sent + [PayloadOf(action)];
      i := i + 1;
    }
    assert pending[..i] == pending;
  }

  method Heartbeat(db: Db, req: HeartbeatRequest, now: int) returns (r: Result<seq<ActionPayload>>)
    requires db.Valid()
    modifies db
    ensures (r, db.State()) == HeartbeatStep(old(db.State()), req, now)
    ensures db.Valid()
  {
    if req.deviceId !in db.devices {
      return Err(NotFound, "Device not found");
    }
    db.devices := db.devices[req.deviceId := BeatDevice(db.devices[req.deviceId], req, now)];
    var pending := PendingIds(db.actions, db.nextActionId, req.deviceId);
    var actions, sent := DispatchPending(db.actions, pending);
    db.actions := actions;
    r := Ok(sent);
  }

  method ActionResult(db: Db, actionId: int, req: ResultRequest, now: int) returns (r: Result<()>)
    requires db.Valid()
    modifies db
    ensures (r, db.State()) == ResultStep(old(db.State()), actionId, req, now)
    ensures db.Valid()
  {
    if actionId !in db.actions {
      return Err(NotFound, "Action not found");
    }
    if !IsTerminal(req.status) {
      return Err(BadRequest, "Invalid status");
    }
    var action := db.actions[actionId];
    var logs := if req.logs.Some? then req.logs else action.logs;
    var completedAt := Some(req.completedAt.GetOr(now));
    var payload := action.payload;
    if req.exitCode.Some? {
      var note := "exit_code=" + IntToString(req.exitCode.value);
      if Truthy(action.payload) {
        payload := Some(action.payload.value + "\n" + note);
      } else {
        payload := Some(note);
      }
    }
    db.actions := db.actions[actionId := action.(status := req.status, logs := logs,
                                                 completedAt := completedAt, payload := payload)];
    r := Ok(());
  }
}
