/** Ad-hoc actions on one device (`backend/app/api/v1/device_actions.py`):
    the guard chain in front of creating a pending action, and the listing of
    a device's actions, newest first. */
module DeviceActions {
  import opened Common
  import opened Ordering
  import opened Store
  import opened Profiles

  /** The request body: an action type, an inline payload, a library script. */
  datatype ActionCreate = ActionCreate(actionType: string, payload: Option<string>, scriptId: Option<int>)

  /** `WHERE id = device_id AND NOT is_deleted`. */
  predicate LiveDevice(t: Tables, id: int) {
    id in t.devices && !t.devices[id].isDeleted
  }

  /** The payload the action is stored with once the script checks pass: the
      script's content when a script is named, else the supplied payload. */
  function ResolvedPayload(scripts: map<int, Script>, body: ActionCreate): Option<string>
    requires body.scriptId.Some? ==> body.scriptId.value in scripts
  {
    if body.scriptId.Some? then Some(scripts[body.scriptId.value].content) else body.payload
  }

  /** The checks of `create_action_for_device`, in order; `Ok` carries the payload. */
  function CheckActionCreate(t: Tables, id: int, body: ActionCreate): (r: Result<string>)
    ensures !LiveDevice(t, id) ==> r.Err? && r.code == NotFound
    ensures LiveDevice(t, id) && body.scriptId.Some? && body.scriptId.value !in t.scripts ==>
      r.Err? && r.code == NotFound
    ensures r.Ok? <==>
      && LiveDevice(t, id)
      && (body.scriptId.Some? ==>
            && body.scriptId.value in t.scripts
            && !LanguageMismatch(body.actionType, t.scripts[body.scriptId.value])
            && !OsMismatch(t.scripts[body.scriptId.value].targetOsType, t.devices[id].osType))
      && ResolvedPayload(t.scripts, body).Some?
    ensures r.Ok? ==> Some(r.value) == ResolvedPayload(t.scripts, body)
    ensures r.Err? && LiveDevice(t, id) && body.scriptId.Some? && body.scriptId.value in t.scripts ==>
      r.code == BadRequest
  {
    if !LiveDevice(t, id) then Err(NotFound, "Device not found")
    else if body.scriptId.Some? then
      match ValidateScriptReference(t.scripts, body.actionType, body.scriptId.value)
      case Err(c, d) => Err(c, d)
      case Ok(script) =>
        if OsMismatch(script.targetOsType, t.devices[id].osType) then
          Err(BadRequest, "Script target_os_type is not compatible with device os_type")
        else Ok(script.content)
    else if body.payload.None? then Err(BadRequest, "Either payload or script_id must be provided")
    else Ok(body.payload.value)
  }

  function CreateActionStep(t: Tables, id: int, body: ActionCreate, now: int): (out: (Result<Action>, Tables))
    requires ValidTables(t)
    ensures ValidTables(out.1)
    ensures out.0.Ok? <==> CheckActionCreate(t, id, body).Ok?
    ensures out.0.Err? ==> out.1 == t
  {
    match CheckActionCreate(t, id, body)
    case Err(c, d) => (Err(c, d), t)
    case Ok(payload) =>
      var a := PendingAction(t.nextActionId, ActionSpec(id, body.actionType, Some(payload), body.scriptId), now);
      (Ok(a), t.(actions := t.actions[a.id := a], nextActionId := a.id + 1))
  }

  /** A created action is pending, belongs to the device, carries the script's
      content when a script is named (whatever payload was supplied) and the
      supplied payload otherwise; it is the only new row. */
  lemma CreateActionAdds(t: Tables, id: int, body: ActionCreate, now: int)
    requires ValidTables(t) && CheckActionCreate(t, id, body).Ok?
    ensures var (r, t') := CreateActionStep(t, id, body, now);
      var a := r.value;
      && a.id == t.nextActionId && a.id !in t.actions
      && a.deviceId == id && a.status == "pending"
      && a.actionType == body.actionType && a.scriptId == body.scriptId
      && (body.scriptId.Some? ==> a.payload == Some(t.scripts[body.scriptId.value].content))
      && (body.scriptId.None? ==> a.payload == body.payload && a.payload.Some?)
      && a.logs.None? && a.completedAt.None? && a.createdAt == now
      && t'.actions == t.actions[a.id := a]
      && t'.(actions := t.actions, nextActionId := t.nextActionId) == t
  {
  }

  /** Neither a payload nor a script: refused, and nothing is stored. */
  lemma CreateActionNeedsPayload(t: Tables, id: int, actionType: string, now: int)
    requires ValidTables(t) && LiveDevice(t, id)
    ensures CreateActionStep(t, id, ActionCreate(actionType, None, None), now) ==
      (Err(BadRequest, "Either payload or script_id must be provided"), t)
  {
  }

  method CreateActionForDevice(db: Db, id: int, body: ActionCreate, now: int) returns (r: Result<Action>)
    requires db.Valid()
    modifies db
    ensures (r, db.State()) == CreateActionStep(old(db.State()), id, body, now)
    ensures db.Valid()
  {
    if id !in db.devices || db.devices[id].isDeleted {
      return Err(NotFound, "Device not found");
    }
    var device := db.devices[id];
    var payload := body.payload;
    if body.scriptId.Some? {
      if body.scriptId.value !in db.scripts {
        return Err(NotFound, "Script not found");
      }
      var script := db.scripts[body.scriptId.value];
      if LanguageMismatch(body.actionType, script) {
        return Err(BadRequest, "Script language mismatch for PowerShell action");
      }
      if OsMismatch(script.targetOsType, device.osType) {
        return Err(BadRequest, "Script target_os_type is not compatible with device os_type");
      }
      payload := Some(script.content);
    }
    if payload.None? {
      return Err(BadRequest, "Either payload or script_id must be provided");
    }
    var a := PendingAction(db.nextActionId, ActionSpec(id, body.actionType, payload, body.scriptId), now);
    db.actions := db.actions[a.id := a];
    db.nextActionId := a.id + 1;
    r := Ok(a);
  }

  // ---------------------------------------------------------------------------
  // list_actions_for_device: `WHERE device_id = ? ORDER BY created_at DESC`

  predicate NewestFirst(a: Action, b: Action) {
    a.createdAt >= b.createdAt
  }

  lemma NewestFirstTotal()
    ensures TotalPreorder(NewestFirst)
  {
  }

  /** Actions the database ties on `created_at` come out by id, a stable choice. */
  function ListActionsForDevice(t: Tables, id: int): (r: Result<seq<Action>>)
    ensures r.Ok? <==> LiveDevice(t, id)
    ensures r.Err? ==> r == Err(NotFound, "Device not found")
    ensures r.Ok? ==> SortedBy(r.value, NewestFirst)
  {
    if !LiveDevice(t, id) then Err(NotFound, "Device not found")
    else
      NewestFirstTotal();
      Ok(SortBy(Lookup(t.actions, Select(t.actions, t.nextActionId, (a: Action) => a.deviceId == id)), NewestFirst))
  }

  /** The listing holds exactly the device's stored actions. */
  lemma ListActionsMembers(t: Tables, id: int)
    requires ValidTables(t) && LiveDevice(t, id)
    ensures forall a :: a in ListActionsForDevice(t, id).value <==>
      a.id in t.actions && t.actions[a.id] == a && a.deviceId == id
  {
    SortedSelectionMembers(t.actions, t.nextActionId, (a: Action) => a.deviceId == id, NewestFirst,
                           (a: Action) => a.id);
  }
}
