/** The script endpoints (`backend/app/api/v1/scripts.py`): allowed-value
    checks on the OS and the language, create, get, partial update and
    delete. */
module Scripts {
  import opened Common
  import opened Constants
  import opened Store

  /** `_validate_target_os`: no value, or one of the allowed OS types. */
  function ValidateTargetOs(os: Option<string>): (r: Result<()>)
    ensures r.Ok? <==> os.None? || os.value in AllowedOsTypes
    ensures r.Err? ==> r.code == BadRequest && r.detail == OsTypeError
  {
    if os.Some? && os.value !in AllowedOsTypes then Err(BadRequest, OsTypeError) else Ok(())
  }

  const LanguageError: string := "language must be one of " + Join(AllowedScriptLanguages, ", ")

  /** `_validate_language`: no value, or one of the script languages. */
  function ValidateLanguage(language: Option<string>): (r: Result<()>)
    ensures r.Ok? <==> language.None? || language.value == "powershell" || language.value == "bash"
    ensures r.Err? ==> r.code == BadRequest && r.detail == LanguageError
  {
    if language.Some? && language.value !in AllowedScriptLanguages then Err(BadRequest, LanguageError) else Ok(())
  }

  /** The fields a script is created with; `language` may be left out. */
  datatype ScriptCreate = ScriptCreate(
    name: string,
    description: Option<string>,
    language: Option<string>,
    targetOsType: Option<string>,
    content: string)

  /** The default of the column `scripts.language`. An insert leaves a null
      attribute out of the row, so the column default is stored instead. */
  const DefaultScriptLanguage: string := "powershell"

  /** The answer when an update writes null into the `NOT NULL` column
      `scripts.language`: the database refuses the row. */
  const NullLanguageError: string := "Internal Server Error"

  /** The row a create stores under `id`: every supplied field, as given, and
      the column default for a language left null. */
  function NewScript(id: int, body: ScriptCreate): Script {
    Script(id, body.name, body.description, body.language.GetOr(DefaultScriptLanguage), body.targetOsType, body.content)
  }

  function CreateScriptStep(t: Tables, body: ScriptCreate): (out: (Result<Script>, Tables))
    requires ValidTables(t)
    ensures ValidTables(out.1)
    ensures !OsAllowed(body.targetOsType) ==> out == (Err(BadRequest, OsTypeError), t)
    ensures OsAllowed(body.targetOsType) && body.language.Some? && body.language.value !in AllowedScriptLanguages ==>
      out == (Err(BadRequest, LanguageError), t)
    ensures out.0.Ok? <==> OsAllowed(body.targetOsType) && (body.language.None? || body.language.value in AllowedScriptLanguages)
    ensures out.0.Ok? ==> out.0.value.language in AllowedScriptLanguages
  {
    if ValidateTargetOs(body.targetOsType).Err? then (Err(BadRequest, OsTypeError), t)
    else if ValidateLanguage(body.language).Err? then (Err(BadRequest, LanguageError), t)
    else
      var s := NewScript(t.nextScriptId, body);
      (Ok(s), t.(scripts := t.scripts[s.id := s], nextScriptId := s.id + 1))
  }

  /** A successful create stores the supplied fields under a fresh id and
      changes nothing else. */
  lemma CreateScriptAdds(t: Tables, body: ScriptCreate)
    requires ValidTables(t) && CreateScriptStep(t, body).0.Ok?
    ensures var (r, t') := CreateScriptStep(t, body);
      var s := r.value;
      && s.id == t.nextScriptId && s.id !in t.scripts
      && s.name == body.name && s.description == body.description
      && s.language == body.language.GetOr("powershell")
      && s.targetOsType == body.targetOsType && s.content == body.content
      && t'.scripts == t.scripts[s.id := s]
      && t'.(scripts := t.scripts, nextScriptId := t.nextScriptId) == t
  {
  }

  method CreateScript(db: Db, body: ScriptCreate) returns (r: Result<Script>)
    requires db.Valid()
    modifies db
    ensures (r, db.State()) == CreateScriptStep(old(db.State()), body)
    ensures db.Valid()
  {
    var os := ValidateTargetOs(body.targetOsType);
    if os.Err? {
      return Err(os.code, os.detail);
    }
    var language := ValidateLanguage(body.language);
    if language.Err? {
      return Err(language.code, language.detail);
    }
    var s := NewScript(db.nextScriptId, body);
    db.scripts := db.scripts[s.id := s];
    db.nextScriptId := s.id + 1;
    r := Ok(s);
  }

  /** `get_script`, in both script routers. */
  function GetScript(t: Tables, id: int): (r: Result<Script>)
    ensures r.Ok? <==> id in t.scripts
    ensures r.Ok? ==> r.value == t.scripts[id]
    ensures r.Err? ==> r.code == NotFound
  {
    if id in t.scripts then Ok(t.scripts[id]) else Err(NotFound, "Script not found")
  }

  /** The keys a partial update sets; absent keys are `Keep`. */
  datatype ScriptUpdate = ScriptUpdate(
    name: Patch<string>,
    description: Patch<Option<string>>,
    language: Patch<Option<string>>,
    targetOsType: Patch<Option<string>>,
    content: Patch<string>)

  /** The request sets `language` to null. */
  predicate SetsNullLanguage(u: ScriptUpdate) {
    u.language.Set? && u.language.value.None?
  }

  /** `setattr` of every key present. */
  function PatchedScript(s: Script, u: ScriptUpdate): Script
    requires !SetsNullLanguage(u)
  {
    s.(name := u.name.Apply(s.name),
       description := u.description.Apply(s.description),
       language := if u.language.Set? then u.language.value.value else s.language,
       targetOsType := u.targetOsType.Apply(s.targetOsType),
       content := u.content.Apply(s.content))
  }

  /** Only the keys present are validated. */
  predicate UpdateAllowed(u: ScriptUpdate) {
    && (u.targetOsType.Set? ==> OsAllowed(u.targetOsType.value))
    && (u.language.Set? ==> ValidateLanguage(u.language.value).Ok?)
  }

  function UpdateScriptStep(t: Tables, id: int, u: ScriptUpdate): (out: (Result<Script>, Tables))
    requires ValidTables(t)
    ensures ValidTables(out.1)
    ensures id !in t.scripts ==> out == (Err(NotFound, "Script not found"), t)
    ensures out.0.Ok? <==> id in t.scripts && UpdateAllowed(u) && !SetsNullLanguage(u)
    ensures out.0.Err? && id in t.scripts ==> out.1 == t
    ensures id in t.scripts && !UpdateAllowed(u) ==> out.0 == Err(BadRequest, out.0.detail)
    ensures id in t.scripts && UpdateAllowed(u) && SetsNullLanguage(u) ==>
      out.0 == Err(InternalServerError, NullLanguageError)
  {
    if id !in t.scripts then (Err(NotFound, "Script not found"), t)
    else if u.targetOsType.Set? && ValidateTargetOs(u.targetOsType.value).Err? then (Err(BadRequest, OsTypeError), t)
    else if u.language.Set? && ValidateLanguage(u.language.value).Err? then (Err(BadRequest, LanguageError), t)
    else if SetsNullLanguage(u) then (Err(InternalServerError, NullLanguageError), t)
    else
      var s := PatchedScript(t.scripts[id], u);
      (Ok(s), t.(scripts := t.scripts[id := s]))
  }

  /** An update changes exactly the keys present, on the addressed script
      only; a key absent from the request is neither checked nor changed. */
  lemma UpdateScriptChangesOnlyPresent(t: Tables, id: int, u: ScriptUpdate)
    requires ValidTables(t) && id in t.scripts && UpdateAllowed(u) && !SetsNullLanguage(u)
    ensures var (r, t') := UpdateScriptStep(t, id, u);
      var before := t.scripts[id];
      var after := t'.scripts[id];
      && r == Ok(after) && after.id == id
      && (u.name.Keep? ==> after.name == before.name)
      && (u.name.Set? ==> after.name == u.name.value)
      && (u.description.Keep? ==> after.description == before.description)
      && (u.description.Set? ==> after.description == u.description.value)
      && (u.language.Keep? ==> after.language == before.language)
      && (u.language.Set? ==> Some(after.language) == u.language.value)
      && (u.targetOsType.Keep? ==> after.targetOsType == before.targetOsType)
      && (u.targetOsType.Set? ==> after.targetOsType == u.targetOsType.value)
      && (u.content.Keep? ==> after.content == before.content)
      && (u.content.Set? ==> after.content == u.content.value)
      && t'.scripts.Keys == t.scripts.Keys
      && (forall k :: k in t.scripts && k != id ==> t'.scripts[k] == t.scripts[k])
      && t'.(scripts := t.scripts) == t
  {
  }

  /** A stored value that is no longer allowed does not block an update that
      leaves its key out. */
  lemma UpdateIgnoresAbsentKeys(t: Tables, id: int, content: string)
    requires ValidTables(t) && id in t.scripts
    ensures UpdateScriptStep(t, id, ScriptUpdate(Keep, Keep, Keep, Keep, Set(content))).0.Ok?
  {
  }

  method UpdateScript(db: Db, id: int, u: ScriptUpdate) returns (r: Result<Script>)
    requires db.Valid()
    modifies db
    ensures (r, db.State()) == UpdateScriptStep(old(db.State()), id, u)
    ensures db.Valid()
  {
    if id !in db.scripts {
      return Err(NotFound, "Script not found");
    }
    if u.targetOsType.Set? {
      var os := ValidateTargetOs(u.targetOsType.value);
      if os.Err? {
        return Err(os.code, os.detail);
      }
    }
    if u.language.Set? {
      var language := ValidateLanguage(u.language.value);
      if language.Err? {
        return Err(language.code, language.detail);
      }
    }
    var s := db.scripts[id];
    if u.name.Set? {
      s := s.(name := u.name.value);
    }
    if u.description.Set? {
      s := s.(description := u.description.value);
    }
    if u.language.Set? {
      if u.language.value.None? {
        // the commit puts null into the NOT NULL column
        return Err(InternalServerError, NullLanguageError);
      }
      s := s.(language := u.language.value.value);
    }
    if u.targetOsType.Set? {
      s := s.(targetOsType := u.targetOsType.value);
    }
    if u.content.Set? {
      s := s.(content := u.content.value);
    }
    db.scripts := db.scripts[id := s];
    r := Ok(s);
  }

  function DeleteScriptStep(t: Tables, id: int): (out: (Result<()>, Tables))
    requires ValidTables(t)
    ensures ValidTables(out.1)
    ensures out.0.Ok? <==> id in t.scripts
    ensures out.0.Err? ==> out == (Err(NotFound, "Script not found"), t)
  {
    if id !in t.scripts then (Err(NotFound, "Script not found"), t)
    else (Ok(()), t.(scripts := t.scripts - {id}))
  }

  /** A delete removes the target script and no other row. */
  lemma DeleteScriptRemovesOnlyTarget(t: Tables, id: int)
    requires ValidTables(t) && id in t.scripts
    ensures var t' := DeleteScriptStep(t, id).1;
      && id !in t'.scripts
      && t'.scripts.Keys == t.scripts.Keys - {id}
      && (forall k :: k in t'.scripts ==> t'.scripts[k] == t.scripts[k])
      && GetScript(t', id).Err?
      && t'.(scripts := t.scripts) == t
  {
  }

  method DeleteScript(db: Db, id: int) returns (r: Result<()>)
    requires db.Valid()
    modifies db
    ensures (r, db.State()) == DeleteScriptStep(old(db.State()), id)
    ensures db.Valid()
  {
    if id !in db.scripts {
      return Err(NotFound, "Script not found");
    }
    db.scripts := db.scripts - {id};
    r := Ok(());
  }
}
