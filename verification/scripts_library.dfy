/** The script library router (`backend/app/api/v1/scripts_library.py`):
    scripts listed by name, and a create that refuses a name already taken. */
module ScriptsLibrary {
  import opened Common
  import opened Ordering
  import opened Store
  import opened Scripts

  predicate ScriptNameOrder(a: Script, b: Script) {
    LexLe(a.name, b.name)
  }

  lemma ScriptNameOrderTotal()
    ensures TotalPreorder(ScriptNameOrder)
  {
    forall a: Script, b: Script ensures ScriptNameOrder(a, b) || ScriptNameOrder(b, a) {
      LexLeTotal(a.name, b.name);
    }
    forall a: Script, b: Script, c: Script | ScriptNameOrder(a, b) && ScriptNameOrder(b, c)
      ensures ScriptNameOrder(a, c)
    {
      LexLeTransitive(a.name, b.name, c.name);
    }
  }

  /** `ORDER BY name`; rows tied on name come out by id, a stable choice. */
  function ListScripts(t: Tables): (r: seq<Script>)
    ensures SortedBy(r, ScriptNameOrder)
  {
    ScriptNameOrderTotal();
    SortBy(Lookup(t.scripts, Select(t.scripts, t.nextScriptId, (s: Script) => true)), ScriptNameOrder)
  }

  /** The listing holds every stored script and nothing else. */
  lemma ListScriptsMembers(t: Tables)
    requires ValidTables(t)
    ensures forall s :: s in ListScripts(t) <==> s.id in t.scripts && t.scripts[s.id] == s
  {
    SortedSelectionMembers(t.scripts, t.nextScriptId, (s: Script) => true, ScriptNameOrder, (s: Script) => s.id);
  }

  ghost predicate UniqueScriptNames(scripts: map<int, Script>) {
    forall a, b :: a in scripts && b in scripts && scripts[a].name == scripts[b].name ==> a == b
  }

  /** The first script, by id, called `name`. */
  function ScriptNamed(scripts: map<int, Script>, next: nat, name: string): (r: Option<int>)
    ensures r.Some? ==> r.value in scripts && scripts[r.value].name == name
    ensures r.None? ==> forall k :: k in scripts && 0 <= k < next ==> scripts[k].name != name
  {
    var ks := Select(scripts, next, (s: Script) => s.name == name);
    if ks == [] then None else Some(ks[0])
  }

  function CreateLibraryScriptStep(t: Tables, body: ScriptCreate): (out: (Result<Script>, Tables))
    requires ValidTables(t)
    ensures ValidTables(out.1)
    ensures out.0.Ok? <==> forall k :: k in t.scripts ==> t.scripts[k].name != body.name
    ensures out.0.Err? ==> out == (Err(BadRequest, "Script with this name already exists"), t)
  {
    if ScriptNamed(t.scripts, t.nextScriptId, body.name).Some? then
      (Err(BadRequest, "Script with this name already exists"), t)
    else
      var s := NewScript(t.nextScriptId, body);
      (Ok(s), t.(scripts := t.scripts[s.id := s], nextScriptId := s.id + 1))
  }

  /** A successful create stores exactly the supplied fields under a fresh id,
      changes nothing else, and keeps script names unique. */
  lemma CreateLibraryScriptAdds(t: Tables, body: ScriptCreate)
    requires ValidTables(t) && CreateLibraryScriptStep(t, body).0.Ok?
    ensures var (r, t') := CreateLibraryScriptStep(t, body);
      var s := r.value;
      && s == Script(t.nextScriptId, body.name, body.description, body.language.GetOr("powershell"), body.targetOsType, body.content)
      && s.id !in t.scripts
      && t'.scripts == t.scripts[s.id := s]
      && t'.(scripts := t.scripts, nextScriptId := t.nextScriptId) == t
      && (UniqueScriptNames(t.scripts) ==> UniqueScriptNames(t'.scripts))
  {
  }

  method CreateLibraryScript(db: Db, body: ScriptCreate) returns (r: Result<Script>)
    requires db.Valid()
    modifies db
    ensures (r, db.State()) == CreateLibraryScriptStep(old(db.State()), body)
    ensures db.Valid()
  {
    var existing := ScriptNamed(db.scripts, db.nextScriptId, body.name);
    if existing.Some? {
      return Err(BadRequest, "Script with this name already exists");
    }
    var s := NewScript(db.nextScriptId, body);
    db.scripts := db.scripts[s.id := s];
    db.nextScriptId := s.id + 1;
    r := Ok(s);
  }
}
