/**
 * The tracker's local backend: an HTTP server over one JSON data file whose
 * top-level keys are tables of records. Generic routes read, create, update
 * and delete records by table and id; a dedicated route checks the shared
 * password; two test-suite routes list the test-suite folder and store a run
 * configuration. Every request re-reads the file and every change is written
 * back whole. The data file is modelled after JSON decoding, and the disk as
 * a `Store`.
 */
module JsonServer {
  import opened Wrappers
  import opened Text
  import opened Storage

  /** A JSON value; numbers are the integral ones the tracker stores. */
  datatype Value =
    | JNull
    | JBool(b: bool)
    | JNum(n: int)
    | JStr(s: string)
    | JArr(elems: seq<Value>)
    | JObj(fields: map<string, Value>)

  /** A record of a table: a JSON object. */
  type Item = map<string, Value>

  /** The decoded data file: table name to records. */
  type Tables = map<string, seq<Item>>

  /** The data file: absent, present but unreadable or not JSON, or decoded. */
  datatype DataFile = Missing | Corrupt | Stored(tables: Tables)

  /** JavaScript truthiness. */
  predicate Truthy(v: Value) {
    match v
    case JNull => false
    case JBool(b) => b
    case JNum(n) => n != 0
    case JStr(s) => s != ""
    case JArr(_) => true
    case JObj(_) => true
  }

  /** `a === b` on two possibly undefined values: objects and arrays are never identical to a value parsed apart. */
  predicate StrictEq(a: Option<Value>, b: Option<Value>) {
    match (a, b)
    case (None, None) => true
    case (Some(x), Some(y)) => !x.JArr? && !x.JObj? && x == y
    case _ => false
  }

  /** The field, or `undefined`. */
  function Field(item: Item, key: string): (r: Option<Value>)
    ensures r.Some? <==> key in item
  {
    if key in item then Some(item[key]) else None
  }

  /** The four empty tables used when the file cannot be read, and written when it is missing. */
  const EmptyTables: Tables := map["projects" := [], "releases" := [], "release_models" := [], "app_config" := []]

  /** `readData`: the decoded file, or the four empty tables when it is missing or unreadable. */
  function ReadData(file: DataFile): (r: Tables)
    ensures file.Stored? ==> r == file.tables
    ensures !file.Stored? ==> r.Keys == {"projects", "releases", "release_models", "app_config"}
    ensures !file.Stored? ==> forall t :: t in r ==> r[t] == []
  {
    if file.Stored? then file.tables else EmptyTables
  }

  /** The record's `id` is the string `id` (`item.id === id`). */
  predicate HasId(item: Item, id: string) {
    "id" in item && item["id"] == JStr(id)
  }

  /** The position of the first record with the id (`findIndex`). */
  function FirstWithId(items: seq<Item>, id: string): (r: Option<nat>)
    ensures r.Some? ==> r.value < |items| && HasId(items[r.value], id)
    ensures r.Some? ==> forall j :: 0 <= j < r.value ==> !HasId(items[j], id)
    ensures r.None? <==> forall j :: 0 <= j < |items| ==> !HasId(items[j], id)
    decreases |items|
  {
    if |items| == 0 then None
    else if HasId(items[0], id) then Some(0)
    else match FirstWithId(items[1..], id)
      case None => None
      case Some(k) => Some(k + 1)
  }

  /** The record a POST stores: the body, with its `id` kept when truthy or else `uuid`, and both timestamps `now`. */
  function Created(body: Item, uuid: string, now: string): (r: Item)
    ensures r.Keys == body.Keys + {"id", "created_at", "updated_at"}
    ensures "id" in body && Truthy(body["id"]) ==> r["id"] == body["id"]
    ensures !("id" in body && Truthy(body["id"])) ==> r["id"] == JStr(uuid)
    ensures r["created_at"] == JStr(now) && r["updated_at"] == JStr(now)
    ensures forall k :: k in body && k !in {"id", "created_at", "updated_at"} ==> r[k] == body[k]
  {
    var id := if "id" in body && Truthy(body["id"]) then body["id"] else JStr(uuid);
    body["id" := id]["created_at" := JStr(now)]["updated_at" := JStr(now)]
  }

  /** `{ ...item, ...body, updated_at: now }`. */
  function Merged(item: Item, body: Item, now: string): (r: Item)
    ensures r.Keys == item.Keys + body.Keys + {"updated_at"}
    ensures forall k :: k in body && k != "updated_at" ==> r[k] == body[k]
    ensures forall k :: k in item && k !in body && k != "updated_at" ==> r[k] == item[k]
    ensures r["updated_at"] == JStr(now)
  {
    (item + body)["updated_at" := JStr(now)]
  }

  /** The records without the one at `i` (`splice(i, 1)`). */
  function RemoveAt(items: seq<Item>, i: nat): (r: seq<Item>)
    requires i < |items|
    ensures |r| == |items| - 1
    ensures multiset(r) + multiset{items[i]} == multiset(items)
    ensures forall j :: 0 <= j < i ==> r[j] == items[j]
    ensures forall j :: i <= j < |r| ==> r[j] == items[j + 1]
  {
    assert items == items[..i] + [items[i]] + items[i + 1..];
    items[..i] + items[i + 1..]
  }

  /** A record created with a fresh string id is the one a GET by that id finds, at the end of its table. */
  lemma PostThenGet(items: seq<Item>, body: Item, uuid: string, now: string, id: string)
    requires FirstWithId(items, id).None?
    requires HasId(Created(body, uuid, now), id)
    ensures FirstWithId(items + [Created(body, uuid, now)], id) == Some(|items|)
  {
    var all := items + [Created(body, uuid, now)];
    var r := FirstWithId(all, id);
    assert HasId(all[|items|], id);
  }

  /** Deleting by the id of a record just created with a fresh id restores the table. */
  lemma PostThenDelete(items: seq<Item>, body: Item, uuid: string, now: string, id: string)
    requires FirstWithId(items, id).None?
    requires HasId(Created(body, uuid, now), id)
    ensures RemoveAt(items + [Created(body, uuid, now)], |items|) == items
  {
    PostThenGet(items, body, uuid, now, id);
  }

  /** The body's own id is kept when truthy, so a POST with a string id is found by it. */
  lemma PostKeepsBodyId(body: Item, uuid: string, now: string, id: string)
    requires Field(body, "id") == Some(JStr(id)) && id != ""
    ensures HasId(Created(body, uuid, now), id)
  {
  }

  /** An update that leaves the id alone keeps the record findable at the same place. */
  lemma MergeKeepsPosition(items: seq<Item>, id: string, body: Item, now: string)
    requires FirstWithId(items, id).Some?
    requires "id" !in body
    ensures var i := FirstWithId(items, id).value;
            FirstWithId(items[i := Merged(items[i], body, now)], id) == Some(i)
  {
    var i := FirstWithId(items, id).value;
    var after := items[i := Merged(items[i], body, now)];
    assert HasId(after[i], id);
    var r := FirstWithId(after, id);
  }

  /** The `app_config` entry holding the shared password. */
  predicate IsPasswordEntry(item: Item) {
    "key" in item && item["key"] == JStr("shared_password")
  }

  function FirstPasswordEntry(configs: seq<Item>): (r: Option<nat>)
    ensures r.Some? ==> r.value < |configs| && IsPasswordEntry(configs[r.value])
    ensures r.None? <==> forall j :: 0 <= j < |configs| ==> !IsPasswordEntry(configs[j])
    decreases |configs|
  {
    if |configs| == 0 then None
    else if IsPasswordEntry(configs[0]) then Some(0)
    else match FirstPasswordEntry(configs[1..])
      case None => None
      case Some(k) => Some(k + 1)
  }

  /** The entry storing `password`; an undefined password leaves out the `value` field. */
  function PasswordEntry(password: Option<Value>): (r: Item)
    ensures IsPasswordEntry(r) && Field(r, "value") == password
  {
    var base := map["key" := JStr("shared_password")];
    if password.Some? then base["value" := password.value] else base
  }

  /**
   * `validate-password` on an `app_config` table: with no password entry the
   * password is stored and accepted; otherwise it is accepted iff it is
   * strictly equal to the stored value. The second component is the table
   * to write back.
   */
  function Validation(configs: seq<Item>, password: Option<Value>): (r: (bool, seq<Item>))
    ensures FirstPasswordEntry(configs).None? ==> r.0 && r.1 == configs + [PasswordEntry(password)]
    ensures FirstPasswordEntry(configs).Some? ==> r.1 == configs
  {
    match FirstPasswordEntry(configs)
    case None => (true, configs + [PasswordEntry(password)])
    case Some(i) => (StrictEq(Field(configs[i], "value"), password), configs)
  }

  /**
   * The first call stores the password and is accepted; every later call is
   * accepted iff its password is strictly equal to the first, so an object
   * or array password is never accepted again.
   */
  lemma FirstPasswordWins(configs: seq<Item>, first: Option<Value>, later: Option<Value>)
    requires FirstPasswordEntry(configs).None?
    ensures Validation(configs, first).0
    ensures Validation(Validation(configs, first).1, later).0 == StrictEq(first, later)
    ensures Validation(Validation(configs, first).1, later).1 == Validation(configs, first).1
    ensures first.Some? && (first.value.JObj? || first.value.JArr?) ==> !Validation(Validation(configs, first).1, later).0
  {
    var stored := Validation(configs, first).1;
    var r := FirstPasswordEntry(stored);
    assert IsPasswordEntry(stored[|configs|]);
  }

  /** `path.join` of two segments (normalisation of `.`/`..` and repeated separators is not modelled). */
  function NodeJoin(a: string, b: string): (r: string)
    ensures a == "" ==> r == b
    ensures b == "" ==> r == a
  {
    if b == "" then a else if a == "" then b else a + "/" + b
  }

  /** The key reported for a listed entry: the relative path with every `\` made `/`. */
  function EntryKey(relPath: string, name: string): (r: string)
    ensures '\\' !in r
  {
    ReplaceChar(NodeJoin(relPath, name), '\\', '/')
  }

  datatype FolderEntry = FolderEntry(name: string, prefix: string)
  datatype FileEntry = FileEntry(name: string, key: string)

  /** The folders among the entries of `full`, each with its `/`-terminated prefix. */
  function FoldersOf(disk: Store, full: string, relPath: string, names: seq<string>): (r: seq<FolderEntry>)
    ensures forall f :: f in r ==> f.name in names && IsDir(disk, full + "/" + f.name)
    ensures forall f :: f in r ==> f.prefix == EntryKey(relPath, f.name) + "/"
    ensures forall n :: n in names && IsDir(disk, full + "/" + n) ==> exists f :: f in r && f.name == n
    decreases |names|
  {
    if |names| == 0 then []
    else
      var rest := FoldersOf(disk, full, relPath, names[1..]);
      if IsDir(disk, full + "/" + names[0]) then [FolderEntry(names[0], EntryKey(relPath, names[0]) + "/")] + rest
      else rest
  }

  /** The files among the entries of `full`, each with its key. */
  function FilesOf(disk: Store, full: string, relPath: string, names: seq<string>): (r: seq<FileEntry>)
    ensures forall f :: f in r ==> f.name in names && IsFile(disk, full + "/" + f.name)
    ensures forall f :: f in r ==> f.key == EntryKey(relPath, f.name)
    ensures forall n :: n in names && IsFile(disk, full + "/" + n) ==> exists f :: f in r && f.name == n
    decreases |names|
  {
    if |names| == 0 then []
    else
      var rest := FilesOf(disk, full, relPath, names[1..]);
      if IsFile(disk, full + "/" + names[0]) then [FileEntry(names[0], EntryKey(relPath, names[0]))] + rest
      else rest
  }

  /** What a route answers. */
  datatype Body =
    | Rows(items: seq<Item>)
    | Record(item: Item)
    | Error(message: string)
    | Deleted
    | Verdict(valid: bool)
    | Listing(folders: seq<FolderEntry>, files: seq<FileEntry>)
    | RunSaved(configPath: string)
    | Crash

  datatype Response = Response(status: nat, body: Body)

  function TableNotFound(table: string): Response {
    Response(404, Error("Table " + table + " not found"))
  }

  const ItemNotFound := Response(404, Error("Item not found"))
  const SaveFailed := Response(500, Error("Failed to save data"))

  /** The server: the data file, the disk holding the test suite and run configurations, and its fixed paths. */
  class Server {
    var file: DataFile
    var disk: Store
    const testsuiteRoot: string
    const configDir: string
    const projectRoot: string

    ghost predicate Valid()
      reads this
    {
      disk.Valid()
    }

    /** Start-up (`initializeData`): a missing data file is created with the four empty tables. */
    constructor Start(file: DataFile, disk: Store, testsuiteRoot: string, configDir: string, projectRoot: string)
      requires disk.Valid()
      ensures Valid()
      ensures file.Missing? ==> this.file == Stored(EmptyTables)
      ensures !file.Missing? ==> this.file == file
      ensures this.disk == disk && this.testsuiteRoot == testsuiteRoot
      ensures this.configDir == configDir && this.projectRoot == projectRoot
    {
      this.file := if file.Missing? then Stored(EmptyTables) else file;
      this.disk := disk;
      this.testsuiteRoot := testsuiteRoot;
      this.configDir := configDir;
      this.projectRoot := projectRoot;
    }

    /** `GET /api/:table`. */
    method GetTable(table: string) returns (res: Response)
      ensures var data := ReadData(file);
              (table in data ==> res == Response(200, Rows(data[table]))) &&
              (table !in data ==> res == TableNotFound(table))
    {
      var data := ReadData(file);
      if table !in data {
        return TableNotFound(table);
      }
      res := Response(200, Rows(data[table]));
    }

    /** `GET /api/:table/:id`: the first record with the id. */
    method GetItem(table: string, id: string) returns (res: Response)
      ensures var data := ReadData(file);
              (table !in data ==> res == TableNotFound(table)) &&
              (table in data && FirstWithId(data[table], id).None? ==> res == ItemNotFound) &&
              (table in data && FirstWithId(data[table], id).Some? ==>
                 res == Response(200, Record(data[table][FirstWithId(data[table], id).value])))
    {
      var data := ReadData(file);
      if table !in data {
        return TableNotFound(table);
      }
      var index := FirstWithId(data[table], id);
      if index.None? {
        return ItemNotFound;
      }
      res := Response(200, Record(data[table][index.value]));
    }

    /**
     * `POST /api/:table`: appends exactly one record and answers 201 with it;
     * when the write fails the file is unchanged and the answer is 500.
     */
    method Post(table: string, body: Item, uuid: string, now: string, writeOk: bool) returns (res: Response)
      modifies this
      ensures disk == old(disk)
      ensures var data := ReadData(old(file));
              (table !in data ==> res == TableNotFound(table) && file == old(file)) &&
              (table in data && writeOk ==>
                 file == Stored(data[table := data[table] + [Created(body, uuid, now)]]) &&
                 res == Response(201, Record(Created(body, uuid, now)))) &&
              (table in data && !writeOk ==> file == old(file) && res == SaveFailed)
    {
      var data := ReadData(file);
      if table !in data {
        return TableNotFound(table);
      }
      var newItem := Created(body, uuid, now);
      data := data[table := data[table] + [newItem]];
      if writeOk {
        file := Stored(data);
        res := Response(201, Record(newItem));
      } else {
        res := SaveFailed;
      }
    }

    /**
     * `PUT` and `PATCH /api/:table/:id` (the same handler): the body is merged
     * over the first record with the id and `updated_at` refreshed; the
     * other records are untouched.
     */
    method Patch(table: string, id: string, body: Item, now: string, writeOk: bool) returns (res: Response)
      modifies this
      ensures disk == old(disk)
      ensures var data := ReadData(old(file));
              (table !in data ==> res == TableNotFound(table) && file == old(file)) &&
              (table in data && FirstWithId(data[table], id).None? ==> res == ItemNotFound && file == old(file)) &&
              (table in data && FirstWithId(data[table], id).Some? ==>
                 var i := FirstWithId(data[table], id).value;
                 var updated := Merged(data[table][i], body, now);
                 (writeOk ==> file == Stored(data[table := data[table][i := updated]]) && res == Response(200, Record(updated))) &&
                 (!writeOk ==> file == old(file) && res == SaveFailed))
    {
      var data := ReadData(file);
      if table !in data {
        return TableNotFound(table);
      }
      var index := FirstWithId(data[table], id);
      if index.None? {
        return ItemNotFound;
      }
      var i := index.value;
      var updated := Merged(data[table][i], body, now);
      data := data[table := data[table][i := updated]];
      if writeOk {
        file := Stored(data);
        res := Response(200, Record(updated));
      } else {
        res := SaveFailed;
      }
    }

    /** `DELETE /api/:table/:id`: removes exactly the first record with the id. */
    method Delete(table: string, id: string, writeOk: bool) returns (res: Response)
      modifies this
      ensures disk == old(disk)
      ensures var data := ReadData(old(file));
              (table !in data ==> res == TableNotFound(table) && file == old(file)) &&
              (table in data && FirstWithId(data[table], id).None? ==> res == ItemNotFound && file == old(file)) &&
              (table in data && FirstWithId(data[table], id).Some? ==>
                 var i := FirstWithId(data[table], id).value;
                 (writeOk ==> file == Stored(data[table := RemoveAt(data[table], i)]) && res == Response(200, Deleted)) &&
                 (!writeOk ==> file == old(file) && res == SaveFailed))
    {
      var data := ReadData(file);
      if table !in data {
        return TableNotFound(table);
      }
      var index := FirstWithId(data[table], id);
      if index.None? {
        return ItemNotFound;
      }
      data := data[table := RemoveAt(data[table], index.value)];
      if writeOk {
        file := Stored(data);
        res := Response(200, Deleted);
      } else {
        res := SaveFailed;
      }
    }

    /**
     * `POST /api/validate-password`. Without an `app_config` table the
     * lookup throws and the answer is a 500. A failed write of the first
     * password is ignored: the answer is still valid.
     */
    method ValidatePassword(password: Option<Value>, writeOk: bool) returns (res: Response)
      modifies this
      ensures disk == old(disk)
      ensures var data := ReadData(old(file));
              ("app_config" !in data ==> res == Response(500, Crash) && file == old(file)) &&
              ("app_config" in data ==>
                 var v := Validation(data["app_config"], password);
                 res == Response(200, Verdict(v.0)) &&
                 (FirstPasswordEntry(data["app_config"]).None? && writeOk ==> file == Stored(data["app_config" := v.1])) &&
                 (FirstPasswordEntry(data["app_config"]).Some? || !writeOk ==> file == old(file)))
    {
      var data := ReadData(file);
      if "app_config" !in data {
        return Response(500, Crash);
      }
      var configs := data["app_config"];
      var entry := FirstPasswordEntry(configs);
      if entry.None? {
        data := data["app_config" := configs + [PasswordEntry(password)]];
        if writeOk {
          file := Stored(data);
        }
        return Response(200, Verdict(true));
      }
      res := Response(200, Verdict(StrictEq(Field(configs[entry.value], "value"), password)));
    }

    /**
     * `GET /api/testsuite/list`: the folders and files directly under
     * `relPath` in the test-suite root, with keys relative to the root; a
     * missing path lists nothing; a path that is a file cannot be listed,
     * and the answer carries the message `readdirSync` raises (`readError`).
     */
    method TestsuiteList(relPath: string, readError: string) returns (res: Response)
      requires Valid()
      ensures var full := NodeJoin(testsuiteRoot, relPath);
              (!Exists(disk, full) ==> res == Response(200, Listing([], []))) &&
              (Exists(disk, full) && full in disk.data ==> res == Response(500, Error(readError))) &&
              (Exists(disk, full) && full !in disk.data ==>
                 var names := ListDir(disk, full);
                 res == Response(200, Listing(FoldersOf(disk, full, relPath, names), FilesOf(disk, full, relPath, names))))
    {
      var full := NodeJoin(testsuiteRoot, relPath);
      if !Exists(disk, full) {
        return Response(200, Listing([], []));
      }
      if full in disk.data {
        return Response(500, Error(readError));
      }
      var names := ListDir(disk, full);
      res := Response(200, Listing(FoldersOf(disk, full, relPath, names), FilesOf(disk, full, relPath, names)));
    }

    /**
     * `POST /api/testsuite/run`: rejects a request without a config or
     * without `ce_python_path` before writing anything; otherwise writes
     * the config (its JSON text given as `configText`) to
     * `<configDir>/run_<now>.json`, then fails with 500 when `handler.py`
     * is missing and otherwise answers with the config path.
     */
    method TestsuiteRun(config: Option<Value>, configText: string, now: nat) returns (res: Response)
      requires Valid()
      modifies this
      ensures Valid() && file == old(file)
      ensures config.None? || !Truthy(config.value) ==>
                res == Response(400, Error("Missing config")) && disk == old(disk)
      ensures config.Some? && Truthy(config.value) && !HasRunPath(config.value) ==>
                res == Response(400, Error("Missing ce_python_path in config")) && disk == old(disk)
      ensures config.Some? && Truthy(config.value) && HasRunPath(config.value) ==>
                var configPath := RunConfigPath(configDir, now);
                var handler := NodeJoin(NodeJoin(projectRoot, "lambda"), "handler.py");
                disk == Put(old(disk), configPath, configText) &&
                (Exists(disk, handler) ==> res == Response(200, RunSaved(configPath))) &&
                (!Exists(disk, handler) ==> res == Response(500, Error("handler.py not found at " + handler)))
    {
      if config.None? || !Truthy(config.value) {
        return Response(400, Error("Missing config"));
      }
      if !HasRunPath(config.value) {
        return Response(400, Error("Missing ce_python_path in config"));
      }
      var configPath := RunConfigPath(configDir, now);
      disk := Put(disk, configPath, configText);
      var handler := NodeJoin(NodeJoin(projectRoot, "lambda"), "handler.py");
      if !Exists(disk, handler) {
        return Response(500, Error("handler.py not found at " + handler));
      }
      res := Response(200, RunSaved(configPath));
    }
  }

  /** `config.ce_python_path` is truthy. */
  predicate HasRunPath(config: Value) {
    config.JObj? && "ce_python_path" in config.fields && Truthy(config.fields["ce_python_path"])
  }

  /** `<configDir>/run_<now>.json`. */
  function RunConfigPath(configDir: string, now: nat): (r: string)
    ensures EndsWith(r, ".json")
  {
    var name := "run_" + NatToString(now) + ".json";
    assert name[|name| - 5..] == ".json";
    var r := NodeJoin(configDir, name);
    assert r[|r| - 5..] == ".json";
    r
  }

  /**
   * Every listed key is the entry's path relative to the root without a
   * backslash, every folder prefix is its key followed by one `/`, and the
   * listing names exactly the folders and the files directly under the path.
   */
  lemma ListingShape(disk: Store, full: string, relPath: string)
    requires disk.Valid()
    ensures var names := ListDir(disk, full);
            var folders := FoldersOf(disk, full, relPath, names);
            var files := FilesOf(disk, full, relPath, names);
            (forall f :: f in folders ==> EndsWith(f.prefix, "/") && '\\' !in f.prefix[..|f.prefix| - 1]) &&
            (forall f :: f in files ==> '\\' !in f.key) &&
            (forall n :: (exists f :: f in folders && f.name == n) <==> n != "" && '/' !in n && IsDir(disk, full + "/" + n)) &&
            (forall n :: (exists f :: f in files && f.name == n) <==> n != "" && '/' !in n && IsFile(disk, full + "/" + n))
  {
    var names := ListDir(disk, full);
    var folders := FoldersOf(disk, full, relPath, names);
    forall f | f in folders
      ensures EndsWith(f.prefix, "/") && '\\' !in f.prefix[..|f.prefix| - 1]
    {
      assert f.prefix[..|f.prefix| - 1] == EntryKey(relPath, f.name);
    }
    forall n | n != "" && '/' !in n && IsDir(disk, full + "/" + n)
      ensures n in names
    {
      assert Exists(disk, full + "/" + n);
    }
    forall n | n != "" && '/' !in n && IsFile(disk, full + "/" + n)
      ensures n in names
    {
      assert Exists(disk, full + "/" + n);
    }
  }
}
