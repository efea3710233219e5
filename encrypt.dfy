/**
 * Model of encrypt.py: `CompanyHandler` keeps `db_json`, a JSON object whose
 * "encrypted_data_list" holds one `{encrypted_token, encryption_key}` item per company,
 * appended by the /add-company/ route and searched by the /get-company/ route.
 *
 * The key generated for a record is returned to the caller and stored next to the
 * ciphertext; presenting it again is the only way to find the record. The random key
 * (`AESGCM.generate_key`) and nonce (`os.urandom(12)`) are parameters, and the outcome of
 * writing the file is a parameter of the save.
 */
module Encrypt {
  import opened Wrappers
  import opened Codecs

  const LIST_FIELD := "encrypted_data_list"
  const TOKEN_FIELD := "encrypted_token"
  const KEY_FIELD := "encryption_key"

  /** The body of /add-company/. */
  datatype CompanyData = CompanyData(
    keyService: string,
    companyName: string,
    license: string,
    employees: int,
    services: seq<string>)
  {
    /** `company_info.dict()` */
    function ToJson(): Json {
      Obj(map[
        "key_service" := Str(keyService),
        "company_name" := Str(companyName),
        "license" := Str(license),
        "employees" := Num(employees),
        "services" := Arr(seq(|services|, i requires 0 <= i < |services| => Str(services[i])))])
    }
  }

  // ---------------------------------------------------------------------------------------
  // Blob framing and encryption
  // ---------------------------------------------------------------------------------------

  /** The token blob: the nonce followed by the ciphertext. */
  function Frame(nonce: Bytes, ciphertext: Bytes): (blob: Bytes)
    ensures |blob| == |nonce| + |ciphertext|
    ensures blob[..|nonce|] == nonce && blob[|nonce|..] == ciphertext
  {
    nonce + ciphertext
  }

  /**
   * `data[:12]` and `data[12:]`. Python's slices stop at the end of the sequence, so a blob
   * shorter than a nonce becomes a short nonce and an empty ciphertext.
   */
  function Split(blob: Bytes): (parts: (Bytes, Bytes))
    ensures parts.0 + parts.1 == blob
    ensures |parts.0| == if |blob| < NONCE_SIZE then |blob| else NONCE_SIZE
  {
    if |blob| < NONCE_SIZE then (blob, []) else (blob[..NONCE_SIZE], blob[NONCE_SIZE..])
  }

  /** Splitting a framed blob gives back the nonce and the ciphertext. */
  lemma SplitFrame(nonce: Bytes, ciphertext: Bytes)
    requires |nonce| == NONCE_SIZE
    ensures Split(Frame(nonce, ciphertext)) == (nonce, ciphertext)
  {
  }

  /** The item `{encrypted_token, encryption_key}`. */
  function Item(token: string, key: string): Json {
    Obj(map[TOKEN_FIELD := Str(token), KEY_FIELD := Str(key)])
  }

  /**
   * `decrypt_json`: base64-decode token and key, split the blob, open it and parse the JSON.
   * Every failure on the way is caught and re-raised as one RuntimeError, here `None`.
   */
  function DecryptJson(c: Codecs, token: string, key: string): (r: Option<Json>)
    ensures c.b64decode(token).None? || c.b64decode(key).None? ==> r.None?
    ensures r.Some? ==>
              exists plaintext ::
                && c.open(c.b64decode(key).value, Split(c.b64decode(token).value).0, Split(c.b64decode(token).value).1) == Some(plaintext)
                && c.loads(plaintext) == r
    ensures c.b64decode(token).Some? && c.b64decode(key).Some? &&
            c.open(c.b64decode(key).value, Split(c.b64decode(token).value).0, Split(c.b64decode(token).value).1).Some? ==>
              r == c.loads(c.open(c.b64decode(key).value, Split(c.b64decode(token).value).0, Split(c.b64decode(token).value).1).value)
  {
    match c.b64decode(token)
    case None => None
    case Some(blob) =>
      match c.b64decode(key)
      case None => None
      case Some(k) =>
        var (nonce, ciphertext) := Split(blob);
        match c.open(k, nonce, ciphertext)
        case None => None
        case Some(plaintext) => c.loads(plaintext)
  }

  /**
   * `encrypt_json`: serialise, seal under a fresh key and nonce, and base64-encode both the
   * framed blob and the key. Decrypting the item gives back the data.
   */
  function EncryptJson(c: Codecs, data: Json, key: Bytes, nonce: Bytes): (item: Json)
    requires |key| == KEY_SIZE && |nonce| == NONCE_SIZE
    ensures item.Obj? && item.fields.Keys == {TOKEN_FIELD, KEY_FIELD}
    ensures item.fields[KEY_FIELD] == Str(c.b64encode(key))
    ensures item.fields[TOKEN_FIELD].Str?
    ensures Sound(c) ==>
              && c.b64decode(item.fields[TOKEN_FIELD].s).Some?
              && Split(c.b64decode(item.fields[TOKEN_FIELD].s).value) == (nonce, c.seal(key, nonce, c.dumps(data)))
    ensures Sound(c) ==> DecryptJson(c, item.fields[TOKEN_FIELD].s, item.fields[KEY_FIELD].s) == Some(data)
  {
    var ciphertext := c.seal(key, nonce, c.dumps(data));
    var token := c.b64encode(Frame(nonce, ciphertext));
    var item := Item(token, c.b64encode(key));
    assert Sound(c) ==> DecryptJson(c, token, c.b64encode(key)) == Some(data) by {
      if Sound(c) {
        SplitFrame(nonce, ciphertext);
        assert c.b64decode(token) == Some(Frame(nonce, ciphertext));
        assert c.b64decode(c.b64encode(key)) == Some(key);
        assert c.open(key, nonce, ciphertext) == Some(c.dumps(data));
        assert c.loads(c.dumps(data)) == Some(data);
      }
    }
    item
  }

  // ---------------------------------------------------------------------------------------
  // Lookup by key
  // ---------------------------------------------------------------------------------------

  /** Whether `item["encryption_key"]` can be read; on anything else it raises TypeError or KeyError. */
  predicate Keyed(item: Json) {
    item.Obj? && KEY_FIELD in item.fields
  }

  predicate Matches(item: Json, key: string) {
    Keyed(item) && item.fields[KEY_FIELD] == Str(key)
  }

  /** The outcome of `next((item for item in ... if item["encryption_key"] == key), None)`. */
  datatype Scan = NotFound | Found(entry: map<string, Json>) | Raised

  /** Item `i` matches and every item before it can be read and does not match. */
  ghost predicate FirstMatchAt(items: seq<Json>, key: string, i: int) {
    && 0 <= i < |items|
    && Matches(items[i], key)
    && forall j | 0 <= j < i :: Keyed(items[j]) && !Matches(items[j], key)
  }

  /** The lazy first-match scan over a list of items. */
  function FirstMatch(items: seq<Json>, key: string): (r: Scan)
    ensures r.NotFound? <==> forall i | 0 <= i < |items| :: Keyed(items[i]) && !Matches(items[i], key)
    ensures r.Found? ==> exists i :: FirstMatchAt(items, key, i) && items[i] == Obj(r.entry)
    ensures r.Raised? ==>
              exists i ::
                && 0 <= i < |items| && !Keyed(items[i])
                && forall j | 0 <= j < i :: Keyed(items[j]) && !Matches(items[j], key)
    decreases |items|
  {
    if items == [] then NotFound
    else if !Keyed(items[0]) then Raised
    else if Matches(items[0], key) then
      assert FirstMatchAt(items, key, 0);
      Found(items[0].fields)
    else
      var r := FirstMatch(items[1..], key);
      assert r.NotFound? ==> forall i | 0 <= i < |items| :: Keyed(items[i]) && !Matches(items[i], key) by {
        if r.NotFound? {
          forall i | 0 <= i < |items| ensures Keyed(items[i]) && !Matches(items[i], key) {
            if i > 0 { assert items[i] == items[1..][i - 1]; }
          }
        }
      }
      assert r.Found? ==> exists i :: FirstMatchAt(items, key, i) && items[i] == Obj(r.entry) by {
        if r.Found? {
          var i :| FirstMatchAt(items[1..], key, i) && items[1..][i] == Obj(r.entry);
          assert FirstMatchAt(items, key, i + 1);
        }
      }
      assert r.Raised? ==>
               exists i ::
                 && 0 <= i < |items| && !Keyed(items[i])
                 && forall j | 0 <= j < i :: Keyed(items[j]) && !Matches(items[j], key) by {
        if r.Raised? {
          var i :| 0 <= i < |items| - 1 && !Keyed(items[1..][i]) &&
                   forall j | 0 <= j < i :: Keyed(items[1..][j]) && !Matches(items[1..][j], key);
          assert forall j | 0 <= j < i + 1 :: Keyed(items[j]) && !Matches(items[j], key) by {
            forall j | 0 <= j < i + 1 ensures Keyed(items[j]) && !Matches(items[j], key) {
              if j > 0 { assert items[j] == items[1..][j - 1]; }
            }
          }
        }
      }
      r
  }

  /** The scan returns the first matching item, whatever follows it. */
  lemma FirstMatchPicksFirst(items: seq<Json>, key: string, i: int)
    requires FirstMatchAt(items, key, i)
    ensures FirstMatch(items, key) == Found(items[i].fields)
  {
  }

  /**
   * Appending an item changes a lookup only when it found nothing before; the lookup then
   * answers as if the list held the new item alone.
   */
  lemma {:induction false} FirstMatchAppend(items: seq<Json>, item: Json, key: string)
    ensures FirstMatch(items + [item], key) ==
              if FirstMatch(items, key).NotFound? then FirstMatch([item], key) else FirstMatch(items, key)
    decreases |items|
  {
    if items != [] {
      assert (items + [item])[1..] == items[1..] + [item];
      FirstMatchAppend(items[1..], item, key);
    }
  }

  /** The list inside `db_json`, when `db_json["encrypted_data_list"]` is a list. */
  function Entries(db: Json): Option<seq<Json>> {
    if db.Obj? && LIST_FIELD in db.fields && db.fields[LIST_FIELD].Arr? then Some(db.fields[LIST_FIELD].items)
    else None
  }

  /**
   * The scan of `get_company` over `db_json["encrypted_data_list"]`, whatever `db_json` holds:
   * iterating a dict yields its keys and iterating a str its characters, and indexing either
   * with "encryption_key" raises TypeError.
   */
  function Lookup(db: Json, key: string): (r: Scan)
    ensures Entries(db).Some? ==> r == FirstMatch(Entries(db).value, key)
    ensures r.Found? ==> Entries(db).Some?
    ensures !db.Obj? || LIST_FIELD !in db.fields ==> r.Raised?
    ensures db.Obj? && LIST_FIELD in db.fields && !db.fields[LIST_FIELD].Arr? ==>
              && (r.NotFound? || r.Raised?)
              && (r.NotFound? <==> db.fields[LIST_FIELD] == Obj(map[]) || db.fields[LIST_FIELD] == Str(""))
  {
    if !db.Obj? || LIST_FIELD !in db.fields then Raised
    else match db.fields[LIST_FIELD]
      case Arr(items) => FirstMatch(items, key)
      case Obj(m) => if m == map[] then NotFound else Raised
      case Str(s) => if s == "" then NotFound else Raised
      case _ => Raised
  }

  /** The answers of /get-company/. */
  datatype GetResponse =
    | CompanyInfo(info: Json)   // {"company_info": ...}
    | CompanyNotFound           // 404 "Company not found"
    | DecryptionFailed          // 500 "Decryption failed: ..."
    | ServerError               // an exception outside the route's try block

  /**
   * `get_company`: first-match lookup by key, then decryption of the item found. No match is
   * a 404; a match whose decryption fails is a 500, never a 404.
   */
  function GetCompany(c: Codecs, db: Json, key: string): (r: GetResponse)
    ensures r.CompanyNotFound? <==> Lookup(db, key).NotFound?
    ensures r.ServerError? <==> Lookup(db, key).Raised?
    ensures Lookup(db, key).Found? ==> r.CompanyInfo? || r.DecryptionFailed?
    ensures r.CompanyInfo? ==>
              exists i :: FirstMatchAt(Entries(db).value, key, i) &&
                TOKEN_FIELD in Entries(db).value[i].fields &&
                Entries(db).value[i].fields[TOKEN_FIELD].Str? &&
                DecryptJson(c, Entries(db).value[i].fields[TOKEN_FIELD].s, key) == Some(r.info)
    ensures Lookup(db, key).Found? && TOKEN_FIELD in Lookup(db, key).entry &&
            Lookup(db, key).entry[TOKEN_FIELD].Str? &&
            DecryptJson(c, Lookup(db, key).entry[TOKEN_FIELD].s, key).Some? ==>
              r == CompanyInfo(DecryptJson(c, Lookup(db, key).entry[TOKEN_FIELD].s, key).value)
  {
    match Lookup(db, key)
    case NotFound => CompanyNotFound
    case Raised => ServerError
    case Found(entry) =>
      // decrypt_json(found_item["encrypted_token"], found_item["encryption_key"]) inside try
      if TOKEN_FIELD !in entry || !entry[TOKEN_FIELD].Str? then DecryptionFailed
      else match DecryptJson(c, entry[TOKEN_FIELD].s, key)
        case None => DecryptionFailed
        case Some(info) => CompanyInfo(info)
  }

  // ---------------------------------------------------------------------------------------
  // The database file
  // ---------------------------------------------------------------------------------------

  /** What `db.json` holds, as `load_db` finds it. */
  datatype Disk =
    | Absent               // os.path.exists is False
    | Unreadable           // opening or reading raises IOError
    | Undecodable          // not UTF-8: UnicodeDecodeError, which load_db does not catch
    | Malformed            // not JSON: JSONDecodeError
    | Holds(content: Json) // parses to `content`

  const EmptyDb: Json := Obj(map[LIST_FIELD := Arr([])])

  /** Whether `t` occurs in `s`, as Python's `t in s` for two strings. */
  predicate IsSubstring(t: string, s: string)
    decreases |s|
  {
    |t| <= |s| && (s[..|t|] == t || IsSubstring(t, s[1..]))
  }

  /**
   * `load_db`: the value of `db_json`, or `None` when `load_db` raises and `CompanyHandler`
   * cannot be built. A parsed object lacking the list gets an empty one and keeps its other
   * fields. A parsed value of another type meets `"encrypted_data_list" not in data` with
   * Python's own `in` (list membership, substring) or a TypeError.
   */
  function LoadDb(disk: Disk): (r: Option<Json>)
    ensures disk.Absent? || disk.Unreadable? || disk.Malformed? ==> r == Some(EmptyDb)
    ensures disk.Undecodable? ==> r.None?
    ensures disk.Holds? && disk.content.Obj? ==>
              && r.Some? && r.value.Obj?
              && r.value.fields.Keys == disk.content.fields.Keys + {LIST_FIELD}
              && (forall f | f in disk.content.fields :: r.value.fields[f] == disk.content.fields[f])
              && (LIST_FIELD !in disk.content.fields ==> r.value.fields[LIST_FIELD] == Arr([]))
    ensures disk.Holds? && Entries(disk.content).Some? ==> r == Some(disk.content)
    ensures r.Some? && r.value.Obj? ==> LIST_FIELD in r.value.fields
    ensures disk.Holds? && !disk.content.Obj? ==>
              && (r.Some? <==> (disk.content.Arr? && Str(LIST_FIELD) in disk.content.items) ||
                               (disk.content.Str? && IsSubstring(LIST_FIELD, disk.content.s)))
              && (r.Some? ==> r == Some(disk.content))
  {
    match disk
    case Absent => Some(EmptyDb)
    case Unreadable => Some(EmptyDb)
    case Malformed => Some(EmptyDb)
    case Undecodable => None
    case Holds(data) =>
      match data
      case Obj(m) => if LIST_FIELD in m then Some(data) else Some(Obj(m[LIST_FIELD := Arr([])]))
      // membership in a list; assigning a str index of a list raises TypeError
      case Arr(items) => if Str(LIST_FIELD) in items then Some(data) else None
      // substring test; a str does not support item assignment
      case Str(s) => if IsSubstring(LIST_FIELD, s) then Some(data) else None
      // `in` on a number, a bool or None raises TypeError
      case _ => None
  }

  /** How `save_db`'s write of the whole file ends. */
  datatype SaveOutcome =
    | Written       // the file now holds db_json
    | OpenFailed    // open(DB_FILE, "w") raised IOError; the file is untouched
    // the file was truncated and the dump raised IOError part-way; `midCharacter` when the
    // cut fell inside the UTF-8 encoding of a non-ASCII character (written as is, since the
    // dump does not escape them)
    | Interrupted(midCharacter: bool)

  function AfterSave(disk: Disk, db: Json, save: SaveOutcome): (d: Disk)
    ensures save.Written? ==> d == Holds(db)
    ensures save.OpenFailed? ==> d == disk
    ensures save.Interrupted? ==> LoadDb(d) == Some(EmptyDb) || LoadDb(d).None?
    ensures save.Interrupted? ==> (LoadDb(d).None? <==> save.midCharacter)
  {
    match save
    case Written => Holds(db)
    case OpenFailed => disk
    // a proper prefix of a JSON document is not JSON
    case Interrupted(midCharacter) => if midCharacter then Undecodable else Malformed
  }

  /**
   * `db_json["encrypted_data_list"].append(item)` on the value of `db_json`; `None` when it
   * raises (no such field, or a field that is not a list).
   */
  function WithItem(db: Json, item: Json): (r: Option<Json>)
    ensures r.Some? <==> Entries(db).Some?
    ensures r.Some? ==> Entries(r.value) == Some(Entries(db).value + [item])
    ensures r.Some? ==>
              && r.value.fields.Keys == db.fields.Keys
              && forall f | f in db.fields && f != LIST_FIELD :: r.value.fields[f] == db.fields[f]
  {
    match Entries(db)
    case None => None
    case Some(items) => Some(Obj(db.fields[LIST_FIELD := Arr(items + [item])]))
  }

  /** Appending never changes what an existing key resolves to. */
  lemma AppendKeepsLookups(c: Codecs, db: Json, item: Json, key: string)
    requires Entries(db).Some?
    requires !Lookup(db, key).NotFound?
    ensures GetCompany(c, WithItem(db, item).value, key) == GetCompany(c, db, key)
  {
    FirstMatchAppend(Entries(db).value, item, key);
  }

  /**
   * Round trip: when every item of the list has an `encryption_key` and none equals the new
   * key string, a lookup with the key returned by /add-company/ decrypts to the company data
   * that was added.
   */
  lemma AddThenGet(c: Codecs, db: Json, info: CompanyData, key: Bytes, nonce: Bytes)
    requires Sound(c) && |key| == KEY_SIZE && |nonce| == NONCE_SIZE
    requires Entries(db).Some? && FirstMatch(Entries(db).value, c.b64encode(key)).NotFound?
    ensures WithItem(db, EncryptJson(c, info.ToJson(), key, nonce)).Some?
    ensures GetCompany(c, WithItem(db, EncryptJson(c, info.ToJson(), key, nonce)).value, c.b64encode(key)) ==
              CompanyInfo(info.ToJson())
  {
    var item := EncryptJson(c, info.ToJson(), key, nonce);
    var k := c.b64encode(key);
    FirstMatchAppend(Entries(db).value, item, k);
    assert FirstMatch([item], k) == Found(item.fields);
  }

  /** The result of /add-company/. */
  datatype AddResponse =
    | Added(encryptionKey: string)   // {"encryption_key": ...}
    | AddFailed                      // 500 "Failed to add company: ..."

  /** How `append_to_db` ends. */
  datatype AppendOutcome = Stored | NoList | SaveFailed

  class CompanyHandler {
    const codecs: Codecs
    var db: Json      // self.db_json
    var disk: Disk    // the contents of db.json

    /** `__init__`, which runs `load_db`; when that raises there is no handler. */
    constructor (codecs: Codecs, disk: Disk)
      requires LoadDb(disk).Some?
      ensures this.codecs == codecs && this.disk == disk
      ensures db == LoadDb(disk).value
    {
      this.codecs := codecs;
      this.disk := disk;
      db := LoadDb(disk).value;
    }

    /** `save_db(self.db_json)`: the whole file is rewritten; an IOError becomes a RuntimeError. */
    method SaveDb(save: SaveOutcome) returns (ok: bool)
      modifies this`disk
      ensures ok <==> save.Written?
      ensures disk == AfterSave(old(disk), db, save)
    {
      match save {
        case Written => disk := Holds(db);
        case OpenFailed =>
        case Interrupted(midCharacter) => disk := if midCharacter then Undecodable else Malformed;
      }
      ok := save.Written?;
    }

    /**
     * `append_to_db`: the item is added to the list in memory first, then the file is saved;
     * a failed save leaves the item in memory and not in the file.
     */
    method AppendToDb(item: Json, save: SaveOutcome) returns (outcome: AppendOutcome)
      modifies this`db, this`disk
      ensures WithItem(old(db), item).None? ==> outcome == NoList && db == old(db) && disk == old(disk)
      ensures WithItem(old(db), item).Some? ==>
                && db == WithItem(old(db), item).value
                && disk == AfterSave(old(disk), db, save)
                && outcome == (if save.Written? then Stored else SaveFailed)
    {
      var updated := WithItem(db, item);
      if updated.None? {
        return NoList;
      }
      db := updated.value;
      var ok := SaveDb(save);
      outcome := if ok then Stored else SaveFailed;
    }

    /**
     * The /add-company/ route: encrypt, append, and answer with the key stored in the item.
     * Every exception becomes a 500.
     */
    method AddCompany(info: CompanyData, key: Bytes, nonce: Bytes, save: SaveOutcome) returns (r: AddResponse)
      requires |key| == KEY_SIZE && |nonce| == NONCE_SIZE
      modifies this`db, this`disk
      ensures WithItem(old(db), EncryptJson(codecs, info.ToJson(), key, nonce)).None? ==>
                r == AddFailed && db == old(db) && disk == old(disk)
      ensures WithItem(old(db), EncryptJson(codecs, info.ToJson(), key, nonce)).Some? ==>
                && db == WithItem(old(db), EncryptJson(codecs, info.ToJson(), key, nonce)).value
                && disk == AfterSave(old(disk), db, save)
                && r == (if save.Written? then Added(codecs.b64encode(key)) else AddFailed)
      ensures r.Added? ==>
                && Entries(db).Some? && |Entries(db).value| > 0
                && Matches(Entries(db).value[|Entries(db).value| - 1], r.encryptionKey)
      ensures r.Added? && Sound(codecs) && FirstMatch(Entries(old(db)).value, r.encryptionKey).NotFound? ==>
                GetCompany(codecs, db, r.encryptionKey) == CompanyInfo(info.ToJson())
      ensures r.Added? ==> LoadDb(disk) == Some(db)
    {
      var item := EncryptJson(codecs, info.ToJson(), key, nonce);
      var outcome := AppendToDb(item, save);
      if outcome.Stored? {
        r := Added(item.fields[KEY_FIELD].s);
        if Sound(codecs) && FirstMatch(Entries(old(db)).value, r.encryptionKey).NotFound? {
          AddThenGet(codecs, old(db), info, key, nonce);
        }
      } else {
        r := AddFailed;
      }
    }
  }
}
