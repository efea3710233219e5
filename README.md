# Session quotas and the encrypted company store, in Dafny

This project models the stateful core of a small multi-tenant backend written in Python.

- **`sqlitedb.py`** is the relational side. `GeneralDatabase` inserts, selects, updates and deletes rows of an SQLite table. `SessionDB` keeps login sessions, each with an order ceiling `TotalOrders` and a consumed count `UsedOrders`. `CompanyDB` is plain CRUD over a Company table.
- **`encrypt.py`** holds `CompanyHandler`. It encrypts each company profile under a freshly generated AES-GCM key and appends `{encrypted_token, encryption_key}` to the list `db_json["encrypted_data_list"]`, which it saves to `db.json`. It hands the key back to the caller. Presenting the key later finds the first item carrying it and decrypts it.

## Files

- `wrappers.dfy` (module `Wrappers`): `Option`.
- `codecs.dfy` (module `Codecs`): bytes, a JSON value type, and the `Codecs` record. The record holds AES-GCM (NIST SP 800-38D, 96-bit nonce), URL-safe base64 (section 5 of RFC 4648) and `json` as function values. The ghost predicate `Sound` states their round-trip laws. A lemma that needs those laws takes `Sound(c)` as a hypothesis; nothing is assumed globally.
- `sqlitedb.dfy` (module `Sqlitedb`):
  - A table is a `map` from primary key to row.
  - `Table<R>` is a class whose methods are `GeneralDatabase`'s, applied to one table.
  - `SessionDB` and `CompanyDB` each own a `Table`.
  - Pure functions such as `Inserted`, `Updated`, `Incremented` and `UsedOrdersSet` give each operation's outcome and new table. The methods are proved equal to them.
  - A `Schema` records what SQLite checks on a write. That is the single UNIQUE column besides the primary key (`Token` or `LicenseNumber`), and whether the INTEGER columns fit in signed 64 bits (binding a bigger Python int raises `OverflowError`).
- `encrypt.dfy` (module `Encrypt`):
  - Blob framing, `encrypt_json` and `decrypt_json`.
  - The first-match scan of `get_company` and the routes' responses.
  - `load_db` and `append_to_db` on the JSON value of `db_json`.
  - The class `CompanyHandler`, holding `db_json` and the file's contents.

## How the model reads the code

- **Quota ceiling.** The ceiling `UsedOrders <= TotalOrders` is established by the two mutators `increment_used_orders` and `update_used_orders`. It is not a class invariant.
  - `add_session` stores whatever counts it is given. `SessionCeilingExample` shows a row created past its ceiling, which `check_orders` then reports.
  - `update_used_orders` has no lower bound. Only SQLite's 64-bit range stops a very negative value.
- **Duplicate session token.** An insert with a taken `Token` is refused by SQLite. `insert` swallows the error, so `add_session` still returns the new id and the caller is not told about the conflict.
- **Saving `db.json`.** `save_db` rewrites the file in place. An `IOError` part-way leaves a truncated file (`AfterSave`). The next `load_db` then starts from an empty list, or raises `UnicodeDecodeError` when the cut fell inside a non-ASCII character, which the dump writes unescaped. The item appended in memory stays there.
- **`load_db` on odd JSON.** `load_db` applies Python's `in` to whatever `json.load` returned:
  - a list that contains the string `"encrypted_data_list"` is kept as it is;
  - so is a string that contains it;
  - any other non-object raises `TypeError`, and no handler is built.
  - a file that is not UTF-8 raises `UnicodeDecodeError`, which is not caught either.
- **`get_company` failures.** When `db_json["encrypted_data_list"]` cannot be scanned, the exception is raised before the route's `try` block, so nothing catches it. The model answers with `ServerError`, kept apart from `DecryptionFailed`. The same holds when an item before the match has no `encryption_key` or is not an object. A list field that is not a list is iterated as Python does: an empty dict or empty string finds nothing (404), anything else raises (`Lookup`).
- **Random sources and the clock.** `uuid.uuid4()`, `datetime.now()`, `AESGCM.generate_key` and `os.urandom(12)` are method parameters. So is the outcome of writing the file.

## Model

| member | source | states |
|---|---|---|
| `Sqlitedb.Inserted` | sqlitedb.py:23-33 | existing rows never change; the new key appears exactly when SQLite admits the row (free primary key, free UNIQUE value, 64-bit integers), and then holds the row; a refused insert changes nothing; table constraints are preserved |
| `Sqlitedb.Updated` | sqlitedb.py:35-50 | no matching row gives False; False leaves the table unchanged; True exactly when the row existed and its new version was admitted; then the new version is stored, every other row is unchanged, and the key set changes only at the matched row; constraints are preserved |
| `Sqlitedb.Deleted` | sqlitedb.py:52-65 | True exactly when a row matched; afterwards exactly that key is gone and every remaining row is unchanged |
| `Sqlitedb.Table.constructor` | sqlitedb.py:13-21 | a newly created table is empty and consistent |
| `Sqlitedb.Table.Select` | sqlitedb.py:67-78 | returns a row exactly when one has the key, and then that row |
| `Sqlitedb.Table.Insert` | sqlitedb.py:23-33 | the new table is `Inserted` of the old one; constraints are kept |
| `Sqlitedb.Table.Update` | sqlitedb.py:35-50 | result and new table are `Updated` of the old table: SELECT first, then UPDATE, with a rollback when SQLite refuses |
| `Sqlitedb.Table.Delete` | sqlitedb.py:52-65 | result and new table are `Deleted` of the old table |
| `Sqlitedb.Incremented` | sqlitedb.py:123-148 | an unknown session gives False and no change; `UsedOrders + 1 > TotalOrders` gives False and no change; success raises that session's `UsedOrders` by exactly 1 and leaves every other column and session unchanged; after success `UsedOrders <= TotalOrders`; on a consistent table, success happens exactly when the session exists and is below its ceiling |
| `Sqlitedb.UsedOrdersSet` | sqlitedb.py:150-160 | absolute set: unknown session or a value above `TotalOrders` gives False and no change; success sets `UsedOrders` to the value, changes nothing else and leaves the session within its ceiling; on a consistent table success happens exactly when the session exists and `INT64_MIN <= n <= TotalOrders` (no lower bound of 0) |
| `Sqlitedb.IncrementIsSetToNext` | sqlitedb.py:123-160 | for an existing session, incrementing has the same result and table as setting `UsedOrders` to its current value plus one |
| `Sqlitedb.SessionDB.constructor` | sqlitedb.py:96-106 | a new Sessions table is empty, keyed by SessionId, with Token UNIQUE |
| `Sqlitedb.SessionDB.AddSession` | sqlitedb.py:108-121 | returns the generated id whether or not the insert succeeded; the table becomes `Inserted` of the old one with the given values (defaults "Active", 0, 0); a taken token leaves the table unchanged |
| `Sqlitedb.SessionDB.IncrementUsedOrders` | sqlitedb.py:123-148 | result and new table are `Incremented` of the old table |
| `Sqlitedb.SessionDB.UpdateUsedOrders` | sqlitedb.py:150-160 | result and new table are `UsedOrdersSet` of the old table |
| `Sqlitedb.SessionDB.CheckOrders` | sqlitedb.py:162-168 | read-only; True exactly when the session exists and `UsedOrders <= TotalOrders` |
| `Sqlitedb.Patched` | sqlitedb.py:42-45 | for a well-formed SET clause, each column named in `data` takes its new value (the primary key too) and every other column keeps its value |
| `Sqlitedb.CompanyUpdated` | sqlitedb.py:206-207 | True exactly when the company exists, the SET clause is well-formed and SQLite admits the patched row; False leaves the table unchanged; True replaces exactly that row, under its possibly new Id |
| `Sqlitedb.CompanyDB.constructor` | sqlitedb.py:176-185 | a new Company table is empty, keyed by Id, with LicenseNumber UNIQUE |
| `Sqlitedb.CompanyDB.AddCompany` | sqlitedb.py:190-201 | returns the generated id; the table becomes `Inserted` of the old one with the given values |
| `Sqlitedb.CompanyDB.UpdateCompany` | sqlitedb.py:206-207 | result and new table are `CompanyUpdated` of the old table |
| `Sqlitedb.CompanyDB.DeleteCompany` | sqlitedb.py:212-213 | result and new table are `Deleted` of the old table |
| `Encrypt.Frame` | encrypt.py:111-114 | the blob is as long as nonce and ciphertext together, starts with the nonce and continues with the ciphertext |
| `Encrypt.Split` | encrypt.py:125-128 | the two parts concatenate back to the blob; the nonce part is 12 bytes, or the whole blob when it is shorter |
| `Encrypt.SplitFrame` | encrypt.py:111-128 | with a 12-byte nonce, splitting a framed blob gives back exactly the nonce and the ciphertext |
| `Encrypt.DecryptJson` | encrypt.py:120-133 | an undecodable token or key fails; when both decode and AES-GCM opens the ciphertext `blob[12:]` under the decoded key and nonce `blob[:12]`, the result is the JSON parse of the plaintext, and every success arises this way |
| `Encrypt.EncryptJson` | encrypt.py:103-118 | the item has exactly the fields `encrypted_token` and `encryption_key`, the latter the base64 of the key; under the codecs' round-trip laws, the decoded token splits into the given nonce and the ciphertext sealed under it, and decrypting the item gives back the data |
| `Encrypt.FirstMatch` | encrypt.py:56-59 | NotFound exactly when every item is readable and none carries the key; Found gives an item that matches while every earlier item is readable and does not match; Raised points at an unreadable item with no match before it |
| `Encrypt.FirstMatchPicksFirst` | encrypt.py:56-59 | when item `i` is the first match, the scan returns item `i`, whatever follows it |
| `Encrypt.FirstMatchAppend` | encrypt.py:56-59 | scanning the list with one more item at the end gives the old answer unless that was NotFound, in which case it is the new item's answer |
| `Encrypt.Lookup` | encrypt.py:56-59 | when `encrypted_data_list` is a list the lookup is the first-match scan of it; a match requires a list; a `db_json` that is not an object with that field raises; a field that is not a list finds nothing exactly when it is an empty dict or empty string, and raises otherwise |
| `Encrypt.GetCompany` | encrypt.py:51-66 | 404 exactly when the scan finds nothing; a server error exactly when the scan raises; a matched item gives company info or "Decryption failed", never a 404; company info is the decryption of the first matching item's token, and a first match whose token decrypts always gives company info |
| `Encrypt.LoadDb` | encrypt.py:69-83 | a missing, unreadable or non-JSON file gives `{"encrypted_data_list": []}`; a non-UTF-8 file raises; a parsed object gains the list field as `[]` when it lacks it, and keeps every other field; a stored document whose field is a list loads back unchanged; a parsed non-object is kept as it is exactly when it is a list holding the string `"encrypted_data_list"` or a string containing it, and otherwise raises |
| `Encrypt.AfterSave` | encrypt.py:85-93 | a completed write leaves the file holding `db_json`; a failed open leaves the file as it was; an interrupted write leaves a file on which `load_db` raises exactly when the cut fell inside a character, and otherwise starts from an empty list |
| `Encrypt.WithItem` | encrypt.py:95-100 | the append succeeds exactly when `encrypted_data_list` is a list; the new list is the old one plus the item at the end, so earlier entries keep their order and values; no other field changes |
| `Encrypt.AppendKeepsLookups` | encrypt.py:95-100 | appending an item does not change the answer for any key whose lookup already found an item or raised |
| `Encrypt.AddThenGet` | encrypt.py:39-66 | under the codecs' round-trip laws, if every existing item has an `encryption_key` and none equals the new key string, getting with the key from add-company returns the company data that was added |
| `Encrypt.CompanyHandler.constructor` | encrypt.py:34-36 | `db_json` is what `load_db` returns for the file |
| `Encrypt.CompanyHandler.SaveDb` | encrypt.py:85-93 | succeeds exactly on a completed write; the file becomes `AfterSave` of the old file |
| `Encrypt.CompanyHandler.AppendToDb` | encrypt.py:95-100 | when the list is missing or not a list, nothing changes; otherwise the in-memory `db_json` gains the item before the save runs, so a failed save keeps it in memory but not in the file |
| `Encrypt.CompanyHandler.AddCompany` | encrypt.py:39-49 | on success, the response carries the `encryption_key` of the item now last in the list; when every existing item has an `encryption_key` and none equals the new one, and the codecs are sound, get-company with that key returns the data; the saved file loads back to the new `db_json`; a failure answers 500, with the in-memory item kept only when the save failed |

## Left out

- Concurrency. The select-then-update sequences in `SessionDB` take no lock, and `CompanyHandler` shares `db_json` between requests. The model is sequential, so lost updates between concurrent callers are not represented.
- SQL text and the SQLite engine. Only primary-key WHERE clauses are modelled, because every caller uses one.
- SQLite's dynamic typing and type affinity, NULL values, and case-insensitive column names are not modelled.
- Engine failures other than constraint violations and integer overflow are not modelled. Examples are a locked database or a disk error.
- Opening a database file that already holds rows. Tables start empty, so every state is one the modelled operations reach.
- `Sqlitedb.CompanyUpdated`: a value whose type differs from the column's declared type is treated as refused. SQLite would store it after converting by type affinity.
- `Sqlitedb.CompanyDB.UpdateCompany`: a value whose type differs from the column's declared type is treated as refused. SQLite would store it after converting by type affinity.
- `search_by_value`, `search_session`, `search_company`. They are read-only. The two search helpers call a `search_like` that the class does not define, and `search_by_value` is indented so that the file would not parse.
- main.py (web framework wiring) and aes_cipher.py (a base64-wrapped copy of the same nonce framing) are not part of this model.
- The internals of AES-GCM, base64 and `json`. They are function values whose round-trip laws appear as hypotheses. Tamper detection and key uniqueness are properties of the cryptography and are not stated.
- `Encrypt.LoadDb`: JSON numbers are integers, and the formatting of the saved file (`indent=2`) is not modelled.
- HTTP status codes, response bodies and the `print` error reporting. Only the kinds of response are kept.
- encrypt.py keeps no per-record request counters and never replaces a stored item; nothing here models either.
