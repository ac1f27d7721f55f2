/**
  The `secrets` table and its two encryption backends, as functions from the
  state before a call to the state after it.

  Cryptography is symbolic: a sealed message opens under its own key and under
  no other. Row-level security is a filter on the organization. Each SQL
  transaction is one atomic step that may be refused or lose its reply, and so
  is each call to the transit engine.
 */
module SecretModel {
  import opened Environment
  import opened Numerals
  import opened Uuids

  const U64: nat := 0x1_0000_0000_0000_0000

  /** The contents of a BYTEA column. */
  datatype Bytes = Blank | Pgp(text: string, key: string) | Text(text: string)

  /** `pgp_sym_v1`, `vault_transit_v1`. */
  datatype Algorithm = PgpSym | VaultTransit

  datatype Row = Row(org: Uuid, ciphertext: Bytes, wrappedDek: Bytes, algorithm: Algorithm)

  /** The transit engine: key names, plaintexts by key name and ciphertext, and a counter. */
  datatype Vault = Vault(keys: set<string>, ciphertexts: map<(string, string), string>, counter: nat)

  datatype Config = Config(kek: string, prefix: string)

  datatype Disk = Disk(rows: map<Uuid, Row>, vault: Vault)

  datatype Answer =
    | Stored(id: Uuid) | Plaintext(text: string) | Done
    | NotFound | Undecryptable | InvalidKek | Unavailable | Database

  datatype Out = Out(answer: Answer, disk: Disk)

  // --------------------------------------------------------------------- names

  function VaultKeyName(prefix: string, org: Uuid): string {
    prefix + "/" + UuidText(org)
  }

  function CiphertextText(n: nat): string {
    "vault:test:" + Padded(n, 16, 16)
  }

  /** Each tenant has a transit key of its own. */
  lemma VaultKeyNameSeparatesTenants(prefix: string, a: Uuid, b: Uuid)
    ensures VaultKeyName(prefix, a) == VaultKeyName(prefix, b) <==> a == b
  {
    hide UuidText;
    if VaultKeyName(prefix, a) == VaultKeyName(prefix, b) {
      assert VaultKeyName(prefix, a)[|prefix| + 1..] == UuidText(a);
      assert VaultKeyName(prefix, b)[|prefix| + 1..] == UuidText(b);
      UuidTextIsInjective(a, b);
    }
  }

  /** The counter is printed as 16 hexadecimal digits behind a fixed prefix. */
  lemma CiphertextTextReadsBack(n: nat)
    ensures var t := CiphertextText(n);
            && "vault:test:" <= t && Value(t[11..], 16) == n && (n < Power(16, 16) ==> |t| == 27)
  {
    hide Padded, Value;
    assert CiphertextText(n)[11..] == Padded(n, 16, 16);
    ValueOfPadded(n, 16, 16);
    if n < Power(16, 16) { PaddedLength(n, 16, 16); }
  }

  lemma CiphertextTextIsInjective(m: nat, n: nat)
    requires CiphertextText(m) == CiphertextText(n)
    ensures m == n
  {
    hide Padded;
    assert CiphertextText(m)[11..] == Padded(m, 16, 16);
    assert CiphertextText(n)[11..] == Padded(n, 16, 16);
    PaddedIsInjective(m, n, 16, 16);
  }

  // ------------------------------------------------------------------- backends

  function PgpDecrypt(sealed: Bytes, key: string): Option<string> {
    if sealed.Pgp? && sealed.key == key then Some(sealed.text) else None
  }

  /** Both layers of the envelope: KEK to DEK to plaintext. */
  function OpenEnvelope(row: Row, kek: string): Option<string> {
    var dek := PgpDecrypt(row.wrappedDek, kek);
    if dek.None? then None else PgpDecrypt(row.ciphertext, dek.value)
  }

  function EnsureKey(v: Vault, key: string): Vault {
    v.(keys := v.keys + {key})
  }

  datatype Encrypted = Encrypted(ciphertext: Option<string>, vault: Vault)

  /** The counter is an unsigned 64-bit integer and wraps. */
  function Successor(counter: nat): nat {
    if counter + 1 < U64 then counter + 1 else 0
  }

  function Encrypt(v: Vault, key: string, text: string): Encrypted {
    if key !in v.keys then Encrypted(None, v)
    else
      var n := Successor(v.counter);
      var c := CiphertextText(n);
      Encrypted(Some(c), v.(ciphertexts := v.ciphertexts[(key, c) := text], counter := n))
  }

  function Decrypt(v: Vault, key: string, ciphertext: string): Answer {
    if key !in v.keys then InvalidKek
    else if (key, ciphertext) in v.ciphertexts then Plaintext(v.ciphertexts[(key, ciphertext)])
    else Undecryptable
  }

  // ------------------------------------------------------------------ operations

  /** How the environment treats one operation. */
  datatype Weather = Weather(ensure: Reply, transit: Reply, db: Reply)

  datatype Handle = Handle(id: Uuid, org: Uuid)

  /** The row a tenant-scoped query sees. */
  function Visible(rows: map<Uuid, Row>, handle: Handle): Option<Row> {
    if handle.id in rows && rows[handle.id].org == handle.org then Some(rows[handle.id]) else None
  }

  function Commit(reply: Reply, before: Disk, after: Disk, answer: Answer): Out {
    Out(if reply.Clean? then answer else Database, if reply.Refused? then before else after)
  }

  /** The primary key refuses an id that is already there. */
  function InsertRow(d: Disk, id: Uuid, row: Row, reply: Reply): Out {
    if id in d.rows then Out(Database, d)
    else Commit(reply, d, d.(rows := d.rows[id := row]), Stored(id))
  }

  function PutPgcrypto(d: Disk, cfg: Config, org: Uuid, text: string, id: Uuid, dek: string, env: Weather): Out {
    InsertRow(d, id, Row(org, Pgp(text, dek), Pgp(dek, cfg.kek), PgpSym), env.db)
  }

  /** Ensure the key and encrypt; either call may fail, with or without effect. */
  function Seal(v: Vault, key: string, text: string, env: Weather): Encrypted {
    if env.ensure.Refused? then Encrypted(None, v)
    else
      var ready := EnsureKey(v, key);
      if !env.ensure.Clean? || env.transit.Refused? then Encrypted(None, ready)
      else
        var e := Encrypt(ready, key, text);
        if env.transit.Clean? then e else Encrypted(None, e.vault)
  }

  function PutVault(d: Disk, cfg: Config, org: Uuid, text: string, id: Uuid, env: Weather): Out {
    var e := Seal(d.vault, VaultKeyName(cfg.prefix, org), text, env);
    if e.ciphertext.None? then Out(Unavailable, d.(vault := e.vault))
    else InsertRow(d.(vault := e.vault), id, Row(org, Text(e.ciphertext.value), Blank, VaultTransit), env.db)
  }

  function GetPgcrypto(d: Disk, cfg: Config, handle: Handle, env: Weather): Answer {
    var row := Visible(d.rows, handle);
    if !env.db.Clean? then Database
    else if row.None? then NotFound
    else
      var text := OpenEnvelope(row.value, cfg.kek);
      if text.None? then Undecryptable else Plaintext(text.value)
  }

  function GetVault(d: Disk, cfg: Config, handle: Handle, env: Weather): Answer {
    var row := Visible(d.rows, handle);
    if !env.db.Clean? then Database
    else if row.None? then NotFound
    else if row.value.algorithm != VaultTransit || !row.value.ciphertext.Text? then Undecryptable
    else if !env.transit.Clean? then Unavailable
    else Decrypt(d.vault, VaultKeyName(cfg.prefix, handle.org), row.value.ciphertext.text)
  }

  /** Both backends blank and delete the visible row in one transaction. */
  function DeleteSecret(d: Disk, handle: Handle, env: Weather): Out {
    Commit(env.db, d, if Visible(d.rows, handle).None? then d else d.(rows := d.rows - {handle.id}), Done)
  }

  /** The outcome of one row of the migration. */
  datatype Migrated = Migrated(ok: bool, disk: Disk)

  /**
    `migrate_row`: open the envelope, seal under the transit key, rewrite the
    row in place. `read` answers the first query, `env` the rest.
   */
  function MigrateRow(d: Disk, cfg: Config, handle: Handle, apply: bool, read: Reply, env: Weather): Migrated {
    if !read.Clean? || handle.id !in d.rows then Migrated(false, d)
    else
      var text := OpenEnvelope(d.rows[handle.id], cfg.kek);
      if text.None? then Migrated(false, d)
      else if !apply then Migrated(true, d)
      else
        var e := Seal(d.vault, VaultKeyName(cfg.prefix, handle.org), text.value, env);
        var sealed := d.(vault := e.vault);
        if e.ciphertext.None? then Migrated(false, sealed)
        else
          var written :=
            if d.rows[handle.id].algorithm != PgpSym then sealed
            else sealed.(rows := d.rows[handle.id := d.rows[handle.id].(ciphertext := Text(e.ciphertext.value),
                                                                       wrappedDek := Blank,
                                                                       algorithm := VaultTransit)]);
          Migrated(env.db.Clean?, if env.db.Refused? then sealed else written)
  }

  // ------------------------------------------------------------------------ runs

  datatype Op =
    | Put(backend: Algorithm, org: Uuid, text: string, id: Uuid, dek: string, env: Weather)
    | Get(backend: Algorithm, handle: Handle, env: Weather)
    | Delete(handle: Handle, env: Weather)
    | Migrate(id: Uuid, read: Reply, env: Weather)

  /** One call on either backend, or one row of the migration under the row's own organization. */
  function Step(d: Disk, cfg: Config, op: Op): Out {
    match op
    case Put(PgpSym, org, text, id, dek, env) => PutPgcrypto(d, cfg, org, text, id, dek, env)
    case Put(VaultTransit, org, text, id, dek, env) => PutVault(d, cfg, org, text, id, env)
    case Get(PgpSym, handle, env) => Out(GetPgcrypto(d, cfg, handle, env), d)
    case Get(VaultTransit, handle, env) => Out(GetVault(d, cfg, handle, env), d)
    case Delete(handle, env) => DeleteSecret(d, handle, env)
    case Migrate(id, read, env) =>
      var org := if id in d.rows then d.rows[id].org else 0;
      var m := MigrateRow(d, cfg, Handle(id, org), true, read, env);
      Out(if m.ok then Done else Database, m.disk)
  }

  function Steps(d: Disk, cfg: Config, ops: seq<Op>): Disk
    decreases |ops|
  {
    if ops == [] then d
    else Step(Steps(d, cfg, ops[..|ops| - 1]), cfg, ops[|ops| - 1]).disk
  }
}
