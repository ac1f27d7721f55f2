/**
  The stores as they execute: shared mutable state behind a mutex or a database
  connection. Every method is proved to take the step `SecretModel` describes.
 */
module SecretStores {
  import opened Environment
  import opened Uuids
  import opened SecretModel

  /** The `secrets` table. */
  class SecretsTable {
    var rows: map<Uuid, Row>

    constructor (initial: map<Uuid, Row>)
      ensures rows == initial
    {
      rows := initial;
    }
  }

  class InMemoryVaultTransit {
    var keys: set<string>
    var ciphertexts: map<(string, string), string>
    var counter: nat

    constructor ()
      ensures State() == Vault({}, map[], 0)
    {
      keys, ciphertexts, counter := {}, map[], 0;
    }

    function State(): Vault
      reads this
    {
      Vault(keys, ciphertexts, counter)
    }

    method EnsureKey(key: string)
      modifies this
      ensures State() == SecretModel.EnsureKey(old(State()), key)
    {
      keys := keys + {key};
    }

    method Encrypt(key: string, text: string) returns (sealed: Option<string>)
      modifies this
      ensures Encrypted(sealed, State()) == SecretModel.Encrypt(old(State()), key, text)
    {
      if key !in keys { return None; }
      counter := Successor(counter);
      var c := CiphertextText(counter);
      ciphertexts := ciphertexts[(key, c) := text];
      sealed := Some(c);
    }

    method Decrypt(key: string, ciphertext: string) returns (answer: Answer)
      ensures answer == SecretModel.Decrypt(State(), key, ciphertext)
    {
      if key !in keys {
        answer := InvalidKek;
      } else if (key, ciphertext) in ciphertexts {
        answer := Plaintext(ciphertexts[(key, ciphertext)]);
      } else {
        answer := Undecryptable;
      }
    }

    /** `ensure_key` then `encrypt`, over a connection that may fail at either call. */
    method Seal(key: string, text: string, env: Weather) returns (sealed: Option<string>)
      modifies this
      ensures Encrypted(sealed, State()) == SecretModel.Seal(old(State()), key, text, env)
    {
      if env.ensure.Refused? { return None; }
      EnsureKey(key);
      if !env.ensure.Clean? || env.transit.Refused? { return None; }
      sealed := Encrypt(key, text);
      if !env.transit.Clean? { sealed := None; }
    }
  }

  class PgcryptoStore {
    const pool: SecretsTable
    const kek: string

    constructor (pool: SecretsTable, kek: string)
      ensures this.pool == pool && this.kek == kek
    {
      this.pool, this.kek := pool, kek;
    }

    method Put(org: Uuid, text: string, id: Uuid, dek: string, env: Weather) returns (answer: Answer)
      modifies pool
      ensures forall v, prefix ::
        Out(answer, Disk(pool.rows, v)) ==
          PutPgcrypto(Disk(old(pool.rows), v), Config(kek, prefix), org, text, id, dek, env)
    {
      if id in pool.rows { return Database; }
      var tx := pool.rows[id := Row(org, Pgp(text, dek), Pgp(dek, kek), PgpSym)];
      if !env.db.Refused? { pool.rows := tx; }
      answer := if env.db.Clean? then Stored(id) else Database;
    }

    method Get(handle: Handle, env: Weather) returns (answer: Answer)
      ensures forall v, prefix :: answer == GetPgcrypto(Disk(pool.rows, v), Config(kek, prefix), handle, env)
    {
      if !env.db.Clean? { return Database; }
      if handle.id !in pool.rows || pool.rows[handle.id].org != handle.org { return NotFound; }
      var row := pool.rows[handle.id];
      var dek := PgpDecrypt(row.wrappedDek, kek);
      if dek.None? { return Undecryptable; }
      var text := PgpDecrypt(row.ciphertext, dek.value);
      answer := if text.None? then Undecryptable else Plaintext(text.value);
    }

    method Delete(handle: Handle, env: Weather) returns (answer: Answer)
      modifies pool
      ensures forall v :: Out(answer, Disk(pool.rows, v)) == DeleteSecret(Disk(old(pool.rows), v), handle, env)
    {
      answer := BlankAndDelete(pool, handle, env);
    }
  }

  /** Overwrite the key material, delete the row, commit. */
  method BlankAndDelete(pool: SecretsTable, handle: Handle, env: Weather) returns (answer: Answer)
    modifies pool
    ensures forall v :: Out(answer, Disk(pool.rows, v)) == DeleteSecret(Disk(old(pool.rows), v), handle, env)
  {
    var tx := pool.rows;
    if handle.id in tx && tx[handle.id].org == handle.org {
      tx := tx[handle.id := tx[handle.id].(ciphertext := Blank, wrappedDek := Blank)];
    }
    if handle.id in tx && tx[handle.id].org == handle.org {
      tx := tx - {handle.id};
    }
    if !env.db.Refused? { pool.rows := tx; }
    answer := if env.db.Clean? then Done else Database;
  }

  class VaultStore {
    const pool: SecretsTable
    const transit: InMemoryVaultTransit
    const keyPrefix: string

    constructor (pool: SecretsTable, transit: InMemoryVaultTransit, keyPrefix: string)
      ensures this.pool == pool && this.transit == transit && this.keyPrefix == keyPrefix
    {
      this.pool, this.transit, this.keyPrefix := pool, transit, keyPrefix;
    }

    function State(): Disk
      reads pool, transit
    {
      Disk(pool.rows, transit.State())
    }

    method Put(org: Uuid, text: string, id: Uuid, env: Weather) returns (answer: Answer)
      modifies pool, transit
      ensures forall kek :: Out(answer, State()) == PutVault(old(State()), Config(kek, keyPrefix), org, text, id, env)
    {
      hide VaultKeyName;
      var sealed := transit.Seal(VaultKeyName(keyPrefix, org), text, env);
      if sealed.None? { return Unavailable; }
      if id in pool.rows { return Database; }
      var tx := pool.rows[id := Row(org, Text(sealed.value), Blank, VaultTransit)];
      if !env.db.Refused? { pool.rows := tx; }
      answer := if env.db.Clean? then Stored(id) else Database;
    }

    method Get(handle: Handle, env: Weather) returns (answer: Answer)
      ensures forall kek :: answer == GetVault(State(), Config(kek, keyPrefix), handle, env)
    {
      hide VaultKeyName;
      if !env.db.Clean? { return Database; }
      if handle.id !in pool.rows || pool.rows[handle.id].org != handle.org { return NotFound; }
      var row := pool.rows[handle.id];
      if row.algorithm != VaultTransit || !row.ciphertext.Text? { return Undecryptable; }
      if !env.transit.Clean? { return Unavailable; }
      answer := transit.Decrypt(VaultKeyName(keyPrefix, handle.org), row.ciphertext.text);
    }

    method Delete(handle: Handle, env: Weather) returns (answer: Answer)
      modifies pool
      ensures Out(answer, State()) == DeleteSecret(old(State()), handle, env)
    {
      ghost var v := transit.State();
      answer := BlankAndDelete(pool, handle, env);
      assert Out(answer, Disk(pool.rows, v)) == DeleteSecret(Disk(old(pool.rows), v), handle, env);
    }
  }
}
