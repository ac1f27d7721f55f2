/**
  Both backends, used in any order on one table and with the migration running
  between the calls, behave like a single map from handles to plaintexts.
 */
module SecretRefinement {
  import opened Environment
  import opened Uuids
  import opened SecretModel

  /** What callers may think the store is. */
  datatype Entry = Entry(org: Uuid, backend: Algorithm, text: Option<string>)

  type Book = map<Uuid, Entry>

  datatype BookOut = BookOut(answer: Answer, book: Book)

  function Settle(reply: Reply, before: Book, after: Book, answer: Answer): BookOut {
    BookOut(if reply.Clean? then answer else Database, if reply.Refused? then before else after)
  }

  /** The transit engine did what it was asked; pgcrypto does not ask it. */
  predicate Sealed(backend: Algorithm, env: Weather) {
    backend.VaultTransit? ==> env.ensure.Clean? && env.transit.Clean?
  }

  function BookGet(book: Book, backend: Algorithm, handle: Handle, env: Weather): Answer {
    if !env.db.Clean? then Database
    else if handle.id !in book || book[handle.id].org != handle.org then NotFound
    else if book[handle.id].backend != backend then Undecryptable
    else if backend.VaultTransit? && !env.transit.Clean? then Unavailable
    else if book[handle.id].text.None? then Undecryptable
    else Plaintext(book[handle.id].text.value)
  }

  function BookStep(book: Book, op: Op): BookOut {
    match op
    case Put(backend, org, text, id, _, env) =>
      if !Sealed(backend, env) then BookOut(Unavailable, book)
      else if id in book then BookOut(Database, book)
      else Settle(env.db, book, book[id := Entry(org, backend, Some(text))], Stored(id))
    case Get(backend, handle, env) => BookOut(BookGet(book, backend, handle, env), book)
    case Delete(handle, env) =>
      var hit := handle.id in book && book[handle.id].org == handle.org;
      Settle(env.db, book, if hit then book - {handle.id} else book, Done)
    case Migrate(id, read, env) =>
      if !read.Clean? || id !in book || book[id].backend != PgpSym || book[id].text.None?
         || !Sealed(VaultTransit, env)
      then BookOut(Database, book)
      else Settle(env.db, book, book[id := book[id].(backend := VaultTransit)], Done)
  }

  function BookSteps(book: Book, ops: seq<Op>): Book
    decreases |ops|
  {
    if ops == [] then book else BookStep(BookSteps(book, ops[..|ops| - 1]), ops[|ops| - 1]).book
  }

  // ----------------------------------------------------------------- abstraction

  /** The plaintext of a row under the backend its algorithm tag names. */
  function Meaning(row: Row, cfg: Config, vault: Vault): Option<string> {
    match row.algorithm
    case PgpSym => OpenEnvelope(row, cfg.kek)
    case VaultTransit =>
      if !row.ciphertext.Text? then None
      else
        var a := Decrypt(vault, VaultKeyName(cfg.prefix, row.org), row.ciphertext.text);
        if a.Plaintext? then Some(a.text) else None
  }

  function EntryOf(row: Row, cfg: Config, vault: Vault): Entry {
    Entry(row.org, row.algorithm, Meaning(row, cfg, vault))
  }

  function BookOf(d: Disk, cfg: Config): Book {
    map id | id in d.rows :: EntryOf(d.rows[id], cfg, d.vault)
  }

  /** Every counter value still to come gives a ciphertext nobody has. */
  ghost predicate Unused(v: Vault) {
    && v.counter < U64
    && forall key, n :: v.counter < n < U64 ==> (key, CiphertextText(n)) !in v.ciphertexts
  }

  /** A row tagged for the transit engine carries a ciphertext of its tenant's key and no DEK. */
  predicate RowOk(row: Row, cfg: Config, v: Vault) {
    row.algorithm.VaultTransit? ==>
      && row.wrappedDek.Blank?
      && row.ciphertext.Text?
      && VaultKeyName(cfg.prefix, row.org) in v.keys
      && (VaultKeyName(cfg.prefix, row.org), row.ciphertext.text) in v.ciphertexts
  }

  ghost predicate Sound(d: Disk, cfg: Config) {
    && Unused(d.vault)
    && forall id :: id in d.rows ==> RowOk(d.rows[id], cfg, d.vault)
  }

  ghost predicate Extends(v: Vault, u: Vault) {
    && v.keys <= u.keys
    && (forall kc :: kc in v.ciphertexts ==> kc in u.ciphertexts && u.ciphertexts[kc] == v.ciphertexts[kc])
  }

  /** A fresh ciphertext never overwrites an older one. */
  lemma SealExtends(v: Vault, key: string, text: string, env: Weather)
    requires Unused(v) && v.counter + 1 < U64
    ensures var e := Seal(v, key, text, env);
            && Extends(v, e.vault) && Unused(e.vault) && e.vault.counter <= v.counter + 1
            && (e.ciphertext.Some? <==> env.ensure.Clean? && env.transit.Clean?)
            && (e.ciphertext.Some? ==>
                  && key in e.vault.keys && (key, e.ciphertext.value) !in v.ciphertexts
                  && (key, e.ciphertext.value) in e.vault.ciphertexts
                  && e.vault.ciphertexts[(key, e.ciphertext.value)] == text)
  {
    hide CiphertextText;
    var n := v.counter + 1;
    forall m | n < m < U64 ensures CiphertextText(m) != CiphertextText(n) {
      if CiphertextText(m) == CiphertextText(n) { CiphertextTextIsInjective(m, n); }
    }
  }

  lemma RowKeepsMeaning(row: Row, cfg: Config, v: Vault, u: Vault)
    requires Extends(v, u) && RowOk(row, cfg, v)
    ensures RowOk(row, cfg, u) && EntryOf(row, cfg, u) == EntryOf(row, cfg, v)
  {
    hide VaultKeyName;
  }

  /** More ciphertexts in the transit engine change nothing for the rows that are there. */
  lemma VaultGrowth(d: Disk, cfg: Config, u: Vault)
    requires Sound(d, cfg) && Extends(d.vault, u) && Unused(u)
    ensures Sound(d.(vault := u), cfg) && BookOf(d.(vault := u), cfg) == BookOf(d, cfg)
  {
    hide VaultKeyName, Meaning, RowOk, Unused;
    forall id | id in d.rows
      ensures RowOk(d.rows[id], cfg, u) && EntryOf(d.rows[id], cfg, u) == EntryOf(d.rows[id], cfg, d.vault)
    {
      RowKeepsMeaning(d.rows[id], cfg, d.vault, u);
    }
  }

  /** Writing one sound row writes one entry. */
  lemma RowWrite(d: Disk, cfg: Config, id: Uuid, row: Row)
    requires Sound(d, cfg) && RowOk(row, cfg, d.vault)
    ensures var e := d.(rows := d.rows[id := row]);
            Sound(e, cfg) && BookOf(e, cfg) == BookOf(d, cfg)[id := EntryOf(row, cfg, d.vault)]
  {
    hide RowOk, EntryOf, Unused;
  }

  lemma FreshRow(v: Vault, cfg: Config, org: Uuid, c: string, text: string)
    requires VaultKeyName(cfg.prefix, org) in v.keys
    requires (VaultKeyName(cfg.prefix, org), c) in v.ciphertexts
    requires v.ciphertexts[(VaultKeyName(cfg.prefix, org), c)] == text
    ensures RowOk(Row(org, Text(c), Blank, VaultTransit), cfg, v)
    ensures EntryOf(Row(org, Text(c), Blank, VaultTransit), cfg, v) == Entry(org, VaultTransit, Some(text))
  {
    hide VaultKeyName;
  }

  // ------------------------------------------------------------------ refinement

  /** One step of the store is one step of the book, and keeps the table sound. */
  ghost predicate Refines(d: Disk, cfg: Config, op: Op) {
    var s := Step(d, cfg, op);
    && BookStep(BookOf(d, cfg), op) == BookOut(s.answer, BookOf(s.disk, cfg))
    && Sound(s.disk, cfg) && s.disk.vault.counter <= d.vault.counter + 1
  }

  lemma PutRefines(d: Disk, cfg: Config, op: Op)
    requires op.Put? && Sound(d, cfg) && d.vault.counter + 1 < U64
    ensures Refines(d, cfg, op)
  {
    hide VaultKeyName, Seal, BookOf, RowOk, Unused;
    if op.backend.PgpSym? {
      var row := Row(op.org, Pgp(op.text, op.dek), Pgp(op.dek, cfg.kek), PgpSym);
      PgpRow(row, cfg, d.vault);
      RowWrite(d, cfg, op.id, row);
      BookHasTheSameIds(d, cfg);
    } else {
      var key := VaultKeyName(cfg.prefix, op.org);
      SealExtends(d.vault, key, op.text, op.env);
      var e := Seal(d.vault, key, op.text, op.env);
      VaultGrowth(d, cfg, e.vault);
      var f := d.(vault := e.vault);
      BookHasTheSameIds(f, cfg);
      if e.ciphertext.Some? {
        FreshRow(e.vault, cfg, op.org, e.ciphertext.value, op.text);
        RowWrite(f, cfg, op.id, Row(op.org, Text(e.ciphertext.value), Blank, VaultTransit));
      }
    }
  }

  lemma PgpRow(row: Row, cfg: Config, v: Vault)
    requires row.algorithm.PgpSym?
    ensures RowOk(row, cfg, v) && EntryOf(row, cfg, v) == Entry(row.org, PgpSym, OpenEnvelope(row, cfg.kek))
  {
  }

  lemma BookHasTheSameIds(d: Disk, cfg: Config)
    ensures forall id :: id in BookOf(d, cfg) <==> id in d.rows
    ensures forall id :: id in d.rows ==> BookOf(d, cfg)[id] == EntryOf(d.rows[id], cfg, d.vault)
  {
    hide EntryOf;
  }

  lemma GetRefines(d: Disk, cfg: Config, op: Op)
    requires op.Get? && Sound(d, cfg)
    ensures Refines(d, cfg, op)
  {
    hide VaultKeyName, BookOf, Unused;
    BookHasTheSameIds(d, cfg);
  }

  lemma DeleteRefines(d: Disk, cfg: Config, op: Op)
    requires op.Delete? && Sound(d, cfg)
    ensures Refines(d, cfg, op)
  {
    hide VaultKeyName, RowOk, Meaning, Unused;
    BookHasTheSameIds(d, cfg);
    var rest := d.(rows := d.rows - {op.handle.id});
    assert BookOf(rest, cfg) == BookOf(d, cfg) - {op.handle.id};
  }

  lemma MigrateRefines(d: Disk, cfg: Config, op: Op)
    requires op.Migrate? && Sound(d, cfg) && d.vault.counter + 1 < U64
    ensures Refines(d, cfg, op)
  {
    hide VaultKeyName, Seal, BookOf, Unused;
    BookHasTheSameIds(d, cfg);
    if op.id in d.rows && op.read.Clean? && OpenEnvelope(d.rows[op.id], cfg.kek).Some? {
      var row, text := d.rows[op.id], OpenEnvelope(d.rows[op.id], cfg.kek).value;
      var key := VaultKeyName(cfg.prefix, row.org);
      SealExtends(d.vault, key, text, op.env);
      var e := Seal(d.vault, key, text, op.env);
      VaultGrowth(d, cfg, e.vault);
      if e.ciphertext.Some? {
        FreshRow(e.vault, cfg, row.org, e.ciphertext.value, text);
        RowWrite(d.(vault := e.vault), cfg, op.id, Row(row.org, Text(e.ciphertext.value), Blank, VaultTransit));
      }
    }
  }

  lemma StepRefines(d: Disk, cfg: Config, op: Op)
    requires Sound(d, cfg) && d.vault.counter + 1 < U64
    ensures Refines(d, cfg, op)
  {
    hide Refines, Sound;
    match op
    case Put(_, _, _, _, _, _) => PutRefines(d, cfg, op);
    case Get(_, _, _) => GetRefines(d, cfg, op);
    case Delete(_, _) => DeleteRefines(d, cfg, op);
    case Migrate(_, _, _) => MigrateRefines(d, cfg, op);
  }

  /** What the calls answered, one after another. */
  function Answers(d: Disk, cfg: Config, ops: seq<Op>): seq<Answer>
    decreases |ops|
  {
    if ops == [] then []
    else
      var before := ops[..|ops| - 1];
      Answers(d, cfg, before) + [Step(Steps(d, cfg, before), cfg, ops[|ops| - 1]).answer]
  }

  function BookAnswers(book: Book, ops: seq<Op>): seq<Answer>
    decreases |ops|
  {
    if ops == [] then []
    else
      var before := ops[..|ops| - 1];
      BookAnswers(book, before) + [BookStep(BookSteps(book, before), ops[|ops| - 1]).answer]
  }

  /** Any number of calls in any order, with any failures, short of wrapping the counter. */
  lemma {:induction false} StoresRefineOneMap(d: Disk, cfg: Config, ops: seq<Op>)
    requires Sound(d, cfg) && d.vault.counter + |ops| < U64
    ensures Answers(d, cfg, ops) == BookAnswers(BookOf(d, cfg), ops)
    ensures BookOf(Steps(d, cfg, ops), cfg) == BookSteps(BookOf(d, cfg), ops)
    ensures Sound(Steps(d, cfg, ops), cfg)
    ensures Steps(d, cfg, ops).vault.counter <= d.vault.counter + |ops|
    decreases |ops|
  {
    hide Step, BookStep, BookOf, Sound;
    if ops != [] {
      StoresRefineOneMap(d, cfg, ops[..|ops| - 1]);
      StepRefines(Steps(d, cfg, ops[..|ops| - 1]), cfg, ops[|ops| - 1]);
    }
  }

  // ---------------------------------------------------------------- consequences

  /** What stays of an entry while its own tenant does not delete it. */
  lemma {:induction false} EntrySurvives(book: Book, id: Uuid, ops: seq<Op>)
    requires id in book
    requires forall i :: 0 <= i < |ops| ==> !(ops[i].Delete? && ops[i].handle == Handle(id, book[id].org))
    ensures id in BookSteps(book, ops)
    ensures BookSteps(book, ops)[id] == book[id].(backend := BookSteps(book, ops)[id].backend)
    ensures (forall i :: 0 <= i < |ops| ==> !(ops[i].Migrate? && ops[i].id == id)) ==>
              BookSteps(book, ops)[id] == book[id]
    decreases |ops|
  {
    if ops != [] {
      var rest := ops[..|ops| - 1];
      forall i | 0 <= i < |rest| ensures rest[i] == ops[i] {}
      EntrySurvives(book, id, rest);
      var last := ops[|ops| - 1];
      assert !(last.Delete? && last.handle == Handle(id, book[id].org));
    }
  }

  /**
    A stored secret reads back through the backend its row is tagged with,
    whatever else happened in between, and only for its own tenant. Without a
    migration of that row, the tag is the one it was stored with.
   */
  lemma StoredSecretReadsBack(d: Disk, cfg: Config, put: Op, ops: seq<Op>, calm: Weather)
    requires Sound(d, cfg) && d.vault.counter + 1 + |ops| < U64
    requires put.Put? && Step(d, cfg, put).answer.Stored?
    requires forall i :: 0 <= i < |ops| ==> !(ops[i].Delete? && ops[i].handle == Handle(put.id, put.org))
    requires calm.db.Clean? && calm.transit.Clean?
    ensures var e := Steps(Step(d, cfg, put).disk, cfg, ops);
            && put.id in e.rows
            && (forall org, backend ::
                  Step(e, cfg, Get(backend, Handle(put.id, org), calm)).answer ==
                    if org != put.org then NotFound
                    else if backend == e.rows[put.id].algorithm then Plaintext(put.text)
                    else Undecryptable)
            && ((forall i :: 0 <= i < |ops| ==> !(ops[i].Migrate? && ops[i].id == put.id)) ==>
                  e.rows[put.id].algorithm == put.backend)
  {
    hide Step, BookOf, Sound, VaultKeyName;
    PutSucceeds(d, cfg, put);
    var s := Step(d, cfg, put).disk;
    var b := BookOf(s, cfg);
    StoresRefineOneMap(s, cfg, ops);
    EntrySurvives(b, put.id, ops);
    var e := Steps(s, cfg, ops);
    BookHasTheSameIds(e, cfg);
    forall org, backend
      ensures Step(e, cfg, Get(backend, Handle(put.id, org), calm)).answer
           == BookGet(BookOf(e, cfg), backend, Handle(put.id, org), calm)
    {
      GetRefines(e, cfg, Get(backend, Handle(put.id, org), calm));
    }
  }

  lemma PutSucceeds(d: Disk, cfg: Config, put: Op)
    requires Sound(d, cfg) && d.vault.counter + 1 < U64
    requires put.Put? && Step(d, cfg, put).answer.Stored?
    ensures var s := Step(d, cfg, put).disk;
            && Sound(s, cfg) && s.vault.counter <= d.vault.counter + 1
            && put.id in BookOf(s, cfg) && BookOf(s, cfg)[put.id] == Entry(put.org, put.backend, Some(put.text))
  {
    hide Step, BookOf, Sound;
    StepRefines(d, cfg, put);
  }

  /** A deleted secret is gone for everyone, and nobody else's delete removes it. */
  lemma DeleteIsTenantScoped(d: Disk, cfg: Config, handle: Handle, env: Weather)
    requires Sound(d, cfg) && env.db.Clean?
    ensures var s := Step(d, cfg, Delete(handle, env));
            && s.answer == Done
            && BookOf(s.disk, cfg) == map id | id in d.rows && Handle(id, d.rows[id].org) != handle :: BookOf(d, cfg)[id]
  {
    hide BookOf;
    DeleteRefines(d, cfg, Delete(handle, env));
    BookHasTheSameIds(d, cfg);
  }

  /** No call changes a row but a deletion or a migration of that row. */
  lemma OtherRowsStay(d: Disk, cfg: Config, op: Op, id: Uuid)
    requires id in d.rows && !(op.Delete? && op.handle.id == id) && !(op.Migrate? && op.id == id)
    ensures var e := Step(d, cfg, op).disk; id in e.rows && e.rows[id] == d.rows[id]
  {
    hide VaultKeyName, Seal, OpenEnvelope, Decrypt;
  }

  lemma {:induction false} RowSurvives(d: Disk, cfg: Config, ops: seq<Op>, id: Uuid)
    requires id in d.rows
    requires forall i :: 0 <= i < |ops| ==> !(ops[i].Delete? && ops[i].handle.id == id) && !(ops[i].Migrate? && ops[i].id == id)
    ensures var e := Steps(d, cfg, ops); id in e.rows && e.rows[id] == d.rows[id]
    decreases |ops|
  {
    hide Step;
    if ops != [] {
      RowSurvives(d, cfg, ops[..|ops| - 1], id);
      OtherRowsStay(Steps(d, cfg, ops[..|ops| - 1]), cfg, ops[|ops| - 1], id);
    }
  }

  /** A secret sealed under one KEK is unreadable under every other, also to the tenant that owns it. */
  lemma OtherKekReadsNothing(d: Disk, cfg: Config, put: Op, ops: seq<Op>, other: Config, calm: Weather)
    requires put.Put? && put.backend.PgpSym? && Step(d, cfg, put).answer.Stored? && calm.db.Clean?
    requires forall i :: 0 <= i < |ops| ==> !(ops[i].Delete? && ops[i].handle.id == put.id) && !(ops[i].Migrate? && ops[i].id == put.id)
    ensures var e := Steps(Step(d, cfg, put).disk, cfg, ops);
            Step(e, other, Get(PgpSym, Handle(put.id, put.org), calm)).answer ==
              if other.kek == cfg.kek then Plaintext(put.text) else Undecryptable
  {
    hide Steps;
    RowSurvives(Step(d, cfg, put).disk, cfg, ops, put.id);
  }

  /** A Vault secret whose engine lost the tenant's key is an invalid KEK; one whose engine lost only the text is undecryptable. */
  lemma LostVaultAnswers(d: Disk, cfg: Config, put: Op, v: Vault, calm: Weather)
    requires put.Put? && put.backend.VaultTransit? && Step(d, cfg, put).answer.Stored? && calm.db.Clean? && calm.transit.Clean?
    ensures var e := Step(d, cfg, put).disk.(vault := v);
            var answer := Step(e, cfg, Get(VaultTransit, Handle(put.id, put.org), calm)).answer;
            && (VaultKeyName(cfg.prefix, put.org) !in v.keys ==> answer == InvalidKek)
            && (VaultKeyName(cfg.prefix, put.org) in v.keys && v.ciphertexts == map[] ==> answer == Undecryptable)
  {
    hide VaultKeyName, Seal;
  }

  // ------------------------------------------------------------- counter wrapping

  /** The transit engine after encrypting `texts` one after another under one key. */
  function EncryptAll(v: Vault, key: string, texts: seq<string>): Vault
    decreases |texts|
  {
    if texts == [] then v else Encrypt(EncryptAll(v, key, texts[..|texts| - 1]), key, texts[|texts| - 1]).vault
  }

  lemma {:induction false} EncryptAllUses(key: string, texts: seq<string>)
    ensures var v := EncryptAll(Vault({key}, map[], 0), key, texts);
            && v.keys == {key} && v.counter < U64 && (|texts| < U64 ==> v.counter == |texts|)
            && forall n: nat :: n < U64 ==>
                 ((key, CiphertextText(n)) in v.ciphertexts <==> Issued(|texts|, n))
    decreases |texts|
  {
    hide CiphertextText;
    if texts != [] {
      EncryptAllUses(key, texts[..|texts| - 1]);
      var c := Successor(EncryptAll(Vault({key}, map[], 0), key, texts[..|texts| - 1]).counter);
      forall n: nat | n < U64 && CiphertextText(n) == CiphertextText(c) ensures n == c {
        CiphertextTextIsInjective(n, c);
      }
    }
  }

  /** Counter value `n` was used by one of the first `total` encryptions. */
  predicate Issued(total: nat, n: nat) {
    total >= U64 || 0 < n <= total
  }

  /** The next ciphertext is new exactly for the first 2^64 encryptions of a key. */
  lemma FreshUntilTheCounterWraps(key: string, texts: seq<string>, text: string)
    ensures var v := EncryptAll(Vault({key}, map[], 0), key, texts);
            var c := Encrypt(v, key, text).ciphertext;
            c.Some? && ((key, c.value) !in v.ciphertexts <==> |texts| < U64)
  {
    hide CiphertextText;
    EncryptAllUses(key, texts);
  }
}
