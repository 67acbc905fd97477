/** Rotating the credential master key: what stays readable while rows are re-encrypted behind it.
    Encryption is ideal: a sealed blob opens under its own key and no other. */
module KeyRotation {
  import opened Base

  type Key = string
  type CredentialId = nat

  /** The configuration: `version` labels `key`; the dual-read key, if set, is labelled one below. */
  datatype Settings = Settings(version: nat, key: Option<Key>, previous: Option<Key>)

  predicate ConfigOk(s: Settings) { s.version >= 1 && (s.previous.Some? ==> s.version >= 2) }

  function PreviousVersion(version: nat): nat { if version == 0 then 0 else version - 1 }

  function KeyMaterial(s: Settings, version: nat): Option<Key>
  {
    if version == s.version then s.key
    else if version == PreviousVersion(s.version) then s.previous
    else None
  }

  /** A decoded blob of at least a nonce and a tag: an encryption, or bytes that happen to decode. */
  datatype Blob = Sealed(key: Key, secret: string) | Noise

  /** What a stored value parses as: an envelope `v<N>:<blob>`, a bare base64 blob, or neither. The last two
      keep the text itself, which is what they read as when nothing opens them. */
  datatype Stored = Versioned(version: nat, blob: Blob) | Bare(text: string, blob: Blob) | Text(text: string)

  datatype Reading = Plain(secret: string) | Unreadable

  predicate Opens(key: Option<Key>, blob: Blob) { blob.Sealed? && key == Some(blob.key) }

  /** A bare blob is tried under its row's own label, the current and the previous version. */
  predicate Candidate(s: Settings, keyVersion: nat, blob: Blob)
  {
    || Opens(KeyMaterial(s, keyVersion), blob)
    || Opens(KeyMaterial(s, s.version), blob)
    || Opens(KeyMaterial(s, PreviousVersion(s.version)), blob)
  }

  function Decrypt(s: Settings, stored: Stored, keyVersion: nat): Reading
  {
    match stored
    case Versioned(v, blob) => if Opens(KeyMaterial(s, v), blob) then Plain(blob.secret) else Unreadable
    case Bare(text, blob) => if Candidate(s, keyVersion, blob) then Plain(blob.secret) else Plain(text)
    case Text(text) => Plain(text)
  }

  /** The candidate list as built: in order, without repeats, and only versions with key material. */
  method LegacyCandidates(s: Settings, keyVersion: nat) returns (known: seq<nat>)
    ensures forall v :: v in known <==>
      v in {keyVersion, s.version, PreviousVersion(s.version)} && KeyMaterial(s, v).Some?
    ensures forall i, j :: 0 <= i < j < |known| ==> known[i] != known[j]
  {
    var candidates := [keyVersion, s.version, PreviousVersion(s.version)];
    known := [];
    for i := 0 to |candidates|
      invariant forall v :: v in known <==> v in candidates[..i] && KeyMaterial(s, v).Some?
      invariant forall i, j :: 0 <= i < j < |known| ==> known[i] != known[j]
    {
      assert candidates[..i + 1] == candidates[..i] + [candidates[i]];
      if candidates[i] !in known && KeyMaterial(s, candidates[i]).Some? { known := known + [candidates[i]]; }
    }
    assert candidates[..|candidates|] == candidates;
  }

  /** The decryption as run: the first candidate that opens the blob wins. */
  method DecryptSecret(s: Settings, stored: Stored, keyVersion: nat) returns (r: Reading)
    ensures r == Decrypt(s, stored, keyVersion)
  {
    if stored.Versioned? {
      return if Opens(KeyMaterial(s, stored.version), stored.blob) then Plain(stored.blob.secret) else Unreadable;
    }
    if stored.Text? { return Plain(stored.text); }
    var known := LegacyCandidates(s, keyVersion);
    for i := 0 to |known|
      invariant forall k :: 0 <= k < i ==> !Opens(KeyMaterial(s, known[k]), stored.blob)
    {
      if Opens(KeyMaterial(s, known[i]), stored.blob) { return Plain(stored.blob.secret); }
    }
    assert forall v :: v in known ==> !Opens(KeyMaterial(s, v), stored.blob);
    r := Plain(stored.text);
  }

  // ---- Rows and sweeps --------------------------------------------------------------------

  datatype Row = Row(stored: Stored, keyVersion: nat, touched: Time)

  type Table = map<CredentialId, Row>

  function Reads(s: Settings, row: Row): Reading { Decrypt(s, row.stored, row.keyVersion) }

  function Fresh(s: Settings, secret: string, now: Time): Row
    requires s.key.Some?
  {
    Row(Versioned(s.version, Sealed(s.key.value, secret)), s.version, now)
  }

  /** Re-encryption under the current key; a row that fails to decrypt is skipped. */
  function Rekeyed(s: Settings, row: Row, now: Time): Row
    requires s.key.Some?
  {
    match Reads(s, row)
    case Plain(secret) => Fresh(s, secret, now)
    case Unreadable => row
  }

  function Stale(s: Settings, t: Table): set<CredentialId> { set id | id in t && t[id].keyVersion != s.version }

  function Swept(s: Settings, t: Table, ids: set<CredentialId>, now: Time): Table
    requires s.key.Some?
  {
    map id | id in t :: if id in ids then Rekeyed(s, t[id], now) else t[id]
  }

  function Touched(t: Table, id: CredentialId): Time { if id in t then t[id].touched else 0 }

  function Age(t: Table): CredentialId -> Time { (id: CredentialId) => Touched(t, id) }

  /** The batch a sweep takes: stale rows, least recently updated first. */
  ghost predicate IsBatch(s: Settings, t: Table, batch: nat, ids: seq<CredentialId>)
  {
    IsOldestFirst(Stale(s, t), Age(t), batch, ids)
  }

  /** Whatever a row reads as, it reads as the same afterwards. */
  lemma RekeyKeepsReading(s: Settings, row: Row, now: Time)
    requires s.key.Some?
    ensures Reads(s, Rekeyed(s, row, now)) == Reads(s, row)
    ensures Rekeyed(s, row, now).keyVersion == s.version <==> Reads(s, row).Plain? || row.keyVersion == s.version
    ensures Reads(s, row).Plain? ==>
      Rekeyed(s, row, now) == Row(Versioned(s.version, Sealed(s.key.value, Reads(s, row).secret)), s.version, now)
    ensures Reads(s, row).Unreadable? ==> Rekeyed(s, row, now) == row
  {
  }

  /** What a row reads as: text as itself, whatever the keys; an envelope as its secret, if its own version's key is
      there and sealed it, and otherwise not at all; a bare blob as its secret under any candidate key, and
      otherwise as its text. */
  lemma ReadsExactly(s: Settings, row: Row)
    ensures row.stored.Text? ==> Reads(s, row) == Plain(row.stored.text)
    ensures row.stored.Versioned? ==>
      (Reads(s, row).Plain? <==>
         row.stored.blob.Sealed? && KeyMaterial(s, row.stored.version) == Some(row.stored.blob.key))
      && (Reads(s, row).Plain? ==> Reads(s, row).secret == row.stored.blob.secret)
    ensures row.stored.Bare? ==>
      var blob := row.stored.blob;
      var opens := blob.Sealed? && exists v :: v in {row.keyVersion, s.version, PreviousVersion(s.version)}
                                               && KeyMaterial(s, v) == Some(blob.key);
      Reads(s, row) == Plain(if opens then blob.secret else row.stored.text)
  {
    if row.stored.Bare? && row.stored.blob.Sealed? {
      var blob := row.stored.blob;
      assert Candidate(s, row.keyVersion, blob) <==>
        exists v :: v in {row.keyVersion, s.version, PreviousVersion(s.version)} && KeyMaterial(s, v) == Some(blob.key);
    }
  }

  /** The current version has the current key, the one below it the previous key, and no other version any. */
  lemma MaterialExactly(s: Settings, version: nat)
    requires ConfigOk(s)
    ensures KeyMaterial(s, version) ==
      if version == s.version then s.key else if version + 1 == s.version then s.previous else None
  {
  }

  /** Rows are not always skipped when their key is gone: a legacy blob that nothing opens reads as its own
      text, without an error. So it reads right exactly if some candidate opens it ... */
  lemma LegacyReadsExactly(s: Settings, row: Row)
    requires row.stored.Bare? && row.stored.blob.Sealed? && row.stored.text != row.stored.blob.secret
    ensures Reads(s, row) == Plain(row.stored.blob.secret) <==> Candidate(s, row.keyVersion, row.stored.blob)
    ensures Reads(s, row).Plain?
  {
  }

  /** ... and otherwise a sweep seals the ciphertext as if it were the secret: no key brings the secret back. */
  lemma GarbledForGood(s: Settings, row: Row, now: Time, later: Settings)
    requires row.stored.Bare? && row.stored.blob.Sealed? && row.stored.text != row.stored.blob.secret
    requires s.key.Some? && !Candidate(s, row.keyVersion, row.stored.blob)
    ensures Rekeyed(s, row, now).keyVersion == s.version
    ensures Reads(later, Rekeyed(s, row, now)) != Plain(row.stored.blob.secret)
  {
  }

  /** A swept legacy blob can still be read under some configuration exactly if a candidate key opened it. */
  lemma SweptLegacyRecoverableExactly(s: Settings, row: Row, now: Time)
    requires row.stored.Bare? && row.stored.blob.Sealed? && row.stored.text != row.stored.blob.secret
    requires s.key.Some?
    ensures (exists later :: Reads(later, Rekeyed(s, row, now)) == Plain(row.stored.blob.secret))
      <==> Candidate(s, row.keyVersion, row.stored.blob)
  {
    if Candidate(s, row.keyVersion, row.stored.blob) {
      assert Reads(s, Rekeyed(s, row, now)) == Plain(row.stored.blob.secret);
    } else {
      forall later ensures Reads(later, Rekeyed(s, row, now)) != Plain(row.stored.blob.secret) {
        GarbledForGood(s, row, now, later);
      }
    }
  }

  /** Such a row: sealed under the first key, left behind by two bumps. */
  lemma GarbledLegacyRow() returns (s: Settings, row: Row)
    ensures ConfigOk(s) && s.key.Some? && row.keyVersion == 0
    ensures Reads(Settings(1, Some("first"), None), row) == Plain("secret")
    ensures Rekeyed(s, row, 7) == Fresh(s, "ciphertext", 7)
    ensures forall later :: Reads(later, Rekeyed(s, row, 7)) != Plain("secret")
  {
    s, row := Settings(3, Some("third"), Some("second")), Row(Bare("ciphertext", Sealed("first", "secret")), 0, 0);
    forall later ensures Reads(later, Rekeyed(s, row, 7)) != Plain("secret") {
      GarbledForGood(s, row, 7, later);
    }
  }

  lemma SweptOneMore(s: Settings, t: Table, ids: seq<CredentialId>, i: nat, now: Time)
    requires s.key.Some? && i < |ids| && ids[i] in t && ids[i] !in ids[..i]
    ensures var done := Swept(s, t, Elements(ids[..i]), now);
      && done[ids[i]] == t[ids[i]]
      && Swept(s, t, Elements(ids[..i + 1]), now) == done[ids[i] := Rekeyed(s, t[ids[i]], now)]
  {
    assert ids[..i + 1] == ids[..i] + [ids[i]];
  }

  // ---- The worker -------------------------------------------------------------------------

  datatype Status = Active | Retired

  class CredentialWorker {
    var rows: Table
    var registry: map<nat, Status>
    const settings: Settings
    const batch: nat

    constructor (rows: Table, registry: map<nat, Status>, settings: Settings, batch: nat)
      ensures this.rows == rows && this.registry == registry && this.settings == settings && this.batch == batch
    {
      this.rows, this.registry, this.settings, this.batch := rows, registry, settings, batch;
    }

    method UpsertKeyVersion(version: nat)
      modifies this`registry
      ensures registry == old(if version in registry then registry else registry[version := Active])
    {
      if version !in registry { registry := registry[version := Active]; }
    }

    method RetireKeyVersion(version: nat) returns (retired: bool)
      modifies this`registry
      ensures retired == (version in old(registry) && old(registry)[version].Active?)
      ensures registry == if retired then old(registry)[version := Retired] else old(registry)
    {
      retired := version in registry && registry[version].Active?;
      if retired { registry := registry[version := Retired]; }
    }

    /** Re-encrypts the readable rows of one batch. */
    method Sweep(now: Time) returns (ghost ids: seq<CredentialId>)
      requires settings.key.Some?
      modifies this`rows
      ensures IsBatch(settings, old(rows), batch, ids)
      ensures rows == Swept(settings, old(rows), Elements(ids), now)
    {
      ghost var t := rows;
      var todo := OldestFirst(Stale(settings, rows), Age(rows), batch);
      ids := todo;
      for i := 0 to |todo|
        invariant rows == Swept(settings, t, Elements(todo[..i]), now)
      {
        SweptOneMore(settings, t, todo, i, now);
        var row := rows[todo[i]];
        var reading := DecryptSecret(settings, row.stored, row.keyVersion);
        if reading.Plain? { rows := rows[todo[i] := Fresh(settings, reading.secret, now)]; }
      }
      assert todo[..|todo|] == todo;
    }

    /** One sweep: re-encrypt a batch, then retire the previous version if nothing is stale any more. Without a
        current key it fails before changing anything. */
    method RekeyTick(now: Time) returns (done: bool, ghost ids: seq<CredentialId>, stale: nat)
      modifies this
      ensures done == settings.key.Some?
      ensures !done ==> rows == old(rows) && registry == old(registry)
      ensures done ==> IsBatch(settings, old(rows), batch, ids)
      ensures done ==> rows == Swept(settings, old(rows), Elements(ids), now)
      ensures done ==> stale == |Stale(settings, rows)|
      ensures done ==> forall v :: v in registry && registry[v].Retired? <==>
        || (v in old(registry) && old(registry)[v].Retired?)
        || (stale == 0 && settings.previous.Some? && v == PreviousVersion(settings.version))
    {
      ids, stale := [], 0;
      if settings.key.None? { return false, ids, stale; }
      done := true;
      UpsertKeyVersion(settings.version);
      var previous := PreviousVersion(settings.version);
      if settings.previous.Some? { UpsertKeyVersion(previous); }
      ids := Sweep(now);
      stale := |Stale(settings, rows)|;
      if stale == 0 && settings.previous.Some? { var _ := RetireKeyVersion(previous); }
    }
  }

  // ---- Whole rotations --------------------------------------------------------------------

  /** `secrets` is what each credential's owner stored; `retired` the versions marked retired. */
  datatype State = State(settings: Settings, rows: Table, secrets: map<CredentialId, string>, retired: set<nat>)

  datatype Event =
    | Save(id: CredentialId, secret: string, now: Time)
    | Rotate(id: CredentialId, now: Time)
    | Delete(id: CredentialId)
    | Sweep(ids: set<CredentialId>, now: Time)
    | Retire
    | BumpVersion(newKey: Key)
    | DropPrevious

  function Bumped(s: Settings, newKey: Key): Settings { Settings(s.version + 1, Some(newKey), s.key) }

  /** The operator's discipline: the version is bumped, and the previous key dropped, only at zero stale rows. */
  predicate Enabled(st: State, e: Event)
  {
    match e
    case Save(id, _, _) => id !in st.rows && st.settings.key.Some?
    case Rotate(id, _) => id in st.rows && st.settings.key.Some?
    case Delete(id) => id in st.rows
    case Sweep(ids, _) => ids <= Stale(st.settings, st.rows) && st.settings.key.Some?
    case Retire => Stale(st.settings, st.rows) == {} && st.settings.previous.Some?
    case BumpVersion(_) => Stale(st.settings, st.rows) == {}
    case DropPrevious => Stale(st.settings, st.rows) == {}
  }

  function After(st: State, e: Event): State
    requires Enabled(st, e)
  {
    var s := st.settings;
    match e
    case Save(id, secret, now) => st.(rows := st.rows[id := Fresh(s, secret, now)], secrets := st.secrets[id := secret])
    case Rotate(id, now) => st.(rows := st.rows[id := Rekeyed(s, st.rows[id], now)])
    case Delete(id) => st.(rows := st.rows - {id}, secrets := st.secrets - {id})
    case Sweep(ids, now) => st.(rows := Swept(s, st.rows, ids, now))
    case Retire => st.(retired := st.retired + {PreviousVersion(s.version)})
    case BumpVersion(newKey) => st.(settings := Bumped(s, newKey))
    case DropPrevious => st.(settings := s.(previous := None))
  }

  /** Reads as its owner's secret; and a row labelled current really is an envelope under the current key. */
  predicate Safe(s: Settings, row: Row, secret: string)
  {
    && Reads(s, row) == Plain(secret)
    && (row.keyVersion == s.version ==> s.key.Some? && row.stored == Versioned(s.version, Sealed(s.key.value, secret)))
  }

  ghost predicate AllSafe(st: State)
  {
    && st.rows.Keys == st.secrets.Keys
    && forall id :: id in st.rows ==> Safe(st.settings, st.rows[id], st.secrets[id])
  }

  ghost predicate RetiredUnused(st: State)
  {
    forall v :: v in st.retired ==>
      v < st.settings.version && forall id :: id in st.rows ==> st.rows[id].keyVersion != v
  }

  ghost predicate Inv(st: State) { ConfigOk(st.settings) && AllSafe(st) && RetiredUnused(st) }

  lemma StepKeepsInv(st: State, e: Event)
    requires Inv(st) && Enabled(st, e)
    ensures Inv(After(st, e))
  {
    var s, st' := st.settings, After(st, e);
    forall id | id in st'.rows ensures Safe(st'.settings, st'.rows[id], st'.secrets[id]) {
      if id in st.rows && (e.BumpVersion? || e.DropPrevious?) {
        assert id !in Stale(s, st.rows);
      }
    }
    forall id, v | v in st'.retired && id in st'.rows ensures st'.rows[id].keyVersion != v {
      if e.Retire? { assert id !in Stale(s, st.rows); }
    }
  }

  ghost predicate Leads(st: State, us: seq<Event>, st': State)
    decreases us
  {
    if us == [] then st == st' else Enabled(st, us[0]) && Leads(After(st, us[0]), us[1..], st')
  }

  /** No rotation loses a secret: at every point of every run of saves, rotations, sweeps, retirements, bumps
      and key drops, every credential decrypts to what its owner stored; and no row is labelled with a version
      that has been retired. */
  lemma {:induction false} NothingIsLost(st: State, us: seq<Event>, st': State)
    requires Inv(st) && Leads(st, us, st')
    ensures Inv(st')
    ensures forall id :: id in st'.secrets ==> Reads(st'.settings, st'.rows[id]) == Plain(st'.secrets[id])
    decreases us
  {
    if us != [] {
      StepKeepsInv(st, us[0]);
      NothingIsLost(After(st, us[0]), us[1..], st');
    } else {
      forall id | id in st'.secrets ensures Reads(st'.settings, st'.rows[id]) == Plain(st'.secrets[id]) {
        assert id in st'.rows;
      }
    }
  }

  /** The credential is not deleted. */
  predicate Keeps(us: seq<Event>, id: CredentialId) { forall e :: e in us ==> !(e.Delete? && e.id == id) }

  lemma StepKeepsSecret(st: State, e: Event, id: CredentialId)
    requires Inv(st) && Enabled(st, e) && id in st.secrets && !(e.Delete? && e.id == id)
    ensures id in After(st, e).secrets && After(st, e).secrets[id] == st.secrets[id]
  {
  }

  lemma {:induction false} RunKeepsSecret(st: State, us: seq<Event>, st': State, id: CredentialId)
    requires Inv(st) && Leads(st, us, st') && id in st.secrets && Keeps(us, id)
    ensures id in st'.secrets && st'.secrets[id] == st.secrets[id]
    decreases us
  {
    if us != [] {
      assert us[0] in us && forall e :: e in us[1..] ==> e in us;
      StepKeepsSecret(st, us[0], id);
      StepKeepsInv(st, us[0]);
      RunKeepsSecret(After(st, us[0]), us[1..], st', id);
    }
  }

  /** What is saved comes back: at every later point of every run, until the credential is deleted. */
  lemma SavedReadsBack(st: State, id: CredentialId, secret: string, now: Time, us: seq<Event>, st': State)
    requires Inv(st) && Enabled(st, Save(id, secret, now)) && Leads(After(st, Save(id, secret, now)), us, st')
    requires Keeps(us, id)
    ensures id in st'.rows && Reads(st'.settings, st'.rows[id]) == Plain(secret)
  {
    var saved := After(st, Save(id, secret, now));
    StepKeepsInv(st, Save(id, secret, now));
    RunKeepsSecret(saved, us, st', id);
    NothingIsLost(saved, us, st');
  }

  /** And a deleted one is gone, as no other is. */
  lemma DeleteDeletes(st: State, id: CredentialId, other: CredentialId)
    requires Inv(st) && Enabled(st, Delete(id))
    ensures var st' := After(st, Delete(id));
      && id !in st'.rows && id !in st'.secrets && (other in st.rows && other != id ==> other in st'.rows)
  {
  }

  /** What one sweep of the worker does is a sweep and, if nothing is stale then, a retirement. */
  lemma TickIsARun(st: State, batch: nat, ids: seq<CredentialId>, now: Time)
    requires Inv(st) && st.settings.key.Some? && IsBatch(st.settings, st.rows, batch, ids)
    ensures var sweep := Event.Sweep(Elements(ids), now);
      && Enabled(st, sweep) && After(st, sweep).rows == Swept(st.settings, st.rows, Elements(ids), now)
      && (Enabled(After(st, sweep), Retire) <==>
            Stale(st.settings, After(st, sweep).rows) == {} && st.settings.previous.Some?)
      && (Enabled(After(st, sweep), Retire) ==>
            After(After(st, sweep), Retire).retired == st.retired + {PreviousVersion(st.settings.version)})
  {
    BatchSize(st.settings, st.rows, batch, ids);
  }

  /** The configuration a bump leaves: the next version, the new key, and the old key as the previous one. */
  lemma BumpShifts(st: State, newKey: Key)
    requires Inv(st) && Enabled(st, BumpVersion(newKey))
    ensures var s, s' := st.settings, After(st, BumpVersion(newKey)).settings;
      && KeyMaterial(s', s.version + 1) == Some(newKey) && KeyMaterial(s', s.version) == s.key
      && s'.version == s.version + 1
      && (Enabled(st, DropPrevious) ==> After(st, DropPrevious).settings == Settings(s.version, s.key, None))
  {
  }

  // ---- Exactly when a bump or a drop is safe ----------------------------------------------

  /** Does not depend on the key about to go: an envelope of the current version, or a bare blob under the
      current key, or no encryption at all. */
  predicate Outlives(s: Settings, row: Row)
  {
    match row.stored
    case Versioned(v, _) => v == s.version
    case Bare(_, blob) => blob.Sealed? ==> s.key == Some(blob.key)
    case Text(_) => true
  }

  /** Facts about real keys and ciphertexts: a ciphertext is not its own plaintext, a new key has sealed nothing. */
  predicate Plausible(row: Row, secret: string, newKey: Key)
  {
    match row.stored
    case Versioned(_, blob) => true
    case Bare(text, blob) => blob.Sealed? ==> text != blob.secret && blob.secret == secret && blob.key != newKey
    case Text(_) => true
  }

  /** One readable row survives a version bump, and survives dropping the previous key, exactly if it outlives
      the previous key; zero stale rows is the check that guarantees it for all of them. */
  lemma SurvivesExactly(s: Settings, row: Row, secret: string, newKey: Key)
    requires ConfigOk(s) && Reads(s, row) == Plain(secret) && Plausible(row, secret, newKey)
    ensures Reads(Bumped(s, newKey), row) == Plain(secret) <==> Outlives(s, row)
    ensures Reads(s.(previous := None), row) == Plain(secret) <==> Outlives(s, row)
    ensures Safe(s, row, secret) && row.keyVersion == s.version ==> Outlives(s, row)
  {
  }

  // ---- Progress ---------------------------------------------------------------------------

  function Readable(s: Settings, t: Table, ids: set<CredentialId>): set<CredentialId>
  {
    set id | id in ids && id in t && Reads(s, t[id]).Plain?
  }

  /** A sweep makes exactly the readable rows of its batch current. */
  lemma SweepShrinksStale(s: Settings, t: Table, ids: set<CredentialId>, now: Time)
    requires s.key.Some? && ids <= Stale(s, t)
    ensures Stale(s, Swept(s, t, ids, now)) == Stale(s, t) - Readable(s, t, ids)
  {
  }

  /** A batch of stale rows is full, or all of them. */
  lemma BatchSize(s: Settings, t: Table, batch: nat, ids: seq<CredentialId>)
    requires IsBatch(s, t, batch, ids)
    ensures Elements(ids) <= Stale(s, t)
    ensures |Elements(ids)| == if |Stale(s, t)| < batch then |Stale(s, t)| else batch
  {
    DistinctCount(ids);
  }

  /** While every row is readable, each sweep makes a full batch current, or finishes ... */
  lemma SweepProgress(st: State, batch: nat, ids: seq<CredentialId>, now: Time)
    requires Inv(st) && st.settings.key.Some? && IsBatch(st.settings, st.rows, batch, ids)
    ensures var left := |Stale(st.settings, st.rows)|;
      |Stale(st.settings, Swept(st.settings, st.rows, Elements(ids), now))|
        == if left < batch then 0 else left - batch
  {
    var s, t, chosen := st.settings, st.rows, Elements(ids);
    BatchSize(s, t, batch, ids);
    SweepShrinksStale(s, t, chosen, now);
    assert Readable(s, t, chosen) == chosen by {
      forall id | id in chosen ensures id in Readable(s, t, chosen) {
        assert id in st.rows;
      }
    }
    assert |Stale(s, t) - chosen| == |Stale(s, t)| - |chosen|;
  }

  /** The sweeps of a run that took a proper batch. */
  ghost function FullSweeps(st: State, us: seq<Event>, batch: nat): nat
    decreases us
  {
    if us == [] || !Enabled(st, us[0]) then 0
    else (if IsFullSweep(st, us[0], batch) then 1 else 0) + FullSweeps(After(st, us[0]), us[1..], batch)
  }

  ghost predicate IsFullSweep(st: State, e: Event, batch: nat)
  {
    e.Sweep? && exists ids: seq<CredentialId> :: IsBatch(st.settings, st.rows, batch, ids) && e.ids == Elements(ids)
  }

  lemma StaleNeverGrows(st: State, e: Event)
    requires Inv(st) && Enabled(st, e) && !e.BumpVersion?
    ensures |Stale(After(st, e).settings, After(st, e).rows)| <= |Stale(st.settings, st.rows)|
  {
    SubsetSize(Stale(After(st, e).settings, After(st, e).rows), Stale(st.settings, st.rows));
  }

  lemma StepProgress(st: State, e: Event, batch: nat, more: nat)
    requires Inv(st) && Enabled(st, e) && !e.BumpVersion?
    requires ((if IsFullSweep(st, e, batch) then 1 else 0) + more) * batch >= |Stale(st.settings, st.rows)|
    ensures more * batch >= |Stale(After(st, e).settings, After(st, e).rows)|
  {
    StaleNeverGrows(st, e);
    if IsFullSweep(st, e, batch) {
      var ids: seq<CredentialId> :| IsBatch(st.settings, st.rows, batch, ids) && e.ids == Elements(ids);
      SweepProgress(st, batch, ids, e.now);
      assert (1 + more) * batch == batch + more * batch;
    }
  }

  /** ... so a rotation finishes: a run without a bump leaves nothing stale once it holds enough full sweeps,
      whatever else happens between them. */
  lemma {:induction false} RotationFinishes(st: State, us: seq<Event>, st': State, batch: nat)
    requires Inv(st) && Leads(st, us, st') && forall e :: e in us ==> !e.BumpVersion?
    requires FullSweeps(st, us, batch) * batch >= |Stale(st.settings, st.rows)|
    ensures Stale(st'.settings, st'.rows) == {}
    decreases us
  {
    if us == [] {
    } else {
      var e, mid := us[0], After(st, us[0]);
      assert us[0] in us && forall x :: x in us[1..] ==> x in us;
      StepKeepsInv(st, e);
      StepProgress(st, e, batch, FullSweeps(mid, us[1..], batch));
      RotationFinishes(mid, us[1..], st', batch);
    }
  }

  // ---- Unreadable rows --------------------------------------------------------------------

  /** Unreadable rows are never updated, so they stay at the head of the queue. */
  predicate IsUnreadable(s: Settings, t: Table, id: CredentialId) { id in t && Reads(s, t[id]).Unreadable? }

  function Older(s: Settings, t: Table, r: CredentialId): set<CredentialId>
  {
    set u | u in Stale(s, t) && Touched(t, u) < Touched(t, r)
  }

  lemma UnreadableBatchChangesNothing(s: Settings, t: Table, ids: set<CredentialId>, now: Time)
    requires s.key.Some? && ids <= Stale(s, t)
    ensures Swept(s, t, ids, now) == t <==> Readable(s, t, ids) == {}
  {
    if Readable(s, t, ids) == {} {
      forall id | id in ids ensures Reads(s, t[id]).Unreadable? { assert id !in Readable(s, t, ids); }
    } else {
      var r :| r in Readable(s, t, ids);
      assert Swept(s, t, ids, now)[r].keyVersion == s.version != t[r].keyVersion;
    }
  }

  /** A batch that takes r, if fewer than `batch` stale rows are older: among rows of r's age, r goes first. */
  lemma BatchTaking(s: Settings, t: Table, batch: nat, r: CredentialId)
    returns (ids: seq<CredentialId>)
    requires r in Stale(s, t) && |Older(s, t, r)| < batch
    ensures IsBatch(s, t, batch, ids) && r in ids
  {
    var finer := (id: CredentialId) => 2 * Touched(t, id) + if id == r then 0 else 1;
    ids := AnswerExists(Stale(s, t), finer, batch);
    FinerKey(Stale(s, t), Age(t), finer, batch, ids);
    if r !in ids {
      LeftHasManyBefore(Stale(s, t), finer, batch, ids, r);
      assert Elements(ids) <= Older(s, t, r);
      SubsetSize(Elements(ids), Older(s, t, r));
      assert false;
    }
  }

  /** A sweep is stuck, whatever batch it may take, exactly if every readable stale row has a full batch of
      stale rows older than it. */
  lemma StuckExactly(s: Settings, t: Table, batch: nat, now: Time)
    requires s.key.Some?
    ensures (forall ids :: IsBatch(s, t, batch, ids) ==> Swept(s, t, Elements(ids), now) == t)
      <==> forall r :: r in Readable(s, t, Stale(s, t)) ==> |Older(s, t, r)| >= batch
  {
    forall r | r in Readable(s, t, Stale(s, t)) && |Older(s, t, r)| < batch
      ensures exists ids :: IsBatch(s, t, batch, ids) && Swept(s, t, Elements(ids), now) != t
    {
      var ids := BatchTaking(s, t, batch, r);
      BatchSize(s, t, batch, ids);
      assert r in Readable(s, t, Elements(ids));
      UnreadableBatchChangesNothing(s, t, Elements(ids), now);
    }
    forall ids | IsBatch(s, t, batch, ids) && Swept(s, t, Elements(ids), now) != t
      ensures exists r :: r in Readable(s, t, Stale(s, t)) && |Older(s, t, r)| < batch
    {
      BatchSize(s, t, batch, ids);
      UnreadableBatchChangesNothing(s, t, Elements(ids), now);
      var r :| r in Readable(s, t, Elements(ids));
      TakenHasFewBefore(Stale(s, t), Age(t), batch, ids, r, Older(s, t, r));
      assert r in Readable(s, t, Stale(s, t));
    }
  }

  /** n full sweeps on end, each over any batch the query may return. */
  ghost predicate Sweeping(s: Settings, batch: nat, t: Table, n: nat, t': Table)
    requires s.key.Some?
    decreases n
  {
    if n == 0 then t == t'
    else exists ids, now :: IsBatch(s, t, batch, ids) && Sweeping(s, batch, Swept(s, t, Elements(ids), now), n - 1, t')
  }

  lemma FirstSweep(s: Settings, batch: nat, t: Table, n: nat, t': Table)
    returns (ids: seq<CredentialId>, now: Time)
    requires s.key.Some? && n > 0 && Sweeping(s, batch, t, n, t')
    ensures IsBatch(s, t, batch, ids) && Elements(ids) <= Stale(s, t)
    ensures Sweeping(s, batch, Swept(s, t, Elements(ids), now), n - 1, t')
  {
    ids, now :| IsBatch(s, t, batch, ids) && Sweeping(s, batch, Swept(s, t, Elements(ids), now), n - 1, t');
    BatchSize(s, t, batch, ids);
  }

  /** Once stuck, stuck for good. */
  lemma {:induction false} StuckForGood(s: Settings, batch: nat, t: Table, n: nat, t': Table)
    requires s.key.Some? && Sweeping(s, batch, t, n, t')
    requires forall r :: r in Readable(s, t, Stale(s, t)) ==> |Older(s, t, r)| >= batch
    ensures t' == t
    decreases n
  {
    if n > 0 {
      var ids, now := FirstSweep(s, batch, t, n, t');
      StuckExactly(s, t, batch, now);
      StuckForGood(s, batch, t, n - 1, t');
    }
  }

  /** Such a table: after two bumps, one row left at version 1 keeps one at version 2 waiting for ever. */
  lemma StuckBehindUnreadable() returns (s: Settings, t: Table)
    ensures ConfigOk(s) && s.key.Some? && t.Keys == {0, 1}
    ensures Reads(Settings(1, Some("first"), None), t[0]) == Plain("a")
    ensures IsUnreadable(s, t, 0) && Readable(s, t, Stale(s, t)) == {1}
    ensures forall n: nat, t' :: Sweeping(s, 1, t, n, t') ==> t' == t
  {
    s := Settings(3, Some("third"), Some("second"));
    t := map[0 := Row(Versioned(1, Sealed("first", "a")), 1, 10), 1 := Row(Versioned(2, Sealed("second", "b")), 2, 20)];
    assert Older(s, t, 1) == {0};
    forall n: nat, t' | Sweeping(s, 1, t, n, t') ensures t' == t { StuckForGood(s, 1, t, n, t'); }
  }

  /** The unreadable stale rows at least as old as r: those a sweep may take before it, every time. */
  function Blockers(s: Settings, t: Table, r: CredentialId): set<CredentialId>
  {
    set u | u in Stale(s, t) && u != r && IsUnreadable(s, t, u) && Touched(t, u) <= Touched(t, r)
  }

  function NotYounger(s: Settings, t: Table, r: CredentialId): set<CredentialId>
  {
    set u | u in Stale(s, t) && u != r && Touched(t, u) <= Touched(t, r)
  }

  /** A sweep that leaves r behind leaves its blockers where they are, and nobody new comes before it. */
  lemma SweepAround(
    s: Settings, t: Table, ids: set<CredentialId>, now: Time, r: CredentialId)
    requires s.key.Some? && ids <= Stale(s, t) && r in Readable(s, t, Stale(s, t)) && r !in ids
    ensures var t' := Swept(s, t, ids, now);
      && t'[r] == t[r] && r in Readable(s, t', Stale(s, t'))
      && Blockers(s, t', r) == Blockers(s, t, r)
      && NotYounger(s, t', r) <= NotYounger(s, t, r) - Readable(s, t, ids)
  {
    var t' := Swept(s, t, ids, now);
    forall u | u in Blockers(s, t, r) ensures t'[u] == t[u] {
      assert IsUnreadable(s, t, u);
    }
    SweepShrinksStale(s, t, ids, now);
    forall u | u in Stale(s, t') ensures t'[u] == t[u] && u !in Readable(s, t, ids) {
      assert u in Stale(s, t) - Readable(s, t, ids);
    }
  }

  lemma {:induction false} CurrentStaysCurrent(s: Settings, batch: nat, t: Table, n: nat, t': Table, r: CredentialId)
    requires s.key.Some? && Sweeping(s, batch, t, n, t') && r !in Stale(s, t)
    ensures r !in Stale(s, t')
    decreases n
  {
    if n > 0 {
      var ids, now := FirstSweep(s, batch, t, n, t');
      SweepShrinksStale(s, t, Elements(ids), now);
      CurrentStaysCurrent(s, batch, Swept(s, t, Elements(ids), now), n - 1, t', r);
    }
  }

  lemma SomeReadable(s: Settings, t: Table, batch: nat, chosen: set<CredentialId>, r: CredentialId)
    returns (y: CredentialId)
    requires chosen <= NotYounger(s, t, r) && |chosen| == batch && |Blockers(s, t, r)| < batch
    ensures y in Readable(s, t, chosen)
  {
    if Readable(s, t, chosen) == {} {
      forall u | u in chosen ensures u in Blockers(s, t, r) { assert u !in Readable(s, t, chosen); }
      SubsetSize(chosen, Blockers(s, t, r));
      assert false;
    }
    y :| y in Readable(s, t, chosen);
  }

  /** r waits behind fewer blockers than a batch, and behind fewer than n rows altogether. */
  predicate Waits(s: Settings, batch: nat, t: Table, r: CredentialId, n: nat)
  {
    r in Readable(s, t, Stale(s, t)) && |Blockers(s, t, r)| < batch && |NotYounger(s, t, r)| < n
  }

  /** Then every sweep that leaves r behind clears a readable row before it ... */
  lemma PassingClears(
    s: Settings, batch: nat, t: Table, ids: seq<CredentialId>, now: Time, r: CredentialId, n: nat)
    requires s.key.Some? && IsBatch(s, t, batch, ids) && r !in ids && n > 0 && Waits(s, batch, t, r, n)
    ensures Waits(s, batch, Swept(s, t, Elements(ids), now), r, n - 1)
  {
    var chosen := Elements(ids);
    BatchSize(s, t, batch, ids);
    LeftHasManyBefore(Stale(s, t), Age(t), batch, ids, r);
    assert chosen <= NotYounger(s, t, r);
    var y := SomeReadable(s, t, batch, chosen, r);
    SweepAround(s, t, chosen, now, r);
    SubsetSize(NotYounger(s, Swept(s, t, chosen, now), r), NotYounger(s, t, r) - {y});
  }

  /** ... and one that takes it makes it current. */
  lemma TakenIsCurrent(s: Settings, t: Table, ids: seq<CredentialId>, now: Time, r: CredentialId)
    requires s.key.Some? && r in ids && r in Readable(s, t, Stale(s, t))
    ensures r !in Stale(s, Swept(s, t, Elements(ids), now))
  {
    assert Swept(s, t, Elements(ids), now)[r].keyVersion == s.version;
  }

  lemma {:induction false} ReachedInTime(s: Settings, batch: nat, t: Table, n: nat, t': Table, r: CredentialId)
    requires s.key.Some? && Waits(s, batch, t, r, n) && Sweeping(s, batch, t, n, t')
    ensures r !in Stale(s, t')
    decreases n
  {
    var ids, now := FirstSweep(s, batch, t, n, t');
    if r in ids {
      TakenIsCurrent(s, t, ids, now, r);
      CurrentStaysCurrent(s, batch, Swept(s, t, Elements(ids), now), n - 1, t', r);
    } else {
      PassingClears(s, batch, t, ids, now, r, n);
      ReachedInTime(s, batch, Swept(s, t, Elements(ids), now), n - 1, t', r);
    }
  }

  /** r waits behind a whole batch of blockers. */
  predicate Blocked(s: Settings, batch: nat, t: Table, r: CredentialId)
  {
    r in Readable(s, t, Stale(s, t)) && |Blockers(s, t, r)| >= batch
  }

  /** Then a sweep can pass it by: among rows of one age, unreadable ones may come first. */
  lemma SweepPast(s: Settings, batch: nat, t: Table, r: CredentialId)
    returns (ids: seq<CredentialId>)
    requires s.key.Some? && Blocked(s, batch, t, r)
    ensures IsBatch(s, t, batch, ids) && Blocked(s, batch, Swept(s, t, Elements(ids), 0), r)
  {
    var finer := (id: CredentialId) => 2 * Touched(t, id) + if IsUnreadable(s, t, id) then 0 else 1;
    ids := AnswerExists(Stale(s, t), finer, batch);
    FinerKey(Stale(s, t), Age(t), finer, batch, ids);
    if r in ids {
      TakenHasFewBefore(Stale(s, t), finer, batch, ids, r, Blockers(s, t, r));
      assert false;
    }
    BatchSize(s, t, batch, ids);
    SweepAround(s, t, Elements(ids), 0, r);
  }

  lemma {:induction false} PassedBy(s: Settings, batch: nat, t: Table, n: nat, r: CredentialId) returns (t': Table)
    requires s.key.Some? && Blocked(s, batch, t, r)
    ensures Sweeping(s, batch, t, n, t') && r in Stale(s, t')
    decreases n
  {
    t' := t;
    if n > 0 {
      var ids := SweepPast(s, batch, t, r);
      t' := PassedBy(s, batch, Swept(s, t, Elements(ids), 0), n - 1, r);
    }
  }

  ghost predicate AlwaysDone(s: Settings, batch: nat, t: Table, r: CredentialId, n: nat)
    requires s.key.Some?
  {
    forall t' :: Sweeping(s, batch, t, n, t') ==> r !in Stale(s, t')
  }

  /** A readable stale row is sure to be re-encrypted within some number of sweeps exactly if fewer than a
      batch of unreadable stale rows are at least as old. */
  lemma EventuallyRekeyedExactly(s: Settings, batch: nat, t: Table, r: CredentialId)
    requires s.key.Some? && r in Readable(s, t, Stale(s, t))
    ensures (exists n: nat :: AlwaysDone(s, batch, t, r, n)) <==> |Blockers(s, t, r)| < batch
  {
    if |Blockers(s, t, r)| < batch {
      var n := |NotYounger(s, t, r)| + 1;
      forall t' | Sweeping(s, batch, t, n, t') ensures r !in Stale(s, t') { ReachedInTime(s, batch, t, n, t', r); }
      assert AlwaysDone(s, batch, t, r, n);
    } else {
      forall n: nat ensures !AlwaysDone(s, batch, t, r, n) {
        var t' := PassedBy(s, batch, t, n, r);
      }
    }
  }
}
