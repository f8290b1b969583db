// The password state of the wallet database: a stored marker, the key held in
// memory, and the monitor table whose values are encrypted under that key.

module DbCrypto {
  import opened Common
  import opened Keys

  type Bytes = seq<Byte>

  datatype Error = InvalidPasswordLength | InvalidPassword | PasswordNeeded | Aead | NotFound | MonitorIdExists | MonitorIdNotFound

  const PASSWORD_LEN := 32

  /** "true", the value whose encryption is stored as the marker. */
  const ENCRYPTION_STATE_VAL: Bytes := [116, 114, 117, 101]

  /** AES-GCM with the key and nonce expanded from the password. */
  datatype Cipher = Cipher(encrypt: (Bytes, Bytes) -> Bytes, decrypt: (Bytes, Bytes) -> Option<Bytes>)

  /** What is asked of the cipher: it decrypts what it encrypted, the marker is not the clear text, and no two
      of the passwords ever presented have the same marker. */
  ghost predicate Faithful(cipher: Cipher, presented: set<Bytes>) {
    && (forall p: Bytes, b: Bytes :: cipher.decrypt(p, cipher.encrypt(p, b)) == Some(b))
    && (forall p: Bytes :: cipher.encrypt(p, ENCRYPTION_STATE_VAL) != ENCRYPTION_STATE_VAL)
    && (forall p: Bytes, q: Bytes :: p in presented && q in presented && p != q ==>
          cipher.encrypt(p, ENCRYPTION_STATE_VAL) != cipher.encrypt(q, ENCRYPTION_STATE_VAL))
  }

  /** The demands can be met: here the marker spells the password out. */
  lemma FaithfulExists(presented: set<Bytes>)
    ensures exists cipher: Cipher :: Faithful(cipher, presented)
  {
    var cipher := Cipher((p: Bytes, b: Bytes) => [0] + b + p,
                         (p: Bytes, c: Bytes) => if |c| >= |p| + 1 then Some(c[1..|c| - |p|]) else None);
    forall p: Bytes, b: Bytes
      ensures cipher.decrypt(p, cipher.encrypt(p, b)) == Some(b)
    {
      assert cipher.encrypt(p, b)[1..1 + |b|] == b;
    }
    forall p: Bytes
      ensures cipher.encrypt(p, ENCRYPTION_STATE_VAL) != ENCRYPTION_STATE_VAL
    {
      assert cipher.encrypt(p, ENCRYPTION_STATE_VAL)[0] == 0;
    }
    forall p: Bytes, q: Bytes | p != q
      ensures cipher.encrypt(p, ENCRYPTION_STATE_VAL) != cipher.encrypt(q, ENCRYPTION_STATE_VAL)
    {
      assert cipher.encrypt(p, ENCRYPTION_STATE_VAL)[5..] == p && cipher.encrypt(q, ENCRYPTION_STATE_VAL)[5..] == q;
    }
    assert Faithful(cipher, presented);
  }

  predicate Wellsized(password: Bytes) {
    password == [] || |password| == PASSWORD_LEN
  }

  function EncryptWithPassword(cipher: Cipher, password: Bytes, plaintext: Bytes): Result<Bytes, Error> {
    if password == [] then Ok(plaintext)
    else if |password| != PASSWORD_LEN then Err(InvalidPasswordLength)
    else Ok(cipher.encrypt(password, plaintext))
  }

  function DecryptWithPassword(cipher: Cipher, password: Bytes, ciphertext: Bytes): Result<Bytes, Error> {
    if password == [] then Ok(ciphertext)
    else match cipher.decrypt(password, ciphertext)
      case Some(plaintext) => Ok(plaintext)
      case None => Err(Aead)
  }

  /** What a password encrypted it decrypts. */
  lemma EncryptionRoundTrip(cipher: Cipher, presented: set<Bytes>, password: Bytes, plaintext: Bytes)
    requires Faithful(cipher, presented) && Wellsized(password)
    ensures var sealed := EncryptWithPassword(cipher, password, plaintext);
            sealed.Ok? && DecryptWithPassword(cipher, password, sealed.value) == Ok(plaintext)
  {
  }

  // ---- What the database is for: a table of plain values behind a password ----

  datatype Vault = Vault(password: Bytes, unlocked: bool, plain: map<Id, Bytes>)

  datatype Op =
    | Reopen
    | CheckAndStorePassword(password: Bytes)
    | ReEncrypt(password: Bytes)
    | Add(id: Id, data: Bytes)
    | SetData(id: Id, data: Bytes)
    | Remove(id: Id)
    | GetData(id: Id)

  datatype Answer = Done | Found(data: Bytes) | Failed(error: Error)

  const FRESH := Vault([], true, map[])

  function Step(v: Vault, op: Op): (Vault, Answer) {
    match op
    case Reopen => (v.(unlocked := v.password == []), Done)
    case CheckAndStorePassword(q) =>
      if q == v.password then (v.(unlocked := true), Done)
      else if v.password != [] && !Wellsized(q) then (v, Failed(InvalidPasswordLength))
      else (v, Failed(InvalidPassword))
    case ReEncrypt(q) =>
      if !v.unlocked && v.plain != map[] then (v, Failed(PasswordNeeded))
      else if !Wellsized(q) then (v, Failed(InvalidPasswordLength))
      else (Vault(q, true, v.plain), Done)
    case Add(id, data) =>
      if !v.unlocked then (v, Failed(PasswordNeeded))
      else if id in v.plain then (v, Failed(MonitorIdExists))
      else (v.(plain := v.plain[id := data]), Done)
    case SetData(id, data) =>
      if id !in v.plain then (v, Failed(MonitorIdNotFound))
      else if !v.unlocked then (v, Failed(PasswordNeeded))
      else (v.(plain := v.plain[id := data]), Done)
    case Remove(id) =>
      if id !in v.plain then (v, Failed(NotFound)) else (v.(plain := v.plain - {id}), Done)
    case GetData(id) =>
      if id !in v.plain then (v, Failed(MonitorIdNotFound))
      else if !v.unlocked then (v, Failed(PasswordNeeded))
      else (v, Found(v.plain[id]))
  }

  function After(v: Vault, ops: seq<Op>): Vault {
    if ops == [] then v else Step(After(v, ops[..|ops| - 1]), ops[|ops| - 1]).0
  }

  function Answers(v: Vault, ops: seq<Op>): (answers: seq<Answer>)
    ensures |answers| == |ops|
  {
    if ops == [] then []
    else Answers(v, ops[..|ops| - 1]) + [Step(After(v, ops[..|ops| - 1]), ops[|ops| - 1]).1]
  }

  // ---- How the database keeps it ----

  datatype Stored = Stored(marker: Option<Bytes>, monitors: map<Id, Bytes>, isDbEncrypted: bool, encryptionKey: Bytes)

  ghost predicate Sealed(cipher: Cipher, v: Vault, monitors: map<Id, Bytes>) {
    && monitors.Keys == v.plain.Keys
    && forall id :: id in monitors ==> Ok(monitors[id]) == EncryptWithPassword(cipher, v.password, v.plain[id])
  }

  /** The tables and the state in memory keep the vault: in particular the flag is set exactly when the marker is
      stored, and a database that is not encrypted holds no key. */
  ghost predicate Keeps(cipher: Cipher, presented: set<Bytes>, s: Stored, v: Vault) {
    && Faithful(cipher, presented)
    && Wellsized(v.password)
    && (v.password != [] ==> v.password in presented)
    && s.isDbEncrypted == s.marker.Some? == (v.password != [])
    && s.encryptionKey == (if v.unlocked then v.password else [])
    && (v.password == [] ==> v.unlocked)
    && (s.marker.Some? ==> s.marker.value == cipher.encrypt(v.password, ENCRYPTION_STATE_VAL))
    && Sealed(cipher, v, s.monitors)
  }

  class Database {
    const cipher: Cipher
    ghost const presented: set<Bytes>
    var marker: Option<Bytes>
    var monitors: map<Id, Bytes>
    var isDbEncrypted: bool
    var encryptionKey: Bytes
    ghost var vault: Vault

    function Fields(): Stored
      reads this
    {
      Stored(marker, monitors, isDbEncrypted, encryptionKey)
    }

    ghost predicate Valid()
      reads this
    {
      Keeps(cipher, presented, Fields(), vault)
    }

    constructor (cipher: Cipher, ghost presented: set<Bytes>)
      requires Faithful(cipher, presented)
      ensures Valid() && vault == FRESH && this.cipher == cipher && this.presented == presented
    {
      this.cipher, this.presented := cipher, presented;
      marker, monitors, isDbEncrypted, encryptionKey := None, map[], false, [];
      vault := FRESH;
    }

    /** A new process opens the same tables: the flag is read off the marker and no key is known. */
    method Open()
      requires Valid()
      modifies this`isDbEncrypted, this`encryptionKey, this`vault
      ensures Valid() && vault == Step(old(vault), Reopen).0
    {
      isDbEncrypted, encryptionKey := marker.Some?, [];
      vault := Step(vault, Reopen).0;
    }

    /** The assertion on the unencrypted branch is the source's own. */
    method IsUnlocked() returns (b: bool)
      requires Valid()
      ensures b == vault.unlocked
    {
      if isDbEncrypted {
        return encryptionKey != [];
      }
      assert encryptionKey == [];
      return true;
    }

    method CheckAndStore(password: Bytes) returns (r: Answer)
      requires Valid() && (|password| == PASSWORD_LEN ==> password in presented)
      modifies this`encryptionKey, this`vault
      ensures Valid() && (vault, r) == Step(old(vault), CheckAndStorePassword(password))
    {
      if isDbEncrypted {
        if marker.None? {
          return Failed(NotFound);
        }
        var expected := EncryptWithPassword(cipher, password, ENCRYPTION_STATE_VAL);
        if expected.Err? {
          return Failed(expected.error);
        }
        if marker.value != expected.value {
          return Failed(InvalidPassword);
        }
        encryptionKey := password;
        vault := vault.(unlocked := true);
        return Done;
      }
      if password == [] {
        assert encryptionKey == [];
        return Done;
      }
      return Failed(InvalidPassword);
    }

    method Encrypt(plaintext: Bytes) returns (r: Result<Bytes, Error>)
      requires Valid()
      ensures r == if vault.unlocked then EncryptWithPassword(cipher, vault.password, plaintext) else Err(PasswordNeeded)
    {
      if !isDbEncrypted {
        return Ok(plaintext);
      }
      if encryptionKey == [] {
        return Err(PasswordNeeded);
      }
      return Ok(cipher.encrypt(encryptionKey, plaintext));
    }

    /** Decrypts under the current password, or asks for it; the branch the source calls an invalid state is dead. */
    method Decrypt(ciphertext: Bytes) returns (r: Result<Bytes, Error>)
      requires Valid()
      ensures r == if vault.unlocked then DecryptWithPassword(cipher, vault.password, ciphertext) else Err(PasswordNeeded)
    {
      if !isDbEncrypted {
        if encryptionKey != [] {
          assert false;
        }
        return Ok(ciphertext);
      }
      if encryptionKey == [] {
        return Err(PasswordNeeded);
      }
      var plain := cipher.decrypt(encryptionKey, ciphertext);
      if plain.None? {
        return Err(Aead);
      }
      return Ok(plain.value);
    }

    /** The cursor loop over the monitor table; its writes stay in the transaction until the password changes. */
    method ReEncryptMonitors(newPassword: Bytes) returns (r: Result<map<Id, Bytes>, Error>)
      requires Valid()
      ensures match r
              case Ok(table) =>
                && (vault.unlocked || vault.plain == map[])
                && (vault.plain == map[] || Wellsized(newPassword))
                && Sealed(cipher, vault.(password := newPassword), table)
              case Err(e) =>
                && vault.plain != map[]
                && (if vault.unlocked then !Wellsized(newPassword) && e == InvalidPasswordLength else e == PasswordNeeded)
    {
      var table := monitors;
      var ahead := monitors.Keys;
      while ahead != {}
        invariant ahead <= monitors.Keys == table.Keys
        invariant forall id :: id in ahead ==> table[id] == monitors[id]
        invariant forall id :: id in table && id !in ahead ==>
                    Ok(table[id]) == EncryptWithPassword(cipher, newPassword, vault.plain[id])
        invariant ahead == monitors.Keys || (vault.unlocked && Wellsized(newPassword))
        decreases |ahead|
      {
        var id :| id in ahead;
        var decrypted := Decrypt(table[id]);
        EncryptionRoundTrip(cipher, presented, vault.password, vault.plain[id]);
        if decrypted.Err? {
          return Err(decrypted.error);
        }
        var encrypted := EncryptWithPassword(cipher, newPassword, decrypted.value);
        if encrypted.Err? {
          return Err(encrypted.error);
        }
        table := table[id := encrypted.value];
        ahead := ahead - {id};
      }
      return Ok(table);
    }

    /** Stores or deletes the marker, commits the transaction, and only then switches the key in memory. */
    method ChangePassword(table: map<Id, Bytes>, password: Bytes) returns (r: Answer)
      requires Valid() && (|password| == PASSWORD_LEN ==> password in presented)
      requires vault.unlocked || vault.plain == map[]
      requires Sealed(cipher, vault.(password := password), table)
      modifies this
      ensures Valid()
      ensures if Wellsized(password) then r == Done && vault == Vault(password, true, old(vault).plain)
              else r == Failed(InvalidPasswordLength) && vault == old(vault) && Fields() == old(Fields())
    {
      var newMarker := marker;
      if password == [] {
        if isDbEncrypted {
          if marker.None? {
            return Failed(NotFound);
          }
          newMarker := None;
        }
      } else {
        if |password| != PASSWORD_LEN {
          return Failed(InvalidPasswordLength);
        }
        newMarker := Some(cipher.encrypt(password, ENCRYPTION_STATE_VAL));
      }
      marker, monitors := newMarker, table;
      isDbEncrypted, encryptionKey := password != [], password;
      vault := Vault(password, true, vault.plain);
      return Done;
    }

    /** re_encrypt: every plain value survives a success, and a failure changes nothing at all. */
    method ReEncryptAll(password: Bytes) returns (r: Answer)
      requires Valid() && (|password| == PASSWORD_LEN ==> password in presented)
      modifies this
      ensures Valid() && (vault, r) == Step(old(vault), ReEncrypt(password))
      ensures vault.plain == old(vault).plain
      ensures r == Done <==> Wellsized(password) && (old(vault).unlocked || old(monitors) == map[])
      ensures r != Done ==> Fields() == old(Fields())
    {
      var table := ReEncryptMonitors(password);
      assert monitors == map[] <==> monitors.Keys == {};
      assert vault.plain == map[] <==> vault.plain.Keys == {};
      if table.Err? {
        return Failed(table.error);
      }
      r := ChangePassword(table.value, password);
    }

    method AddMonitor(id: Id, data: Bytes) returns (r: Answer)
      requires Valid()
      modifies this`monitors, this`vault
      ensures Valid() && (vault, r) == Step(old(vault), Add(id, data))
    {
      var value := Encrypt(data);
      if value.Err? {
        return Failed(value.error);
      }
      if id in monitors {
        return Failed(MonitorIdExists);
      }
      monitors := monitors[id := value.value];
      vault := vault.(plain := vault.plain[id := data]);
      return Done;
    }

    method SetMonitor(id: Id, data: Bytes) returns (r: Answer)
      requires Valid()
      modifies this`monitors, this`vault
      ensures Valid() && (vault, r) == Step(old(vault), SetData(id, data))
    {
      if id !in monitors {
        return Failed(MonitorIdNotFound);
      }
      var value := Encrypt(data);
      if value.Err? {
        return Failed(value.error);
      }
      monitors := monitors[id := value.value];
      vault := vault.(plain := vault.plain[id := data]);
      return Done;
    }

    method RemoveMonitor(id: Id) returns (r: Answer)
      requires Valid()
      modifies this`monitors, this`vault
      ensures Valid() && (vault, r) == Step(old(vault), Remove(id))
    {
      if id !in monitors {
        return Failed(NotFound);
      }
      monitors := monitors - {id};
      vault := vault.(plain := vault.plain - {id});
      return Done;
    }

    method GetMonitor(id: Id) returns (r: Answer)
      requires Valid()
      ensures r == Step(vault, GetData(id)).1
    {
      if id !in monitors {
        return Failed(MonitorIdNotFound);
      }
      var decrypted := Decrypt(monitors[id]);
      EncryptionRoundTrip(cipher, presented, vault.password, vault.plain[id]);
      if decrypted.Err? {
        return Failed(decrypted.error);
      }
      return Found(decrypted.value);
    }

    ghost predicate MayApply(op: Op) {
      match op
      case CheckAndStorePassword(q) => |q| == PASSWORD_LEN ==> q in presented
      case ReEncrypt(q) => |q| == PASSWORD_LEN ==> q in presented
      case _ => true
    }

    method Execute(op: Op) returns (r: Answer)
      requires Valid() && MayApply(op)
      modifies this
      ensures Valid() && (vault, r) == Step(old(vault), op)
    {
      match op
      case Reopen => Open(); r := Done;
      case CheckAndStorePassword(q) => r := CheckAndStore(q);
      case ReEncrypt(q) => r := ReEncryptAll(q);
      case Add(id, data) => r := AddMonitor(id, data);
      case SetData(id, data) => r := SetMonitor(id, data);
      case Remove(id) => r := RemoveMonitor(id);
      case GetData(id) => r := GetMonitor(id);
    }

    /** Over every run the encrypted database answers as the plain table behind a password does. */
    method ExecuteAll(ops: seq<Op>) returns (answers: seq<Answer>)
      requires Valid() && forall op :: op in ops ==> MayApply(op)
      modifies this
      ensures Valid()
      ensures vault == After(old(vault), ops) && answers == Answers(old(vault), ops)
    {
      answers := [];
      for i := 0 to |ops|
        invariant Valid()
        invariant vault == After(old(vault), ops[..i]) && answers == Answers(old(vault), ops[..i])
      {
        assert ops[..i + 1][..i] == ops[..i];
        var r := Execute(ops[i]);
        answers := answers + [r];
      }
      assert ops[..|ops|] == ops;
    }
  }

  // ---- Runs of the vault ----

  predicate Concerns(op: Op, id: Id) {
    match op
    case Add(i, _) => i == id
    case SetData(i, _) => i == id
    case Remove(i) => i == id
    case _ => false
  }

  /** Through every sequence of reopening, unlocking and password changes, successful or not, and of operations
      on other monitors, a monitor's data stay what they were. */
  lemma {:induction false} PlaintextSurvives(v: Vault, ops: seq<Op>, id: Id)
    requires forall op :: op in ops ==> !Concerns(op, id)
    ensures id in After(v, ops).plain <==> id in v.plain
    ensures id in v.plain ==> After(v, ops).plain[id] == v.plain[id]
  {
    if ops != [] {
      PlaintextSurvives(v, ops[..|ops| - 1], id);
      assert !Concerns(ops[|ops| - 1], id);
    }
  }

  /** What was written is read back, whatever is done to other monitors and to the password in between. */
  lemma ReadsBack(v: Vault, write: Op, ops: seq<Op>, id: Id, data: Bytes)
    requires write == Add(id, data) || write == SetData(id, data)
    requires Step(v, write).1 == Done && forall op :: op in ops ==> !Concerns(op, id)
    ensures var after := After(Step(v, write).0, ops);
            Step(after, GetData(id)) == (after, if after.unlocked then Found(data) else Failed(PasswordNeeded))
  {
    PlaintextSurvives(Step(v, write).0, ops, id);
  }

  /** When each call succeeds, and what it says when it does not: reading and writing need the database unlocked, removal does
      not, and a password can be set by whoever has unlocked the database or finds it without monitors. */
  lemma AnswersExact(v: Vault, id: Id, data: Bytes, q: Bytes)
    ensures Step(v, Add(id, data)).1 == if !v.unlocked then Failed(PasswordNeeded) else if id in v.plain then Failed(MonitorIdExists) else Done
    ensures Step(v, Remove(id)).1 == if id in v.plain then Done else Failed(NotFound)
    ensures id in v.plain ==> Step(v, SetData(id, data)).1 == if v.unlocked then Done else Failed(PasswordNeeded)
    ensures id in v.plain ==> Step(v, GetData(id)).1 == if v.unlocked then Found(v.plain[id]) else Failed(PasswordNeeded)
    ensures id !in v.plain ==> Step(v, SetData(id, data)).1 == Step(v, GetData(id)).1 == Failed(MonitorIdNotFound)
    ensures Step(v, ReEncrypt(q)).1 == Done <==> (v.unlocked || v.plain == map[]) && Wellsized(q)
    ensures !v.unlocked && v.plain != map[] ==> Step(v, ReEncrypt(q)).1 == Failed(PasswordNeeded)
    ensures (v.unlocked || v.plain == map[]) && !Wellsized(q) ==> Step(v, ReEncrypt(q)).1 == Failed(InvalidPasswordLength)
  {
  }

  /** Exactly the right password unlocks, and it changes nothing else. */
  lemma PasswordUnlocks(v: Vault, q: Bytes)
    ensures var (after, answer) := Step(v, CheckAndStorePassword(q));
            && (answer == Done <==> q == v.password)
            && (q == v.password ==> after == Vault(v.password, true, v.plain))
            && (q != v.password ==>
                  && after == v
                  && answer == Failed(if v.password != [] && q != [] && |q| != PASSWORD_LEN then InvalidPasswordLength else InvalidPassword))
  {
  }

  /** A password that was set is the one that opens the database in the next process, with its data. */
  lemma NewPasswordOpens(v: Vault, q: Bytes, p: Bytes)
    requires Step(v, ReEncrypt(q)).1 == Done
    ensures var closed := After(v, [ReEncrypt(q), Reopen]);
            && closed == Vault(q, q == [], v.plain)
            && (Step(closed, CheckAndStorePassword(p)) == (Vault(q, true, v.plain), Done) <==> p == q)
  {
    var one, two := [ReEncrypt(q)], [ReEncrypt(q), Reopen];
    assert one[..0] == [] && two[..1] == one;
    assert After(v, one) == Step(v, ReEncrypt(q)).0;
  }

  /** What a monitor was last given, and not taken away since, as far as the answers say. */
  function Given(v: Vault, ops: seq<Op>, id: Id): Option<Bytes> {
    if ops == [] then (if id in v.plain then Some(v.plain[id]) else None) else
      var before, done := Given(v, ops[..|ops| - 1], id), Answers(v, ops)[|ops| - 1] == Done;
      match ops[|ops| - 1]
      case Add(i, data) => if i == id && done then Some(data) else before
      case SetData(i, data) => if i == id && done then Some(data) else before
      case Remove(i) => if i == id && done then None else before
      case _ => before
  }

  /** After every run the vault holds what each monitor was last given. */
  lemma {:induction false} HoldsGiven(v: Vault, ops: seq<Op>, id: Id)
    ensures Given(v, ops, id) == if id in After(v, ops).plain then Some(After(v, ops).plain[id]) else None
  {
    if ops != [] {
      HoldsGiven(v, ops[..|ops| - 1], id);
    }
  }

  /** A locked vault that holds a monitor opens only to its password: without it, nothing but removal changes
      the vault, so the password stays too. */
  lemma {:induction false} LockedUntilPassword(v: Vault, ops: seq<Op>, id: Id)
    requires !v.unlocked && v.password != [] && id in v.plain
    requires forall op :: op in ops ==> !Concerns(op, id) && op != CheckAndStorePassword(v.password)
    ensures !After(v, ops).unlocked && After(v, ops).password == v.password && id in After(v, ops).plain
    ensures forall k :: k in After(v, ops).plain ==> k in v.plain && After(v, ops).plain[k] == v.plain[k]
  {
    if ops != [] {
      LockedUntilPassword(v, ops[..|ops| - 1], id);
      var op := ops[|ops| - 1];
      assert op in ops && !Concerns(op, id);
    }
  }

  /** The documented failure of re-encryption without the password needs a stored monitor: with none, a locked
      database takes a new password from anyone, and keeps it. */
  lemma EmptyLockedTakesNewPassword(p: Bytes, q: Bytes)
    requires |p| == PASSWORD_LEN && Wellsized(q)
    ensures !After(FRESH, [ReEncrypt(p), Reopen]).unlocked
    ensures After(FRESH, [ReEncrypt(p), Reopen, ReEncrypt(q)]) == Vault(q, true, map[])
  {
    var set1 := [ReEncrypt(p)];
    assert set1[..0] == [];
    assert After(FRESH, set1) == Vault(p, true, map[]);
    var locked := [ReEncrypt(p), Reopen];
    assert locked[..1] == set1;
    assert After(FRESH, locked) == Vault(p, false, map[]);
    assert [ReEncrypt(p), Reopen, ReEncrypt(q)][..2] == locked;
  }
}
