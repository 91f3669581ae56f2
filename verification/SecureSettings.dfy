/** SecureQSettings: a value cache over a settings file in which the values of some keys are
    encrypted and marked by a magic prefix.  Keys are flat; the cipher (serialization
    included) is a parameter. */
module SecureSettings {
  import opened Basics

  datatype Variant = Invalid | ByteArray(bytes: seq<Byte>) | Scalar(text: string)

  datatype Cipher = Cipher(seal: Variant -> seq<Byte>, unseal: seq<Byte> -> Variant)

  /** Decryption undoes encryption. */
  ghost predicate RoundTrips(c: Cipher) {
    forall v :: c.unseal(c.seal(v)) == v
  }

  const MAGIC: seq<Byte> := [69, 110, 99, 68, 97, 116, 97]   // "EncData"
  const ENCRYPTED_KEYS := {"Servers/serversList"}
  const ENCRYPTED_FLAG := "Conf/encrypted"

  predicate HasMagic(v: Variant) { v.ByteArray? && MAGIC <= v.bytes }

  const FALSE_BYTES: set<seq<Byte>> := {[], [48], [102, 97, 108, 115, 101]}   // "", "0", "false"

  /** How the flag is read: any text but these counts as true. */
  predicate IsTrue(v: Variant) {
    match v
    case Invalid => false
    case ByteArray(b) => b !in FALSE_BYTES
    case Scalar(t) => t !in {"", "0", "false"}
  }

  lemma IsTrueMeans(v: Variant)
    ensures IsTrue(v) <==>
              || (v.Scalar? && v.text != "" && v.text != "0" && v.text != "false")
              || (v.ByteArray? && v.bytes != [] && v.bytes != [48] && v.bytes != [102, 97, 108, 115, 101])
  {}

  /** Whether opening a file with these contents encrypts what older versions left readable. */
  predicate NeedsMigration(encryptionRequired: bool, m: map<string, Variant>) {
    encryptionRequired && !(ENCRYPTED_FLAG in m && IsTrue(m[ENCRYPTED_FLAG]))
  }

  /** What the file holds for a value of a key, and what a stored value stands for. */
  function Stored(c: Cipher, sealed: bool, v: Variant): Variant {
    if sealed then ByteArray(MAGIC + c.seal(v)) else v
  }

  function Meaning(c: Cipher, stored: Variant): Variant {
    if HasMagic(stored) then c.unseal(stored.bytes[|MAGIC|..]) else stored
  }

  function MeaningOf(c: Cipher, store: map<string, Variant>): map<string, Variant> {
    map k | k in store :: Meaning(c, store[k])
  }

  /** A stored value reads back as itself if and only if it is encrypted, or does not look
      encrypted, or happens to decrypt to itself. */
  lemma ReadsBack(c: Cipher, sealed: bool, v: Variant)
    requires RoundTrips(c)
    ensures Meaning(c, Stored(c, sealed, v)) == v <==> ReadableAs(c, sealed, v)
  {
    var bytes := MAGIC + c.seal(v);
    assert MAGIC <= bytes && bytes[|MAGIC|..] == c.seal(v);
  }

  predicate ReadableAs(c: Cipher, sealed: bool, v: Variant) {
    sealed || !HasMagic(v) || c.unseal(v.bytes[|MAGIC|..]) == v
  }

  // ---------------------------------------------------------------- a plain map, for reference

  datatype Op =
    | Get(key: string, otherwise: Variant) | Put(key: string, value: Variant) | Remove(key: string) | Clear | Restart

  /** A restart sets the flag when it is missing, for instance after a clear. */
  function PlainStep(m: map<string, Variant>, op: Op, encryptionRequired: bool): map<string, Variant> {
    match op
    case Get(_, _) => m
    case Put(k, v) => m[k := v]
    case Remove(k) => m - {k}
    case Clear => map[]
    case Restart => if NeedsMigration(encryptionRequired, m) then m[ENCRYPTED_FLAG := Scalar("true")] else m
  }

  function PlainAnswer(m: map<string, Variant>, op: Op): seq<Variant> {
    if op.Get? then [if op.key in m then m[op.key] else op.otherwise] else []
  }

  function PlainRun(m: map<string, Variant>, ops: seq<Op>, encryptionRequired: bool)
    : (map<string, Variant>, seq<Variant>)
    decreases |ops|
  {
    if ops == [] then (m, [])
    else
      var last := |ops| - 1;
      var (before, answers) := PlainRun(m, ops[..last], encryptionRequired);
      (PlainStep(before, ops[last], encryptionRequired), answers + PlainAnswer(before, ops[last]))
  }

  // ---------------------------------------------------------------- the object

  class Settings {
    const cipher: Cipher
    const encryptionRequired: bool   // false on Linux
    const keyAvailable: bool         // the keychain holds, and keeps, a key
    var store: map<string, Variant>
    var cache: map<string, Variant>

    ghost function Contents(): map<string, Variant>
      reads this
    {
      MeaningOf(cipher, store)
    }

    /** Everything cached is what the file stands for. */
    ghost predicate Valid()
      reads this
    {
      forall k :: k in cache ==> k in store && cache[k] == Meaning(cipher, store[k])
    }

    /** The flag reads the same before and after decryption. */
    ghost predicate FlagHonest()
      reads this
    {
      ENCRYPTED_FLAG in store ==> (IsTrue(store[ENCRYPTED_FLAG]) <==> IsTrue(Meaning(cipher, store[ENCRYPTED_FLAG])))
    }

    predicate Encrypts(k: string) { encryptionRequired && k in ENCRYPTED_KEYS }

    /** Opens the file and, once, encrypts the values that older versions left readable.  All
        values survive, with or without a key; only the flag itself changes its meaning. */
    constructor (cipher: Cipher, encryptionRequired: bool, keyAvailable: bool, file: map<string, Variant>)
      requires RoundTrips(cipher)
      ensures this.cipher == cipher && this.encryptionRequired == encryptionRequired
      ensures this.keyAvailable == keyAvailable
      ensures Valid()
      ensures var migrates := encryptionRequired && !("Conf/encrypted" in file && IsTrue(file["Conf/encrypted"]));
              && (!migrates ==> store == file)
              && (migrates ==> Contents() == MeaningOf(cipher, file)["Conf/encrypted" := Scalar("true")])
              && (migrates && keyAvailable && "Servers/serversList" in file ==>
                    "Servers/serversList" in store && HasMagic(store["Servers/serversList"]))
    {
      this.cipher, this.encryptionRequired, this.keyAvailable := cipher, encryptionRequired, keyAvailable;
      store, cache := file, map[];
      new;
      if encryptionRequired && !(ENCRYPTED_FLAG in store && IsTrue(store[ENCRYPTED_FLAG])) { Migrate(); }
    }

    method Migrate()
      requires RoundTrips(cipher) && encryptionRequired && cache == map[]
      modifies this
      ensures Valid() && FlagHonest() && Contents() == old(Contents())[ENCRYPTED_FLAG := Scalar("true")]
      ensures keyAvailable ==> forall k :: k in ENCRYPTED_KEYS && k in old(store) ==> k in store && HasMagic(store[k])
    {
      var keys := store.Keys;
      while keys != {}
        invariant Valid() && Contents() == old(Contents()) && keys <= store.Keys && cache.Keys <= ENCRYPTED_KEYS
        invariant store.Keys == old(store).Keys
        invariant keyAvailable ==> forall k :: k in ENCRYPTED_KEYS && k in store && k !in keys ==> HasMagic(store[k])
        decreases keys
      {
        var k :| k in keys;
        if k in ENCRYPTED_KEYS {
          var v := Value(k, Invalid);
          SetValue(k, v);
          assert Contents() == old(Contents());
          assert keyAvailable ==> MAGIC <= store[k].bytes;
        }
        keys := keys - {k};
      }
      store := store[ENCRYPTED_FLAG := Scalar("true")];
    }

    /** Reading: from the cache, or from the file and then into the cache.  Without a key an
        encrypted value that is not cached reads as invalid and is not cached either. */
    method Value(key: string, otherwise: Variant) returns (r: Variant)
      requires Valid()
      modifies this`cache
      ensures Valid()
      ensures key !in store ==> r == otherwise && cache == old(cache)
      ensures key in store && (keyAvailable || !HasMagic(store[key]) || key in old(cache)) ==>
                r == Contents()[key] && cache == old(cache)[key := r]
      ensures key in store && !keyAvailable && HasMagic(store[key]) && key !in old(cache) ==>
                r == Invalid && cache == old(cache)
    {
      if key in cache { return cache[key]; }
      if key !in store { return otherwise; }
      r := store[key];
      if r.ByteArray? && MAGIC <= r.bytes {
        if !keyAvailable { return Invalid; }
        r := cipher.unseal(r.bytes[|MAGIC|..]);
      }
      cache := cache[key := r];
    }

    /** Writing: the cache always shows the new value; the object stays consistent exactly when
        the file reads back as that value too. */
    method SetValue(key: string, value: Variant)
      requires RoundTrips(cipher) && Valid()
      modifies this
      ensures Encrypts(key) && !keyAvailable ==> store == old(store) && cache == old(cache)
      ensures !Encrypts(key) || keyAvailable ==>
                store == old(store)[key := Stored(cipher, Encrypts(key), value)] && cache == old(cache)[key := value]
      ensures !Encrypts(key) || keyAvailable ==> (Valid() <==> ReadableAs(cipher, Encrypts(key), value))
      ensures (!Encrypts(key) || keyAvailable) && ReadableAs(cipher, Encrypts(key), value) ==>
                Contents() == old(Contents())[key := value]
    {
      ReadsBack(cipher, Encrypts(key), value);
      if encryptionRequired && key in ENCRYPTED_KEYS {
        if keyAvailable {
          store := store[key := ByteArray(MAGIC + cipher.seal(value))];
        } else {
          return;
        }
      } else {
        store := store[key := value];
      }
      cache := cache[key := value];
      assert cache[key] == value;
    }

    method RemoveKey(key: string)
      requires Valid()
      modifies this
      ensures Valid() && store == old(store) - {key} && Contents() == old(Contents()) - {key}
    {
      store := store - {key};
      cache := cache - {key};
    }

    method ClearSettings()
      modifies this
      ensures Valid() && store == map[] && Contents() == map[]
    {
      store, cache := map[], map[];
    }

    /** A new process on the same file: the cache is gone and the constructor runs again. */
    method Reopen()
      requires RoundTrips(cipher)
      modifies this
      ensures Valid()
      ensures Contents() == if NeedsMigration(encryptionRequired, old(store))
                            then old(Contents())[ENCRYPTED_FLAG := Scalar("true")] else old(Contents())
      ensures old(FlagHonest()) ==>
                FlagHonest() && Contents() == PlainStep(old(Contents()), Restart, encryptionRequired)
    {
      cache := map[];
      if encryptionRequired && !(ENCRYPTED_FLAG in store && IsTrue(store[ENCRYPTED_FLAG])) { Migrate(); }
    }

    /** Cache transparency: every run of reads, writes, removals, clears and restarts answers
        what a plain map would. */
    method Run(ops: seq<Op>) returns (answers: seq<Variant>)
      requires RoundTrips(cipher) && Valid() && FlagHonest() && keyAvailable
      requires forall op :: op in ops && op.Put? ==> ReadableAs(cipher, Encrypts(op.key), op.value)
      modifies this
      ensures Valid() && FlagHonest() && (Contents(), answers) == PlainRun(old(Contents()), ops, encryptionRequired)
    {
      hide ReadableAs, MeaningOf, Meaning, Valid, FlagHonest;
      answers := [];
      assert ops[..0] == [];
      for i := 0 to |ops|
        invariant Valid() && FlagHonest()
        invariant (Contents(), answers) == PlainRun(old(Contents()), ops[..i], encryptionRequired)
      {
        assert ops[..i + 1][..i] == ops[..i] && ops[i] in ops;
        var answer := Perform(ops[i]);
        answers := answers + answer;
      }
      assert ops[..|ops|] == ops;
    }

    method Perform(op: Op) returns (answer: seq<Variant>)
      requires RoundTrips(cipher) && Valid() && FlagHonest() && keyAvailable
      requires op.Put? ==> ReadableAs(cipher, Encrypts(op.key), op.value)
      modifies this
      ensures Valid() && FlagHonest() && Contents() == PlainStep(old(Contents()), op, encryptionRequired)
      ensures answer == PlainAnswer(old(Contents()), op)
    {
      answer := [];
      match op {
        case Get(k, otherwise) =>
          var v := Value(k, otherwise);
          answer := [v];
        case Put(k, v) =>
          assert |ENCRYPTED_FLAG| == 14;
          ReadsBack(cipher, Encrypts(k), v);
          SetValue(k, v);
        case Remove(k) => RemoveKey(k);
        case Clear => ClearSettings();
        case Restart => Reopen();
      }
    }

    /** Whether a write survives a restart: written, restarted and read, a value comes back as a
        plain map would give it if and only if its stored form reads back as the value. */
    method PutRestartGet(key: string, value: Variant, otherwise: Variant) returns (answer: Variant)
      requires RoundTrips(cipher) && Valid() && keyAvailable
      modifies this
      ensures var ops := [Put(key, value), Restart, Get(key, otherwise)];
              PlainRun(old(Contents()), ops, encryptionRequired).1 == [answer] <==>
                ReadableAs(cipher, Encrypts(key), value)
    {
      ghost var before := Contents();
      SetValue(key, value);
      ghost var file := store;
      Reopen();
      hide Valid;
      AnswerAfterRestart(cipher, encryptionRequired, before, file, key, value, otherwise);
      assert key in Contents() && key in store;
      answer := Value(key, otherwise);
    }
  }

  lemma PlainSnoc(m: map<string, Variant>, ops: seq<Op>, op: Op, encryptionRequired: bool)
    ensures var (before, answers) := PlainRun(m, ops, encryptionRequired);
            PlainRun(m, ops + [op], encryptionRequired) ==
              (PlainStep(before, op, encryptionRequired), answers + PlainAnswer(before, op))
  {
    assert (ops + [op])[..|ops|] == ops;
  }

  /** What a plain map answers to a write, a restart and a read. */
  lemma ThreeSteps(m: map<string, Variant>, key: string, v: Variant, otherwise: Variant, encryptionRequired: bool)
    ensures PlainRun(m, [Put(key, v), Restart, Get(key, otherwise)], encryptionRequired).1 ==
              [PlainStep(m[key := v], Restart, encryptionRequired)[key]]
  {
    assert PlainRun(m, [], encryptionRequired) == (m, []);
    hide PlainRun;
    PlainSnoc(m, [], Put(key, v), encryptionRequired);
    assert [] + [Put(key, v)] == [Put(key, v)];
    PlainSnoc(m, [Put(key, v)], Restart, encryptionRequired);
    assert [Put(key, v)] + [Restart] == [Put(key, v), Restart];
    PlainSnoc(m, [Put(key, v), Restart], Get(key, otherwise), encryptionRequired);
    assert [Put(key, v), Restart] + [Get(key, otherwise)] == [Put(key, v), Restart, Get(key, otherwise)];
  }

  /** What the file stands for under a key after a restart, against the plain map. */
  lemma AnswerAfterRestart(c: Cipher, encryptionRequired: bool, m: map<string, Variant>, file: map<string, Variant>,
                           key: string, v: Variant, otherwise: Variant)
    requires RoundTrips(c)
    requires key in file && file[key] == Stored(c, encryptionRequired && key in ENCRYPTED_KEYS, v)
    ensures var read := if NeedsMigration(encryptionRequired, file)
                        then MeaningOf(c, file)[ENCRYPTED_FLAG := Scalar("true")] else MeaningOf(c, file);
            PlainRun(m, [Put(key, v), Restart, Get(key, otherwise)], encryptionRequired).1 == [read[key]] <==>
              ReadableAs(c, encryptionRequired && key in ENCRYPTED_KEYS, v)
  {
    hide PlainRun;
    ThreeSteps(m, key, v, otherwise, encryptionRequired);
    ReadsBack(c, encryptionRequired && key in ENCRYPTED_KEYS, v);
    assert |ENCRYPTED_FLAG| == 14;
    assert HasMagic(v) ==> IsTrue(v);
  }

  /** The value whose bytes are an encrypted value with its prefix, as the file holds it. */
  function SealedBytes(c: Cipher): Variant { ByteArray(MAGIC + c.seal(Invalid)) }

  /** Under every cipher there is a value that no unencrypted key keeps over a restart: bytes that
      look encrypted read back as what they decrypt to. */
  lemma MagicPrefixIsNotTransparent(c: Cipher)
    requires RoundTrips(c)
    ensures !ReadableAs(c, false, SealedBytes(c))
    ensures Meaning(c, Stored(c, false, SealedBytes(c))) == Invalid
  {
    var bytes := MAGIC + c.seal(Invalid);
    assert MAGIC <= bytes && bytes[|MAGIC|..] == c.seal(Invalid);
  }

  /** The failing run: written, restarted and read, that value answers something else than a
      plain map, under any key that is not encrypted. */
  method LosesSealedBytes(s: Settings, key: string) returns (answer: Variant)
    requires RoundTrips(s.cipher) && s.Valid() && s.keyAvailable && !s.Encrypts(key)
    modifies s
    ensures var ops := [Put(key, SealedBytes(s.cipher)), Restart, Get(key, Invalid)];
            PlainRun(old(s.Contents()), ops, s.encryptionRequired).1 != [answer]
  {
    MagicPrefixIsNotTransparent(s.cipher);
    answer := s.PutRestartGet(key, SealedBytes(s.cipher), Invalid);
  }
}
