/**
 * The credential vault of secrets/secrets.go: the in-memory credential triple
 * and its encrypted file, laid out as salt (16 bytes), nonce (12 bytes) and
 * the AES-GCM ciphertext with its tag.
 */
module Secrets {
  import opened Wrappers

  newtype byte = x: int | 0 <= x < 256
  type Bytes = seq<byte>

  const SaltLength := 16
  const NonceLength := 12
  /** deriveKey asks Argon2id for 32 bytes, an AES-256 key. */
  const KeyLength := 32

  /** The API credentials held in memory (the unexported `secrets` struct). */
  datatype Credentials = Credentials(username: string, integrationCode: string, secret: string)

  /** What the vault holds at startup: Go's zero value. */
  const NoCredentials := Credentials("", "", "")

  /** Credentials are loaded when all three fields are non-empty. */
  predicate Loaded(c: Credentials) {
    c.secret != "" && c.integrationCode != "" && c.username != ""
  }

  /** The ways encrypting or decrypting can fail, in the order they are checked. */
  datatype VaultError =
    | EncodeError          // gob encoding of the triple failed
    | RandomError          // crypto/rand could not fill the salt or the nonce
    | CipherError          // aes.NewCipher rejected the derived key
    | WriteError           // os.WriteFile failed
    | ReadError            // os.ReadFile failed
    | TooShort             // the file is shorter than salt plus nonce
    | AuthenticationError  // the GCM tag did not verify
    | DecodeError          // gob decoding of the plaintext failed

  /**
   * The foreign primitives: Argon2id key derivation, AES-GCM sealing and
   * opening, and gob encoding and decoding. Being functions, all of them are
   * deterministic.
   */
  datatype Suite = Suite(
    deriveKey: (Bytes, Bytes) -> Bytes,
    seal: (Bytes, Bytes, Bytes) -> Bytes,
    open: (Bytes, Bytes, Bytes) -> Option<Bytes>,
    encode: Credentials -> Option<Bytes>,
    decode: Bytes -> Option<Credentials>)

  /** What the primitives promise: a 32-byte key, opening undoes sealing under
      the same key and nonce, and decoding undoes encoding. */
  ghost predicate Sound(s: Suite) {
    && (forall password, salt :: |s.deriveKey(password, salt)| == KeyLength)
    && (forall key, nonce, pt :: s.open(key, nonce, s.seal(key, nonce, pt)) == Some(pt))
    && (forall c :: s.encode(c).Some? ==> s.decode(s.encode(c).value) == Some(c))
  }

  /** aes.NewCipher accepts AES-128, AES-192 and AES-256 keys only. */
  predicate CipherAccepts(key: Bytes) {
    |key| == 16 || |key| == 24 || |key| == 32
  }

  /** The three parts of a vault file. */
  datatype Parts = Parts(salt: Bytes, nonce: Bytes, ciphertext: Bytes)

  /** The file layout: salt, then nonce, then ciphertext. */
  function Frame(salt: Bytes, nonce: Bytes, ciphertext: Bytes): Bytes {
    salt + nonce + ciphertext
  }

  /** Splits a file at offsets 16 and 28, refusing one shorter than 28 bytes. */
  function Split(file: Bytes): (r: Option<Parts>)
    ensures r.None? <==> |file| < SaltLength + NonceLength
    ensures r.Some? ==> |r.value.salt| == SaltLength && |r.value.nonce| == NonceLength
    ensures r.Some? ==> Frame(r.value.salt, r.value.nonce, r.value.ciphertext) == file
  {
    if |file| < SaltLength + NonceLength then None
    else
      assert file == file[..SaltLength] + file[SaltLength..SaltLength + NonceLength] + file[SaltLength + NonceLength..];
      Some(Parts(file[..SaltLength], file[SaltLength..SaltLength + NonceLength], file[SaltLength + NonceLength..]))
  }

  /** Splitting a framed file recovers exactly the salt, nonce and ciphertext. */
  lemma SplitFrame(salt: Bytes, nonce: Bytes, ciphertext: Bytes)
    requires |salt| == SaltLength && |nonce| == NonceLength
    ensures |Frame(salt, nonce, ciphertext)| == SaltLength + NonceLength + |ciphertext|
    ensures Split(Frame(salt, nonce, ciphertext)) == Some(Parts(salt, nonce, ciphertext))
  {
    var file := Frame(salt, nonce, ciphertext);
    assert file[..SaltLength] == salt;
    assert file[SaltLength..SaltLength + NonceLength] == nonce;
    assert file[SaltLength + NonceLength..] == ciphertext;
  }

  /** The file EncryptToDisk writes for the triple `c`, given the random salt
      and nonce (None when crypto/rand fails). */
  function EncryptedFile(s: Suite, c: Credentials, password: Bytes, salt: Option<Bytes>, nonce: Option<Bytes>): Result<Bytes, VaultError>
  {
    match s.encode(c)
    case None => Failure(EncodeError)
    case Some(plaintext) =>
      match salt
      case None => Failure(RandomError)
      case Some(salt) =>
        var key := s.deriveKey(password, salt);
        if !CipherAccepts(key) then Failure(CipherError)
        else
          match nonce
          case None => Failure(RandomError)
          case Some(nonce) => Success(Frame(salt, nonce, s.seal(key, nonce, plaintext)))
  }

  /** The triple DecryptSecrets recovers from the file (None when it cannot
      be read). */
  function DecryptedTriple(s: Suite, file: Option<Bytes>, password: Bytes): Result<Credentials, VaultError>
  {
    match file
    case None => Failure(ReadError)
    case Some(data) =>
      match Split(data)
      case None => Failure(TooShort)
      case Some(parts) =>
        var key := s.deriveKey(password, parts.salt);
        if !CipherAccepts(key) then Failure(CipherError)
        else
          match s.open(key, parts.nonce, parts.ciphertext)
          case None => Failure(AuthenticationError)
          case Some(plaintext) =>
            match s.decode(plaintext)
            case None => Failure(DecodeError)
            case Some(c) => Success(c)
  }

  /** A written file is salt, nonce and the sealed encoding of the triple,
      28 bytes longer than the ciphertext. */
  lemma EncryptedFileLayout(s: Suite, c: Credentials, password: Bytes, salt: Bytes, nonce: Bytes)
    requires |salt| == SaltLength && |nonce| == NonceLength
    requires EncryptedFile(s, c, password, Some(salt), Some(nonce)).Success?
    ensures var file := EncryptedFile(s, c, password, Some(salt), Some(nonce)).value;
            var ciphertext := s.seal(s.deriveKey(password, salt), nonce, s.encode(c).value);
            && |file| == SaltLength + NonceLength + |ciphertext|
            && Split(file) == Some(Parts(salt, nonce, ciphertext))
  {
    SplitFrame(salt, nonce, s.seal(s.deriveKey(password, salt), nonce, s.encode(c).value));
  }

  /** With sound primitives, encryption succeeds whenever the triple encodes
      and the salt and nonce were drawn. */
  lemma EncryptSucceeds(s: Suite, c: Credentials, password: Bytes, salt: Bytes, nonce: Bytes)
    requires Sound(s)
    requires s.encode(c).Some?
    ensures EncryptedFile(s, c, password, Some(salt), Some(nonce)).Success?
  {
    assert |s.deriveKey(password, salt)| == KeyLength;
  }

  /** Round trip: decrypting the file written for `c` under the same password
      gives back `c`. */
  lemma DecryptAfterEncrypt(s: Suite, c: Credentials, password: Bytes, salt: Bytes, nonce: Bytes)
    requires Sound(s)
    requires |salt| == SaltLength && |nonce| == NonceLength
    requires EncryptedFile(s, c, password, Some(salt), Some(nonce)).Success?
    ensures DecryptedTriple(s, Some(EncryptedFile(s, c, password, Some(salt), Some(nonce)).value), password) == Success(c)
  {
    var key := s.deriveKey(password, salt);
    var plaintext := s.encode(c).value;
    SplitFrame(salt, nonce, s.seal(key, nonce, plaintext));
    assert s.open(key, nonce, s.seal(key, nonce, plaintext)) == Some(plaintext);
  }

  /** A file shorter than salt plus nonce is refused before any key is derived. */
  lemma ShortFileIsRefused(s: Suite, data: Bytes, password: Bytes)
    requires |data| < SaltLength + NonceLength
    ensures DecryptedTriple(s, Some(data), password) == Failure(TooShort)
  {
  }

  /** Under the extra assumptions that a GCM tag made with one key never
      verifies under another and that the two passwords yield different keys
      for this salt, decrypting with the wrong password fails closed. */
  lemma WrongPasswordFailsClosed(s: Suite, c: Credentials, password: Bytes, other: Bytes, salt: Bytes, nonce: Bytes)
    requires |salt| == SaltLength && |nonce| == NonceLength
    requires forall k1, k2, n, pt :: k1 != k2 ==> s.open(k2, n, s.seal(k1, n, pt)) == None
    requires s.deriveKey(password, salt) != s.deriveKey(other, salt)
    requires CipherAccepts(s.deriveKey(other, salt))
    requires EncryptedFile(s, c, password, Some(salt), Some(nonce)).Success?
    ensures DecryptedTriple(s, Some(EncryptedFile(s, c, password, Some(salt), Some(nonce)).value), other) == Failure(AuthenticationError)
  {
    var key := s.deriveKey(password, salt);
    SplitFrame(salt, nonce, s.seal(key, nonce, s.encode(c).value));
  }

  /** The vault (SecretsCollection): the triple in memory and the file at
      `filePath`, `disk` being its contents or None when it cannot be read. */
  class SecretsCollection {
    var secrets: Credentials
    var disk: Option<Bytes>
    const filePath: string
    const suite: Suite

    /** The vault NewWebApp builds: the zero triple over whatever file exists. */
    constructor (filePath: string, suite: Suite, disk: Option<Bytes>)
      ensures secrets == NoCredentials && this.disk == disk
      ensures this.filePath == filePath && this.suite == suite
    {
      secrets := NoCredentials;
      this.disk := disk;
      this.filePath := filePath;
      this.suite := suite;
    }

    /** Stores a triple; note the parameter order: integration code, secret, username. */
    method SetSecrets(integrationCode: string, secret: string, username: string)
      modifies this`secrets
      ensures secrets == Credentials(username, integrationCode, secret)
      ensures disk == old(disk)
    {
      secrets := secrets.(integrationCode := integrationCode);
      secrets := secrets.(secret := secret);
      secrets := secrets.(username := username);
    }

    /** Returns the triple as integration code, secret, username. */
    method GetSecrets() returns (integrationCode: string, secret: string, username: string)
      ensures Credentials(username, integrationCode, secret) == secrets
    {
      return secrets.integrationCode, secrets.secret, secrets.username;
    }

    /** True iff every field of the triple is non-empty. */
    predicate SecretsAreLoaded()
      reads this
      ensures SecretsAreLoaded() <==> secrets.secret != "" && secrets.integrationCode != "" && secrets.username != ""
    {
      Loaded(secrets)
    }

    /** True iff the vault file exists (os.Stat succeeds). */
    predicate EncFilePresent()
      reads this
    {
      disk.Some?
    }

    /** Decrypts the file with `password` into the triple; on every failure the
        triple is left as it was. `maxExpectedBytes` is accepted and unused. */
    method DecryptSecrets(password: Bytes, maxExpectedBytes: int) returns (err: Option<VaultError>)
      modifies this`secrets
      ensures disk == old(disk)
      ensures DecryptedTriple(suite, disk, password).Success? ==>
                err == None && secrets == DecryptedTriple(suite, disk, password).value
      ensures DecryptedTriple(suite, disk, password).Failure? ==>
                err == Some(DecryptedTriple(suite, disk, password).error) && secrets == old(secrets)
    {
      if disk.None? {
        return Some(ReadError);
      }
      var encryptedData := disk.value;
      if |encryptedData| < SaltLength + NonceLength {
        return Some(TooShort);
      }
      var salt := encryptedData[..SaltLength];
      var nonce := encryptedData[SaltLength..SaltLength + NonceLength];
      var ciphertext := encryptedData[SaltLength + NonceLength..];
      var key := suite.deriveKey(password, salt);
      if !CipherAccepts(key) {
        return Some(CipherError);
      }
      var plaintext := suite.open(key, nonce, ciphertext);
      if plaintext.None? {
        return Some(AuthenticationError);
      }
      var decoded := suite.decode(plaintext.value);
      if decoded.None? {
        return Some(DecodeError);
      }
      secrets := decoded.value;
      return None;
    }

    /** Encrypts the triple under `password` and writes salt, nonce and
        ciphertext to the file. `salt` and `nonce` are what crypto/rand drew
        (None when it failed); `writeOk` says whether the write succeeds. The
        triple is never changed, and a failed write leaves the file as it was. */
    method EncryptToDisk(password: Bytes, salt: Option<Bytes>, nonce: Option<Bytes>, writeOk: bool) returns (err: Option<VaultError>)
      requires salt.Some? ==> |salt.value| == SaltLength
      requires nonce.Some? ==> |nonce.value| == NonceLength
      modifies this`disk
      ensures secrets == old(secrets)
      ensures var r := EncryptedFile(suite, secrets, password, salt, nonce);
              && (r.Success? && writeOk ==> err == None && disk == Some(r.value))
              && (r.Success? && !writeOk ==> err == Some(WriteError) && disk == old(disk))
              && (r.Failure? ==> err == Some(r.error) && disk == old(disk))
    {
      var encoded := suite.encode(secrets);
      if encoded.None? {
        return Some(EncodeError);
      }
      var plaintext := encoded.value;
      if salt.None? {
        return Some(RandomError);
      }
      var key := suite.deriveKey(password, salt.value);
      if !CipherAccepts(key) {
        return Some(CipherError);
      }
      if nonce.None? {
        return Some(RandomError);
      }
      var ciphertext := suite.seal(key, nonce.value, plaintext);
      var output := salt.value + nonce.value;
      output := output + ciphertext;
      if !writeOk {
        return Some(WriteError);
      }
      disk := Some(output);
      return None;
    }
  }

  /** What SetSecrets stores, GetSecrets returns, in the same order. */
  method SetThenGet(sc: SecretsCollection, integrationCode: string, secret: string, username: string)
    returns (ic: string, s: string, u: string)
    modifies sc`secrets
    ensures ic == integrationCode && s == secret && u == username
  {
    sc.SetSecrets(integrationCode, secret, username);
    ic, s, u := sc.GetSecrets();
  }

  /** Writing the vault file and then unlocking it with the same password
      restores the triple that was in memory. */
  method EncryptThenDecrypt(sc: SecretsCollection, password: Bytes, salt: Bytes, nonce: Bytes)
    returns (saveErr: Option<VaultError>, loadErr: Option<VaultError>)
    requires Sound(sc.suite) && sc.suite.encode(sc.secrets).Some?
    requires |salt| == SaltLength && |nonce| == NonceLength
    modifies sc
    ensures saveErr == None && loadErr == None && sc.secrets == old(sc.secrets)
  {
    EncryptSucceeds(sc.suite, sc.secrets, password, salt, nonce);
    saveErr := sc.EncryptToDisk(password, Some(salt), Some(nonce), true);
    DecryptAfterEncrypt(sc.suite, sc.secrets, password, salt, nonce);
    loadErr := sc.DecryptSecrets(password, 1024);
  }
}
