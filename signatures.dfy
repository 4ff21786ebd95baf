/** The signature store: identity-keyed public and private keys loaded from the token
    directory, a sign gate and a verify gate. */
module Security {
  import opened Wrappers
  import opened OpenSsl
  import opened TokenNames
  import opened KeyLoading

  /** The errors the gates throw. */
  datatype SecurityError =
    | Unauthorized       // "unauthorized user"
    | InvalidSignature   // "invalid signature"

  class Signatures {
    /** The cryptographic library the store calls. */
    const crypto: Crypto
    var publicKeys: map<string, Key>
    var privateKeys: map<string, Key>

    /** The member initialisers: both maps start empty. */
    constructor (crypto: Crypto)
      ensures this.crypto == crypto && publicKeys == map[] && privateKeys == map[]
    {
      this.crypto := crypto;
      publicKeys, privateKeys := map[], map[];
    }

    function Keys(): KeyMaps
      reads this
    {
      KeyMaps(publicKeys, privateKeys)
    }

    /** One turn of the loading loop: a non-regular file is filtered out, an unreadable
        one skipped, a name without a `.` aborts construction, and a parsed key of a
        known type is inserted without replacing an existing binding. */
    method LoadEntry(e: Entry) returns (failed: Option<LoadError>)
      modifies this
      ensures match Step(old(Keys()), e, crypto)
              case Failure(err) => failed == Some(err) && Keys() == old(Keys())
              case Success(next) => failed == None && Keys() == next
    {
      if !e.isRegular || !e.readable {
        return None;
      }
      var split := SplitName(e.name);
      if split.None? {
        return Some(NameWithoutType(e.name));
      }
      var identity, keyType := split.value.identity, split.value.keyType;
      if keyType == ".public" {
        var key := crypto.readPublicKey(e.contents);
        if key.Some? && identity !in publicKeys {
          publicKeys := publicKeys[identity := key.value];
        }
      } else if keyType == ".private" {
        var key := crypto.readPrivateKey(e.contents);
        if key.Some? && identity !in privateKeys {
          privateKeys := privateKeys[identity := key.value];
        }
      }
      return None;
    }

    /** Signs `message` with the private key of `token`; refuses a token without one. */
    method Sign(message: Bytes, token: string) returns (r: Result<Bytes, SecurityError>)
      ensures r.Failure? <==> token !in privateKeys
      ensures r.Failure? ==> r.error == Unauthorized
      ensures r.Success? ==> r.value == crypto.sign(privateKeys[token], message)
    {
      if token !in privateKeys {
        return Failure(Unauthorized);
      }
      var key := privateKeys[token];
      var signature := crypto.sign(key, message);
      return Success(signature);
    }

    /** Checks `signature` over `message` against the public key of `token`, as the
        source does: a token without a public key is refused, and only a result
        code of 0 from the library counts as a bad signature. */
    method VerifyAsWritten(message: Bytes, signature: Bytes, token: string) returns (r: Result<(), SecurityError>)
      ensures r.Failure? ==> token !in publicKeys || r.error == InvalidSignature
      ensures token !in publicKeys ==> r == Failure(Unauthorized)
      ensures token in publicKeys ==>
                (r.Success? <==> AcceptedAsWritten(crypto.verify(publicKeys[token], message, signature)))
    {
      if token !in publicKeys {
        return Failure(Unauthorized);
      }
      var code := crypto.verify(publicKeys[token], message, signature);
      if code == 0 {
        return Failure(InvalidSignature);
      }
      return Success(());
    }

    /** The verify gate with the library's result code read as intended: a token without
        a public key is refused, and the call returns normally only when the library
        confirms the signature. */
    method Verify(message: Bytes, signature: Bytes, token: string) returns (r: Result<(), SecurityError>)
      ensures r.Failure? ==> token !in publicKeys || r.error == InvalidSignature
      ensures token !in publicKeys ==> r == Failure(Unauthorized)
      ensures r.Success? <==> token in publicKeys && crypto.verify(publicKeys[token], message, signature) == 1
    {
      if token !in publicKeys {
        return Failure(Unauthorized);
      }
      var code := crypto.verify(publicKeys[token], message, signature);
      if !Accepted(code) {
        return Failure(InvalidSignature);
      }
      return Success(());
    }
  }

  /** Construction of the store: check the token directory `<storage>.tokens`, creating
      it when missing, then walk its regular files and load every key that parses.
      Construction either yields a store whose maps are what Load computes, or fails
      with Load's error. */
  method Open(storage: string, dir: TokenDir, crypto: Crypto) returns (r: Result<Signatures, LoadError>)
    ensures r.Success? <==> Load(storage, dir, crypto).Success?
    ensures r.Failure? ==> r.error == Load(storage, dir, crypto).error
    ensures r.Success? ==> fresh(r.value) && r.value.crypto == crypto
    ensures r.Success? ==> r.value.Keys() == Load(storage, dir, crypto).value
  {
    var store := new Signatures(crypto);
    var path := TokensPath(storage);
    var entries: seq<Entry>;
    match dir {
      case Missing(creatable) =>
        if !creatable {
          return Failure(CannotCreate(path));
        }
        entries := [];
      case NotDirectory =>
        return Failure(NotADirectory(path));
      case Directory(es) =>
        entries := es;
    }
    assert Load(storage, dir, crypto) == ScanFrom(NoKeys, entries, crypto);

    var i := 0;
    while i < |entries|
      invariant 0 <= i <= |entries|
      invariant ScanFrom(store.Keys(), entries[i..], crypto) == ScanFrom(NoKeys, entries, crypto)
    {
      ScanAt(store.Keys(), entries, i, crypto);
      var failed := store.LoadEntry(entries[i]);
      if failed.Some? {
        return Failure(failed.value);
      }
      i := i + 1;
    }
    return Success(store);
  }
}
