# Signature store of cocaine-core, modelled in Dafny

This project models the signature store (`signatures_t`) of the cocaine-core engine.
The store holds identity-keyed public and private keys and signs and verifies messages
with them. At construction it checks the token directory `<storage path>.tokens`,
creating it when it is missing. It then walks the directory's regular files. A file
named `<identity>.public` or `<identity>.private` whose contents parse as a PEM key is
bound to `<identity>` in the public or private map. `sign` refuses a token without a
private key. `verify` refuses a token without a public key and throws "invalid
signature" when the library's result code is 0 (see Findings).

Modules, one concern each:

- `Wrappers` (wrappers.dfy): `Option` and `Result`. They stand for a NULL key and for a thrown exception.
- `OpenSsl` (openssl.dfy): the cryptographic library as a record of total functions the
  model never looks inside (PEM readers, SHA-1 sign and verify). Also the two readings of
  the verify result code.
- `TokenNames` (token_names.dfy): splitting a file name at its last `.`.
- `KeyLoading` (key_loading.dfy): the directory as a sequence of entry records, one turn
  of the loading loop (`Step`), the loop (`ScanFrom`) and the whole load (`Load`). It also
  holds reference definitions stated entry by entry (`FirstKey`, `FirstUntyped`) and the
  lemmas that connect them.
- `Security` (signatures.dfy): the class `Signatures` with its two maps and its gates, and
  `Open`, the constructor. `Open` runs the loading loop on a fresh store, one in-place
  `LoadEntry` turn per entry, and is proved equal to `Load`.

The model follows the explicit string split of the branch compiled when
`BOOST_FILESYSTEM_VERSION` is not 3 (src/security.cpp:60-62). In that branch, a regular, readable file
whose name has no `.` makes `substr(npos)` throw `out_of_range`. That exception ends
construction of the whole store, although files of an unknown type are only warned
about and skipped (lines 87-88). The model reports it as `NameWithoutType`. No
sign/verify round trip is claimed: the library's primitives are uninterpreted, and
nothing in the source ties `verify` to `sign`.

`Directory` does not require distinct names, so "the first file wins" is proved for any
entry sequence. For a real directory, whose names are distinct, `SupplierUnique` shows at
most one file can supply an identity of a given kind. So `insert` never meets a bound
identity during construction.

## Model

| member | source | states |
|---|---|---|
| `TokenNames.LastIndexOf` | src/security.cpp:61-62 | `find_last_of(".")`: none exactly when the character is absent; otherwise an index holding it with no occurrence after it |
| `TokenNames.SplitName` | src/security.cpp:60-62 | no split exactly when the name has no `.`; otherwise identity ++ type == name, and the type starts with the name's last `.` and has no other `.` |
| `TokenNames.SplitNameUnique` | src/security.cpp:60-62 | any cut of a name into a prefix and a suffix that starts at its last `.` is the split, so SplitName's contract determines it |
| `TokenNames.SplitNameKeepsInnerDots` | src/security.cpp:60-62 | `a.b.public` splits into identity `a.b` and type `.public` |
| `KeyLoading.KindOf` | src/security.cpp:69-89 | a type names the public kind exactly when it is `.public` and the private kind exactly when it is `.private`; every other type names none |
| `KeyLoading.Bind` | src/security.cpp:76-85 | `std::map::insert` adds the identity, keeps every existing binding and never replaces the one already there |
| `KeyLoading.StepEffect` | src/security.cpp:45-94 | after one turn an identity keeps its old binding; if it had none, it is bound only when the entry is a regular, readable `<id>.<kind>` file whose contents parse. Unreadable, non-regular, unknown-type and unparseable files change nothing |
| `KeyLoading.Step` | src/security.cpp:46-93 | one turn fails exactly on a regular, readable file without a `.`, and the error records that file (the source's exception names none; see Left out); what a successful turn binds is stated by `StepEffect` and `StepGrowsAtMostOne` |
| `KeyLoading.ScanFrom` | src/security.cpp:45-94 | a successful loop keeps every binding made before it; where it fails is stated by `ScanFailsAtFirstUntyped`, what it binds by `ScanKeepsFirstKey` |
| `KeyLoading.Load` | src/security.cpp:23-97 | fails exactly when the path is not a directory, cannot be created, or holds a regular, readable file without a `.`; a created directory yields no keys. Errors and bindings are stated by `LoadOutcome` and `LoadBindsFirstKey` |
| `KeyLoading.StepGrowsAtMostOne` | src/security.cpp:45-94 | each turn keeps every binding, changes at most one map and adds at most one binding in total |
| `KeyLoading.ScanFailsAtFirstUntyped` | src/security.cpp:45-94 | the loop fails exactly when some visited regular, readable file has no `.`, and the error records the first such file, where the loop stopped |
| `KeyLoading.FirstKeyIsFirstSupplier` | src/security.cpp:69-86 | the reference key for an identity exists exactly when some entry supplies one; it comes from such an entry, and no earlier entry supplies that identity |
| `KeyLoading.SupplierUnique` | src/security.cpp:60-86 | in a directory with distinct names, at most one entry supplies a given identity and kind, because its name must be `<identity>.public` or `<identity>.private` |
| `KeyLoading.ScanKeepsFirstKey` | src/security.cpp:45-94 | after a successful loop each identity keeps its earlier binding, or else is bound to the key of the first file that supplies it |
| `KeyLoading.LoadBindsFirstKey` | src/security.cpp:23-97 | a successful load binds, in each map, exactly the identities some regular, readable, parseable file of that type supplies, each to the first such file's key |
| `KeyLoading.LoadOutcome` | src/security.cpp:30-45 | a path that is not a directory fails with "is not a directory"; a missing one that cannot be created fails with "cannot create"; a created one gives empty maps; otherwise the load fails exactly at the first untyped file |
| `Security.Signatures.constructor` | src/security.cpp:23-24 | a new store has empty public and private maps |
| `Security.Signatures.LoadEntry` | src/security.cpp:46-93 | one turn in place on the store's maps: it fails exactly as `Step` does, and otherwise leaves the maps as `Step` computes them |
| `Security.Open` | src/security.cpp:23-97 | construction in place on a fresh store succeeds exactly when `Load` does, with `Load`'s maps, and otherwise fails with `Load`'s error |
| `Security.Signatures.Sign` | src/security.cpp:112-129 | fails with "unauthorized user" exactly when the token has no private key; otherwise returns the library's signature of the message under that key; the maps are unchanged |
| `Security.Signatures.VerifyAsWritten` | src/security.cpp:131-153 | "unauthorized user" exactly when the token has no public key; otherwise success exactly when the library's result code is not 0; the maps are unchanged |
| `Security.Signatures.Verify` | src/security.cpp:131-153 | "unauthorized user" exactly when the token has no public key; success exactly when a public key exists and the library returns 1; every other outcome is "invalid signature" |
| `OpenSsl.ErrorCodeAcceptedAsWritten` | src/security.cpp:147 | the as-written test accepts the library's error code -1, which the intended test rejects |
| `OpenSsl.AcceptedRefinesAsWritten` | src/security.cpp:147-150 | the intended test accepts only what the as-written one accepts, and the two agree on the codes 0 and 1 |

## Left out

- OpenSSL is a record of uninterpreted total functions (`OpenSsl.Crypto`). PEM decoding, the SHA-1 digest, `EVP_PKEY_size`, error strings and the memory BIO are not modelled.
- KeyLoading.Step: the name carried by `NameWithoutType` only records the file where the loop stopped. The source throws `std::out_of_range` from `substr` (src/security.cpp:62). Its message names no file, and it is a `std::logic_error`, not the `std::runtime_error` thrown at lines 36 and 39, so a handler for `std::runtime_error` does not catch it.
- KeyLoading.Step: the PEM readers are modelled as reading the file's contents. In the source (src/security.cpp:67) the memory BIO points into the temporary string returned by `contents.str()`, which is destroyed at the end of that statement, so the readers at lines 70 and 79 read freed memory (undefined behaviour). The model does not capture that.
- Security.Signatures.Sign: signing is a function of key and message, so the model treats it as deterministic. That holds for RSA PKCS#1 v1.5 keys but not for DSA or ECDSA keys, which `PEM_read_bio_PrivateKey` also accepts.
- Security.Signatures.Sign: the source ignores the return code of `EVP_SignFinal`. The model folds success and failure of the primitive into one opaque signature value.
- The shared digest context `m_context` is not modelled, and neither are its reuse across calls, its creation and destruction, or thread safety. The source has no locking.
- The destructor's freeing of key handles is not modelled. Neither is the handle leaked when `insert` finds the identity already bound. Within one directory that case cannot arise (see `SupplierUnique`).
- All syslog output is left out, including the count of loaded public keys.
- The filesystem is an input value (`KeyLoading.TokenDir`): `exists`, `is_directory`, `create_directories`, `directory_iterator`, `is_regular` and `ifstream` become fields of entry records. Errors raised by the directory iterator itself are not modelled.
- A directory that had to be created is taken to be empty. A concurrent writer could change that, and races are out of scope.
- The configured storage path (`config_t::get().paths.storage`) is a parameter of `Open`.
- The `BOOST_FILESYSTEM_VERSION == 3` branch (`basename`/`extension`) is not modelled. Its edge cases live in the filesystem library; the model follows the explicit string split. In that branch `fs::extension` gives an empty type for a name without a `.`, so such a file is skipped as an unknown type instead of aborting construction.
- No sign/verify round trip is claimed, because it depends on the library's internals.
- src/main.cpp (option parsing, daemonisation, pidfile) and the tools/ network clients are not part of this model. Neither is the dispatch, topology and cache engine, whose source is not part of this model either.

## Findings

| source | as written | input that shows it | evidently intended | confidence | as-written member | corrected member |
|---|---|---|---|---|---|---|
| src/security.cpp:147 | `if(!EVP_VerifyFinal(...))` throws "invalid signature" only when the result code is 0 | `EVP_VerifyFinal` returns -1 (an error other than a mismatch); `verify` returns normally and the signature is treated as valid | accept only when the result code is 1 | medium, not executed | `Security.Signatures.VerifyAsWritten` | `Security.Signatures.Verify` |
