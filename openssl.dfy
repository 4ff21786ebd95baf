/** The cryptographic library as the signature store sees it: PEM key readers and
    SHA-1 sign/verify primitives whose internals are not modelled. */
module OpenSsl {
  import opened Wrappers

  newtype byte = x: int | 0 <= x < 256

  /** Raw octets: file contents, messages and signatures. */
  type Bytes = seq<byte>

  /** An opaque key handle (an `EVP_PKEY*` in the source); public and private keys share it. */
  datatype Key = Key(handle: nat)

  /** The two kinds of credential file the store understands. */
  datatype KeyKind = Public | Private

  /** The library's behaviour, given as total functions the model never looks inside.
      `readPublicKey` and `readPrivateKey` stand for PEM_read_bio_PUBKEY and
      PEM_read_bio_PrivateKey (None is a NULL result); `sign` for the
      EVP_SignInit/Update/Final sequence over SHA-1; `verify` for
      EVP_VerifyInit/Update/Final, whose result code is 1 for a good signature,
      0 for a bad one and -1 when some other error occurred. */
  datatype Crypto = Crypto(
    readPublicKey: Bytes -> Option<Key>,
    readPrivateKey: Bytes -> Option<Key>,
    sign: (Key, Bytes) -> Bytes,
    verify: (Key, Bytes, Bytes) -> int)
  {
    /** The PEM reader used for a file of the given kind. */
    function ReadKey(kind: KeyKind, pem: Bytes): Option<Key> {
      match kind
      case Public => readPublicKey(pem)
      case Private => readPrivateKey(pem)
    }
  }

  /** The verify gate's test as the source writes it: `!EVP_VerifyFinal(...)` rejects
      only the result code 0. */
  predicate AcceptedAsWritten(code: int) {
    code != 0
  }

  /** The intended test: only the code 1 means the signature checked out. */
  predicate Accepted(code: int) {
    code == 1
  }

  /** The as-written test lets the library's error code -1 through as a good signature. */
  lemma ErrorCodeAcceptedAsWritten()
    ensures AcceptedAsWritten(-1) && !Accepted(-1)
  {
  }

  /** The corrected test is stricter, and the two agree on the library's codes 0 and 1. */
  lemma AcceptedRefinesAsWritten(code: int)
    ensures Accepted(code) ==> AcceptedAsWritten(code)
    ensures code == 0 || code == 1 ==> (Accepted(code) <==> AcceptedAsWritten(code))
  {
  }
}
