/** The credential cipher that protects stored relay passwords.

    The symmetric cipher itself (Fernet) is not modelled: a token records the
    key it was made with and the text it protects, so that the only properties
    the rest of the model can rely on are the ones the cipher promises —
    decrypting with the same key gives the text back, and anything else
    (another key, a corrupted token, no token at all) fails instead of
    returning some other text. */
module Cipher {
  import opened Wrappers

  /** Identity of the process-wide key loaded from the environment at start-up. */
  type Key = nat

  /** An encrypted password as stored in the `smtp_password` column. */
  datatype Token =
    | Sealed(key: Key, plaintext: string)
    | Garbled(bytes: seq<int>)

  /** Why decryption failed: the token does not authenticate under the key,
      or there was no token (the column is NULL). */
  datatype CipherError = InvalidToken | NotAToken

  function Encrypt(key: Key, text: string): Token {
    Sealed(key, text)
  }

  function Decrypt(key: Key, token: Option<Token>): Result<string, CipherError> {
    match token
    case None => Failure(NotAToken)
    case Some(Sealed(k, text)) => if k == key then Success(text) else Failure(InvalidToken)
    case Some(Garbled(_)) => Failure(InvalidToken)
  }

  /** The text of the exception the cipher raises, as `str(e)` renders it:
      an invalid token carries no message; a missing token is a type error
      whose wording belongs to the cipher library. */
  function ErrorText(e: CipherError): string {
    match e
    case InvalidToken => ""
    case NotAToken => "token must be bytes or str"
  }

  /** Decryption succeeds with `text` exactly when the token is the encryption
      of `text` under the same key: a round trip, and no corrupted plaintext. */
  lemma DecryptIff(key: Key, token: Option<Token>, text: string)
    ensures Decrypt(key, token) == Success(text) <==> token == Some(Encrypt(key, text))
  {
  }

  /** A token made under one key never decrypts under another. */
  lemma WrongKeyFails(made: Key, used: Key, text: string)
    requires made != used
    ensures Decrypt(used, Some(Encrypt(made, text))) == Failure(InvalidToken)
  {
  }
}
