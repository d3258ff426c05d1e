# Gorjun client login, modelled in Dafny

This project models the client side of the challenge-response login of
libgorjun, a Go client for the Gorjun file repository. A `GorjunServer`
record holds the user's name, email and passphrase, the server's host name,
the OpenPGP key directory, and the session's challenge code (`TokenCode`)
and token (`Token`). `AuthenticateUser` fills in the identity and then runs
three steps. It fetches a challenge code for the user. It signs that code
with the private key whose identity carries the user's email. It posts the
code and the signature, framed as an OpenPGP cleartext-signed message, and
keeps the answer as the token when it is exactly 64 bytes long. Any other
answer is the server's reason for refusing.

Modules:

- `Wrappers` (wrappers.dfy): `Option` and `Result`.
- `Keyring` (keyring.dfy): entities and identities, the first-match lookup
  by email (`getKeyByEmail`, with its nested loop), a stand-in for the
  private key's passphrase decrypt, and the key directory as a map from
  paths to keyring files, with `os.Open` and `openpgp.ReadKeyRing` over it.
- `Envelope` (envelope.dfy): the signed message of the third step, and a
  parser that gets the challenge code and signature back from it.
- `Gorjun` (auth.dfy): the error texts; the HTTP responses; `SignOutcome`,
  the function that specifies `SignToken`; and the class `GorjunServer`
  with `AuthenticateUser`, `GetAuthTokenCode`, `SignToken` and
  `GetActiveToken`, each of which updates the record's fields as the Go
  code does.

Outside inputs are parameters, gathered in `Gorjun.Env`. They are `$HOME`,
the GET and POST calls (functions from URL, and form, to a `Response`), the
key directory's files (`Keyring.Disk`), and the signing library (a `Signer`:
an entity and a text give a signature or an error text). A Go string is a
byte sequence. It is modelled as a Dafny `string` with one character per
byte, so Go's `len` is `|s|`.

Three behaviours of the code are kept as they are written:

- The comment at auth.go:104-105 names `pubring.kbx` as the public-key
  layout of GnuPG 2.1 and later. The code checks for `pubring.gpg`, and
  then for `pubring.kbx`. But it always opens `pubring.gpg` (auth.go:113).
  So a directory that holds only `pubring.kbx` always fails, with the
  "Failed to open public keyring file" error. `SignOutcome`'s third
  `ensures` states this.
- The error of the passphrase decrypt is discarded (auth.go:141). A wrong
  passphrase just hands the still-locked key to the signer
  (`PassphraseOnlyUnlocks`).
- The test at auth_test.go:17 expects a challenge code of length 32. But
  auth.go:57 keeps the raw body without checking its length, and so does
  the model (`ChallengeResult`).

## Model

| member | source | states |
|---|---|---|
| `Keyring.KeyByEmail` | auth.go:88-97 | a found entity is in the ring and has an identity with exactly that email; nothing is found exactly when no entity of the ring has such an identity |
| `Keyring.KeyByEmailFindsFirstMatch` | auth.go:88-97 | when entity k is the first with a matching identity, the lookup returns entity k |
| `Keyring.KeyByEmailIsFirstMatch` | auth.go:88-97 | whatever the lookup returns is the first entity, in ring order, with a matching identity |
| `Keyring.GetKeyByEmail` | auth.go:88-97 | the nested loop with early return gives the first entity with a matching identity, and nil exactly when there is none |
| `Keyring.Decrypt` | auth.go:140-142 | the decrypt succeeds exactly when the key is unlocked or the passphrase is its own; the key ends up locked exactly when the decrypt fails |
| `Keyring.Open` | auth.go:113-116 | opening succeeds exactly for an existing, openable file; a missing path fails with the "no such file or directory" text for that path |
| `Keyring.ReadKeyRing` | auth.go:118-121 | reading succeeds exactly on a file that holds a keyring, and gives its entities |
| `Envelope.SignedMessage` | auth.go:64 | the message starts with the signed-message header and the SHA256 hash line, holds the challenge code verbatim then a newline, then the signature, and ends with a newline |
| `Envelope.ParseSignedMessage` | auth.go:64 | the receiving side's inverse of the framing built at this line (not code of the client): whatever the parser recovers is a challenge code without line breaks and a signature that rebuild exactly the parsed message |
| `Envelope.SignedMessageRoundTrip` | auth.go:64 | the challenge code (without line breaks) and the signature are recovered exactly from the message built from them |
| `Gorjun.Message` | auth.go:50-146 | the rejection error ends with the server's answer word for word; the missing-keyring and missing-directory errors have their fixed texts |
| `Gorjun.TokenUrl` | auth.go:70 | the token URL is "https://", the host verbatim, then "/kurjun/rest/auth/token" |
| `Gorjun.ChallengeUrl` | auth.go:48 | the challenge URL is the token URL followed by "?user=" and the user name, unescaped |
| `Gorjun.PubringPath` | auth.go:106 | the directory verbatim followed by "/pubring.gpg" (also the file opened at auth.go:113) |
| `Gorjun.KeyboxPath` | auth.go:108 | the directory verbatim followed by "/pubring.kbx" |
| `Gorjun.SecringPath` | auth.go:127 | the directory verbatim followed by "/secring.gpg" |
| `Gorjun.KeyringPathsDistinct` | auth.go:106-127 | the three keyring paths of one directory are pairwise different |
| `Gorjun.DefaultDirectory` | auth.go:25-29 | the key directory is gpgdir when it is non-empty, else $HOME + "/.gnupg", and so is never empty |
| `Gorjun.ChallengeResult` | auth.go:48-58 | any response body, of any length, is taken as the challenge code; a failed request or body read gives its own error |
| `Gorjun.TokenResult` | auth.go:70-85 | the answer is the token exactly when it is a body of 64 bytes; any other body is a rejection carrying that body; a failed request or read gives its own error |
| `Gorjun.StoredToken` | auth.go:79-82 | after a body is read, Token is non-empty exactly when the body is 64 bytes long, and is then that body; with no body read, Token keeps its old value; a successful exchange's token is what is stored |
| `Gorjun.SigningKey` | auth.go:140-142 | the signer's entity keeps its identities and has a private key exactly when the stored one does; an empty passphrase leaves it as stored; the key is still locked exactly when it was locked and the passphrase is empty or not its own |
| `Gorjun.SignOutcome` | auth.go:100-149 | an empty directory fails first; with neither pubring.gpg nor pubring.kbx the search fails with KeyringNotFound; with only pubring.kbx the open of pubring.gpg fails; a signature comes back only when both rings parse, both have a key for the email, and the signer signed with the private one |
| `Gorjun.PublicKeyCheckedFirst` | auth.go:122-125 | a public ring with no key for the email gives "public key not found", whatever the private ring and the signer hold |
| `Gorjun.PrivateKeyCheckedBeforeSigning` | auth.go:127-139 | with the public key found, a private ring with no key for the email gives "private key not found", whatever the signer would do |
| `Gorjun.PassphraseOnlyUnlocks` | auth.go:140-147 | the signer gets the private key as stored when the passphrase is empty or wrong, and unlocked when it is right; a failed decrypt is never reported as an error |
| `Gorjun.RingFailuresReported` | auth.go:113-134 | an unopenable or unparsable pubring.gpg gives its open or read error; with the public key found, a missing, unopenable or unparsable secring.gpg gives the private ring's open or read error |
| `Gorjun.NilPrivateKeyWithPassphrase` | auth.go:136-142 | with both keys found, a private-ring entity without a private key and a non-empty passphrase ends in NilPrivateKey, where Go panics, before any signing |
| `Gorjun.HandshakeHasDirectory` | auth.go:25-34 | signing with the directory AuthenticateUser picked never fails for lack of a directory |
| `Gorjun.GorjunServer.constructor` | gorjun.go:16-24 | a fresh record has every field empty except the host name |
| `Gorjun.GorjunServer.GetAuthTokenCode` | auth.go:47-59 | on success TokenCode is the raw body, whatever its length; on failure TokenCode is unchanged and the error is returned; no other field changes |
| `Gorjun.GorjunServer.SignToken` | auth.go:100-149 | the imperative lookup (path reassignment, early returns, the nested-loop search, the dropped decrypt error) returns exactly SignOutcome of the record's directory, email and passphrase |
| `Gorjun.GorjunServer.GetActiveToken` | auth.go:63-86 | the framed message and Username are posted to the token URL; a 64-byte body becomes Token with no error; any other body clears Token and is returned as the reason; a failed request leaves Token alone; only Token changes |
| `Gorjun.GorjunServer.AuthenticateUser` | auth.go:21-43 | Username, Email and Passphrase are set and the directory defaulted before any step; the steps run in order, and the first error is returned with later steps' fields untouched; on success Token is 64 bytes long |

## Left out

- HTTP requests, reading a response body, and form URL-encoding are not
  modelled. The GET and POST are functions from URL (and form) to a
  response, and the form is a record of its two fields.
- The real filesystem is not modelled; `os.Stat` and `os.Open` work on the
  `Disk` map instead. A file exists when its path is in the map, and opening fails for an `Unopenable` file. A `Stat`
  error other than "does not exist" is not modelled.
- The OpenPGP library's keyring parsing, decrypt and signing are not
  modelled.
  `ReadKeyRing` gives the entities the file holds. `Decrypt` is a stand-in:
  the key is either locked or not, and it records the one passphrase that
  unlocks it. Signing is the `Signer` oracle, which is given the entity
  after the decrypt attempt.
- `decodePrivateKey` (auth.go:151-178) is not modelled. It is armor and
  packet parsing done by the library, and the handshake never calls it.
- An entity's identities are a Go map, so Go visits them in no fixed
  order. The model keeps them in a sequence. The order does not change the
  result, because the lookup returns the entity.
- A nil private key with a non-empty passphrase makes Go panic at the
  decrypt (auth.go:141). The model returns the `NilPrivateKey` error
  instead (`NilPrivateKeyWithPassphrase`).
- `defer Close` on the keyring files is not modelled: file handles are not
  modelled.
- The file operations in gorjun.go (list, lookup, upload, remove, and the
  download functions that do nothing) are not modelled. They are thin
  wrappers over HTTP, JSON and multipart encoding. Only the `GorjunServer`
  fields are used.
- Dash-escaping of the cleartext (section 7.1 of RFC 4880) is not done,
  because the code does not do it. A challenge code that contains a line
  break does not round-trip through the signed message. The code keeps the
  server's body as it is (auth.go:57), so a trailing newline from the
  server would be kept in the code.
