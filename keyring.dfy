/** OpenPGP key material as the login handshake sees it: entities bound to
    identity emails, the private half of an entity and whether it is locked,
    and the local key directory as a map from file paths to keyring files. */
module Keyring {
  import opened Wrappers

  /** One user id bound to an entity; only its email takes part in lookup. */
  datatype Identity = Identity(name: string, email: string)

  /** The private half of an entity. `encrypted` says whether the signing
      material is still locked; `unlockedBy` stands for the passphrase that
      unlocks it. */
  datatype PrivateKey = PrivateKey(encrypted: bool, unlockedBy: string)

  /** A key entity: its identities and, when the ring holds one, its private key. */
  datatype Entity = Entity(identities: seq<Identity>, privateKey: Option<PrivateKey>)

  /** An entity list in the order the keyring file holds it. */
  type KeyRing = seq<Entity>

  /** Some identity of `e` carries exactly `email`. */
  predicate HasEmail(e: Entity, email: string) {
    exists n :: 0 <= n < |e.identities| && e.identities[n].email == email
  }

  /** `ring[k]` carries `email` and no earlier entity does. */
  predicate IsFirstMatch(ring: KeyRing, email: string, k: int) {
    0 <= k < |ring| && HasEmail(ring[k], email) &&
    forall j :: 0 <= j < k ==> !HasEmail(ring[j], email)
  }

  /** The first entity of `ring` carrying `email`, if any. */
  function KeyByEmail(ring: KeyRing, email: string): (r: Option<Entity>)
    ensures r.Some? ==> r.value in ring && HasEmail(r.value, email)
    ensures r.None? <==> forall k :: 0 <= k < |ring| ==> !HasEmail(ring[k], email)
  {
    if ring == [] then None
    else if HasEmail(ring[0], email) then Some(ring[0])
    else
      var r := KeyByEmail(ring[1..], email);
      assert forall k :: 1 <= k < |ring| ==> ring[k] == ring[1..][k - 1];
      r
  }

  /** The first matching entity is the one found. */
  lemma {:induction false} KeyByEmailFindsFirstMatch(ring: KeyRing, email: string, k: int)
    requires IsFirstMatch(ring, email, k)
    ensures KeyByEmail(ring, email) == Some(ring[k])
  {
    if k > 0 {
      assert !HasEmail(ring[0], email);
      assert IsFirstMatch(ring[1..], email, k - 1) by {
        forall j | 0 <= j < k - 1 ensures !HasEmail(ring[1..][j], email) {
          assert ring[1..][j] == ring[j + 1];
        }
      }
      KeyByEmailFindsFirstMatch(ring[1..], email, k - 1);
    }
  }

  /** Whatever is found is the first matching entity. */
  lemma {:induction false} KeyByEmailIsFirstMatch(ring: KeyRing, email: string)
    requires KeyByEmail(ring, email).Some?
    ensures exists k :: IsFirstMatch(ring, email, k) && ring[k] == KeyByEmail(ring, email).value
  {
    if HasEmail(ring[0], email) {
      assert IsFirstMatch(ring, email, 0);
    } else {
      KeyByEmailIsFirstMatch(ring[1..], email);
      var k :| IsFirstMatch(ring[1..], email, k) && ring[1..][k] == KeyByEmail(ring[1..], email).value;
      forall j | 0 <= j < k + 1 ensures !HasEmail(ring[j], email) {
        if j > 0 { assert ring[j] == ring[1..][j - 1]; }
      }
      assert IsFirstMatch(ring, email, k + 1);
    }
  }

  /** getKeyByEmail: scan the ring in order and, inside each entity, its
      identities; return the first entity holding an identity with `email`. */
  method GetKeyByEmail(keyring: KeyRing, email: string) returns (r: Option<Entity>)
    ensures r == KeyByEmail(keyring, email)
    ensures r.Some? ==> exists k :: IsFirstMatch(keyring, email, k) && keyring[k] == r.value
    ensures r.None? <==> forall k :: 0 <= k < |keyring| ==> !HasEmail(keyring[k], email)
  {
    var i := 0;
    while i < |keyring|
      invariant 0 <= i <= |keyring|
      invariant forall j :: 0 <= j < i ==> !HasEmail(keyring[j], email)
    {
      var entity := keyring[i];
      var n := 0;
      while n < |entity.identities|
        invariant 0 <= n <= |entity.identities|
        invariant forall m :: 0 <= m < n ==> entity.identities[m].email != email
      {
        if entity.identities[n].email == email {
          assert IsFirstMatch(keyring, email, i);
          KeyByEmailFindsFirstMatch(keyring, email, i);
          return Some(entity);
        }
        n := n + 1;
      }
      i := i + 1;
    }
    return None;
  }

  /** PrivateKey.Decrypt: an unlocked key is left as it is and succeeds; a
      locked one is unlocked by its passphrase, and any other passphrase
      leaves it locked and yields an error. */
  function Decrypt(key: PrivateKey, passphrase: string): (r: (PrivateKey, Option<string>))
    ensures r.1.None? <==> !key.encrypted || passphrase == key.unlockedBy
    ensures r.0.encrypted <==> r.1.Some?
    ensures r.0.unlockedBy == key.unlockedBy
  {
    if !key.encrypted then (key, None)
    else if passphrase == key.unlockedBy then (key.(encrypted := false), None)
    else (key, Some("openpgp: invalid data: private key checksum failure"))
  }

  /** A file in the key directory: it cannot be opened, it opens but does
      not parse as a keyring, or it holds an entity list. */
  datatype KeyFile = Unopenable(reason: string) | Unparsable(reason: string) | Ring(entities: KeyRing)

  /** The key directory: the files that exist, by full path. */
  type Disk = map<string, KeyFile>

  /** os.Stat reports the path as existing. */
  predicate FileExists(disk: Disk, path: string) {
    path in disk
  }

  /** The text of the error os.Open gives for a path that does not exist. */
  function NoSuchFile(path: string): string {
    "open " + path + ": no such file or directory"
  }

  /** os.Open: a missing path fails with NoSuchFile, an unopenable one with its reason. */
  function Open(disk: Disk, path: string): (r: Result<KeyFile, string>)
    ensures r.Success? <==> path in disk && !disk[path].Unopenable?
    ensures path !in disk ==> r == Failure(NoSuchFile(path))
    ensures r.Success? ==> r.value == disk[path]
  {
    if path !in disk then Failure(NoSuchFile(path))
    else if disk[path].Unopenable? then Failure(disk[path].reason)
    else Success(disk[path])
  }

  /** openpgp.ReadKeyRing on an opened file. */
  function ReadKeyRing(file: KeyFile): (r: Result<KeyRing, string>)
    ensures r.Success? <==> file.Ring?
    ensures r.Success? ==> r.value == file.entities
  {
    match file
    case Ring(entities) => Success(entities)
    case Unparsable(reason) => Failure(reason)
    case Unopenable(reason) => Failure(reason)
  }
}
