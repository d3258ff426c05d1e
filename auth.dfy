/** The client side of the Gorjun challenge-response login. A GorjunServer
    record holds the user's identity and the session's challenge code and
    token. The login fetches a challenge code, signs it with the user's
    OpenPGP key, and posts the signed message back. The server answers with
    the session token, or with some other text that gives its reason. */
module Gorjun {
  import opened Wrappers
  import opened Keyring
  import opened Envelope

  /** The errors the handshake returns, one per `fmt.Errorf` of auth.go,
      plus the nil-pointer panic at the passphrase decrypt. */
  datatype Error =
    | ChallengeRequestFailed(cause: string)
    | BodyReadFailed(host: string, cause: string)
    | TokenRequestFailed(cause: string)
    | TokenRejected(reason: string)
    | NoGPGDirectory
    | KeyringNotFound
    | PublicRingOpenFailed(cause: string)
    | PublicRingReadFailed(cause: string)
    | PublicKeyNotFound(email: string)
    | PrivateRingOpenFailed(cause: string)
    | PrivateRingReadFailed(cause: string)
    | PrivateKeyNotFound(email: string)
    | SigningFailed(cause: string)
    | NilPrivateKey

  /** The error text the caller sees. */
  function Message(e: Error): (m: string)
    ensures e.TokenRejected? ==> |m| >= |e.reason| && m[|m| - |e.reason|..] == e.reason
    ensures e.KeyringNotFound? ==> m == "Can't find pubring.gpg nor pubring.kbx"
    ensures e.NoGPGDirectory? ==> m == "GPG Directory was not specified"
  {
    match e
    case ChallengeRequestFailed(cause) => "Failed to retrieve unsigned token: " + cause
    case BodyReadFailed(host, cause) => "Failed to read body from " + host + ": " + cause
    case TokenRequestFailed(cause) => "Failed to retrieve active token: " + cause
    case TokenRejected(reason) => "Failed to retrieve active token: " + reason
    case NoGPGDirectory => "GPG Directory was not specified"
    case KeyringNotFound => "Can't find pubring.gpg nor pubring.kbx"
    case PublicRingOpenFailed(cause) => "Failed to open public keyring file: " + cause
    case PublicRingReadFailed(cause) => "Failed to read public keyring: " + cause
    case PublicKeyNotFound(email) => "Public key for " + email + " was not found"
    case PrivateRingOpenFailed(cause) => "Failed to open private keyring file: " + cause
    case PrivateRingReadFailed(cause) => "Failed to read private keyring: " + cause
    case PrivateKeyNotFound(email) => "Private key for " + email + " was not found"
    case SigningFailed(cause) => "Failed to sign token: " + cause
    case NilPrivateKey => "runtime error: invalid memory address or nil pointer dereference"
  }

  /** What an HTTP exchange yields: the whole response body, a failed
      request, or a failure while reading the body. */
  datatype Response = Body(data: string) | TransportFailed(cause: string) | ReadFailed(cause: string)

  /** The fields of the form posted to obtain the token. */
  datatype Form = Form(message: string, user: string)

  /** ArmoredDetachSign: the signing entity and the text to sign give an
      armored signature or the library's error text. */
  type Signer = (Entity, string) -> Result<string, string>

  /** Everything the handshake takes from outside the process: $HOME, the
      two HTTP calls, the key directory's files and the signing library. */
  datatype Env = Env(
    home: string,
    get: string -> Response,
    post: (string, Form) -> Response,
    disk: Disk,
    sign: Signer)

  /** The URL the token is posted to: HTTPS, the host as given, the token path. */
  function TokenUrl(host: string): (u: string)
    ensures |u| == |host| + 31
    ensures u[..8] == "https://" && u[8..8 + |host|] == host
    ensures u[8 + |host|..] == "/kurjun/rest/auth/token"
  {
    "https://" + host + "/kurjun/rest/auth/token"
  }

  /** The URL the challenge code is fetched from: the token URL with the
      user name appended unescaped as the `user` query parameter. */
  function ChallengeUrl(host: string, user: string): (u: string)
    ensures u == TokenUrl(host) + "?user=" + user
  {
    "https://" + host + "/kurjun/rest/auth/token?user=" + user
  }

  /** The older public keyring file of the key directory. */
  function PubringPath(dir: string): (p: string)
    ensures |p| == |dir| + 12 && p[..|dir|] == dir && p[|dir|..] == "/pubring.gpg"
  {
    dir + "/pubring.gpg"
  }

  /** The keybox file of GnuPG 2.1 and later in the key directory. */
  function KeyboxPath(dir: string): (p: string)
    ensures |p| == |dir| + 12 && p[..|dir|] == dir && p[|dir|..] == "/pubring.kbx"
  {
    dir + "/pubring.kbx"
  }

  /** The private keyring file of the key directory. */
  function SecringPath(dir: string): (p: string)
    ensures |p| == |dir| + 12 && p[..|dir|] == dir && p[|dir|..] == "/secring.gpg"
  {
    dir + "/secring.gpg"
  }

  /** The three keyring files of a directory are three different paths, so
      what the directory holds for one says nothing about the others. */
  lemma KeyringPathsDistinct(dir: string)
    ensures PubringPath(dir) != KeyboxPath(dir)
    ensures PubringPath(dir) != SecringPath(dir)
    ensures KeyboxPath(dir) != SecringPath(dir)
  {
  }

  /** The key directory AuthenticateUser settles on; it is never empty. */
  function DefaultDirectory(gpgdir: string, home: string): (d: string)
    ensures gpgdir != "" ==> d == gpgdir
    ensures gpgdir == "" ==> d == home + "/.gnupg"
    ensures d != ""
  {
    if gpgdir != "" then gpgdir else home + "/.gnupg"
  }

  /** The first step's outcome: any body at all is the challenge code. */
  function ChallengeResult(host: string, resp: Response): (r: Result<string, Error>)
    ensures r.Success? <==> resp.Body?
    ensures r.Success? ==> r.value == resp.data
    ensures resp.TransportFailed? ==> r == Failure(ChallengeRequestFailed(resp.cause))
    ensures resp.ReadFailed? ==> r == Failure(BodyReadFailed(host, resp.cause))
  {
    match resp
    case Body(data) => Success(data)
    case TransportFailed(cause) => Failure(ChallengeRequestFailed(cause))
    case ReadFailed(cause) => Failure(BodyReadFailed(host, cause))
  }

  /** The third step's outcome: a body of exactly 64 bytes is the token,
      any other body is the server's reason for refusing. */
  function TokenResult(host: string, resp: Response): (r: Result<string, Error>)
    ensures r.Success? <==> resp.Body? && |resp.data| == 64
    ensures r.Success? ==> r.value == resp.data
    ensures resp.Body? && |resp.data| != 64 ==> r == Failure(TokenRejected(resp.data))
    ensures resp.TransportFailed? ==> r == Failure(TokenRequestFailed(resp.cause))
    ensures resp.ReadFailed? ==> r == Failure(BodyReadFailed(host, resp.cause))
  {
    match resp
    case Body(data) => if |data| == 64 then Success(data) else Failure(TokenRejected(data))
    case TransportFailed(cause) => Failure(TokenRequestFailed(cause))
    case ReadFailed(cause) => Failure(BodyReadFailed(host, cause))
  }

  /** The Token field after the third step, given its value before: the body
      when it is 64 bytes long, cleared for any other body, and left alone
      when no body was read. */
  function StoredToken(resp: Response, previous: string): (t: string)
    ensures resp.Body? ==> (t != "" <==> |resp.data| == 64)
    ensures resp.Body? && t != "" ==> t == resp.data
    ensures !resp.Body? ==> t == previous
    ensures TokenResult("", resp).Success? ==> t == TokenResult("", resp).value
  {
    match resp
    case Body(data) => if |data| == 64 then data else ""
    case _ => previous
  }

  function ErrorOf<T>(r: Result<T, Error>): Option<Error> {
    match r
    case Success(_) => None
    case Failure(e) => Some(e)
  }

  /** The entity handed to the signer: with a non-empty passphrase, the
      private key after a decrypt attempt whose error is dropped. */
  function SigningKey(key: Entity, passphrase: string): (r: Entity)
    ensures r.identities == key.identities
    ensures r.privateKey.Some? <==> key.privateKey.Some?
    ensures passphrase == "" ==> r == key
    ensures key.privateKey.Some? ==>
      var pk := key.privateKey.value;
      r.privateKey.value.unlockedBy == pk.unlockedBy &&
      (r.privateKey.value.encrypted <==> pk.encrypted && (passphrase == "" || passphrase != pk.unlockedBy))
  {
    if passphrase != "" && key.privateKey.Some? then
      key.(privateKey := Some(Decrypt(key.privateKey.value, passphrase).0))
    else key
  }

  /** What SignToken returns for a key directory, an email, a passphrase, the
      text to sign, the directory's files and the signing library. */
  function SignOutcome(dir: string, email: string, passphrase: string, token: string,
                       disk: Disk, sign: Signer): (r: Result<string, Error>)
    ensures dir == "" ==> r == Failure(NoGPGDirectory)
    ensures dir != "" && !FileExists(disk, PubringPath(dir)) && !FileExists(disk, KeyboxPath(dir)) ==>
      r == Failure(KeyringNotFound)
    ensures dir != "" && !FileExists(disk, PubringPath(dir)) && FileExists(disk, KeyboxPath(dir)) ==>
      r == Failure(PublicRingOpenFailed(NoSuchFile(PubringPath(dir))))
    ensures r.Success? ==>
      && PubringPath(dir) in disk && disk[PubringPath(dir)].Ring?
      && KeyByEmail(disk[PubringPath(dir)].entities, email).Some?
      && SecringPath(dir) in disk && disk[SecringPath(dir)].Ring?
      && KeyByEmail(disk[SecringPath(dir)].entities, email).Some?
      && sign(SigningKey(KeyByEmail(disk[SecringPath(dir)].entities, email).value, passphrase), token)
         == Success(r.value)
  {
    if dir == "" then Failure(NoGPGDirectory)
    else if !FileExists(disk, PubringPath(dir)) && !FileExists(disk, KeyboxPath(dir)) then
      Failure(KeyringNotFound)
    else match Open(disk, PubringPath(dir))
      case Failure(cause) => Failure(PublicRingOpenFailed(cause))
      case Success(pubFile) => match ReadKeyRing(pubFile)
        case Failure(cause) => Failure(PublicRingReadFailed(cause))
        case Success(pubring) =>
          if KeyByEmail(pubring, email).None? then Failure(PublicKeyNotFound(email))
          else match Open(disk, SecringPath(dir))
            case Failure(cause) => Failure(PrivateRingOpenFailed(cause))
            case Success(secFile) => match ReadKeyRing(secFile)
              case Failure(cause) => Failure(PrivateRingReadFailed(cause))
              case Success(secring) => match KeyByEmail(secring, email)
                case None => Failure(PrivateKeyNotFound(email))
                case Some(key) =>
                  if passphrase != "" && key.privateKey.None? then Failure(NilPrivateKey)
                  else match sign(SigningKey(key, passphrase), token)
                    case Success(signature) => Success(signature)
                    case Failure(cause) => Failure(SigningFailed(cause))
  }

  /** A missing public key is reported whatever the private ring and the
      signer would have given. */
  lemma PublicKeyCheckedFirst(dir: string, email: string, passphrase: string, token: string,
                              disk: Disk, sign: Signer)
    requires dir != "" && PubringPath(dir) in disk && disk[PubringPath(dir)].Ring?
    requires KeyByEmail(disk[PubringPath(dir)].entities, email).None?
    ensures SignOutcome(dir, email, passphrase, token, disk, sign) == Failure(PublicKeyNotFound(email))
  {
  }

  /** A missing private key is reported before the signer is consulted. */
  lemma PrivateKeyCheckedBeforeSigning(dir: string, email: string, passphrase: string, token: string,
                                       disk: Disk, sign: Signer)
    requires dir != "" && PubringPath(dir) in disk && disk[PubringPath(dir)].Ring?
    requires KeyByEmail(disk[PubringPath(dir)].entities, email).Some?
    requires SecringPath(dir) in disk && disk[SecringPath(dir)].Ring?
    requires KeyByEmail(disk[SecringPath(dir)].entities, email).None?
    ensures SignOutcome(dir, email, passphrase, token, disk, sign) == Failure(PrivateKeyNotFound(email))
  {
  }

  /** With both keys found, the signer sees the private key as stored when the
      passphrase is empty or wrong, and unlocked when it is right; a failed
      decrypt never shows up as an error of its own. */
  lemma PassphraseOnlyUnlocks(dir: string, email: string, passphrase: string, token: string,
                              disk: Disk, sign: Signer)
    requires dir != "" && PubringPath(dir) in disk && disk[PubringPath(dir)].Ring?
    requires KeyByEmail(disk[PubringPath(dir)].entities, email).Some?
    requires SecringPath(dir) in disk && disk[SecringPath(dir)].Ring?
    requires KeyByEmail(disk[SecringPath(dir)].entities, email).Some?
    requires KeyByEmail(disk[SecringPath(dir)].entities, email).value.privateKey.Some?
    ensures var key := KeyByEmail(disk[SecringPath(dir)].entities, email).value;
            var pk := key.privateKey.value;
            var seen := if passphrase != "" && pk.encrypted && passphrase == pk.unlockedBy
                        then key.(privateKey := Some(pk.(encrypted := false))) else key;
            SignOutcome(dir, email, passphrase, token, disk, sign) ==
              match sign(seen, token)
              case Success(signature) => Success(signature)
              case Failure(cause) => Failure(SigningFailed(cause))
  {
  }

  /** Failures to open or parse a keyring are reported as such, the public
      ring's before the private ring is touched. */
  lemma RingFailuresReported(dir: string, email: string, passphrase: string, token: string,
                             disk: Disk, sign: Signer)
    requires dir != "" && PubringPath(dir) in disk
    ensures disk[PubringPath(dir)].Unopenable? ==>
      SignOutcome(dir, email, passphrase, token, disk, sign) == Failure(PublicRingOpenFailed(disk[PubringPath(dir)].reason))
    ensures disk[PubringPath(dir)].Unparsable? ==>
      SignOutcome(dir, email, passphrase, token, disk, sign) == Failure(PublicRingReadFailed(disk[PubringPath(dir)].reason))
    ensures disk[PubringPath(dir)].Ring? && KeyByEmail(disk[PubringPath(dir)].entities, email).Some? ==>
      && (SecringPath(dir) !in disk ==>
            SignOutcome(dir, email, passphrase, token, disk, sign) == Failure(PrivateRingOpenFailed(NoSuchFile(SecringPath(dir)))))
      && (SecringPath(dir) in disk && disk[SecringPath(dir)].Unopenable? ==>
            SignOutcome(dir, email, passphrase, token, disk, sign) == Failure(PrivateRingOpenFailed(disk[SecringPath(dir)].reason)))
      && (SecringPath(dir) in disk && disk[SecringPath(dir)].Unparsable? ==>
            SignOutcome(dir, email, passphrase, token, disk, sign) == Failure(PrivateRingReadFailed(disk[SecringPath(dir)].reason)))
  {
  }

  /** A private-ring entity without a private key, with a non-empty
      passphrase, ends in NilPrivateKey (where Go panics) before any signing. */
  lemma NilPrivateKeyWithPassphrase(dir: string, email: string, passphrase: string, token: string,
                                    disk: Disk, sign: Signer)
    requires dir != "" && passphrase != ""
    requires PubringPath(dir) in disk && disk[PubringPath(dir)].Ring?
    requires KeyByEmail(disk[PubringPath(dir)].entities, email).Some?
    requires SecringPath(dir) in disk && disk[SecringPath(dir)].Ring?
    requires KeyByEmail(disk[SecringPath(dir)].entities, email).Some?
    requires KeyByEmail(disk[SecringPath(dir)].entities, email).value.privateKey.None?
    ensures SignOutcome(dir, email, passphrase, token, disk, sign) == Failure(NilPrivateKey)
  {
  }

  /** The key directory AuthenticateUser uses is never empty, so through it
      SignToken never fails for want of a directory. */
  lemma HandshakeHasDirectory(gpgdir: string, home: string, email: string, passphrase: string,
                              token: string, disk: Disk, sign: Signer)
    ensures SignOutcome(DefaultDirectory(gpgdir, home), email, passphrase, token, disk, sign)
            != Failure(NoGPGDirectory)
  {
  }

  /** The state of one Gorjun client: the user's identity, the server, and
      the challenge code and token of the current session. */
  class GorjunServer {
    var Username: string
    var Email: string
    var Hostname: string
    var GPGDirectory: string
    var Token: string
    var TokenCode: string
    var Passphrase: string

    /** A zero-valued record pointed at `hostname`. */
    constructor (hostname: string)
      ensures Hostname == hostname
      ensures Username == "" && Email == "" && GPGDirectory == ""
      ensures Token == "" && TokenCode == "" && Passphrase == ""
    {
      Username, Email, Hostname, GPGDirectory := "", "", hostname, "";
      Token, TokenCode, Passphrase := "", "", "";
    }

    /** First step: fetch the challenge code for Username. Any body becomes
        TokenCode, with no check of its length. */
    method GetAuthTokenCode(get: string -> Response) returns (err: Option<Error>)
      modifies this`TokenCode
      ensures var res := ChallengeResult(Hostname, get(ChallengeUrl(Hostname, Username)));
              err == ErrorOf(res) && TokenCode == (if res.Success? then res.value else old(TokenCode))
    {
      var resp := get(ChallengeUrl(Hostname, Username));
      if resp.TransportFailed? {
        return Some(ChallengeRequestFailed(resp.cause));
      }
      if resp.ReadFailed? {
        return Some(BodyReadFailed(Hostname, resp.cause));
      }
      TokenCode := resp.data;
      return None;
    }

    /** Second step: sign `token` with the key of Email found under
        GPGDirectory. The fallback to pubring.kbx only decides whether a
        public ring exists; the file opened is always pubring.gpg. */
    method SignToken(token: string, disk: Disk, sign: Signer) returns (r: Result<string, Error>)
      ensures r == SignOutcome(GPGDirectory, Email, Passphrase, token, disk, sign)
    {
      if GPGDirectory == "" {
        return Failure(NoGPGDirectory);
      }
      var pubringPath := GPGDirectory + "/pubring.gpg";
      if !FileExists(disk, pubringPath) {
        pubringPath := GPGDirectory + "/pubring.kbx";
      }
      if !FileExists(disk, pubringPath) {
        return Failure(KeyringNotFound);
      }
      var pukFile := Open(disk, GPGDirectory + "/pubring.gpg");
      if pukFile.Failure? {
        return Failure(PublicRingOpenFailed(pukFile.error));
      }
      var pubring := ReadKeyRing(pukFile.value);
      if pubring.Failure? {
        return Failure(PublicRingReadFailed(pubring.error));
      }
      var publicKey := GetKeyByEmail(pubring.value, Email);
      if publicKey.None? {
        return Failure(PublicKeyNotFound(Email));
      }
      var priFile := Open(disk, GPGDirectory + "/secring.gpg");
      if priFile.Failure? {
        return Failure(PrivateRingOpenFailed(priFile.error));
      }
      var secring := ReadKeyRing(priFile.value);
      if secring.Failure? {
        return Failure(PrivateRingReadFailed(secring.error));
      }
      var privateKey := GetKeyByEmail(secring.value, Email);
      if privateKey.None? {
        return Failure(PrivateKeyNotFound(Email));
      }
      var signer := privateKey.value;
      if Passphrase != "" {
        if signer.privateKey.None? {
          return Failure(NilPrivateKey);
        }
        var (unlocked, _) := Decrypt(signer.privateKey.value, Passphrase);
        signer := signer.(privateKey := Some(unlocked));
      }
      var signed := sign(signer, token);
      if signed.Failure? {
        return Failure(SigningFailed(signed.error));
      }
      return Success(signed.value);
    }

    /** Third step: post the signed message and keep the answer as Token if
        it is 64 bytes long; otherwise clear Token and report the answer. */
    method GetActiveToken(signed: string, post: (string, Form) -> Response) returns (err: Option<Error>)
      modifies this`Token
      ensures var resp := post(TokenUrl(Hostname), Form(SignedMessage(TokenCode, signed), Username));
              err == ErrorOf(TokenResult(Hostname, resp)) && Token == StoredToken(resp, old(Token))
      ensures err.None? ==> |Token| == 64
    {
      var message := SignedMessage(TokenCode, signed);
      var resp := post(TokenUrl(Hostname), Form(message, Username));
      if resp.TransportFailed? {
        return Some(TokenRequestFailed(resp.cause));
      }
      if resp.ReadFailed? {
        return Some(BodyReadFailed(Hostname, resp.cause));
      }
      Token := resp.data;
      if |Token| != 64 {
        var reason := Token;
        Token := "";
        return Some(TokenRejected(reason));
      }
      return None;
    }

    /** The whole login: record the identity, then run the three steps in
        order, stopping at the first error. */
    method AuthenticateUser(username: string, email: string, passphrase: string, gpgdir: string, env: Env)
      returns (err: Option<Error>)
      modifies this
      ensures Username == username && Email == email && Passphrase == passphrase
      ensures GPGDirectory == DefaultDirectory(gpgdir, env.home)
      ensures Hostname == old(Hostname)
      ensures match ChallengeResult(Hostname, env.get(ChallengeUrl(Hostname, username)))
        case Failure(e) => err == Some(e) && TokenCode == old(TokenCode) && Token == old(Token)
        case Success(code) =>
          TokenCode == code &&
          match SignOutcome(GPGDirectory, email, passphrase, code, env.disk, env.sign)
          case Failure(e) => err == Some(e) && Token == old(Token)
          case Success(signature) =>
            var resp := env.post(TokenUrl(Hostname), Form(SignedMessage(code, signature), username));
            err == ErrorOf(TokenResult(Hostname, resp)) && Token == StoredToken(resp, old(Token))
      ensures err.None? ==> |Token| == 64
    {
      Username := username;
      Email := email;
      Passphrase := passphrase;
      if gpgdir != "" {
        GPGDirectory := gpgdir;
      } else {
        GPGDirectory := env.home + "/.gnupg";
      }
      err := GetAuthTokenCode(env.get);
      if err.Some? {
        return err;
      }
      var sign := SignToken(TokenCode, env.disk, env.sign);
      if sign.Failure? {
        return Some(sign.error);
      }
      err := GetActiveToken(sign.value, env.post);
      if err.Some? {
        return err;
      }
      return None;
    }
  }
}
