/**
 * Loading the server configuration from the environment. The environment is
 * a map from variable name to value (an unset variable reads as empty); file
 * reading, base64 decoding and JSON parsing are library calls, passed in as
 * functions.
 */
module Configuration {
  import opened Wrappers
  import opened Models

  type Bytes = seq<bv8>

  datatype Config = Config(
    firebaseServiceAccount: Document,
    subcollectionId: string,
    adminPassword: string,
    port: string,
    corsOrigin: string)

  datatype LoadError =
    | MissingServiceAccount
    | Base64DecodeFailed
    | ServiceAccountFileUnreadable
    | ServiceAccountParseFailed
    | MissingSubcollectionId
    | MissingAdminPassword

  /** The error text, up to the library's own message that Go appends after ": ". */
  function Message(e: LoadError): string {
    match e
    case MissingServiceAccount => "FIREBASE_SERVICE_ACCOUNT environment variable is required"
    case Base64DecodeFailed => "failed to decode base64 service account"
    case ServiceAccountFileUnreadable => "failed to read service account file"
    case ServiceAccountParseFailed => "failed to parse service account JSON"
    case MissingSubcollectionId => "SUBSCOLLECTION_ID environment variable is required"
    case MissingAdminPassword => "ADMIN_PASSWORD environment variable is required"
  }

  /** Each error carries its own text, so the message tells which check failed. */
  lemma MessagesDistinct(e1: LoadError, e2: LoadError)
    ensures Message(e1) == Message(e2) ==> e1 == e2
  {
  }

  /** The library calls `Load` makes. */
  datatype Platform = Platform(
    readFile: string -> Option<Bytes>,
    decodeBase64: string -> Option<Bytes>,
    parseJson: Bytes -> Option<Document>)

  const DefaultPort := "8080"
  const DefaultCorsOrigin := "http://localhost:5173"
  const Base64Prefix := "base64:"

  function Getenv(env: map<string, string>, key: string): (v: string)
    ensures key !in env ==> v == ""
  {
    if key in env then env[key] else ""
  }

  /** The value is inline base64 data rather than a file path. */
  predicate IsInline(value: string)
    ensures IsInline(value) ==> |value| > 7 && value[..7] == Base64Prefix && value[7..] != ""
    ensures |value| > 7 && value[..7] == Base64Prefix ==> IsInline(value)
  {
    |value| > 7 && value[..7] == Base64Prefix
  }

  /** The service account JSON, decoded inline or read from the named file. */
  function ServiceAccount(value: string, io: Platform): (r: Result<Document, LoadError>)
    ensures IsInline(value) && io.decodeBase64(value[7..]).None? ==> r == Failure(Base64DecodeFailed)
    ensures !IsInline(value) && io.readFile(value).None? ==> r == Failure(ServiceAccountFileUnreadable)
    ensures IsInline(value) && io.decodeBase64(value[7..]).Some? ==>
              r == match io.parseJson(io.decodeBase64(value[7..]).value)
                   case None => Failure(ServiceAccountParseFailed)
                   case Some(json) => Success(json)
    ensures !IsInline(value) && io.readFile(value).Some? ==>
              r == match io.parseJson(io.readFile(value).value)
                   case None => Failure(ServiceAccountParseFailed)
                   case Some(json) => Success(json)
    ensures r.Failure? ==> r.error in {Base64DecodeFailed, ServiceAccountFileUnreadable, ServiceAccountParseFailed}
    ensures r.Success? ==>
              if IsInline(value) then io.parseJson(io.decodeBase64(value[7..]).value) == Some(r.value)
              else io.parseJson(io.readFile(value).value) == Some(r.value)
  {
    if IsInline(value) then
      match io.decodeBase64(value[7..])
      case None => Failure(Base64DecodeFailed)
      case Some(decoded) =>
        match io.parseJson(decoded)
        case None => Failure(ServiceAccountParseFailed)
        case Some(json) => Success(json)
    else
      match io.readFile(value)
      case None => Failure(ServiceAccountFileUnreadable)
      case Some(data) =>
        match io.parseJson(data)
        case None => Failure(ServiceAccountParseFailed)
        case Some(json) => Success(json)
  }

  /** `value` unless it is empty. */
  function OrDefault(value: string, default: string): (r: string)
    ensures value != "" ==> r == value
    ensures value == "" ==> r == default
  {
    if value == "" then default else value
  }

  function Load(env: map<string, string>, io: Platform): (r: Result<Config, LoadError>)
    ensures Getenv(env, "FIREBASE_SERVICE_ACCOUNT") == "" ==> r == Failure(MissingServiceAccount)
    ensures r.Success? ==>
              ServiceAccount(Getenv(env, "FIREBASE_SERVICE_ACCOUNT"), io) == Success(r.value.firebaseServiceAccount)
    ensures r.Success? ==> r.value.subcollectionId != "" && r.value.adminPassword != ""
    ensures r.Success? ==> r.value.subcollectionId == Getenv(env, "SUBSCOLLECTION_ID")
    ensures r.Success? ==> r.value.adminPassword == Getenv(env, "ADMIN_PASSWORD")
    ensures r.Success? ==> r.value.port == OrDefault(Getenv(env, "PORT"), DefaultPort) != ""
    ensures r.Success? ==> r.value.corsOrigin == OrDefault(Getenv(env, "CORS_ORIGIN"), DefaultCorsOrigin) != ""
  {
    var value := Getenv(env, "FIREBASE_SERVICE_ACCOUNT");
    if value == "" then Failure(MissingServiceAccount)
    else
      var account :- ServiceAccount(value, io);
      var subcollectionId := Getenv(env, "SUBSCOLLECTION_ID");
      if subcollectionId == "" then Failure(MissingSubcollectionId)
      else
        var adminPassword := Getenv(env, "ADMIN_PASSWORD");
        if adminPassword == "" then Failure(MissingAdminPassword)
        else
          Success(Config(account, subcollectionId, adminPassword,
                         OrDefault(Getenv(env, "PORT"), DefaultPort),
                         OrDefault(Getenv(env, "CORS_ORIGIN"), DefaultCorsOrigin)))
  }

  /**
   * Loading succeeds exactly when the service account is given and can be
   * read and parsed, and both the subcollection id and the admin password
   * are set.
   */
  lemma LoadSucceedsIff(env: map<string, string>, io: Platform)
    ensures Load(env, io).Success? <==>
              && Getenv(env, "FIREBASE_SERVICE_ACCOUNT") != ""
              && ServiceAccount(Getenv(env, "FIREBASE_SERVICE_ACCOUNT"), io).Success?
              && Getenv(env, "SUBSCOLLECTION_ID") != ""
              && Getenv(env, "ADMIN_PASSWORD") != ""
  {
  }

  /**
   * The checks run in order, so the first failing one names the error: a
   * service account problem hides the other two, and a missing subcollection
   * id hides a missing password.
   */
  lemma FirstFailureReported(env: map<string, string>, io: Platform)
    requires Getenv(env, "FIREBASE_SERVICE_ACCOUNT") != ""
    ensures ServiceAccount(Getenv(env, "FIREBASE_SERVICE_ACCOUNT"), io).Failure? ==>
              Load(env, io) == Failure(ServiceAccount(Getenv(env, "FIREBASE_SERVICE_ACCOUNT"), io).error)
    ensures ServiceAccount(Getenv(env, "FIREBASE_SERVICE_ACCOUNT"), io).Success? && Getenv(env, "SUBSCOLLECTION_ID") == "" ==>
              Load(env, io) == Failure(MissingSubcollectionId)
    ensures ServiceAccount(Getenv(env, "FIREBASE_SERVICE_ACCOUNT"), io).Success? && Getenv(env, "SUBSCOLLECTION_ID") != ""
            && Getenv(env, "ADMIN_PASSWORD") == "" ==>
              Load(env, io) == Failure(MissingAdminPassword)
  {
  }

  /** Exactly `"base64:"`, with nothing after it, is taken as a file path. */
  lemma BarePrefixIsPath(io: Platform)
    ensures !IsInline(Base64Prefix)
    ensures ServiceAccount(Base64Prefix, io) ==
            match io.readFile(Base64Prefix)
            case None => Failure(ServiceAccountFileUnreadable)
            case Some(data) => if io.parseJson(data).Some? then Success(io.parseJson(data).value)
                               else Failure(ServiceAccountParseFailed)
  {
  }
}
