/** Application settings (components/settings.py): `Settings.init` read
    as a pure function of the process environment, the `environment`
    property, and the `crypto_*_bytes` properties. */
module AppSettings {

  import opened Py
  import opened Text
  import Base64

  type Env = map<string, string>

  datatype Settings = Settings(
    cryptoSalt: Option<string>,
    cryptoSecret: Option<string>,
    kdfIterations: int,
    databaseUri: string,
    debug: bool,
    host: string,
    logLevel: int,
    port: int,
    sentryLogLevel: int,
    sentryTransport: string,
    sentryUrl: Option<string>,
    swagger: bool)

  const DefaultKdfIterations := 10000
  const DefaultPort := 5000
  const Info := 20
  const Warning := 30

  /** The level names `logging` knows, with their numbers. */
  const LevelNames: map<string, int> :=
    map["CRITICAL" := 50, "FATAL" := 50, "ERROR" := 40, "WARN" := 30,
        "WARNING" := 30, "INFO" := 20, "DEBUG" := 10, "NOTSET" := 0]

  const IntError: Exc := ValueError("invalid literal for int() with base 10")
  const SecretError: Exc := ValueError("env:CRYPTO_SECRET must be provided!")

  /** `os.getenv(key)` */
  function GetEnv(env: Env, key: string): (r: Option<string>)
    ensures r.Some? <==> key in env
    ensures r.Some? ==> r.value == env[key]
  {
    if key in env then Some(env[key]) else None
  }

  /** `os.getenv(key, default)` for a string default. */
  function GetEnvOr(env: Env, key: string, default: string): (r: string)
    ensures key in env ==> r == env[key]
    ensures key !in env ==> r == default
  {
    if key in env then env[key] else default
  }

  /** `str(os.getenv(key, default)).lower() == 'true'` for a boolean
      default: `str(True)` is "True", which passes, and `str(False)` does
      not. */
  function FlagOf(env: Env, key: string, default: bool): (r: bool)
    ensures key in env ==> (r <==> Lower(env[key]) == "true")
    ensures key !in env ==> r == default
  {
    Lower(GetEnvOr(env, key, if default then "True" else "False")) == "true"
  }

  /** `logging._nameToLevel.get(name.upper(), fallback)` */
  function LevelFor(name: string, fallback: int): (r: int)
    ensures Upper(name) in LevelNames ==> r == LevelNames[Upper(name)]
    ensures Upper(name) !in LevelNames ==> r == fallback
  {
    var key := Upper(name);
    if key in LevelNames then LevelNames[key] else fallback
  }

  /** `int(os.getenv(key, default))`. */
  function IntOf(env: Env, key: string, default: int): (r: Result<int>)
    ensures key !in env ==> r == Success(default)
    ensures key in env ==> (r.Success? <==> ParseInt(env[key]).Some?)
    ensures key in env && r.Success? ==> r.value == ParseInt(env[key]).value
    ensures r.Failure? ==> r.exc == IntError
  {
    if key !in env then Success(default)
    else match ParseInt(env[key])
      case Some(n) => Success(n)
      case None => Failure(IntError)
  }

  /** A `PORT` value that `int()` refuses. */
  predicate PortInvalid(env: Env) {
    "PORT" in env && ParseInt(env["PORT"]).None?
  }

  /** `not CRYPTO_SECRET`: unset or empty. */
  predicate SecretMissing(env: Env) {
    "CRYPTO_SECRET" !in env || env["CRYPTO_SECRET"] == ""
  }

  /** `Settings.init()`. Fields are read in order; a `PORT` that is not an
      integer raises at once, a bad `CRYPTO_KDF_ITERATIONS` falls back to
      10000, and a missing or empty `CRYPTO_SECRET` raises only after every
      field has been read. */
  function Init(env: Env): (r: Result<Settings>)
    ensures r.Failure? <==> PortInvalid(env) || SecretMissing(env)
    ensures PortInvalid(env) ==> r == Failure(IntError)
    ensures !PortInvalid(env) && SecretMissing(env) ==> r == Failure(SecretError)
    ensures r.Success? ==>
              && r.value.cryptoSecret == Some(env["CRYPTO_SECRET"])
              && r.value.cryptoSalt == GetEnv(env, "CRYPTO_SALT")
              && r.value.sentryUrl == GetEnv(env, "SENTRY_URL")
              && r.value.databaseUri == GetEnvOr(env, "DB_URI", "sqlite:///:memory:")
              && r.value.host == GetEnvOr(env, "HOST", "localhost")
              && r.value.sentryTransport == GetEnvOr(env, "SENTRY_TRANSPORT", "HTTPTransport")
    ensures r.Success? ==>
              && (r.value.debug <==> "DEBUG" in env && Lower(env["DEBUG"]) == "true")
              && (r.value.swagger <==> "SWAGGER" !in env || Lower(env["SWAGGER"]) == "true")
    ensures r.Success? ==>
              && r.value.port == (if "PORT" in env then ParseInt(env["PORT"]).value else DefaultPort)
              && r.value.kdfIterations ==
                   (if "CRYPTO_KDF_ITERATIONS" in env && ParseInt(env["CRYPTO_KDF_ITERATIONS"]).Some?
                    then ParseInt(env["CRYPTO_KDF_ITERATIONS"]).value else DefaultKdfIterations)
    ensures r.Success? ==>
              && r.value.logLevel == LevelFor(GetEnvOr(env, "LOG_LEVEL", "INFO"), Info)
              && r.value.sentryLogLevel == LevelFor(GetEnvOr(env, "SENTRY_LOG_LEVEL", "WARNING"), Warning)
  {
    var databaseUri := GetEnvOr(env, "DB_URI", "sqlite:///:memory:");
    var debug := FlagOf(env, "DEBUG", false);
    var host := GetEnvOr(env, "HOST", "localhost");
    var logLevel := LevelFor(GetEnvOr(env, "LOG_LEVEL", "INFO"), Info);
    var port :- IntOf(env, "PORT", DefaultPort);
    var swagger := FlagOf(env, "SWAGGER", true);
    var secret := GetEnv(env, "CRYPTO_SECRET");
    var salt := GetEnv(env, "CRYPTO_SALT");
    var iterations := match IntOf(env, "CRYPTO_KDF_ITERATIONS", DefaultKdfIterations)
      case Success(n) => n
      case Failure(_) => DefaultKdfIterations;
    var sentryLogLevel := LevelFor(GetEnvOr(env, "SENTRY_LOG_LEVEL", "WARNING"), Warning);
    var sentryTransport := GetEnvOr(env, "SENTRY_TRANSPORT", "HTTPTransport");
    var sentryUrl := GetEnv(env, "SENTRY_URL");
    if secret.None? || secret.value == "" then Failure(SecretError)
    else Success(Settings(salt, secret, iterations, databaseUri, debug, host, logLevel, port,
                          sentryLogLevel, sentryTransport, sentryUrl, swagger))
  }

  /** The `environment` property. */
  function Environment(s: Settings): (r: string)
    ensures r == "develop" <==> s.debug
    ensures r == "production" <==> !s.debug
  {
    if s.debug then "develop" else "production"
  }

  /** Every character is ASCII. */
  predicate IsAscii(s: string) {
    forall i :: 0 <= i < |s| ==> s[i] as int < 128
  }

  /** `bytes(s, 'utf-8')` for an ASCII string: one byte per character. */
  function AsciiBytes(s: string): (r: seq<byte>)
    requires IsAscii(s)
    ensures |r| == |s| && forall i :: 0 <= i < |s| ==> r[i] as int == s[i] as int
  {
    seq(|s|, i requires 0 <= i < |s| => s[i] as int as byte)
  }

  /** `crypto_salt_bytes` / `crypto_secret_bytes` for the stored value:
      `base64.b64decode` of it, or its UTF-8 bytes when the decoder raises
      `binascii.Error`. `b64decode` refuses `None` with TypeError and a
      non-ASCII string with a ValueError that is not caught. */
  function CryptoBytes(v: Option<string>): (r: Result<seq<byte>>)
    ensures v.None? ==> r.Failure? && r.exc.TypeError?
    ensures v.Some? && !IsAscii(v.value) ==>
              r == Failure(ValueError("string argument should contain only ASCII characters"))
    ensures v.Some? && IsAscii(v.value) ==> r.Success?
    ensures v.Some? && IsAscii(v.value) && Base64.Decode(v.value).Success? ==> r == Base64.Decode(v.value)
    ensures v.Some? && IsAscii(v.value) && Base64.Decode(v.value).Failure? ==> r == Success(AsciiBytes(v.value))
  {
    if v.None? then Failure(TypeError("argument should be a bytes-like object or ASCII string, not 'NoneType'"))
    else if !IsAscii(v.value) then Failure(ValueError("string argument should contain only ASCII characters"))
    else match Base64.Decode(v.value)
      case Success(b) => Success(b)
      case Failure(_) => Success(AsciiBytes(v.value))
  }

  function CryptoSaltBytes(s: Settings): Result<seq<byte>> {
    CryptoBytes(s.cryptoSalt)
  }

  function CryptoSecretBytes(s: Settings): Result<seq<byte>> {
    CryptoBytes(s.cryptoSecret)
  }

  /** The encoder's alphabet and pad are ASCII. */
  lemma EncodingIsAscii(b: seq<byte>)
    ensures IsAscii(Base64.Encode(b))
  {
    var e := Base64.Encode(b);
    forall i | 0 <= i < |e|
      ensures e[i] as int < 128
    {
      assert Base64.IsAlphabet(e[i]) || e[i] == '=';
    }
  }

  /** A secret given as the base64 text of some bytes yields those bytes. */
  lemma CryptoBytesOfEncoding(b: seq<byte>)
    ensures CryptoBytes(Some(Base64.Encode(b))) == Success(b)
  {
    EncodingIsAscii(b);
    Base64.DecodeEncode(b);
  }

  /** The environment's `DEBUG` decides the `environment` name: "develop"
      exactly when it reads "true" in any letter case. */
  lemma EnvironmentFromEnv(env: Env)
    requires Init(env).Success?
    ensures Environment(Init(env).value) == "develop" <==> "DEBUG" in env && Lower(env["DEBUG"]) == "true"
  {
  }

  /** Level names are looked up in any letter case: a name and its
      lower-case form select the same level, or both fall back. */
  lemma LevelIgnoresCase(name: string, fallback: int)
    ensures LevelFor(Lower(name), fallback) == LevelFor(name, fallback)
  {
    forall i | 0 <= i < |name|
      ensures Upper(Lower(name))[i] == Upper(name)[i]
    {
      assert Lower(name)[i] == LowerChar(name[i]);
    }
    assert Upper(Lower(name)) == Upper(name);
  }
}
