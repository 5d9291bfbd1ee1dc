/** `las/credentials.py`: where the three API credentials come from. The
    configuration file is given already parsed, as a map from section to a
    map from option to value, and the file system as a map from path to
    such a parsed file. */
module Credentials {
  import opened Wrappers

  /** A validated set of credentials: every field non-empty. */
  datatype Credentials = Credentials(accessKeyId: string, secretAccessKey: string, apiKey: string)

  type Section = map<string, string>
  type Config = map<string, Section>
  /** The files `ConfigParser.read` can parse; any other path is skipped
      silently and reads as no sections at all. */
  type FileSystem = map<string, Config>

  datatype CredentialsError =
    | MissingCredentials                               // las.credentials.MissingCredentials
    | NoSectionError(section: string)                  // configparser.NoSectionError
    | NoOptionError(option: string, section: string)   // configparser.NoOptionError

  const DefaultPath := "~/.lucidtech/credentials.cfg"
  const SectionName := "default"

  /** `not value` for an argument that is a string or `None`. */
  predicate Missing(value: Option<string>) {
    value.None? || value.value == ""
  }

  /** `ConfigParser.read(path)`: the parsed file, or nothing. */
  function Read(fs: FileSystem, path: string): Config {
    if path in fs then fs[path] else map[]
  }

  /** `config.get(section, option)`. */
  function Get(config: Config, section: string, option: string): (r: Result<string, CredentialsError>)
    ensures r.Success? <==> section in config && option in config[section]
    ensures r.Success? ==> r.value == config[section][option]
    ensures section !in config ==> r == Failure(NoSectionError(section))
    ensures section in config && option !in config[section] ==> r == Failure(NoOptionError(option, section))
  {
    if section !in config then Failure(NoSectionError(section))
    else if option !in config[section] then Failure(NoOptionError(option, section))
    else Success(config[section][option])
  }

  /** `_read_credentials(path)`: the three options of section `default`,
      looked up in this order. */
  function ReadCredentials(fs: FileSystem, path: string): (r: Result<(string, string, string), CredentialsError>)
    ensures r.Success? <==>
      && SectionName in Read(fs, path)
      && "access_key_id" in Read(fs, path)[SectionName]
      && "secret_access_key" in Read(fs, path)[SectionName]
      && "api_key" in Read(fs, path)[SectionName]
    ensures r.Success? ==> r.value == (
      Read(fs, path)[SectionName]["access_key_id"],
      Read(fs, path)[SectionName]["secret_access_key"],
      Read(fs, path)[SectionName]["api_key"])
    ensures r.Failure? ==> r.error != MissingCredentials
    ensures SectionName !in Read(fs, path) ==> r == Failure(NoSectionError(SectionName))
  {
    var config := Read(fs, path);
    match Get(config, SectionName, "access_key_id")
    case Failure(e) => Failure(e)
    case Success(accessKeyId) =>
      match Get(config, SectionName, "secret_access_key")
      case Failure(e) => Failure(e)
      case Success(secretAccessKey) =>
        match Get(config, SectionName, "api_key")
        case Failure(e) => Failure(e)
        case Success(apiKey) => Success((accessKeyId, secretAccessKey, apiKey))
  }

  /** The outcome of `Credentials.__init__`: the explicit values when all
      three are given, otherwise all three from the file (the default path
      when none is given); then every value must be non-empty. */
  function Resolve(
    fs: FileSystem, credentialsPath: Option<string>,
    accessKeyId: Option<string>, secretAccessKey: Option<string>, apiKey: Option<string>)
    : Result<Credentials, CredentialsError>
  {
    if !Missing(accessKeyId) && !Missing(secretAccessKey) && !Missing(apiKey) then
      Success(Credentials(accessKeyId.value, secretAccessKey.value, apiKey.value))
    else
      var path := if Missing(credentialsPath) then DefaultPath else credentialsPath.value;
      match ReadCredentials(fs, path)
      case Failure(e) => Failure(e)
      case Success(values) =>
        if values.0 == "" || values.1 == "" || values.2 == "" then Failure(MissingCredentials)
        else Success(Credentials(values.0, values.1, values.2))
  }

  /** `Credentials.__init__`, reassigning its three arguments from the file
      when one of them is missing, then validating them. */
  method NewCredentials(
    fs: FileSystem, credentialsPath: Option<string>,
    accessKeyId: Option<string>, secretAccessKey: Option<string>, apiKey: Option<string>)
    returns (r: Result<Credentials, CredentialsError>)
    ensures r == Resolve(fs, credentialsPath, accessKeyId, secretAccessKey, apiKey)
    ensures r.Success? ==> r.value.accessKeyId != "" && r.value.secretAccessKey != "" && r.value.apiKey != ""
  {
    var access := accessKeyId;
    var secret := secretAccessKey;
    var key := apiKey;
    if Missing(access) || Missing(secret) || Missing(key) {
      var path := credentialsPath;
      if Missing(path) {
        path := Some(DefaultPath);
      }
      var values := ReadCredentials(fs, path.value);
      if values.Failure? {
        return Failure(values.error);
      }
      access, secret, key := Some(values.value.0), Some(values.value.1), Some(values.value.2);
    }
    if Missing(access) || Missing(secret) || Missing(key) {
      return Failure(MissingCredentials);
    }
    r := Success(Credentials(access.value, secret.value, key.value));
  }

  /** Three explicit values are stored verbatim and no file is consulted. */
  lemma ExplicitCredentials(fs: FileSystem, path: Option<string>, accessKeyId: string, secretAccessKey: string, apiKey: string)
    requires accessKeyId != "" && secretAccessKey != "" && apiKey != ""
    ensures Resolve(fs, path, Some(accessKeyId), Some(secretAccessKey), Some(apiKey))
         == Success(Credentials(accessKeyId, secretAccessKey, apiKey))
    ensures Resolve(fs, path, Some(accessKeyId), Some(secretAccessKey), Some(apiKey))
         == Resolve(map[], None, Some(accessKeyId), Some(secretAccessKey), Some(apiKey))
  {
  }

  /** With one value missing, explicit values given in part are all
      discarded: the result is what the file alone gives. */
  lemma PartialArgumentsDiscarded(
    fs: FileSystem, path: Option<string>,
    accessKeyId: Option<string>, secretAccessKey: Option<string>, apiKey: Option<string>)
    requires Missing(accessKeyId) || Missing(secretAccessKey) || Missing(apiKey)
    ensures Resolve(fs, path, accessKeyId, secretAccessKey, apiKey) == Resolve(fs, path, None, None, None)
  {
  }

  /** Without a path, and with an empty one, the default file is read. */
  lemma DefaultPathUsed(fs: FileSystem, path: Option<string>)
    requires Missing(path)
    ensures Resolve(fs, path, None, None, None) == Resolve(fs, Some(DefaultPath), None, None, None)
  {
  }

  /** Successful construction means three non-empty values; an empty one is
      `MissingCredentials`; a missing file, section or option is the
      configuration parser's lookup error instead. */
  lemma ResolveOutcomes(fs: FileSystem, path: string)
    ensures Resolve(fs, Some(path), None, None, None).Success? ==>
      var c := Resolve(fs, Some(path), None, None, None).value;
      c.accessKeyId != "" && c.secretAccessKey != "" && c.apiKey != ""
    ensures ReadCredentials(fs, if path == "" then DefaultPath else path).Failure? <==>
      Resolve(fs, Some(path), None, None, None).Failure? && Resolve(fs, Some(path), None, None, None).error != MissingCredentials
    ensures path != "" && path !in fs ==> Resolve(fs, Some(path), None, None, None) == Failure(NoSectionError(SectionName))
  {
  }
}
