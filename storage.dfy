/**
 * pkg/storage/storageSiteLoader.go: where a request's storage configuration
 * comes from. Remote 0 is the local directory the gateway was started with;
 * every other remote is the Azure container named by two environment
 * variables. The environment is a parameter of the model.
 */
module Storage {
  import opened Wrappers
  import opened Os
  import Pool
  import Azure

  /** The go-cache settings, in minutes: default expiration and cleanup interval. */
  datatype Cache = Cache(defaultExpirationMinutes: nat, cleanupIntervalMinutes: nat)

  datatype StorageSiteLoader = StorageSiteLoader(cache: Cache, localPath: string)

  /** NewStorageSiteLoader (storageSiteLoader.go:17-22). */
  function NewStorageSiteLoader(path: string): (s: StorageSiteLoader)
    ensures s.localPath == path
    ensures s.cache == Cache(30, 60)
  {
    StorageSiteLoader(Cache(30, 60), path)
  }

  /** The configuration of the local remote: an http bucket in `path`, every other field zero. */
  function LocalConfig(path: string): Pool.ConnectionConfig
  {
    Pool.ConnectionConfig(Pool.Http, None, path, "", "", "", 0)
  }

  /** LoadConfig (storageSiteLoader.go:24-35). */
  function LoadConfig(s: StorageSiteLoader, local: bool, env: Environment): (r: Result<Pool.ConnectionConfig, Azure.AzureError>)
    ensures local ==> r.Success? && r.value.configType == Pool.Http && r.value.containerName == s.localPath
    ensures local ==> (r.value.url == None && r.value.connectionString == "" && r.value.accountName == ""
      && r.value.accountKey == "" && r.value.remoteId == 0)
    ensures !local ==> r == Azure.LoadAzureConfig(Getenv(env, "AZURE_STORAGE_URL"), Getenv(env, "AZURE_CONNECTION_STRING"))
  {
    if local then Success(LocalConfig(s.localPath))
    else
      var azureUrl := Getenv(env, "AZURE_STORAGE_URL");
      var azureConnection := Getenv(env, "AZURE_CONNECTION_STRING");
      Azure.LoadAzureConfig(azureUrl, azureConnection)
  }

  /** The local configuration does not depend on the environment. */
  lemma LocalIgnoresEnvironment(s: StorageSiteLoader, env1: Environment, env2: Environment)
    ensures LoadConfig(s, true, env1) == LoadConfig(s, true, env2)
  {
  }

  /** The Azure configuration depends on the two variables alone. */
  lemma AzureReadsTwoVariables(s: StorageSiteLoader, env1: Environment, env2: Environment)
    requires Getenv(env1, "AZURE_STORAGE_URL") == Getenv(env2, "AZURE_STORAGE_URL")
    requires Getenv(env1, "AZURE_CONNECTION_STRING") == Getenv(env2, "AZURE_CONNECTION_STRING")
    ensures LoadConfig(s, false, env1) == LoadConfig(s, false, env2)
  {
  }

  /** A loaded configuration is http for the local remote and Azure for every other. */
  lemma LoadedType(s: StorageSiteLoader, local: bool, env: Environment)
    requires LoadConfig(s, local, env).Success?
    ensures LoadConfig(s, local, env).value.configType == if local then Pool.Http else Pool.Azure
  {
  }

  /**
   * Without the two variables the Azure branch still succeeds: the empty URL
   * parses (to no scheme and no host) and so does the empty connection string,
   * giving an Azure configuration with no container and no account.
   */
  lemma AzureWithoutEnvironment(s: StorageSiteLoader)
    ensures LoadConfig(s, false, map[]).Success?
    ensures LoadConfig(s, false, map[]).value.containerName == ""
    ensures LoadConfig(s, false, map[]).value.accountName == ""
  {
    Azure.ParseEmpty();
  }

  /** A loader made by NewStorageSiteLoader serves the local remote from the path it was given. */
  lemma NewLoaderServesPath(path: string, env: Environment)
    ensures LoadConfig(NewStorageSiteLoader(path), true, env) == Success(LocalConfig(path))
  {
  }
}
