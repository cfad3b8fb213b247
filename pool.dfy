/** The connection types of pkg/pool/conn.go; the openers themselves are not modelled. */
module Pool {
  import opened Wrappers
  import Url

  /** ConfigType: "unknown", "azure" or "http". */
  datatype ConfigType = Unknown | Azure | Http

  /**
   * ConnectionConfig: how to reach one remote's storage. `url` is Go's
   * `*url.URL`, nil (`None`) unless the configuration was loaded for Azure.
   */
  datatype ConnectionConfig = ConnectionConfig(
    configType: ConfigType,
    url: Option<Url.Url>,
    containerName: string,
    connectionString: string,
    accountName: string,
    accountKey: string,
    remoteId: int)
}
