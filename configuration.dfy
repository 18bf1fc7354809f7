/** The configuration snapshot a change notification delivers: string keys to string values. */
module Configuration {

  type ConfigurationRoot = map<string, string>

  /** ConfigurationRoot.GetStringValueOrDefault. */
  function GetStringValueOrDefault(c: ConfigurationRoot, key: string, default: string): string {
    if key in c then c[key] else default
  }
}
