/** Configuration as both variants read it. */
module Settings {
  /** A string-valued configuration record: `process.env`, or the values behind `ConfigService`. */
  type Config = map<string, string>

  /** The sender address setting, read for every envelope in both variants. */
  const FromVar := "SMTP_FROM"
}
