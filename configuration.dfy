/**
 * The process-wide settings and the list of targets that the monitor reads
 * from its YAML configuration. The YAML loading itself is not modelled: a
 * configuration arrives here already parsed.
 */
module Configuration {
  import opened Wrappers

  /** The module-level globals `CLIENT_NAME`, `STATUS_DIR`, `DEFAULT_TIMEOUT_MS`,
      `PUSHOVER_API_TOKEN` and `PUSHOVER_USER_KEY`. */
  datatype Settings = Settings(
    clientName: string,
    statusDir: string,
    defaultTimeoutMs: int,
    pushoverToken: string,
    pushoverUser: string)
  {
    /** Python's `PUSHOVER_API_TOKEN and PUSHOVER_USER_KEY`: both strings non-empty. */
    predicate PushoverEnabled()
    {
      pushoverToken != "" && pushoverUser != ""
    }
  }

  /** The values used when the configuration does not set a key. */
  const Defaults := Settings("phoenix3", "/tmp/status_files/", 5000, "", "")

  /** One entry of the `urls` list: its `name`, its `url` and the optional
      `checkJson` and `checkText` flags (absent means false). */
  datatype UrlEntry = UrlEntry(name: string, url: string, checkJson: bool, checkText: bool)

  /** A configuration document that loaded as a dictionary: what
      `config.get("urls", [])` and `config.get("hosts-ssh", [])` return. An
      absent key is `Some([])`; a key present with a null value is `None`,
      which `for` cannot iterate. */
  datatype Config = Config(urls: Option<seq<UrlEntry>>, hosts: Option<seq<string>>)
  {
    /** Both values are lists, so both loops of `main` run to the end. */
    predicate Listed()
    {
      urls.Some? && hosts.Some?
    }
  }
}
