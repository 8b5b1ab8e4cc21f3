/** The deployment constants of the relay: its name, its public URL and the
    origin allowlist loaded at start-up. */
module Confs {
  import opened Allowlist

  const AppName: string := "Elephant"
  const AppUrl: string := "https://github.com/burg113/ELEPHANT"

  /** The one shipped rule: `campus.kit.edu` over http or https, below `/sp/webcal/`. */
  const OriginWhitelist: Whitelist :=
    map["campus.kit.edu" := Rule(["http", "https"], ["/sp/webcal/"])]
}
