/** internal/config/config.go: one MCP server's configuration, and the text that
    internal/cache/cache.go hashes to recognise it. */
module McpConfig {
  import opened Ordering

  datatype Source = SourceLocal | SourceProject | SourceUser

  datatype MCPConfig = MCPConfig(
    name: string,
    kind: string,
    command: string,
    args: seq<string>,
    env: map<string, string>,
    url: string,
    headers: map<string, string>,
    timeout: string,
    maxRetries: int,
    healthCheckInterval: string,
    isDynamic: bool,
    source: Source)

  /** The transport type, inferred when it is not given. */
  function InferType(kind: string, command: string, url: string): (r: string)
    ensures r != ""
    ensures kind != "" ==> r == kind
    ensures kind == "" ==> r == if command == "" && url != "" then "http" else "stdio"
  {
    if kind != "" then kind
    else if command != "" then "stdio"
    else if url != "" then "http"
    else "stdio"
  }

  function JoinNul(args: seq<string>): string
  {
    if args == [] then ""
    else if |args| == 1 then args[0]
    else args[0] + ("\0" + JoinNul(args[1..]))
  }

  function PairLines(keys: seq<string>, m: map<string, string>): string
    requires forall k <- keys :: k in m
  {
    if keys == [] then "" else keys[0] + ("=" + (m[keys[0]] + ("\0" + PairLines(keys[1..], m))))
  }

  function SortedMapString(m: map<string, string>): string
  {
    PairLines(SortedKeys(m.Keys), m)
  }

  function Line(title: string, value: string, rest: string): string
  {
    title + (value + ("\n" + rest))
  }

  /** What ConfigHash feeds to SHA-256: the identity fields only. The digest itself
      is not modelled, so two configurations hash alike here exactly when this text
      is the same. */
  function ConfigHash(cfg: MCPConfig): string
  {
    Line("type:", cfg.kind,
    Line("command:", cfg.command,
    Line("args:", JoinNul(cfg.args),
    Line("url:", cfg.url,
    Line("headers:", SortedMapString(cfg.headers),
    Line("env:", SortedMapString(cfg.env), ""))))))
  }
}
