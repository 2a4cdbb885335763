/** The `McpServers` configuration section: where the remote tool servers are and how to authenticate. */
module McpConfig {
  import opened Wrappers

  /** The configuration section these settings are bound from. */
  const SectionName: string := "McpServers"

  datatype ZomatoMcpSettings = ZomatoMcpSettings(endpoint: string, name: string, enabled: bool, accessToken: Option<string>)

  datatype SwiggyMcpSettings = SwiggyMcpSettings(
    accessToken: Option<string>,
    foodEndpoint: string,
    instamartEndpoint: string,
    dineoutEndpoint: string)

  datatype McpSettings = McpSettings(zomato: ZomatoMcpSettings, swiggy: SwiggyMcpSettings)

  /** `new ZomatoMcpSettings()`: empty endpoint, name `Zomato`, enabled, no token. */
  const DefaultZomatoSettings: ZomatoMcpSettings := ZomatoMcpSettings("", "Zomato", true, None)

  /** `new SwiggyMcpSettings()`: no token, the three public Swiggy endpoints. */
  const DefaultSwiggySettings: SwiggyMcpSettings := SwiggyMcpSettings(
    None,
    "https://mcp.swiggy.com/food",
    "https://mcp.swiggy.com/im",
    "https://mcp.swiggy.com/dineout")

  /** `new McpSettings()`: both sub-settings present with their defaults. */
  const DefaultMcpSettings: McpSettings := McpSettings(DefaultZomatoSettings, DefaultSwiggySettings)
}
