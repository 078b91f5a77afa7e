/** The provider chart's settings. */
module Chart {
  import opened Routes

  datatype ChartSettings = ChartSettings(
    gatewayEnabled: bool, gateway: Gateway, authEnabled: bool, https: bool, allowInsecureHttp: bool,
    rateLimited: bool, hfToken: bool, podMonitors: bool)
}
