/** The parts of a web application's configuration the renderer reads. */
module WebApps {
  import opened Wrappers

  datatype Server = Server(secure: bool)

  datatype VirtualHost = VirtualHost(host: Option<string>, server: Option<Server>)

  /** `languages` is None when the application has no language provider
      or the provider lists no languages. */
  datatype WebApplication = WebApplication(
    id: string,
    virtualHost: Option<VirtualHost>,
    serverPath: string,
    languages: Option<seq<string>>)

  /** Whether URIs of this application are built as https. */
  function IsSecure(app: WebApplication): (r: bool)
    ensures r ==> app.virtualHost.Some? && app.virtualHost.value.server.Some?
    ensures app.virtualHost.Some? && app.virtualHost.value.server.Some? ==> r == app.virtualHost.value.server.value.secure
  {
    if app.virtualHost.Some? && app.virtualHost.value.server.Some? then app.virtualHost.value.server.value.secure
    else false
  }
}
