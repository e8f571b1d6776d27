/**
 * The connection to one child-process service, as the allocator sees it: an
 * opaque object with the identity it was created with. Binding, starting and
 * the lifecycle callbacks belong to the connection itself and are not modelled.
 */
module Connection {
  import opened Wrappers

  /** The (package, class) pair that names an Android service. */
  datatype ComponentName = ComponentName(packageName: string, className: string)

  /**
   * What the default connection factory records about a new connection. Two
   * connections are the same connection only when they are the same object.
   */
  class ChildProcessConnection {
    const serviceName: ComponentName
    const bindToCaller: bool
    const bindAsExternalService: bool
    const instanceName: Option<string>

    constructor (serviceName: ComponentName, bindToCaller: bool, bindAsExternalService: bool,
                 instanceName: Option<string>)
      ensures this.serviceName == serviceName
      ensures this.bindToCaller == bindToCaller
      ensures this.bindAsExternalService == bindAsExternalService
      ensures this.instanceName == instanceName
    {
      this.serviceName := serviceName;
      this.bindToCaller := bindToCaller;
      this.bindAsExternalService := bindAsExternalService;
      this.instanceName := instanceName;
    }
  }
}
