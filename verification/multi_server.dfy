/** The service registry of the multi-service JSON-RPC server: a map from
    service name to handler, a map from service name to an explicitly exposed
    interface, and the separator used to route method names. Java's nullable
    references (service name, handler, interface, method node) are `Option`s. */
module MultiServer {
  import opened Wrappers
  import Routing

  /** A Java class or interface, known by its name. */
  datatype JavaClass = JavaClass(name: string)

  /** A handler object, described by the facts dispatch asks of it through
      reflection: its identity, whether its runtime class is a dynamic proxy,
      the interfaces that runtime class implements, and the runtime class. */
  datatype Handler = Handler(
    identity: nat,
    isProxy: bool,
    interfaces: seq<JavaClass>,
    runtimeClass: JavaClass)

  /** The `RuntimeException` thrown when a service has no (non-null) handler. */
  datatype ServiceError = ServiceNotRegistered(serviceName: Option<string>)

  /** The handler table: service name to handler; a null handler is kept. */
  type HandlerTable = map<Option<string>, Option<Handler>>

  /** The interface table: service name to explicitly exposed interface. */
  type InterfaceTable = map<Option<string>, JavaClass>

  /** `getHandler` on a handler table: the handler registered under
      `serviceName`, or the "does not exist" failure when there is no entry
      or the entry is null. */
  function HandlerFor(handlers: HandlerTable, serviceName: Option<string>): (r: Result<Handler, ServiceError>)
    ensures r.Success? <==> serviceName in handlers && handlers[serviceName].Some?
    ensures r.Success? ==> handlers[serviceName] == Some(r.value)
    ensures r.Failure? ==> r.error == ServiceNotRegistered(serviceName)
  {
    if serviceName in handlers && handlers[serviceName].Some? then
      Success(handlers[serviceName].value)
    else
      Failure(ServiceNotRegistered(serviceName))
  }

  /** `getHandlerInterfaces` on the two tables: the types visible for
      dispatch. An explicit interface wins; otherwise a proxy handler exposes
      its interfaces and any other handler its own class. Without an explicit
      interface the lookup fails exactly when `HandlerFor` does. */
  function InterfacesFor(handlers: HandlerTable, interfaces: InterfaceTable, serviceName: Option<string>)
    : (r: Result<seq<JavaClass>, ServiceError>)
    ensures serviceName in interfaces ==> r == Success([interfaces[serviceName]])
    ensures serviceName !in interfaces ==> (r.Success? <==> HandlerFor(handlers, serviceName).Success?)
    ensures serviceName !in interfaces && r.Failure? ==> r.error == ServiceNotRegistered(serviceName)
    ensures serviceName !in interfaces && r.Success? ==>
              var h := HandlerFor(handlers, serviceName).value;
              r.value == if h.isProxy then h.interfaces else [h.runtimeClass]
  {
    if serviceName in interfaces then
      Success([interfaces[serviceName]])
    else
      match HandlerFor(handlers, serviceName)
      case Failure(e) => Failure(e)
      case Success(h) =>
        if h.isProxy then Success(h.interfaces) else Success([h.runtimeClass])
  }

  class JsonRpcMultiServer {
    var handlerMap: HandlerTable
    var interfaceMap: InterfaceTable
    var separator: char

    /** A server with no services and the default separator '.'. */
    constructor ()
      ensures handlerMap == map[] && interfaceMap == map[]
      ensures GetSeparator() == Routing.DefaultSeparator
    {
      handlerMap := map[];
      interfaceMap := map[];
      separator := Routing.DefaultSeparator;
    }

    /** Registers `handler` under `name` with no explicit interface. */
    method AddService(name: Option<string>, handler: Option<Handler>) returns (server: JsonRpcMultiServer)
      modifies this
      ensures server == this
      ensures handlerMap == old(handlerMap)[name := handler]
      ensures interfaceMap == old(interfaceMap)
      ensures separator == old(separator)
      ensures handler.Some? ==> GetHandler(name) == Success(handler.value)
      ensures handler.None? ==> GetHandler(name) == Failure(ServiceNotRegistered(name))
      ensures forall n :: n != name ==> GetHandler(n) == HandlerFor(old(handlerMap), n)
      ensures forall n :: n != name ==> GetHandlerInterfaces(n) == InterfacesFor(old(handlerMap), old(interfaceMap), n)
      ensures name in old(interfaceMap) ==> GetHandlerInterfaces(name) == Success([old(interfaceMap)[name]])
    {
      server := AddServiceWithInterface(name, handler, None);
    }

    /** Registers `handler` under `name`, overwriting any earlier handler; the
        interface is recorded only when it is non-null, so an interface
        registered earlier under `name` survives a registration without one. */
    method AddServiceWithInterface(name: Option<string>, handler: Option<Handler>, remoteInterface: Option<JavaClass>)
      returns (server: JsonRpcMultiServer)
      modifies this
      ensures server == this
      ensures handlerMap == old(handlerMap)[name := handler]
      ensures interfaceMap == if remoteInterface.Some? then old(interfaceMap)[name := remoteInterface.value]
                              else old(interfaceMap)
      ensures separator == old(separator)
      ensures handler.Some? ==> GetHandler(name) == Success(handler.value)
      ensures handler.None? ==> GetHandler(name) == Failure(ServiceNotRegistered(name))
      ensures forall n :: n != name ==> GetHandler(n) == HandlerFor(old(handlerMap), n)
      ensures forall n :: n != name ==> GetHandlerInterfaces(n) == InterfacesFor(old(handlerMap), old(interfaceMap), n)
      ensures remoteInterface.Some? ==> GetHandlerInterfaces(name) == Success([remoteInterface.value])
      ensures remoteInterface.None? && name in old(interfaceMap) ==>
                GetHandlerInterfaces(name) == Success([old(interfaceMap)[name]])
    {
      handlerMap := handlerMap[name := handler];
      if remoteInterface.Some? {
        interfaceMap := interfaceMap[name := remoteInterface.value];
      }
      server := this;
    }

    /** `getSeparator`: the separator currently used for routing. */
    function GetSeparator(): (c: char)
      reads this
      ensures c == separator
    {
      separator
    }

    /** Changes the routing separator; the registered services stay as they are. */
    method SetSeparator(sep: char)
      modifies this
      ensures GetSeparator() == sep
      ensures handlerMap == old(handlerMap) && interfaceMap == old(interfaceMap)
    {
      separator := sep;
    }

    /** `getHandler` on this server's handler table: the registered
        handler, or the "does not exist" failure for a missing or null entry. */
    function GetHandler(serviceName: Option<string>): (r: Result<Handler, ServiceError>)
      reads this
      ensures r.Success? <==> serviceName in handlerMap && handlerMap[serviceName].Some?
      ensures r.Success? ==> handlerMap[serviceName] == Some(r.value)
      ensures r.Failure? ==> r.error == ServiceNotRegistered(serviceName)
    {
      HandlerFor(handlerMap, serviceName)
    }

    /** `getHandlerInterfaces` on this server's tables: the explicit
        interface if one is registered, else the proxy's interfaces or the
        handler's class, failing exactly when `GetHandler` does. */
    function GetHandlerInterfaces(serviceName: Option<string>): (r: Result<seq<JavaClass>, ServiceError>)
      reads this
      ensures serviceName in interfaceMap ==> r == Success([interfaceMap[serviceName]])
      ensures serviceName !in interfaceMap ==> (r.Success? <==> GetHandler(serviceName).Success?)
      ensures serviceName !in interfaceMap && r.Failure? ==> r.error == ServiceNotRegistered(serviceName)
      ensures serviceName !in interfaceMap && r.Success? ==>
                var h := GetHandler(serviceName).value;
                r.value == if h.isProxy then h.interfaces else [h.runtimeClass]
    {
      InterfacesFor(handlerMap, interfaceMap, serviceName)
    }

    /** `getServiceName` with the current separator. A null node gives null;
        otherwise the result is a prefix of the raw name, differs from it
        exactly when the raw name is split, and then is non-empty, holds no separator, and joins with
        `GetMethodName` and the separator back into the raw name. */
    function GetServiceName(methodNode: Option<string>): (r: Option<string>)
      reads this
      ensures r.None? <==> methodNode.None?
      ensures r.Some? ==> r.value <= methodNode.value
      ensures methodNode.Some? ==> (r == methodNode <==> !Routing.Splits(methodNode.value, separator))
      ensures r.Some? && r != methodNode ==>
                && |r.value| > 0
                && separator !in r.value
                && GetMethodName(methodNode).Some?
                && r.value + [separator] + GetMethodName(methodNode).value == methodNode.value
    {
      Routing.SplitChangesNames(methodNode.GetOr(""), separator);
      Routing.ServiceName(methodNode, separator)
    }

    /** `getMethodName` with the current separator. A null node gives null;
        otherwise the result is the raw name itself exactly when the raw name
        is not split (separator absent, or first found at index 0). */
    function GetMethodName(methodNode: Option<string>): (r: Option<string>)
      reads this
      ensures r.None? <==> methodNode.None?
      ensures methodNode.Some? ==> (r == methodNode <==> !Routing.Splits(methodNode.value, separator))
    {
      Routing.SplitChangesNames(methodNode.GetOr(""), separator);
      Routing.MethodName(methodNode, separator)
    }
  }
}
