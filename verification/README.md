# JsonRpcMultiServer routing layer, in Dafny

This project models the multi-service routing layer of jsonrpc4j's
`JsonRpcMultiServer`: one JSON-RPC dispatcher serving several handler
objects, each registered under a service name and selected by a prefix of
the request's `method` string (`"Foo.test"` calls `test` on service `Foo`).

It has two parts.

- `routing.dfy`, module `Routing`: the pure splitting rule behind
  `getServiceName` and `getMethodName`. Java's `String.indexOf(char)` is
  modelled as `IndexOf`. The raw name is split at the first separator only
  when that index is strictly greater than 0. A name that starts with the
  separator (`".bar"`, or even `".a.b"`) is therefore never split; this
  legacy behaviour is kept exactly as written. A null (or JSON-null) method
  node is `None`, and both names are then `None`.
- `multi_server.dfy`, module `MultiServer`: the registry. The class
  `JsonRpcMultiServer` holds `handlerMap`, `interfaceMap` and `separator`
  (default `'.'`). `AddService` and `AddServiceWithInterface` (the two Java
  overloads of `addService`) and `SetSeparator` update them in place; the
  two `AddService` methods return the server itself. `HandlerFor` and `InterfacesFor` are the lookups
  of `getHandler` and `getHandlerInterfaces`, written over the two tables;
  the class functions `GetHandler` and `GetHandlerInterfaces` apply them to
  the server's fields.
- `wrappers.dfy`, module `Wrappers`: `Option` for Java's nullable
  references and `Result` for a lookup that may throw.

Java `null` is `None` throughout: for the method node, for service names
used as keys, for the handler (a null handler is stored, as `HashMap.put`
stores it, and looking it up fails), and for the optional interface.
Reflection is replaced by the `Handler` datatype: an identity, an
`isProxy` flag (`Proxy.isProxyClass`), the interfaces its runtime class
implements (`getInterfaces`), and the runtime class itself (`getClass`).
The `RuntimeException` thrown by `getHandler` is
`Failure(ServiceNotRegistered(name))`.

## Model

| member | source | states |
|---|---|---|
| `Routing.IndexOf` | src/main/java/com/yzmy/jsonrpc4j/JsonRpcMultiServer.java:150 | the result is -1 exactly when the separator is absent; otherwise it is an index holding the separator with no separator before it |
| `Routing.ServiceName` | src/main/java/com/yzmy/jsonrpc4j/JsonRpcMultiServer.java:147-156 | null in gives null out and only then; a non-null result is a prefix of the raw name |
| `Routing.MethodName` | src/main/java/com/yzmy/jsonrpc4j/JsonRpcMultiServer.java:165-174 | null in gives null out and only then; a non-null result is never longer than the raw name |
| `Routing.IndexOfPositive` | src/main/java/com/yzmy/jsonrpc4j/JsonRpcMultiServer.java:150-151 | the `ndx > 0` test holds exactly when the separator occurs and the name does not start with it |
| `Routing.SplitRoundTrip` | src/main/java/com/yzmy/jsonrpc4j/JsonRpcMultiServer.java:150-152 | when a split happens, the service name is non-empty and separator-free, the separator follows it, the method name is the whole remainder, and service + separator + method gives back the raw name |
| `Routing.NoSplitKeepsRaw` | src/main/java/com/yzmy/jsonrpc4j/JsonRpcMultiServer.java:151-155 | when the separator is absent or first occurs at index 0, both parts are the raw name unchanged |
| `Routing.SplitChangesNames` | src/main/java/com/yzmy/jsonrpc4j/JsonRpcMultiServer.java:150-173 | the service name, and likewise the method name, differs from the raw name if and only if a split happens |
| `Routing.JoinThenSplit` | src/main/java/com/yzmy/jsonrpc4j/JsonRpcMultiServer.java:150-152 | joining a non-empty separator-free service name and any method name with the separator, then splitting, returns both parts; the method name may contain separators or be empty |
| `Routing.RoutingExamples` | src/main/java/com/yzmy/jsonrpc4j/JsonRpcMultiServer.java:53-173 | "Foo.test" routes to ("Foo", "test"), "Foo." to ("Foo", ""), "a.b.c" to ("a", "b.c"); ".bar" and "bar" are returned unchanged for both parts |
| `MultiServer.HandlerFor` | src/main/java/com/yzmy/jsonrpc4j/JsonRpcMultiServer.java:130-137 | succeeds exactly when the name has a non-null entry, and then returns that very handler; otherwise fails with "service does not exist" for that name |
| `MultiServer.InterfacesFor` | src/main/java/com/yzmy/jsonrpc4j/JsonRpcMultiServer.java:111-120 | an explicit interface gives that single interface; otherwise the lookup fails exactly when the handler lookup fails, and gives the proxy's interfaces for a proxy handler or the singleton of the handler's class otherwise |
| `MultiServer.JsonRpcMultiServer.constructor` | src/main/java/com/yzmy/jsonrpc4j/JsonRpcMultiServer.java:66-81 | a new server has empty tables and the separator '.' |
| `MultiServer.JsonRpcMultiServer.AddService` | src/main/java/com/yzmy/jsonrpc4j/JsonRpcMultiServer.java:83-85 | stores the handler (last write wins), leaves the interface table and separator alone, returns the same server; lookup of the name gives the new handler, every other name looks up as before, and an earlier explicit interface stays the visible one |
| `MultiServer.JsonRpcMultiServer.AddServiceWithInterface` | src/main/java/com/yzmy/jsonrpc4j/JsonRpcMultiServer.java:87-93 | the handler table gains the entry, the interface table changes only for a non-null interface, the server itself is returned; lookup of the name gives the new handler, other names are unaffected in both lookups, and the visible types of the name are the new interface, or the earlier one when none is given |
| `MultiServer.JsonRpcMultiServer.SetSeparator` | src/main/java/com/yzmy/jsonrpc4j/JsonRpcMultiServer.java:95-101 | `GetSeparator` afterwards returns the value set; the registered services are unchanged |
| `MultiServer.JsonRpcMultiServer.GetSeparator` | src/main/java/com/yzmy/jsonrpc4j/JsonRpcMultiServer.java:95-97 | returns the separator currently in use (the default '.' after construction, the last value set afterwards) |
| `MultiServer.JsonRpcMultiServer.GetHandler` | src/main/java/com/yzmy/jsonrpc4j/JsonRpcMultiServer.java:130-137 | `HandlerFor` on the server's handler table: succeeds exactly for a name with a non-null entry and returns that handler, otherwise fails with "service does not exist" for that name |
| `MultiServer.JsonRpcMultiServer.GetHandlerInterfaces` | src/main/java/com/yzmy/jsonrpc4j/JsonRpcMultiServer.java:111-120 | `InterfacesFor` on the server's tables: the explicit interface if registered, otherwise fails exactly when `GetHandler` fails, else the proxy's interfaces or the singleton of the handler's class |
| `MultiServer.JsonRpcMultiServer.GetServiceName` | src/main/java/com/yzmy/jsonrpc4j/JsonRpcMultiServer.java:147-156 | with the server's separator: null only for a null node; a prefix of the raw name; differs from the raw name exactly when it is split, and when it differs from the raw name it is non-empty, separator-free, and joins with the method name and separator into the raw name |
| `MultiServer.JsonRpcMultiServer.GetMethodName` | src/main/java/com/yzmy/jsonrpc4j/JsonRpcMultiServer.java:165-174 | with the server's separator: null only for a null node; equal to the raw name exactly when no split happens |

## Left out

- The `JsonRpcServer` superclass is not part of this model: envelope
  validation, overload resolution, parameter binding, invocation, batches
  and error codes are not modelled, and neither is how it calls the methods
  modelled here.
- Jackson: the `ObjectMapper` constructor argument is dropped (so the two
  Java constructors are one), and the method node is given directly as an
  optional string; `JsonNode.asText()` on non-text nodes is not modelled.
- Java reflection is replaced by the fields of `Handler`; handler identity
  is the `identity` field rather than reference identity.
- The log record written by `getHandler` and the text of its exception
  message are not modelled; the failure carries the service name only.
- Concurrency: the Java maps are unsynchronised `HashMap`s and the model is
  sequential.
- Characters: Java strings and `char` are UTF-16 code units, Dafny's `char`
  is a Unicode scalar value. No Java string holding an unpaired surrogate
  (method name, service name or separator) is representable, and indices
  count scalar values rather than UTF-16 units. For what is representable
  the split results agree with Java's: a Java separator is a single UTF-16
  unit, so a representable one is a non-surrogate character of the Basic
  Multilingual Plane and never matches half of a surrogate pair.
