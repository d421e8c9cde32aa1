/** What the proxy and the code around it can throw. */
module Errors {

  datatype Error =
    | Thrown(message: string)          // `throw "<message>"`: a bare string thrown by the proxy
    | TypeError(message: string)       // raised by the JavaScript runtime (property access on a primitive)
    | ReferenceError(identifier: string) // raised by the runtime when a name is not in scope
    | External(message: string)        // raised by code outside the model: the YAML parser, the factory, a backend

  const MissingDriver: string := "real driver is missing from config"
  const CyclicDependency: string := "cyclic dependency: proxy on proxy"
  const UnsupportedPrefix: string := "proxy is not supported for driver: "
}
