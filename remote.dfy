/** The platform's REST surface as the tools use it, abstracted to a log of
    calls and a server oracle that decides each call's outcome from the
    calls issued before it. */
module Remote {
  import opened Js

  /** One request to the platform. */
  datatype Call =
    // reads
    | FindAll(collection: string, scope: Option<Value>)         // iApp[collection].findAll(filter?)
    | GetStoreConnectors                                           // iApp.get("connectors")
    | GetConnectorVersions(connectorId: string)                    // iApp.get(`/connectors/${id}/versions`)
    // connectors and integrations
    | CreateConnector(body: Element)                               // iApp.post("connectors", body)
    | PublishVersion(connectorId: string, version: string)         // POST connectors/:id/publish-version
    | UploadDevelopment(connectorId: string)                       // POST connectors/:id/upload
    | CreateIntegration(connector: Value, key: Value, name: Value)
    | SwitchVersion(integrationId: string, connectorVersionId: Value)
    // workspace elements; `typ` is the catalog type the SDK accessor belongs to
    | Put(typ: string, id: Value, body: Element)                  // iApp[element](id).put(body)
    | Reset(typ: string, id: Value)                                // iApp[element](id).reset()
    | Apply(typ: string, key: Value, integrationKeys: seq<Value>)  // iApp[element]({key}).apply(keys)
    | PutByKey(typ: string, key: Value, integrationKey: Value, body: Element)
    | Create(typ: string, body: Element)                           // iApp[elements].create(body)

  predicate IsRead(c: Call)
  {
    c.FindAll? || c.GetStoreConnectors? || c.GetConnectorVersions?
  }

  predicate IsElementCall(c: Call)
  {
    c.Put? || c.Reset? || c.Apply? || c.PutByKey? || c.Create?
  }

  /** The destination platform.  Every answer may depend on the whole history
      of earlier calls, so a create can make a later lookup succeed. */
  datatype Server = Server(
    succeeds: (seq<Call>, Call) -> bool,        // the call resolves rather than rejects
    list: (seq<Call>, Call) -> seq<Element>,    // the array a read resolves to
    newId: (seq<Call>, Call) -> Value)          // the `id` of what a create returns

  /** Why a run stops. */
  datatype Error =
    | TypeError(what: string)                                   // a JavaScript runtime error
    | Duplicate(typ: string, key: Value, integrationKey: Value) // "More than one ... found"
    | Rejected(call: Call)                                      // the platform rejected a call
    | IntegrationMismatch(integrations: seq<Element>)           // "Integration missmatch errors"
    | FileMissing(path: string)                                 // a read of a file that is not there

  /** The calls issued so far and, once the run has thrown, why. */
  datatype Run = Run(log: seq<Call>, err: Option<Error>)
  {
    predicate Failed() { err.Some? }
  }

  /** `await call`: the call is logged whatever its outcome; a rejection
      becomes the run's error. */
  function Issue(server: Server, log: seq<Call>, c: Call): (r: Run)
    ensures r.log == log + [c]
    ensures r.Failed() <==> !server.succeeds(log, c)
  {
    Run(log + [c], if server.succeeds(log, c) then None else Some(Rejected(c)))
  }
}
