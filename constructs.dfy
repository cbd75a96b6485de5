/** The collaborators of a check whose code lies outside this model, reduced to
    what a check hands them: the process-wide session, the subscription records
    a check creates, and the project's construct registry, where every
    construct is recorded when it is created. */
module Constructs {
  import opened JsValues

  /** The process-wide context read while a check is constructed: the
      defaults object loaded from the project configuration, if any, and the
      path of the check file being loaded. */
  datatype Session = Session(checkDefaults: Nullable<map<string, Value>>, checkFilePath: Nullable<string>)

  /** The properties passed to the constructor of an alert channel
      subscription, together with its logical id. */
  datatype AlertChannelSubscription =
    AlertChannelSubscription(logicalId: string, alertChannelId: Ref, checkId: Ref, activated: bool)

  /** What the registry learns about a construct when it is created. */
  datatype Resource =
    | CheckResource(checklyType: string, logicalId: string)
    | SubscriptionResource(subscription: AlertChannelSubscription)
  {
    function LogicalId(): string {
      match this
      case CheckResource(_, id) => id
      case SubscriptionResource(s) => s.logicalId
    }
  }

  /** The project's construct registry: creating a construct appends it. */
  class Registry {
    var resources: seq<Resource>

    constructor ()
      ensures resources == []
    {
      resources := [];
    }

    method Register(r: Resource)
      modifies this
      ensures resources == old(resources) + [r]
    {
      resources := resources + [r];
    }
  }
}
