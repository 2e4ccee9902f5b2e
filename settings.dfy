/**
 * The service's environment configuration and the Event Hubs consumer it
 * derives from it when the background consumer starts.
 */
module Settings {
  import opened Wrappers
  import opened Namespace

  datatype Config = Config(
    namespace: string,
    hubName: string,
    consumerGroup: string,
    clientId: string,
    daprPort: string)

  /**
   * Reads each setting from the environment; a variable that is set is taken
   * as it is (even when empty), an unset one falls back to its default.
   */
  function FromEnvironment(env: map<string, string>): (c: Config)
    ensures c.namespace == (if "EVENTHUB_NAMESPACE" in env then env["EVENTHUB_NAMESPACE"] else "")
    ensures c.hubName == (if "EVENTHUB_NAME" in env then env["EVENTHUB_NAME"] else "telemetry")
    ensures c.consumerGroup == (if "CONSUMER_GROUP" in env then env["CONSUMER_GROUP"] else "ingestion")
    ensures c.clientId == (if "AZURE_CLIENT_ID" in env then env["AZURE_CLIENT_ID"] else "")
    ensures c.daprPort == (if "DAPR_HTTP_PORT" in env then env["DAPR_HTTP_PORT"] else "3500")
  {
    Config(
      GetEnv(env, "EVENTHUB_NAMESPACE", ""),
      GetEnv(env, "EVENTHUB_NAME", "telemetry"),
      GetEnv(env, "CONSUMER_GROUP", "ingestion"),
      GetEnv(env, "AZURE_CLIENT_ID", ""),
      GetEnv(env, "DAPR_HTTP_PORT", "3500"))
  }

  function GetEnv(env: map<string, string>, key: string, default: string): string {
    if key in env then env[key] else default
  }

  /** With nothing set, the consumer is disabled and the documented defaults apply. */
  lemma EmptyEnvironmentDefaults()
    ensures FromEnvironment(map[]) == Config("", "telemetry", "ingestion", "", "3500")
  {
  }

  datatype Credential = UserAssignedIdentity(clientId: string) | DefaultCredentialChain

  datatype ConsumerPlan = ConsumerPlan(
    fullyQualifiedNamespace: string,
    hubName: string,
    consumerGroup: string,
    credential: Credential,
    startingPosition: string)

  /**
   * The starting position the consumer passes to the Event Hubs client. In
   * that client "-1" denotes the start of the partition stream (the end is
   * "@latest"); it applies only where no checkpoint exists yet.
   */
  const StartingPosition := "-1"

  /**
   * What the background consumer connects to, or None when no namespace is
   * configured and the consumer returns without receiving anything.
   */
  function StartConsumer(cfg: Config): (plan: Option<ConsumerPlan>)
    ensures plan.None? <==> cfg.namespace == ""
    ensures plan.Some? ==>
      && plan.value.fullyQualifiedNamespace == FullyQualifiedNamespace(cfg.namespace)
      && Contains(plan.value.fullyQualifiedNamespace, ServiceBusSuffix)
      && cfg.namespace <= plan.value.fullyQualifiedNamespace
      && plan.value.hubName == cfg.hubName
      && plan.value.consumerGroup == cfg.consumerGroup
      && plan.value.startingPosition == StartingPosition
      && (plan.value.credential.UserAssignedIdentity? <==> cfg.clientId != "")
      && (plan.value.credential.UserAssignedIdentity? ==> plan.value.credential.clientId == cfg.clientId)
  {
    if cfg.namespace == "" then None
    else
      var credential := if cfg.clientId != "" then UserAssignedIdentity(cfg.clientId) else DefaultCredentialChain;
      Some(ConsumerPlan(
        FullyQualifiedNamespace(cfg.namespace), cfg.hubName, cfg.consumerGroup, credential, StartingPosition))
  }
}
