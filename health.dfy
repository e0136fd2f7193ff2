// The health endpoint: one status entry per checked service and an overall
// status aggregated from them. Logging is not part of this model.
module Health {
  import opened Wrappers
  import opened Json
  import opened Text
  import opened ApiConfig

  const Healthy := "healthy"
  const Unhealthy := "unhealthy"
  const Degraded := "degraded"
  const Unknown := "unknown"

  datatype ServiceStatus = ServiceStatus(name: string, status: string, message: string)

  /** The response: the overall status and the services dict in insertion order. */
  datatype HealthStatus = HealthStatus(status: string, services: seq<(string, ServiceStatus)>)

  /** `all(s == v for s in statuses)`. */
  function AllAre(statuses: seq<string>, v: string): (b: bool)
    ensures b <==> forall i :: 0 <= i < |statuses| ==> statuses[i] == v
  {
    if statuses == [] then true else statuses[0] == v && AllAre(statuses[1..], v)
  }

  /** The overall status: healthy when every service is, unhealthy when every service is, degraded otherwise. */
  function Overall(statuses: seq<string>): (r: string)
    ensures r == Healthy || r == Unhealthy || r == Degraded
    ensures r == Healthy <==> forall i :: 0 <= i < |statuses| ==> statuses[i] == Healthy
    ensures r == Unhealthy <==>
      (exists i :: 0 <= i < |statuses| && statuses[i] != Healthy)
      && (forall i :: 0 <= i < |statuses| ==> statuses[i] == Unhealthy)
  {
    if AllAre(statuses, Healthy) then Healthy
    else if AllAre(statuses, Unhealthy) then Unhealthy
    else Degraded
  }

  /** One status that is neither healthy nor unhealthy makes the whole degraded. */
  lemma OneUnknownDegrades(statuses: seq<string>, i: nat)
    requires i < |statuses| && statuses[i] != Healthy && statuses[i] != Unhealthy
    ensures Overall(statuses) == Degraded
  {
  }

  function Statuses(services: seq<(string, ServiceStatus)>): (r: seq<string>)
    ensures |r| == |services| && forall i :: 0 <= i < |r| ==> r[i] == services[i].1.status
  {
    seq(|services|, i requires 0 <= i < |services| => services[i].1.status)
  }

  /** The configuration check: healthy iff the loaded dict is non-empty. */
  function ConfigCheck(config: Json): (s: ServiceStatus)
    ensures s.name == "configuration"
    ensures s.status == Healthy <==> Truthy(config)
    ensures s.status != Healthy ==> s.status == Unhealthy
  {
    if Truthy(config) then ServiceStatus("configuration", Healthy, "Configuration loaded successfully")
    else ServiceStatus("configuration", Unhealthy, "Configuration not loaded")
  }

  /** The model check: healthy iff at least one model is configured; a failing listing is unhealthy. */
  function ModelsCheck(models: Result<seq<string>>): (s: ServiceStatus)
    ensures s.name == "model_mapping"
    ensures s.status == Healthy <==> models.Ok? && |models.value| > 0
    ensures s.status != Healthy ==> s.status == Unhealthy
    ensures models.Ok? && |models.value| > 0 ==> s.message == NatToString(|models.value|) + " models configured"
  {
    match models
    case Err(e) => ServiceStatus("model_mapping", Unhealthy, "Model mapping error: " + e)
    case Ok(ms) =>
      if |ms| > 0 then ServiceStatus("model_mapping", Healthy, NatToString(|ms|) + " models configured")
      else ServiceStatus("model_mapping", Unhealthy, "No models configured")
  }

  const OrchestratorStatus := ServiceStatus("orchestrator", Unknown, "Not yet integrated")

  /**
   * `check_health`: the config, models and orchestrator entries in that
   * order, and the overall status of the three. The orchestrator entry is
   * always "unknown", so the overall status can only be degraded.
   */
  method CheckHealth(c: Config) returns (h: HealthStatus)
    ensures Keys(h.services) == ["config", "models", "orchestrator"]
    ensures h.services[0].1 == ConfigCheck(c.config)
    ensures h.services[1].1 == ModelsCheck(c.ListAvailableModels())
    ensures h.services[2].1.status == Unknown
    ensures h.status == Overall(Statuses(h.services))
    ensures h.status == Degraded
  {
    var services: seq<(string, ServiceStatus)> := [];
    // Each assignment adds a key the dict does not hold yet, so it appends.
    services := services + [("config", ConfigCheck(c.config))];
    services := services + [("models", ModelsCheck(c.ListAvailableModels()))];
    services := services + [("orchestrator", OrchestratorStatus)];
    var statuses := Statuses(services);
    OneUnknownDegrades(statuses, 2);
    var overall := Overall(statuses);
    h := HealthStatus(overall, services);
  }
}
