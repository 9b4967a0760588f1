/** The Adam reconciler as the operator runs it: ordered API calls, any of which may fail, and
    edits in place of the objects that were read. Each method does to the stored objects what
    AdamPass says for the calls that fail. */
module AdamController {
  import opened Text
  import opened AdamBag
  import opened AdamPass

  datatype ApiError = NoError | NotFound | OtherError

  /** The error of a Get that finds `present` unless it fails. */
  function GetError(failing: bool, present: bool): ApiError {
    if failing then OtherError else if present then NoError else NotFound
  }

  /** The API server as one pass sees it: the calls in `env.faults` fail. */
  class Cluster {
    var store: Store
    var deletedPods: nat
    const env: Env

    constructor (store: Store, env: Env)
      ensures this.store == store && this.env == env && deletedPods == 0
    {
      this.store, this.env, deletedPods := store, env, 0;
    }

    method CreateSecret() returns (ok: bool)
      modifies this`store
      ensures ok <==> Call.CreateSecret !in env.faults
      ensures store == if ok then old(store).(secret := Some(env.newVersion)) else old(store)
    {
      ok := Call.CreateSecret !in env.faults;
      if ok {
        store := store.(secret := Some(env.newVersion));
      }
    }

    method PutConfig(call: Call, bag: Bag) returns (ok: bool)
      modifies this`store
      ensures ok <==> call !in env.faults
      ensures store == if ok then old(store).(config := Some(bag)) else old(store)
    {
      ok := call !in env.faults;
      if ok {
        store := store.(config := Some(bag));
      }
    }

    method DeleteConfig() returns (ok: bool)
      modifies this`store
      ensures ok <==> CleanUpDelete !in env.faults
      ensures store == if ok then old(store).(config := None) else old(store)
    {
      ok := CleanUpDelete !in env.faults;
      if ok {
        store := store.(config := None);
      }
    }

    method CreateService(port: int) returns (ok: bool)
      modifies this`store
      ensures ok <==> Call.CreateService !in env.faults
      ensures store == if ok then old(store).(service := Some(port)) else old(store)
    {
      ok := Call.CreateService !in env.faults;
      if ok {
        store := store.(service := Some(port));
      }
    }

    method PutDeployment(call: Call, d: Deployment) returns (ok: bool)
      modifies this`store
      ensures ok <==> call !in env.faults
      ensures store == if ok then old(store).(deployment := Some(d)) else old(store)
    {
      ok := call !in env.faults;
      if ok {
        store := store.(deployment := Some(d));
      }
    }

    method UpdateAgentSpec(s: Spec)
      modifies this`store
      ensures store == UpdateSpec(old(store), s, env)
    {
      if UpdateAgent !in env.faults {
        store := store.(spec := JsonSpec(s));
      }
    }

    method DeletePod() returns (ok: bool)
      modifies this`deletedPods
      ensures ok <==> Call.DeletePod !in env.faults
      ensures deletedPods == old(deletedPods) + if ok then 1 else 0
    {
      ok := Call.DeletePod !in env.faults;
      if ok {
        deletedPods := deletedPods + 1;
      }
    }
  }

  /** The custom resource as read. */
  class Adam {
    var spec: Spec

    constructor (spec: Spec)
      ensures this.spec == spec
    {
      this.spec := spec;
    }
  }

  /** The ConfigMap object; `data` is the decoded entry. */
  class ConfigMap {
    var data: Option<Bag>

    constructor (data: Option<Bag>)
      ensures this.data == data
    {
      this.data := data;
    }
  }

  /** The Deployment object as read. */
  class DeploymentObject {
    var value: Deployment

    constructor (value: Deployment)
      ensures this.value == value
    {
      this.value := value;
    }
  }

  class ReconcileAdam {
    const client: Cluster

    constructor (client: Cluster)
      ensures this.client == client
    {
      this.client := client;
    }

    /** Failures are only logged, so a pass may go on with the ConfigMap of an earlier agent. */
    method DropConfig()
      modifies client`store
      ensures client.store == CleanUp(old(client.store), client.env)
    {
      var err := GetError(CleanUpGet in client.env.faults, client.store.config.Some?);
      if err.NotFound? {
        return;
      }
      if err.NoError? {
        var _ := client.DeleteConfig();
      }
    }

    method EnsureAgentSecret() returns (version: Option<string>)
      modifies client`store
      ensures (client.store, version) == EnsureSecret(old(client.store), client.env)
    {
      var err := GetError(GetSecret in client.env.faults, client.store.secret.Some?);
      if err.NotFound? {
        var created := client.CreateSecret();
        if !created || ReloadSecret in client.env.faults {
          return None;
        }
      } else if err.OtherError? {
        return None;
      }
      version := client.store.secret;
    }

    /** Writes the defaults with the spec merged in; the previous bag plays no part. */
    method UpdateMap(cm: ConfigMap, agent: Adam, version: string, create: bool) returns (bag: Option<Bag>)
      modifies client`store, cm
      ensures var merged := Written(agent.spec, client.env.namespace, version);
              var written := if create then merged.(instrumentationUpdated := false) else merged;
              var call := if create then CreateConfig else UpdateConfig;
              && cm.data == Some(written)
              && bag == (if call in client.env.faults then None else Some(written))
              && client.store == if bag.Some? then old(client.store).(config := bag) else old(client.store)
    {
      hide Merge;
      var merged := MergedBag(agent.spec, client.env.namespace, version);
      if create {
        merged := merged.(instrumentationUpdated := false);
      }
      merged := JsonBag(merged);
      cm.data := Some(merged);
      var ok := client.PutConfig(if create then CreateConfig else UpdateConfig, merged);
      bag := if ok then Some(merged) else None;
    }

    method EnsureConfigMap(agent: Adam, version: string) returns (cm: ConfigMap, bag: Option<Bag>)
      requires agent.spec == client.store.spec
      modifies client`store
      ensures (client.store, bag) == EnsureConfig(old(client.store), version, client.env)
      ensures fresh(cm)
    {
      hide Written;
      var err := GetError(GetConfig in client.env.faults, client.store.config.Some?);
      cm := new ConfigMap(client.store.config);
      if err.OtherError? {
        return cm, None;
      }
      if err.NotFound? {
        var written := UpdateMap(cm, agent, version, true);
        if written.None? {
          return cm, None;
        }
      }
      var decoded := cm.data.value;
      bag := Some(decoded.(secretVersion := version));
      MergedDoesNotBreak(agent.spec, client.env.namespace, version);
    }

    method EnsureAgentService(bag: Bag) returns (ok: bool)
      modifies client`store
      ensures (client.store, ok) == EnsureService(old(client.store), bag, client.env)
    {
      var err := GetError(GetService in client.env.faults, client.store.service.Some?);
      ok := !err.OtherError?;
      if err.NotFound? {
        ok := client.CreateService(bag.agentServerPort);
      }
    }

    /** Builds the Deployment and completes the spec it was read from. */
    method NewAgentDeployment(agent: Adam, bag: Bag) returns (dep: Deployment)
      modifies agent
      ensures dep == NewDeployment(old(agent.spec), bag)
      ensures agent.spec == DeploymentDefaults(old(agent.spec))
    {
      if agent.spec.image == "" {
        agent.spec := agent.spec.(image := "appdynamics/cluster-agent:latest");
      }
      dep := Deployment(agent.spec.image, bag.agentServerPort, "", "");
      if agent.spec.connection.agentSSLCert != "" {
        if agent.spec.customSSLConfigMap == "" {
          agent.spec := agent.spec.(customSSLConfigMap := "cluster-agent-ssl-config");
        }
        dep := dep.(certificate := agent.spec.connection.agentSSLCert, sslConfigMap := agent.spec.customSSLConfigMap);
      }
    }

    /** The image is put into the Deployment that was read; every later test only decides. */
    method HasBreakingChanges(agent: Adam, bag: Bag, existing: DeploymentObject, secretVersion: string)
      returns (breaking: bool, updateDeployment: bool)
      modifies existing
      ensures updateDeployment == ImageDiffers(agent.spec, old(existing.value))
      ensures existing.value
           == if updateDeployment then old(existing.value).(image := agent.spec.image) else old(existing.value)
      ensures breaking == (!updateDeployment && (bag.secretVersion != secretVersion
                                                 || Breaks(agent.spec.connection, bag.connection)))
    {
      var s, b := agent.spec.connection, bag.connection;
      if agent.spec.image != "" && existing.value.image != agent.spec.image {
        existing.value := existing.value.(image := agent.spec.image);
        return false, true;
      }
      if bag.secretVersion != secretVersion {
        return true, false;
      }
      if s.controllerUrl != b.controllerUrl {
        return true, false;
      }
      if s.account != "" && s.account != b.account {
        return true, false;
      }
      if s.globalAccount != "" && s.globalAccount != b.globalAccount {
        return true, false;
      }
      if s.appName != "" && s.appName != b.appName {
        return true, false;
      }
      if s.eventServiceUrl != "" && s.eventServiceUrl != b.eventServiceUrl {
        return true, false;
      }
      if s.systemSSLCert != "" && s.systemSSLCert != b.systemSSLCert {
        return true, false;
      }
      if s.agentSSLCert != "" && s.agentSSLCert != b.agentSSLCert {
        return true, false;
      }
      return false, false;
    }

    method RestartAgent() returns (ok: bool)
      modifies client`deletedPods
      ensures ok <==> ListPods !in client.env.faults && DeletePod !in client.env.faults
      ensures client.deletedPods == old(client.deletedPods) + if ok then 1 else 0
    {
      if ListPods in client.env.faults {
        return false;
      }
      ok := client.DeletePod();
    }

    method CreateAgent(agent: Adam) returns (failed: bool)
      requires agent.spec == client.store.spec
      modifies client`store, agent
      ensures Outcome(client.store, failed, false, false) == CreatePass(old(client.store), client.env)
    {
      hide Written;
      DropConfig();
      var version := EnsureAgentSecret();
      if version.None? {
        return true;
      }
      var _, bag := EnsureConfigMap(agent, version.value);
      if bag.None? {
        return true;
      }
      var served := EnsureAgentService(bag.value);
      if !served {
        return true;
      }
      var dep := NewAgentDeployment(agent, bag.value);
      var created := client.PutDeployment(CreateDeployment, dep);
      if !created {
        return true;
      }
      client.UpdateAgentSpec(agent.spec);
      failed := false;
    }

    method UpdateAgent(agent: Adam, existing: DeploymentObject) returns (failed: bool, requeue: bool)
      requires agent.spec == client.store.spec && client.store.deployment == Some(existing.value)
      modifies client`store, client`deletedPods, existing
      ensures var r := UpdatePass(old(client.store), client.env);
              && client.store == r.store && failed == r.failed && requeue == r.requeue
              && client.deletedPods == old(client.deletedPods) + if r.restarted then 1 else 0
    {
      hide Written, Breaks;
      requeue := false;
      var version := EnsureAgentSecret();
      if version.None? {
        return true, false;
      }
      var cm, bag := EnsureConfigMap(agent, version.value);
      if bag.None? {
        return true, false;
      }
      var breaking, updateDeployment := HasBreakingChanges(agent, bag.value, existing, version.value);
      var updated := UpdateMap(cm, agent, version.value, false);
      if updated.None? {
        return true, false;
      }
      if breaking {
        var restarted := RestartAgent();
        return !restarted, restarted;
      } else if updateDeployment {
        var ok := client.PutDeployment(UpdateDeployment, existing.value);
        return !ok, ok;
      }
      client.UpdateAgentSpec(agent.spec);
      failed := false;
    }

    /** One pass does to the stored objects, reports and restarts exactly what Pass says. */
    method Reconcile() returns (failed: bool, requeue: bool)
      modifies client
      ensures var r := Pass(old(client.store), client.env);
              && client.store == r.store && failed == r.failed && requeue == r.requeue
              && client.deletedPods == old(client.deletedPods) + if r.restarted then 1 else 0
    {
      hide CreatePass, UpdatePass;
      requeue := false;
      if GetAgent in client.env.faults {
        return true, false;
      }
      var agent := new Adam(client.store.spec);
      var err := GetError(GetDeployment in client.env.faults, client.store.deployment.Some?);
      if err.NotFound? {
        failed := CreateAgent(agent);
      } else if err.OtherError? {
        failed := true;
      } else {
        var existing := new DeploymentObject(client.store.deployment.value);
        failed, requeue := UpdateAgent(agent, existing);
      }
    }
  }
}
