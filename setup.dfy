/**
 * Setting up a configuration for one cluster: the entries `SetupKubeConfig`
 * merges into a loaded configuration, the rule that decides whether the
 * current context moves to them, and `minikubeConfig`, which builds the same
 * three entries for the local cluster by hand.
 */
module Setup {
  import opened Api
  import opened Equality

  /**
   * The setup parameters. One name is used for the cluster, the user and
   * the context. The target file path is not modelled.
   */
  datatype KubeConfigSetup = KubeConfigSetup(
    clusterName: string,
    clusterServerAddress: string,
    clientCertificate: string,
    clientKey: string,
    certificateAuthority: string,
    keepContext: bool)

  /** The cluster entry setup stores: server address and authority path. */
  function SetupCluster(setup: KubeConfigSetup): (c: Cluster)
  {
    NewCluster().(server := setup.clusterServerAddress,
                  certificateAuthority := setup.certificateAuthority)
  }

  /** The user entry setup stores: client certificate and key paths. */
  function SetupAuthInfo(setup: KubeConfigSetup): (u: AuthInfo)
  {
    NewAuthInfo().(clientCertificate := setup.clientCertificate,
                   clientKey := setup.clientKey)
  }

  /** The context entry setup stores: it pairs the new cluster with the new user. */
  function SetupContext(setup: KubeConfigSetup): (x: Context)
  {
    NewContext().(cluster := setup.clusterName, authInfo := setup.clusterName)
  }

  /**
   * The context-switch rule. Without `keepContext` the current context
   * becomes the new cluster's name; with it, a current context that is
   * already set stays as it is (an unset one is still switched).
   */
  function NextCurrentContext(current: string, setup: KubeConfigSetup): (r: string)
    ensures !setup.keepContext ==> r == setup.clusterName
    ensures setup.keepContext && current != "" ==> r == current
    ensures setup.keepContext && current != "" && current != setup.clusterName ==> r != setup.clusterName
    ensures current == "" ==> r == setup.clusterName
  {
    if setup.keepContext && current != "" then current else setup.clusterName
  }

  /**
   * Running setup a second time with the same parameters never moves the
   * current context again; with `keepContext`, a current context set by
   * hand survives any number of runs.
   */
  lemma NextCurrentContextSettles(current: string, setup: KubeConfigSetup)
    ensures NextCurrentContext(NextCurrentContext(current, setup), setup)
            == NextCurrentContext(current, setup)
    ensures setup.keepContext && current != "" ==>
            NextCurrentContext(NextCurrentContext(current, setup), setup) == current
  {
  }

  /** Context `name` exists and names a cluster and a user that exist. */
  predicate ContextResolves(config: Config, name: string)
    reads config
  {
    && name in config.contexts
    && config.contexts[name].cluster in config.clusters
    && config.contexts[name].authInfo in config.authInfos
  }

  /** Every context names a cluster and a user that exist. */
  predicate AllContextsResolve(config: Config)
    reads config
  {
    forall name :: name in config.contexts ==> ContextResolves(config, name)
  }

  /**
   * The in-memory part of `SetupKubeConfig`: insert or overwrite the
   * cluster, the user and the context under the setup's name, then apply
   * the context-switch rule. Nothing else in the configuration changes.
   */
  method Merge(config: Config, setup: KubeConfigSetup)
    modifies config
    ensures config.clusters == old(config.clusters)[setup.clusterName := SetupCluster(setup)]
    ensures config.authInfos == old(config.authInfos)[setup.clusterName := SetupAuthInfo(setup)]
    ensures config.contexts == old(config.contexts)[setup.clusterName := SetupContext(setup)]
    ensures config.currentContext == NextCurrentContext(old(config.currentContext), setup)
    ensures config.kind == old(config.kind) && config.apiVersion == old(config.apiVersion)
    ensures config.preferences == old(config.preferences) && config.extensions == old(config.extensions)
    ensures ContextResolves(config, setup.clusterName)
    ensures !setup.keepContext ==> ContextResolves(config, config.currentContext)
    ensures old(AllContextsResolve(config)) ==> AllContextsResolve(config)
  {
    var clusterName := setup.clusterName;
    config.clusters := config.clusters[clusterName := SetupCluster(setup)];

    var userName := setup.clusterName;
    config.authInfos := config.authInfos[userName := SetupAuthInfo(setup)];

    var contextName := setup.clusterName;
    var context := NewContext().(cluster := clusterName, authInfo := userName);
    config.contexts := config.contexts[contextName := context];

    if !setup.keepContext || config.currentContext == "" {
      config.currentContext := setup.clusterName;
    }
  }

  const MinikubeName: string := "minikube"

  /**
   * The parameters that describe the local cluster `minikubeConfig` builds.
   * The API server port comes from a constants package that is not part of
   * this model, so it is a parameter.
   */
  function MinikubeSetup(apiServerPort: string): (setup: KubeConfigSetup)
  {
    KubeConfigSetup(
      MinikubeName,
      "https://192.168.99.100:" + apiServerPort,
      "/home/tux/.minikube/apiserver.crt",
      "/home/tux/.minikube/apiserver.key",
      "/home/tux/.minikube/apiserver.crt",
      false)
  }

  /**
   * `minikubeConfig`: add a cluster, a user and a context all named
   * "minikube" (the context pairing that cluster and user) and make it the
   * current context; every other entry and field stays as it was. The
   * entries are exactly those setup merges for the minikube parameters.
   */
  method MinikubeConfig(config: Config, apiServerPort: string)
    modifies config
    ensures config.clusters == old(config.clusters)[MinikubeName := SetupCluster(MinikubeSetup(apiServerPort))]
    ensures config.authInfos == old(config.authInfos)[MinikubeName := SetupAuthInfo(MinikubeSetup(apiServerPort))]
    ensures config.contexts == old(config.contexts)[MinikubeName := SetupContext(MinikubeSetup(apiServerPort))]
    ensures config.contexts[MinikubeName].cluster == MinikubeName
    ensures config.contexts[MinikubeName].authInfo == MinikubeName
    ensures config.currentContext == MinikubeName
    ensures ContextResolves(config, config.currentContext)
    ensures config.kind == old(config.kind) && config.apiVersion == old(config.apiVersion)
    ensures config.preferences == old(config.preferences) && config.extensions == old(config.extensions)
  {
    // cluster
    var clusterName := "minikube";
    var cluster := NewCluster().(server := "https://192.168.99.100:" + apiServerPort,
                                 certificateAuthority := "/home/tux/.minikube/apiserver.crt");
    config.clusters := config.clusters[clusterName := cluster];

    // user
    var userName := "minikube";
    var user := NewAuthInfo().(clientCertificate := "/home/tux/.minikube/apiserver.crt",
                               clientKey := "/home/tux/.minikube/apiserver.key");
    config.authInfos := config.authInfos[userName := user];

    // context
    var contextName := "minikube";
    var context := NewContext().(cluster := clusterName, authInfo := userName);
    config.contexts := config.contexts[contextName := context];

    config.currentContext := contextName;
  }

  // ---------------------------------------------------------------------
  // The scenarios the package's tests describe
  // ---------------------------------------------------------------------

  /** The existing configuration of the "add to" and "keep context" cases. */
  method LaCroixConfig() returns (config: Config)
    ensures fresh(config)
    ensures config.kind == "Config" && config.apiVersion == "v1"
    ensures config.clusters == map["la-croix" := NewCluster().(
              certificateAuthority := "/home/la-croix/apiserver.crt",
              server := "192.168.1.1:8080")]
    ensures config.contexts == map["la-croix" := NewContext().(cluster := "la-croix", authInfo := "la-croix")]
    ensures config.authInfos == map["la-croix" := NewAuthInfo().(
              clientCertificate := "/home/la-croix/apiserver.crt",
              clientKey := "/home/la-croix/apiserver.key")]
    ensures config.currentContext == "la-croix"
    ensures AllContextsResolve(config)
  {
    config := new Config();
    config.apiVersion := "v1";
    config.kind := "Config";
    config.clusters := map["la-croix" := NewCluster().(
      certificateAuthority := "/home/la-croix/apiserver.crt",
      server := "192.168.1.1:8080")];
    config.contexts := map["la-croix" := NewContext().(cluster := "la-croix", authInfo := "la-croix")];
    config.currentContext := "la-croix";
    config.authInfos := map["la-croix" := NewAuthInfo().(
      clientCertificate := "/home/la-croix/apiserver.crt",
      clientKey := "/home/la-croix/apiserver.key")];
  }

  /**
   * The setup table: a setup named "test" merged into a new configuration,
   * into the la-croix configuration, and into the la-croix configuration
   * with `keepContext`. Returns the current context each case ends with.
   */
  method SetupKubeConfigCases() returns (newConfig: string, addToConfig: string, keepContext: string)
    ensures newConfig == "test" && addToConfig == "test"
    ensures keepContext != "test" && keepContext == "la-croix"
  {
    var setupCfg := KubeConfigSetup("test", "192.168.1.1:8080", "/home/apiserver.crt",
                                    "/home/apiserver.key", "/home/apiserver.crt", false);

    var empty := new Config();
    Merge(empty, setupCfg);
    newConfig := empty.currentContext;

    var existing := LaCroixConfig();
    Merge(existing, setupCfg);
    addToConfig := existing.currentContext;

    var kept := LaCroixConfig();
    Merge(kept, setupCfg.(keepContext := true));
    keepContext := kept.currentContext;
  }

  /**
   * Writing a configuration and reading it back. All that is promised is
   * that the copy read back looks the same through the view: the fields the
   * comparison inspects, and the lengths of byte data and extensions. The
   * serialisation itself belongs to a client library that is not part of
   * this model; the body is one copy that keeps that promise.
   */
  method WriteThenRead(config: Config) returns (copy: Config)
    ensures fresh(copy)
    ensures View(copy) == View(config)
  {
    copy := new Config();
    copy.kind, copy.apiVersion := config.kind, config.apiVersion;
    copy.preferences, copy.extensions := config.preferences, config.extensions;
    copy.clusters, copy.authInfos, copy.contexts := config.clusters, config.authInfos, config.contexts;
    copy.currentContext := config.currentContext;
  }

  /**
   * The new-config case: a fresh configuration given the minikube entries,
   * written and read back, compares equal to itself.
   */
  method NewConfigCase(apiServerPort: string) returns (eq: bool)
    ensures eq
  {
    var expected := new Config();
    MinikubeConfig(expected, apiServerPort);
    var actual := WriteThenRead(expected);
    ConfigEqualsIffSameView(actual, expected);
    eq := CompareConfigs(actual, expected);
  }
}
