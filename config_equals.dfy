/**
 * `configEquals`: the structural comparison of two configurations used to
 * check that a configuration survives being written and read back.
 *
 * It compares the kind, the API version, the colour preference and the
 * number of top-level extensions, then the three name-keyed collections of
 * clusters, auth-infos and contexts entry by entry. Inside an entry it
 * compares scalar fields, but of byte data and extensions only the LENGTH.
 * The current context is not compared at all.
 */
module Equality {
  import opened Api

  /**
   * The field tests applied to two clusters stored under the same name:
   * they pass exactly when the clusters look the same through the view.
   */
  function SameCluster(x: Cluster, y: Cluster): (r: bool)
    ensures r <==> ViewOfCluster(x) == ViewOfCluster(y)
  {
    && x.locationOfOrigin == y.locationOfOrigin
    && x.server == y.server
    && x.apiVersion == y.apiVersion
    && x.insecureSkipTLSVerify == y.insecureSkipTLSVerify
    && x.certificateAuthority == y.certificateAuthority
    && |x.certificateAuthorityData| == |y.certificateAuthorityData|
    && |x.extensions| == |y.extensions|
  }

  /**
   * The field tests applied to two auth-infos stored under the same name:
   * they pass exactly when the auth-infos look the same through the view.
   */
  function SameAuthInfo(x: AuthInfo, y: AuthInfo): (r: bool)
    ensures r <==> ViewOfAuthInfo(x) == ViewOfAuthInfo(y)
  {
    && x.locationOfOrigin == y.locationOfOrigin
    && x.clientCertificate == y.clientCertificate
    && |x.clientCertificateData| == |y.clientCertificateData|
    && x.clientKey == y.clientKey
    && |x.clientKeyData| == |y.clientKeyData|
    && x.token == y.token
    && x.username == y.username
    && x.password == y.password
    && |x.extensions| == |y.extensions|
  }

  /**
   * The field tests applied to two contexts stored under the same name:
   * they pass exactly when the contexts look the same through the view.
   */
  function SameContext(x: Context, y: Context): (r: bool)
    ensures r <==> ViewOfContext(x) == ViewOfContext(y)
  {
    && x.locationOfOrigin == y.locationOfOrigin
    && x.cluster == y.cluster
    && x.authInfo == y.authInfo
    && x.namespace == y.namespace
    && |x.extensions| == |y.extensions|
  }

  /**
   * One collection check: the same number of entries, and every name of `a`
   * present in `b` with an entry that passes `same`. Although only the names
   * of `a` are looked up, a match means both sides hold the same names.
   */
  function MapsMatch<V>(a: map<string, V>, b: map<string, V>, same: (V, V) -> bool): (r: bool)
    ensures r ==> a.Keys == b.Keys
    ensures r ==> forall k :: k in b ==> k in a && same(a[k], b[k])
  {
    var matched := |a| == |b| && (forall k :: k in a ==> k in b && same(a[k], b[k]));
    if matched then
      SubsetOfSameSize(a.Keys, b.Keys);
      true
    else
      false
  }

  /**
   * `configEquals(a, b)`. When it holds, both configurations name the same
   * clusters, auth-infos and contexts.
   */
  function ConfigEquals(a: Config, b: Config): (r: bool)
    reads a, b
    ensures r ==> a.clusters.Keys == b.clusters.Keys
    ensures r ==> a.authInfos.Keys == b.authInfos.Keys
    ensures r ==> a.contexts.Keys == b.contexts.Keys
  {
    && a.kind == b.kind
    && a.apiVersion == b.apiVersion
    && a.preferences.colors == b.preferences.colors
    && |a.extensions| == |b.extensions|
    && MapsMatch(a.clusters, b.clusters, SameCluster)
    && MapsMatch(a.authInfos, b.authInfos, SameAuthInfo)
    && MapsMatch(a.contexts, b.contexts, SameContext)
  }

  // ---------------------------------------------------------------------
  // The observable view: what the comparison can see of a configuration.
  // ---------------------------------------------------------------------

  datatype ClusterView = ClusterView(
    locationOfOrigin: string, server: string, apiVersion: string,
    insecureSkipTLSVerify: bool, certificateAuthority: string,
    certificateAuthorityDataLength: nat, extensionCount: nat)

  datatype AuthInfoView = AuthInfoView(
    locationOfOrigin: string, clientCertificate: string,
    clientCertificateDataLength: nat, clientKey: string,
    clientKeyDataLength: nat, token: string, username: string,
    password: string, extensionCount: nat)

  datatype ContextView = ContextView(
    locationOfOrigin: string, cluster: string, authInfo: string,
    namespace: string, extensionCount: nat)

  datatype ConfigView = ConfigView(
    kind: string, apiVersion: string, colors: bool, extensionCount: nat,
    clusters: map<string, ClusterView>,
    authInfos: map<string, AuthInfoView>,
    contexts: map<string, ContextView>)

  function ViewOfCluster(c: Cluster): (v: ClusterView)
  {
    ClusterView(c.locationOfOrigin, c.server, c.apiVersion,
                c.insecureSkipTLSVerify, c.certificateAuthority,
                |c.certificateAuthorityData|, |c.extensions|)
  }

  function ViewOfAuthInfo(u: AuthInfo): (v: AuthInfoView)
  {
    AuthInfoView(u.locationOfOrigin, u.clientCertificate,
                 |u.clientCertificateData|, u.clientKey, |u.clientKeyData|,
                 u.token, u.username, u.password, |u.extensions|)
  }

  function ViewOfContext(x: Context): (v: ContextView)
  {
    ContextView(x.locationOfOrigin, x.cluster, x.authInfo, x.namespace, |x.extensions|)
  }

  /** Apply `view` to every entry, keeping the names. */
  function ViewMap<V, W>(m: map<string, V>, view: V -> W): (r: map<string, W>)
  {
    map k | k in m :: view(m[k])
  }

  /** Everything of `c` that the comparison can observe. */
  function View(c: Config): (v: ConfigView)
    reads c
  {
    ConfigView(c.kind, c.apiVersion, c.preferences.colors, |c.extensions|,
               ViewMap(c.clusters, ViewOfCluster),
               ViewMap(c.authInfos, ViewOfAuthInfo),
               ViewMap(c.contexts, ViewOfContext))
  }

  // ---------------------------------------------------------------------
  // Lemmas
  // ---------------------------------------------------------------------

  /** A subset as large as its superset is the whole superset. */
  lemma {:induction false} SubsetOfSameSize(s: set<string>, t: set<string>)
    requires s <= t && |s| == |t|
    ensures s == t
  {
    assert t == s + (t - s) && s * (t - s) == {};
    assert |t - s| == 0;
  }

  /**
   * One collection check passes exactly when the two collections look the
   * same through `view`, provided `same` compares exactly what `view` keeps.
   * The "every name of a is in b" loop plus equal sizes gives equal names.
   */
  lemma MapsMatchIffSameView<V, W>(a: map<string, V>, b: map<string, V>,
                                   same: (V, V) -> bool, view: V -> W)
    requires forall x, y :: same(x, y) <==> view(x) == view(y)
    ensures MapsMatch(a, b, same) <==> ViewMap(a, view) == ViewMap(b, view)
  {
    if MapsMatch(a, b, same) {
      assert a.Keys <= b.Keys;
      SubsetOfSameSize(a.Keys, b.Keys);
      assert ViewMap(a, view).Keys == ViewMap(b, view).Keys;
    }
    if ViewMap(a, view) == ViewMap(b, view) {
      assert a.Keys == ViewMap(a, view).Keys == ViewMap(b, view).Keys == b.Keys;
      forall k | k in a ensures k in b && same(a[k], b[k]) {
        assert ViewMap(a, view)[k] == ViewMap(b, view)[k];
      }
    }
  }

  /**
   * `configEquals` holds exactly when the two configurations have the same
   * observable view: every compared field equal and every byte-data and
   * extension collection of equal length.
   */
  lemma ConfigEqualsIffSameView(a: Config, b: Config)
    ensures ConfigEquals(a, b) <==> View(a) == View(b)
  {
    MapsMatchIffSameView(a.clusters, b.clusters, SameCluster, ViewOfCluster);
    MapsMatchIffSameView(a.authInfos, b.authInfos, SameAuthInfo, ViewOfAuthInfo);
    MapsMatchIffSameView(a.contexts, b.contexts, SameContext, ViewOfContext);
  }

  /** Every configuration equals itself. */
  lemma ConfigEqualsReflexive(a: Config)
    ensures ConfigEquals(a, a)
  {
    ConfigEqualsIffSameView(a, a);
  }

  /** The order of the arguments does not matter. */
  lemma ConfigEqualsSymmetric(a: Config, b: Config)
    ensures ConfigEquals(a, b) <==> ConfigEquals(b, a)
  {
    ConfigEqualsIffSameView(a, b);
    ConfigEqualsIffSameView(b, a);
  }

  /** Two configurations equal to a third are equal to each other. */
  lemma ConfigEqualsTransitive(a: Config, b: Config, c: Config)
    requires ConfigEquals(a, b) && ConfigEquals(b, c)
    ensures ConfigEquals(a, c)
  {
    ConfigEqualsIffSameView(a, b);
    ConfigEqualsIffSameView(b, c);
    ConfigEqualsIffSameView(a, c);
  }

  /**
   * Any difference in the top-level scalars, the number of top-level
   * extensions or the number of clusters, auth-infos or contexts makes the
   * comparison fail.
   */
  lemma DifferentTopLevelNotEqual(a: Config, b: Config)
    ensures a.kind != b.kind ==> !ConfigEquals(a, b)
    ensures a.apiVersion != b.apiVersion ==> !ConfigEquals(a, b)
    ensures a.preferences.colors != b.preferences.colors ==> !ConfigEquals(a, b)
    ensures |a.extensions| != |b.extensions| ==> !ConfigEquals(a, b)
    ensures |a.clusters| != |b.clusters| ==> !ConfigEquals(a, b)
    ensures |a.authInfos| != |b.authInfos| ==> !ConfigEquals(a, b)
    ensures |a.contexts| != |b.contexts| ==> !ConfigEquals(a, b)
  {
  }

  /** A name present on one side only makes the comparison fail, either way round. */
  lemma MissingNameNotEqual(a: Config, b: Config, k: string)
    ensures (k in a.clusters) != (k in b.clusters) ==> !ConfigEquals(a, b)
    ensures (k in a.authInfos) != (k in b.authInfos) ==> !ConfigEquals(a, b)
    ensures (k in a.contexts) != (k in b.contexts) ==> !ConfigEquals(a, b)
  {
    ConfigEqualsSymmetric(a, b);
  }

  /**
   * Of byte data and extensions only the length is compared: entries that
   * differ only in the contents of same-length data pass the field tests.
   */
  lemma DataContentsNotCompared(c: Cluster, u: AuthInfo, x: Context,
                                caData: Bytes, certData: Bytes, keyData: Bytes,
                                cExt: Extensions, uExt: Extensions, xExt: Extensions)
    requires |caData| == |c.certificateAuthorityData| && |cExt| == |c.extensions|
    requires |certData| == |u.clientCertificateData| && |keyData| == |u.clientKeyData|
    requires |uExt| == |u.extensions|
    requires |xExt| == |x.extensions|
    ensures SameCluster(c, c.(certificateAuthorityData := caData, extensions := cExt))
    ensures SameAuthInfo(u, u.(clientCertificateData := certData, clientKeyData := keyData, extensions := uExt))
    ensures SameContext(x, x.(extensions := xExt))
  {
  }

  /** `y` is `x` with only its byte data and extensions replaced by same-length ones. */
  predicate ClusterDataOnlyDiffers(x: Cluster, y: Cluster)
  {
    && y == x.(certificateAuthorityData := y.certificateAuthorityData, extensions := y.extensions)
    && |y.certificateAuthorityData| == |x.certificateAuthorityData|
    && |y.extensions| == |x.extensions|
  }

  /** `y` is `x` with only its byte data and extensions replaced by same-length ones. */
  predicate AuthInfoDataOnlyDiffers(x: AuthInfo, y: AuthInfo)
  {
    && y == x.(clientCertificateData := y.clientCertificateData,
               clientKeyData := y.clientKeyData, extensions := y.extensions)
    && |y.clientCertificateData| == |x.clientCertificateData|
    && |y.clientKeyData| == |x.clientKeyData|
    && |y.extensions| == |x.extensions|
  }

  /** `y` is `x` with only its extensions replaced by same-length ones. */
  predicate ContextDataOnlyDiffers(x: Context, y: Context)
  {
    y == x.(extensions := y.extensions) && |y.extensions| == |x.extensions|
  }

  /**
   * Two configurations that hold the same names, the same top-level fields
   * and entries differing only in the contents of same-length byte data and
   * extensions compare equal (whatever their current contexts).
   */
  lemma DataContentsNotComparedInConfig(a: Config, b: Config)
    requires a.kind == b.kind && a.apiVersion == b.apiVersion
    requires a.preferences == b.preferences && |a.extensions| == |b.extensions|
    requires a.clusters.Keys == b.clusters.Keys
    requires a.authInfos.Keys == b.authInfos.Keys
    requires a.contexts.Keys == b.contexts.Keys
    requires forall k :: k in a.clusters ==> ClusterDataOnlyDiffers(a.clusters[k], b.clusters[k])
    requires forall k :: k in a.authInfos ==> AuthInfoDataOnlyDiffers(a.authInfos[k], b.authInfos[k])
    requires forall k :: k in a.contexts ==> ContextDataOnlyDiffers(a.contexts[k], b.contexts[k])
    ensures ConfigEquals(a, b)
  {
    assert |a.clusters| == |a.clusters.Keys| == |b.clusters.Keys| == |b.clusters|;
    assert |a.authInfos| == |a.authInfos.Keys| == |b.authInfos.Keys| == |b.authInfos|;
    assert |a.contexts| == |a.contexts.Keys| == |b.contexts.Keys| == |b.contexts|;
  }

  /**
   * The current context is not among the compared fields: two
   * configurations with the same entries and top-level fields are equal
   * whatever their current contexts are.
   */
  lemma CurrentContextNotCompared(a: Config, b: Config)
    requires a.kind == b.kind && a.apiVersion == b.apiVersion
    requires a.preferences == b.preferences && a.extensions == b.extensions
    requires a.clusters == b.clusters && a.authInfos == b.authInfos && a.contexts == b.contexts
    ensures ConfigEquals(a, b)
    ensures View(a) == View(b)
  {
  }

  // ---------------------------------------------------------------------
  // The comparison as the loops that compute it
  // ---------------------------------------------------------------------

  /**
   * One collection check as a loop: compare the sizes, then visit the names
   * of `a` in an unspecified order (map iteration order is random) and stop
   * at the first name missing from `b` or whose entries differ.
   */
  method CompareEntries<V>(a: map<string, V>, b: map<string, V>, same: (V, V) -> bool)
    returns (eq: bool)
    ensures eq == MapsMatch(a, b, same)
  {
    if |a| != |b| {
      return false;
    }
    var pending := a.Keys;
    while pending != {}
      invariant pending <= a.Keys
      invariant forall k :: k in a && k !in pending ==> k in b && same(a[k], b[k])
      decreases pending
    {
      var k :| k in pending;
      if k !in b || !same(a[k], b[k]) {
        return false;
      }
      pending := pending - {k};
    }
    return true;
  }

  /** `configEquals` with its early returns, in the order the checks are made. */
  method CompareConfigs(a: Config, b: Config) returns (eq: bool)
    ensures eq == ConfigEquals(a, b)
  {
    if a.kind != b.kind {
      return false;
    }
    if a.apiVersion != b.apiVersion {
      return false;
    }
    if a.preferences.colors != b.preferences.colors {
      return false;
    }
    if |a.extensions| != |b.extensions| {
      return false;
    }
    eq := CompareEntries(a.clusters, b.clusters, SameCluster);
    if !eq {
      return false;
    }
    eq := CompareEntries(a.authInfos, b.authInfos, SameAuthInfo);
    if !eq {
      return false;
    }
    eq := CompareEntries(a.contexts, b.contexts, SameContext);
  }
}
