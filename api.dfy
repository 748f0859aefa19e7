/**
 * The client configuration types (clientcmd `api.Config` and its named
 * entries) as the kubeconfig package uses them. Each entry keeps only the
 * fields that the package's configuration comparison inspects, plus the
 * current-context pointer that setup moves.
 */
module Api {

  /** Inline byte data (certificates, keys). */
  type Bytes = seq<bv8>

  /** An extension object, kept in its raw encoded form and never interpreted. */
  type RawExtension = Bytes

  /** Extensions are a name-keyed collection of opaque objects. */
  type Extensions = map<string, RawExtension>

  datatype Preferences = Preferences(colors: bool)

  /** How to reach one control-plane endpoint and which authority to trust. */
  datatype Cluster = Cluster(
    locationOfOrigin: string,
    server: string,
    apiVersion: string,
    insecureSkipTLSVerify: bool,
    certificateAuthority: string,
    certificateAuthorityData: Bytes,
    extensions: Extensions)

  /** Client credentials: certificate and key (path or inline), token, basic auth. */
  datatype AuthInfo = AuthInfo(
    locationOfOrigin: string,
    clientCertificate: string,
    clientCertificateData: Bytes,
    clientKey: string,
    clientKeyData: Bytes,
    token: string,
    username: string,
    password: string,
    extensions: Extensions)

  /** A pairing of a cluster name and an auth-info name, with a namespace. */
  datatype Context = Context(
    locationOfOrigin: string,
    cluster: string,
    authInfo: string,
    namespace: string,
    extensions: Extensions)

  /** `api.NewCluster`: every field empty. */
  function NewCluster(): (c: Cluster)
  {
    Cluster("", "", "", false, "", [], map[])
  }

  /** `api.NewAuthInfo`: every field empty. */
  function NewAuthInfo(): (u: AuthInfo)
  {
    AuthInfo("", "", [], "", [], "", "", "", map[])
  }

  /** `api.NewContext`: every field empty. */
  function NewContext(): (x: Context)
  {
    Context("", "", "", "", map[])
  }

  /**
   * The in-memory configuration. Callers hold it by reference and the setup
   * code inserts entries and moves the current context in place.
   */
  class Config {
    var kind: string
    var apiVersion: string
    var preferences: Preferences
    var clusters: map<string, Cluster>
    var authInfos: map<string, AuthInfo>
    var contexts: map<string, Context>
    /** May name a context that does not exist; nothing validates it. */
    var currentContext: string
    var extensions: Extensions

    /** No clusters, no auth-infos, no contexts. */
    predicate IsEmpty()
      reads this
    {
      clusters == map[] && authInfos == map[] && contexts == map[]
    }

    /**
     * `api.NewConfig`, which is also what loading an empty or missing file
     * yields: no entries, no current context, empty kind and version.
     */
    constructor ()
      ensures IsEmpty()
      ensures |clusters| == 0 && |authInfos| == 0 && |contexts| == 0
      ensures currentContext == "" && kind == "" && apiVersion == ""
      ensures preferences == Preferences(false) && extensions == map[]
    {
      kind, apiVersion := "", "";
      preferences := Preferences(false);
      clusters, authInfos, contexts := map[], map[], map[];
      currentContext := "";
      extensions := map[];
    }
  }
}
