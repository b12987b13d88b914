/**
 * The in-memory kubeconfig document and the function that builds it from the
 * validated flag values: one cluster, one context and one user, all keyed by
 * the cluster name.
 */
module KubeconfigBuilder {

  datatype Option<T> = None | Some(value: T)

  /** A cluster entry: where the API server is. */
  datatype Cluster = Cluster(server: string)

  /** A context entry: which cluster, which namespace, which user. */
  datatype Context = Context(cluster: string, namespace: string, authInfo: string)

  /** A user entry: a literal bearer token or the path of a file holding one (empty when unset). */
  datatype AuthInfo = AuthInfo(token: string, tokenFile: string)

  /** The document: three mappings keyed by name, plus the active context. */
  datatype Config = Config(
    clusters: map<string, Cluster>,
    contexts: map<string, Context>,
    currentContext: string,
    authInfos: map<string, AuthInfo>)

  /** The credential a user entry carries, as a tagged union. */
  datatype Credential = Literal(token: string) | FileRef(path: string)

  /** What a reader of the document reaches from its current context. */
  datatype Target = Target(server: string, namespace: string, credential: Credential)

  /** A populated token file takes the place of a literal token. */
  function CredentialOf(a: AuthInfo): Credential
  {
    if a.tokenFile != "" then FileRef(a.tokenFile) else Literal(a.token)
  }

  /**
   * The document describes exactly one cluster/context/user triple, named
   * `name`, and the context ties the cluster and the user of that name together.
   */
  predicate SingleTriple(c: Config, name: string)
  {
    && c.clusters.Keys == {name}
    && c.contexts.Keys == {name}
    && c.authInfos.Keys == {name}
    && c.currentContext == name
    && c.contexts[name].cluster == name
    && c.contexts[name].authInfo == name
  }

  /** Follows the current context to its cluster and user, as a kubeconfig reader does. */
  function CurrentTarget(c: Config): Option<Target>
  {
    if c.currentContext in c.contexts then
      var ctx := c.contexts[c.currentContext];
      if ctx.cluster in c.clusters && ctx.authInfo in c.authInfos then
        Some(Target(c.clusters[ctx.cluster].server, ctx.namespace, CredentialOf(c.authInfos[ctx.authInfo])))
      else None
    else None
  }

  /**
   * createKubeconfig. The service account is not an argument: it does not
   * appear in the document.
   */
  function CreateKubeconfig(server: string, cluster: string, namespace: string, token: string, tokenFile: string): (r: Config)
    ensures SingleTriple(r, cluster)
    ensures r.clusters[cluster].server == server
    ensures r.contexts[cluster].namespace == namespace
    ensures CredentialOf(r.authInfos[cluster]) == if tokenFile != "" then FileRef(tokenFile) else Literal(token)
  {
    var authInfo := if tokenFile != "" then AuthInfo("", tokenFile) else AuthInfo(token, "");
    Config(
      map[cluster := Cluster(server)],
      map[cluster := Context(cluster, namespace, cluster)],
      cluster,
      map[cluster := authInfo])
  }

  /**
   * The credential priority rule: a non-empty token file wins and leaves the
   * token field empty; otherwise the token is stored and the file field is empty.
   */
  lemma CredentialPriority(server: string, cluster: string, namespace: string, token: string, tokenFile: string)
    ensures var a := CreateKubeconfig(server, cluster, namespace, token, tokenFile).authInfos[cluster];
      && (tokenFile != "" ==> a.tokenFile == tokenFile && a.token == "")
      && (tokenFile == "" ==> a.token == token && a.tokenFile == "")
  {
  }

  /** When a token file is given, the literal token has no influence on the document. */
  lemma TokenIgnoredWithTokenFile(server: string, cluster: string, namespace: string, t1: string, t2: string, tokenFile: string)
    requires tokenFile != ""
    ensures CreateKubeconfig(server, cluster, namespace, t1, tokenFile)
         == CreateKubeconfig(server, cluster, namespace, t2, tokenFile)
  {
  }

  /** The user entry has exactly one populated field whenever one of the two credentials is given. */
  lemma ExactlyOneArm(server: string, cluster: string, namespace: string, token: string, tokenFile: string)
    requires token != "" || tokenFile != ""
    ensures var a := CreateKubeconfig(server, cluster, namespace, token, tokenFile).authInfos[cluster];
      (a.token != "") != (a.tokenFile != "")
  {
  }

  /** Following the current context of the built document reaches the server, namespace and credential given. */
  lemma CurrentContextResolves(server: string, cluster: string, namespace: string, token: string, tokenFile: string)
    ensures CurrentTarget(CreateKubeconfig(server, cluster, namespace, token, tokenFile))
         == Some(Target(server, namespace, if tokenFile != "" then FileRef(tokenFile) else Literal(token)))
  {
  }

  /** Scenario: a literal token, no token file. */
  lemma LiteralTokenDocument()
    ensures CreateKubeconfig("https://api.x", "prow", "ci", "abc", "")
         == Config(
              map["prow" := Cluster("https://api.x")],
              map["prow" := Context("prow", "ci", "prow")],
              "prow",
              map["prow" := AuthInfo("abc", "")])
  {
  }
}
