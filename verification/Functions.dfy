/** The objects the operator stores in the cluster, their names, and the templates it derives from a Function. */
module Functions {
  import opened Options
  import opened Text

  datatype Key = Key(namespace: string, name: string)

  /** The text of `deProvisionTime`: empty, a time with whole seconds, or text that does not parse as a time. */
  datatype Lease = Unset | Until(second: int) | Malformed

  datatype FunctionSpec = FunctionSpec(
    isActive: bool, isAsync: bool, lease: Lease, language: string,
    name: string, httpMethod: string, project: string, gitCreds: string)

  datatype Function = Function(key: Key, version: nat, spec: FunctionSpec)

  /** Operator configuration; `keepWarm` is in nanoseconds. */
  datatype Settings = Settings(
    registry: string, vcsUser: string, vcsBaseUrl: string, gitTokenSecretName: string, gitTokenSecretKey: string,
    pullSecret: string, dbSecretName: string, dbSecretKey: string, redisUrl: string, redisPassword: string,
    natsUrl: string, keepWarm: int)

  datatype EnvVar =
    | Literal(name: string, value: string)
    | FromSecret(name: string, secretName: string, secretKey: string)

  datatype DeploymentTemplate = DeploymentTemplate(
    key: Key, selector: map<string, string>, podLabels: map<string, string>, replicas: nat,
    image: string, pullSecret: string, port: nat, env: seq<EnvVar>, owner: Option<Key>)

  datatype ServiceTemplate = ServiceTemplate(
    key: Key, labels: map<string, string>, selector: map<string, string>, port: nat, owner: Option<Key>)

  const DEPLOYMENT_PREFIX := "litefunctions-runtime-"
  const IMAGE_OWNER := "ashupednekar535"
  const SERVICE_PREFIX := "litefunctions-runtime-svc-"

  predicate IsDynamicLanguage(language: string) {
    language == "python" || language == "ts" || language == "lua"
  }

  function RuntimeSuffix(f: Function): string {
    if IsDynamicLanguage(f.spec.language) then f.spec.language + "-" + f.spec.project
    else f.spec.language + "-" + f.spec.project + "-" + f.key.name
  }

  function GetDeploymentName(f: Function): string {
    DEPLOYMENT_PREFIX + RuntimeSuffix(f)
  }

  function GetServiceName(f: Function): string {
    SERVICE_PREFIX + RuntimeSuffix(f)
  }

  function DeploymentKey(f: Function): Key {
    Key(f.key.namespace, GetDeploymentName(f))
  }

  function ServiceKey(f: Function): Key {
    Key(f.key.namespace, GetServiceName(f))
  }

  /** The labels of a runtime's pods; a compiled runtime adds the function it serves. */
  function RuntimeLabels(f: Function): map<string, string> {
    var labels := map["app" := "runtime", "lang" := f.spec.language, "project" := f.spec.project];
    if IsDynamicLanguage(f.spec.language) then labels else labels["function" := f.spec.name]
  }

  function RuntimeImage(c: Settings, f: Function): string {
    if f.spec.language == "python" then IMAGE_OWNER + "/" + "litefunctions-runtime-py:latest"
    else if f.spec.language == "ts" then IMAGE_OWNER + "/" + "litefunctions-runtime-ts:latest"
    else if f.spec.language == "lua" then IMAGE_OWNER + "/" + "litefunctions-runtime-lua:latest"
    else
      c.registry + "/" + c.vcsUser + "/runtime-" + f.spec.language + "-" + f.spec.project + "-" + f.key.name + ":latest"
  }

  function RuntimeEnv(c: Settings, f: Function): seq<EnvVar> {
    var env := [
      FromSecret("DATABASE_URL", c.dbSecretName, c.dbSecretKey),
      Literal("GIT_USER", c.vcsUser),
      Literal("VCS_BASE_URL", c.vcsBaseUrl),
      Literal("PROJECT", f.spec.project),
      Literal("REDIS_URL", c.redisUrl),
      Literal("REDIS_PASSWORD", c.redisPassword),
      Literal("NATS_URL", c.natsUrl),
      Literal("HTTP_PORT", "8080")];
    var named := if IsDynamicLanguage(f.spec.language) then env else env + [Literal("NAME", f.spec.name)];
    named + [FromSecret("GIT_TOKEN", c.gitTokenSecretName, c.gitTokenSecretKey)]
  }

  /** Only a runtime that serves one function is owned by it. */
  function RuntimeOwner(f: Function): Option<Key> {
    if IsDynamicLanguage(f.spec.language) then None else Some(f.key)
  }

  function NewDeployment(c: Settings, f: Function): DeploymentTemplate {
    DeploymentTemplate(DeploymentKey(f), RuntimeLabels(f), RuntimeLabels(f), 1,
                       RuntimeImage(c, f), c.pullSecret, 8080, RuntimeEnv(c, f), RuntimeOwner(f))
  }

  function NewService(f: Function): ServiceTemplate {
    ServiceTemplate(ServiceKey(f), RuntimeLabels(f), RuntimeLabels(f), 8080, RuntimeOwner(f))
  }

  /**
   * The object names join language, project and function name with hyphens. They stay unambiguous when the
   * language has no hyphen and, for a compiled language, the project has none either.
   */
  predicate HyphenFree(f: Function) {
    '-' !in f.spec.language && (IsDynamicLanguage(f.spec.language) || '-' !in f.spec.project)
  }

  /** What every Function made by CreateFunctionIfNotExists satisfies when its names are unambiguous. */
  predicate WellFormed(f: Function) {
    HyphenFree(f) && f.spec.name == f.key.name
  }

  /** The test of the in-use loops: `g` is another function served by the runtime of `f`. */
  predicate SharesRuntimeOf(g: Function, f: Function) {
    && IsDynamicLanguage(f.spec.language)
    && g.key.namespace == f.key.namespace
    && g.key.name != f.key.name
    && g.spec.language == f.spec.language
    && g.spec.project == f.spec.project
  }

  predicate SameRuntime(f: Function, g: Function) {
    || (f.key == g.key && f.spec.language == g.spec.language && f.spec.project == g.spec.project)
    || SharesRuntimeOf(g, f)
  }

  predicate SameIdentity(f: Function, g: Function) {
    && f.key == g.key && f.spec.language == g.spec.language
    && f.spec.project == g.spec.project && f.spec.name == g.spec.name
  }

  /** A label selector picks the pods that carry all of its labels. */
  predicate Selects(selector: map<string, string>, labels: map<string, string>) {
    forall k :: k in selector ==> k in labels && labels[k] == selector[k]
  }

  /**
   * The names of the compiled functions `f` and `g` join to the same text although they differ: the project of `g` is
   * that of `f` with a hyphen and more, and `f` is named by this rest and the name of `g`.
   */
  predicate Shadows(f: Function, g: Function) {
    && !IsDynamicLanguage(f.spec.language) && f.spec.language == g.spec.language
    && Overlaps(f.spec.project, f.key.name, g.spec.project, g.key.name, '-')
  }

  /** What the names of a runtime are made of, apart from the namespace. */
  predicate SameParts(f: Function, g: Function) {
    && f.spec.language == g.spec.language && f.spec.project == g.spec.project
    && (IsDynamicLanguage(f.spec.language) || f.key.name == g.key.name)
  }

  /** For every project, hyphenated or not: exactly when the suffixes of two functions are equal. */
  lemma SuffixesEqualIff(f: Function, g: Function)
    requires '-' !in f.spec.language && '-' !in g.spec.language
    ensures RuntimeSuffix(f) == RuntimeSuffix(g) <==> SameParts(f, g) || Shadows(f, g) || Shadows(g, f)
  {
    var (lf, pf, nf) := (f.spec.language, f.spec.project, f.key.name);
    var (lg, pg, ng) := (g.spec.language, g.spec.project, g.key.name);
    var restF := if IsDynamicLanguage(lf) then pf else pf + "-" + nf;
    var restG := if IsDynamicLanguage(lg) then pg else pg + "-" + ng;
    assert RuntimeSuffix(f) == lf + ['-'] + restF;
    assert RuntimeSuffix(g) == lg + ['-'] + restG;
    if RuntimeSuffix(f) == RuntimeSuffix(g) {
      SeparatorCancels(lf, lg, restF, restG, '-');
    }
    JoinedAlikeIff(pf, nf, pg, ng, '-');
    hide RuntimeSuffix, Overlaps;
  }

  /** A project without a hyphen is no other project with a hyphen and more. */
  lemma HyphenFreeNeverShadows(f: Function, g: Function)
    requires HyphenFree(g)
    ensures !Shadows(f, g)
  {
    OverlapHasSeparator(f.spec.project, f.key.name, g.spec.project, g.key.name, '-');
  }

  /**
   * Two functions get the same Deployment, and the same Service, exactly when one runtime serves both or one shadows
   * the other.
   */
  lemma NamesEqualIff(f: Function, g: Function)
    requires '-' !in f.spec.language && '-' !in g.spec.language
    ensures DeploymentKey(f) == DeploymentKey(g) <==>
      SameRuntime(f, g) || (f.key.namespace == g.key.namespace && (Shadows(f, g) || Shadows(g, f)))
    ensures ServiceKey(f) == ServiceKey(g) <==> DeploymentKey(f) == DeploymentKey(g)
  {
    SuffixesEqualIff(f, g);
    assert GetDeploymentName(f)[|DEPLOYMENT_PREFIX|..] == RuntimeSuffix(f);
    assert GetDeploymentName(g)[|DEPLOYMENT_PREFIX|..] == RuntimeSuffix(g);
    assert GetServiceName(f)[|SERVICE_PREFIX|..] == RuntimeSuffix(f);
    assert GetServiceName(g)[|SERVICE_PREFIX|..] == RuntimeSuffix(g);
    assert f.key.namespace == g.key.namespace ==> (SameParts(f, g) <==> SameRuntime(f, g));
    hide RuntimeSuffix, Shadows;
  }

  /** So, with names that are free of hyphens, exactly when one runtime serves both. */
  lemma NamesEqualIffSameRuntime(f: Function, g: Function)
    requires HyphenFree(f) && HyphenFree(g)
    ensures DeploymentKey(f) == DeploymentKey(g) <==> SameRuntime(f, g)
    ensures ServiceKey(f) == ServiceKey(g) <==> SameRuntime(f, g)
  {
    NamesEqualIff(f, g);
    HyphenFreeNeverShadows(f, g);
    HyphenFreeNeverShadows(g, f);
    hide DeploymentKey, ServiceKey, Shadows;
  }

  predicate IsIn(f: Function, namespace: string, language: string, project: string) {
    && f.key.namespace == namespace && f.spec.language == language && f.spec.project == project
    && f.key.name != "" && f.spec.name == f.key.name
  }

  /** Some function of the one project and some function of the other get the same Deployment. */
  ghost predicate DeploymentsCollide(namespace: string, language: string, p: string, q: string) {
    exists f, g :: IsIn(f, namespace, language, p) && IsIn(g, namespace, language, q) &&
      DeploymentKey(f) == DeploymentKey(g)
  }

  ghost predicate ServicesCollide(namespace: string, language: string, p: string, q: string) {
    exists f, g :: IsIn(f, namespace, language, p) && IsIn(g, namespace, language, q) && ServiceKey(f) == ServiceKey(g)
  }

  /**
   * Functions of two projects of a compiled language can get each other's Deployment, and Service, if and only if one
   * project is the other with a hyphen and more. The functions of one project never do.
   */
  lemma ProjectsCollideIff(namespace: string, language: string, p: string, q: string)
    requires !IsDynamicLanguage(language) && '-' !in language && p != q
    ensures DeploymentsCollide(namespace, language, p, q) <==> HasPrefix(q, p + "-") || HasPrefix(p, q + "-")
    ensures ServicesCollide(namespace, language, p, q) <==> HasPrefix(q, p + "-") || HasPrefix(p, q + "-")
  {
    if HasPrefix(q, p + "-") {
      LongerProjectCollides(namespace, language, p, q);
    } else if HasPrefix(p, q + "-") {
      LongerProjectCollides(namespace, language, q, p);
    }
    forall f, g | IsIn(f, namespace, language, p) && IsIn(g, namespace, language, q) &&
      DeploymentKey(f) == DeploymentKey(g)
      ensures HasPrefix(q, p + "-") || HasPrefix(p, q + "-")
    {
      NamesEqualIff(f, g);
    }
    forall f, g | IsIn(f, namespace, language, p) && IsIn(g, namespace, language, q) && ServiceKey(f) == ServiceKey(g)
      ensures HasPrefix(q, p + "-") || HasPrefix(p, q + "-")
    {
      NamesEqualIff(f, g);
    }
    hide DeploymentKey, ServiceKey, HasPrefix, IsIn;
  }

  lemma LongerProjectCollides(namespace: string, language: string, p: string, q: string)
    requires !IsDynamicLanguage(language) && '-' !in language && HasPrefix(q, p + "-")
    ensures DeploymentsCollide(namespace, language, p, q) && DeploymentsCollide(namespace, language, q, p)
    ensures ServicesCollide(namespace, language, p, q) && ServicesCollide(namespace, language, q, p)
  {
    var m, n := q[|p| + 1..] + "-" + "x", "x";
    var f := Function(Key(namespace, m), 0, FunctionSpec(false, false, Unset, language, m, "", p, ""));
    var g := Function(Key(namespace, n), 0, FunctionSpec(false, false, Unset, language, n, "", q, ""));
    assert Shadows(f, g);
    NamesEqualIff(f, g);
    assert IsIn(f, namespace, language, p) && IsIn(g, namespace, language, q);
    hide DeploymentKey, ServiceKey, IsIn, Shadows;
  }

  /** An example: a function of project "shop-eu" and one of project "shop" share a Deployment. */
  lemma HyphenatedProjectsCollide(f: Function, g: Function)
    requires f.spec.language == "go" && f.spec.project == "shop-eu" && f.key == Key("ns", "cart")
    requires g.spec.language == "go" && g.spec.project == "shop" && g.key == Key("ns", "eu-cart")
    ensures DeploymentKey(f) == DeploymentKey(g) && !SameRuntime(f, g)
  {
    assert Shadows(g, f) by {
      assert "shop-eu"[..5] == "shop" + ['-'] && "shop-eu"[5..] == "eu";
      assert "eu" + ['-'] + "cart" == "eu-cart";
    }
    NamesEqualIff(f, g);
    assert |f.key.name| != |g.key.name|;
  }

  /**
   * Two functions get the same image exactly when their names are made of the same parts, a dynamic language standing
   * for all its projects.
   */
  lemma ImagesEqualIff(c: Settings, f: Function, g: Function)
    requires '-' !in f.spec.language && '-' !in g.spec.language
    ensures RuntimeImage(c, f) == RuntimeImage(c, g) <==>
      if IsDynamicLanguage(f.spec.language) || IsDynamicLanguage(g.spec.language)
      then f.spec.language == g.spec.language
      else SameParts(f, g) || Shadows(f, g) || Shadows(g, f)
  {
    if IsDynamicLanguage(f.spec.language) {
      if IsDynamicLanguage(g.spec.language) {
        DynamicImagesDiffer();
      } else {
        ImagesOfKindsDiffer(c, f, g);
      }
    } else if IsDynamicLanguage(g.spec.language) {
      ImagesOfKindsDiffer(c, g, f);
    } else {
      SuffixesEqualIff(f, g);
      CompiledImagesEqualIff(c, f, g);
    }
    hide RuntimeImage, RuntimeSuffix, Shadows;
  }

  lemma CompiledImagesEqualIff(c: Settings, f: Function, g: Function)
    requires !IsDynamicLanguage(f.spec.language) && !IsDynamicLanguage(g.spec.language)
    ensures RuntimeImage(c, f) == RuntimeImage(c, g) <==> RuntimeSuffix(f) == RuntimeSuffix(g)
  {
    var start := c.registry + "/" + c.vcsUser + "/runtime-";
    assert RuntimeImage(c, f) == start + RuntimeSuffix(f) + ":latest";
    assert RuntimeImage(c, g) == start + RuntimeSuffix(g) + ":latest";
    if RuntimeImage(c, f) == RuntimeImage(c, g) {
      SameMiddle(start, RuntimeSuffix(f), RuntimeSuffix(g), ":latest");
    }
  }

  /** The image of a compiled function has two slashes at least, that of a dynamic language has one. */
  lemma ImagesOfKindsDiffer(c: Settings, f: Function, g: Function)
    requires IsDynamicLanguage(f.spec.language) && !IsDynamicLanguage(g.spec.language)
    ensures RuntimeImage(c, f) != RuntimeImage(c, g)
  {
    var image := if f.spec.language == "python" then "litefunctions-runtime-py:latest"
                 else if f.spec.language == "ts" then "litefunctions-runtime-ts:latest"
                 else "litefunctions-runtime-lua:latest";
    ImagesHaveOneSlash();
    assert RuntimeImage(c, f) == IMAGE_OWNER + ['/'] + image;
    var other := RuntimeImage(c, g);
    assert other[..|c.registry| + 1] == c.registry + "/";
    assert other[|c.registry|] == '/' && other[|c.registry| + 1 + |c.vcsUser|] == '/';
    hide RuntimeImage;
    OneSlashIsNotTwo(IMAGE_OWNER, image, other, |c.registry|, |c.registry| + 1 + |c.vcsUser|);
  }

  lemma ImagesHaveOneSlash()
    ensures '/' !in IMAGE_OWNER
    ensures '/' !in "litefunctions-runtime-py:latest"
    ensures '/' !in "litefunctions-runtime-ts:latest"
    ensures '/' !in "litefunctions-runtime-lua:latest"
  {
  }

  lemma OneSlashIsNotTwo(a: string, b: string, t: string, i: nat, j: nat)
    requires '/' !in a && '/' !in b && i < j < |t| && t[i] == '/' && t[j] == '/'
    ensures a + ['/'] + b != t
  {
    var s := a + ['/'] + b;
    assert forall k :: 0 <= k < |a| ==> s[k] == a[k];
    assert forall k :: |a| < k < |s| ==> s[k] == b[k - |a| - 1];
    assert forall k :: 0 <= k < |s| && k != |a| ==> s[k] != '/';
  }

  lemma DynamicImagesDiffer()
    ensures "litefunctions-runtime-py:latest" != "litefunctions-runtime-ts:latest"
    ensures "litefunctions-runtime-py:latest" != "litefunctions-runtime-lua:latest"
    ensures "litefunctions-runtime-ts:latest" != "litefunctions-runtime-lua:latest"
    ensures forall x: string, y: string :: IMAGE_OWNER + "/" + x == IMAGE_OWNER + "/" + y ==> x == y
  {
    assert "litefunctions-runtime-py:latest"[22] == 'p';
    assert "litefunctions-runtime-ts:latest"[22] == 't';
    assert "litefunctions-runtime-lua:latest"[22] == 'l';
    forall x: string, y: string | IMAGE_OWNER + "/" + x == IMAGE_OWNER + "/" + y
      ensures x == y
    {
      assert x == (IMAGE_OWNER + "/" + x)[|IMAGE_OWNER| + 1..] && y == (IMAGE_OWNER + "/" + y)[|IMAGE_OWNER| + 1..];
    }
  }

  lemma SameMiddle(start: string, a: string, b: string, end: string)
    requires start + a + end == start + b + end
    ensures a == b
  {
    var s, t := start + a + end, start + b + end;
    assert a == s[|start|..|s| - |end|] && b == t[|start|..|t| - |end|];
  }

  /** A runtime is told its project, and a compiled one its function, and no variable is given twice. */
  lemma RuntimeKnowsItsFunction(c: Settings, f: Function)
    ensures var env := RuntimeEnv(c, f);
      && Literal("PROJECT", f.spec.project) in env
      && (forall v :: Literal("NAME", v) in env <==> !IsDynamicLanguage(f.spec.language) && v == f.spec.name)
      && (forall i, j :: 0 <= i < j < |env| ==> env[i].name != env[j].name)
  {
    var env := RuntimeEnv(c, f);
    assert env[3] == Literal("PROJECT", f.spec.project);
    assert !IsDynamicLanguage(f.spec.language) ==> env[8] == Literal("NAME", f.spec.name);
  }

  /** A Service selects the pods of its own runtime and of no other runtime in its namespace. */
  lemma ServiceSelectsOwnPods(c: Settings, f: Function, g: Function)
    requires f.spec.name == f.key.name && g.spec.name == g.key.name
    requires f.key.namespace == g.key.namespace
    ensures Selects(NewService(f).selector, NewDeployment(c, g).podLabels) <==> SameRuntime(f, g)
  {
    var s, p := NewService(f).selector, NewDeployment(c, g).podLabels;
    if Selects(s, p) {
      assert s["lang"] == p["lang"] && s["project"] == p["project"];
      if !IsDynamicLanguage(f.spec.language) {
        assert s["function"] == p["function"];
      }
    }
  }

  /** The templates of a shared runtime do not depend on which of its functions they were built from. */
  lemma SameRuntimeSameTemplates(c: Settings, f: Function, g: Function)
    requires WellFormed(f) && WellFormed(g) && SameRuntime(f, g)
    ensures NewDeployment(c, f) == NewDeployment(c, g)
    ensures NewService(f) == NewService(g)
  {
  }
}
