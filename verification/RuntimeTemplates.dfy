/** What the names and templates of a runtime say, spelled out language by language and field by field. */
module RuntimeTemplates {
  import opened Functions
  import opened Options
  import opened Text

  // Names

  /** What an object name says: a runtime of python, ts or lua is that of a project, any other that of a function. */
  function NameParts(f: Function): (parts: seq<string>)
    ensures |parts| >= 2
  {
    Split(f.spec.language, '-') + Split(f.spec.project, '-')
    + if f.spec.language in {"python", "ts", "lua"} then [] else Split(f.key.name, '-')
  }

  /**
   * The object names can be read back: Deployment and Service stand in the namespace of the Function, and after their
   * prefix both name what they serve, piece by piece between the hyphens.
   */
  lemma NamesReadBack(f: Function) returns (suffix: string)
    ensures DeploymentKey(f) == Key(f.key.namespace, "litefunctions-runtime-" + suffix)
    ensures ServiceKey(f) == Key(f.key.namespace, "litefunctions-runtime-svc-" + suffix)
    ensures Split(suffix, '-') == NameParts(f)
  {
    suffix := RuntimeSuffix(f);
    SplitBoth(f.spec.language, f.spec.project, '-');
    SplitBoth(f.spec.language + "-" + f.spec.project, f.key.name, '-');
    hide Split;
  }

  // Images

  /** Which image a runtime of a dynamic language runs; nothing else than the language decides. */
  lemma DynamicImages(c: Settings, f: Function)
    ensures var image, owner := NewDeployment(c, f).image, "ashupednekar535" + "/";
      && (f.spec.language == "python" ==> image == owner + "litefunctions-runtime-py:latest")
      && (f.spec.language == "ts" ==> image == owner + "litefunctions-runtime-ts:latest")
      && (f.spec.language == "lua" ==> image == owner + "litefunctions-runtime-lua:latest")
  {
  }

  /** The end of an image of a dynamic language and that language tell each other. */
  lemma ImageTellsLanguage(c: Settings, f: Function)
    ensures var image, dynamic := NewDeployment(c, f).image, f.spec.language in {"python", "ts", "lua"};
      && (HasSuffix(image, "-py:latest") && dynamic <==> f.spec.language == "python")
      && (HasSuffix(image, "-ts:latest") && dynamic <==> f.spec.language == "ts")
      && (HasSuffix(image, "-lua:latest") && dynamic <==> f.spec.language == "lua")
  {
    DynamicImages(c, f);
    PythonImageEnds("ashupednekar535" + "/");
    TsImageEnds("ashupednekar535" + "/");
    LuaImageEnds("ashupednekar535" + "/");
    hide HasSuffix, NewDeployment;
  }

  lemma PythonImageEnds(owner: string)
    ensures var image := owner + "litefunctions-runtime-py:latest";
      HasSuffix(image, "-py:latest") && !HasSuffix(image, "-ts:latest") && !HasSuffix(image, "-lua:latest")
  {
    var image := owner + "litefunctions-runtime-py:latest";
    assert image[|image| - 9] == 'p';
    EndsApart(image, "-ts:latest", 9);
    EndsApart(image, "-lua:latest", 9);
    assert image[|image| - 10..] == "-py:latest";
  }

  lemma TsImageEnds(owner: string)
    ensures var image := owner + "litefunctions-runtime-ts:latest";
      !HasSuffix(image, "-py:latest") && HasSuffix(image, "-ts:latest") && !HasSuffix(image, "-lua:latest")
  {
    var image := owner + "litefunctions-runtime-ts:latest";
    assert image[|image| - 9] == 't' && image[|image| - 8] == 's';
    EndsApart(image, "-py:latest", 9);
    EndsApart(image, "-lua:latest", 8);
    assert image[|image| - 10..] == "-ts:latest";
  }

  lemma LuaImageEnds(owner: string)
    ensures var image := owner + "litefunctions-runtime-lua:latest";
      !HasSuffix(image, "-py:latest") && !HasSuffix(image, "-ts:latest") && HasSuffix(image, "-lua:latest")
  {
    var image := owner + "litefunctions-runtime-lua:latest";
    assert image[|image| - 8] == 'a';
    EndsApart(image, "-py:latest", 8);
    EndsApart(image, "-ts:latest", 8);
    assert image[|image| - 11..] == "-lua:latest";
  }

  /** A text whose character at some distance from the end differs does not have the suffix. */
  lemma EndsApart(s: string, suffix: string, fromEnd: nat)
    requires 0 < fromEnd <= |suffix| <= |s| && s[|s| - fromEnd] != suffix[|suffix| - fromEnd]
    ensures !HasSuffix(s, suffix)
  {
    assert s[|s| - |suffix|..][|suffix| - fromEnd] == s[|s| - fromEnd];
  }

  /** The image of a compiled function stands in the registry of the user, named like its Deployment. */
  lemma CompiledImageIsNamedLikeDeployment(c: Settings, f: Function) returns (suffix: string)
    requires f.spec.language !in {"python", "ts", "lua"}
    ensures GetDeploymentName(f) == "litefunctions-runtime-" + suffix
    ensures NewDeployment(c, f).image == c.registry + "/" + c.vcsUser + "/runtime-" + suffix + ":latest"
  {
    suffix := RuntimeSuffix(f);
    var start := c.registry + "/" + c.vcsUser + "/runtime-";
    assert start + f.spec.language + "-" + f.spec.project + "-" + f.key.name == start + suffix;
  }

  // Templates

  /**
   * A Deployment runs one pod that its own selector and its Service find, on the port that the Service forwards to;
   * exactly a runtime that serves a single function is owned by it.
   */
  lemma TemplatesFit(c: Settings, f: Function)
    ensures var d, s := NewDeployment(c, f), NewService(f);
      && d.key == DeploymentKey(f) && s.key == ServiceKey(f)
      && d.replicas == 1 && d.port == s.port == 8080 && d.pullSecret == c.pullSecret
      && Selects(d.selector, d.podLabels) && Selects(s.selector, d.podLabels)
      && d.owner == s.owner == if f.spec.language in {"python", "ts", "lua"} then None else Some(f.key)
  {
  }

  /** The labels name the language, the project and, for a compiled runtime, the function. */
  lemma LabelsTell(c: Settings, f: Function)
    ensures var labels := NewDeployment(c, f).podLabels;
      && NewDeployment(c, f).selector == NewService(f).selector == NewService(f).labels == labels
      && labels.Keys == ({"app", "lang", "project"}
            + if f.spec.language in {"python", "ts", "lua"} then {} else {"function"})
      && labels["app"] == "runtime" && labels["lang"] == f.spec.language && labels["project"] == f.spec.project
      && ("function" in labels ==> labels["function"] == f.spec.name)
  {
  }

  /** The variables that every runtime gets, each from its setting, and no others than `NAME` besides. */
  lemma EnvironmentTells(c: Settings, f: Function)
    ensures var env := NewDeployment(c, f).env;
      && FromSecret("DATABASE_URL", c.dbSecretName, c.dbSecretKey) in env
      && FromSecret("GIT_TOKEN", c.gitTokenSecretName, c.gitTokenSecretKey) in env
      && Literal("GIT_USER", c.vcsUser) in env && Literal("VCS_BASE_URL", c.vcsBaseUrl) in env
      && Literal("REDIS_URL", c.redisUrl) in env && Literal("REDIS_PASSWORD", c.redisPassword) in env
      && Literal("NATS_URL", c.natsUrl) in env && Literal("HTTP_PORT", "8080") in env
      && Literal("PROJECT", f.spec.project) in env
      && |env| == if f.spec.language in {"python", "ts", "lua"} then 9 else 10
  {
    var env := RuntimeEnv(c, f);
    assert env[0].name == "DATABASE_URL" && env[1].name == "GIT_USER" && env[2].name == "VCS_BASE_URL";
    assert env[3].name == "PROJECT" && env[4].name == "REDIS_URL" && env[5].name == "REDIS_PASSWORD";
    assert env[6].name == "NATS_URL" && env[7].name == "HTTP_PORT" && env[|env| - 1].name == "GIT_TOKEN";
  }
}
