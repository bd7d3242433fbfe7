/**
 * The provider registry built once at process start: the proxy variables are
 * scrubbed from the environment, and a client is registered for each provider
 * whose API key is present and is not its placeholder.  Also the three health
 * payloads that report the registry.
 */
module Registry {
  import opened Wrappers

  type Environ = map<string, string>

  datatype Provider = OpenAI | Google {
    /** The key of the provider in the `clients` dict and in every payload. */
    function Name(): string {
      match this
      case OpenAI => "openai"
      case Google => "google"
    }

    function KeyVariable(): string {
      match this
      case OpenAI => "OPENAI_API_KEY"
      case Google => "GOOGLE_API_KEY"
    }

    /** The value shipped in the sample configuration, treated as no key at all. */
    function Placeholder(): string {
      match this
      case OpenAI => "your_openai_api_key_here"
      case Google => "your_google_api_key_here"
    }
  }

  /** The variables removed before any client is built. */
  const ProxyVars: seq<string> := ["HTTP_PROXY", "HTTPS_PROXY", "http_proxy", "https_proxy", "NO_PROXY", "no_proxy"]

  /** `os.getenv(name)`. */
  function Getenv(env: Environ, name: string): Option<string> {
    if name in env then Some(env[name]) else None
  }

  /** `key and key != placeholder` for `key = os.getenv(...)`. */
  predicate Configured(env: Environ, p: Provider) {
    var key := Getenv(env, p.KeyVariable());
    key.Some? && key.value != "" && key.value != p.Placeholder()
  }

  /** The environment after the startup scrub: the proxy variables gone, everything else as it was. */
  function Scrubbed(env: Environ): (r: Environ)
    ensures forall name :: name in r <==> name in env && name !in ProxyVars
    ensures forall name :: name in r ==> r[name] == env[name]
  {
    map name | name in env && name !in ProxyVars :: env[name]
  }

  /** `d[k] = v` on a dict viewed as its key order: a new key goes last, an existing one keeps its place. */
  function DictInsert(keys: seq<Provider>, p: Provider): (r: seq<Provider>)
    ensures p in r && (forall q :: q in r <==> q in keys || q == p)
    ensures p in keys ==> r == keys
  {
    if p in keys then keys else keys + [p]
  }

  /** The insertions `initialize_clients` performs on `clients`, given the environment it reads. */
  function RegisterAll(keys: seq<Provider>, env: Environ): seq<Provider> {
    var withOpenAI := if Configured(env, OpenAI) then DictInsert(keys, OpenAI) else keys;
    if Configured(env, Google) then DictInsert(withOpenAI, Google) else withOpenAI
  }

  /** The registered providers in insertion order, starting from an empty `clients` dict. */
  function Registrations(env: Environ): seq<Provider> {
    (if Configured(env, OpenAI) then [OpenAI] else []) + (if Configured(env, Google) then [Google] else [])
  }

  function Names(ps: seq<Provider>): (r: seq<string>)
    ensures |r| == |ps|
    ensures forall k :: 0 <= k < |ps| ==> r[k] == ps[k].Name()
  {
    if ps == [] then [] else [ps[0].Name()] + Names(ps[1..])
  }

  /** The scrub never touches the API key variables, so it cannot change what is configured. */
  lemma ScrubKeepsConfiguration(env: Environ, p: Provider)
    ensures Configured(Scrubbed(env), p) <==> Configured(env, p)
  {
    assert p.KeyVariable() !in ProxyVars;
  }

  /** Starting from the empty dict, the insertions give exactly `Registrations`. */
  lemma RegisterAllFromEmpty(env: Environ)
    ensures RegisterAll([], env) == Registrations(env)
  {
  }

  /**
   * A provider is registered iff its key is configured; nothing else is ever
   * registered; nothing is listed twice; OpenAI comes first when both are present.
   */
  lemma RegistrationsShape(env: Environ)
    ensures forall p :: p in Registrations(env) <==> Configured(env, p)
    ensures |Registrations(env)| <= 2
    ensures forall j, k :: 0 <= j < k < |Registrations(env)| ==> Registrations(env)[j] != Registrations(env)[k]
    ensures Configured(env, OpenAI) && Configured(env, Google) ==> Registrations(env) == [OpenAI, Google]
  {
  }

  /** The process-wide state of one back end: `os.environ` and the `clients` dict (kept as its key order). */
  class Process {
    var environ: Environ
    var clients: seq<Provider>

    /** A fresh process: the inherited environment and the empty `clients = {}`. */
    constructor(inherited: Environ)
      ensures environ == inherited && clients == []
    {
      environ := inherited;
      clients := [];
    }

    /**
     * `initialize_clients()`: delete each proxy variable that is set, then
     * register each provider whose key, read from the scrubbed environment,
     * is configured.
     */
    method InitializeClients()
      modifies this
      ensures environ == Scrubbed(old(environ))
      ensures clients == RegisterAll(old(clients), environ)
      ensures old(clients) == [] ==> clients == Registrations(old(environ))
    {
      var i := 0;
      while i < |ProxyVars|
        invariant 0 <= i <= |ProxyVars|
        invariant clients == old(clients)
        invariant forall name :: name in environ <==> name in old(environ) && name !in ProxyVars[..i]
        invariant forall name :: name in environ ==> environ[name] == old(environ)[name]
      {
        var name := ProxyVars[i];
        if name in environ {
          environ := environ - {name};
        }
        assert ProxyVars[..i + 1] == ProxyVars[..i] + [name];
        i := i + 1;
      }
      assert ProxyVars[..i] == ProxyVars;
      assert environ == Scrubbed(old(environ));

      var openaiKey := Getenv(environ, OpenAI.KeyVariable());
      if openaiKey.Some? && openaiKey.value != "" && openaiKey.value != OpenAI.Placeholder() {
        clients := DictInsert(clients, OpenAI);
      }
      var googleKey := Getenv(environ, Google.KeyVariable());
      if googleKey.Some? && googleKey.value != "" && googleKey.value != Google.Placeholder() {
        clients := DictInsert(clients, Google);
      }

      ScrubKeepsConfiguration(old(environ), OpenAI);
      ScrubKeepsConfiguration(old(environ), Google);
    }
  }

  /** The body of `GET /api/health` in app.py: a flag per provider. */
  datatype FlagsReport = FlagsReport(status: string, openai: bool, google: bool)

  /** The body of `GET /api/health` in api/chat.py and api/health.py: the registered names in order. */
  datatype ListReport = ListReport(status: string, availableClients: seq<string>)

  function HealthFlags(clients: seq<Provider>): FlagsReport {
    FlagsReport("healthy", OpenAI in clients, Google in clients)
  }

  function HealthList(clients: seq<Provider>): ListReport {
    ListReport("healthy", Names(clients))
  }

  /** The two payload shapes report the same registry. */
  lemma HealthPayloadsAgree(clients: seq<Provider>)
    ensures HealthFlags(clients).status == HealthList(clients).status == "healthy"
    ensures HealthFlags(clients).openai <==> "openai" in HealthList(clients).availableClients
    ensures HealthFlags(clients).google <==> "google" in HealthList(clients).availableClients
  {
  }

  /**
   * `handler.do_GET` of api/health.py: the list is built by appending each
   * provider whose key is configured in the environment of the request.
   */
  method HealthFromEnv(env: Environ) returns (report: ListReport)
    ensures report.status == "healthy"
    ensures report.availableClients == Names(Registrations(env))
  {
    var available: seq<string> := [];
    var openaiKey := Getenv(env, "OPENAI_API_KEY");
    if openaiKey.Some? && openaiKey.value != "" && openaiKey.value != "your_openai_api_key_here" {
      available := available + ["openai"];
    }
    var googleKey := Getenv(env, "GOOGLE_API_KEY");
    if googleKey.Some? && googleKey.value != "" && googleKey.value != "your_google_api_key_here" {
      available := available + ["google"];
    }
    report := ListReport("healthy", available);
  }

  /**
   * The serverless health check agrees with the health payload of a back end
   * that started in the same environment: the scrub does not change the keys.
   */
  lemma HealthDeploymentsAgree(env: Environ)
    ensures Names(Registrations(Scrubbed(env))) == Names(Registrations(env))
  {
    ScrubKeepsConfiguration(env, OpenAI);
    ScrubKeepsConfiguration(env, Google);
  }
}
