/**
 * The verdict logic of the environment health check: how each probe maps
 * what its HTTP request, subprocess or TCP connect yielded to OK, WARN or
 * FAIL with a detail string, the fixed order in which the checks are
 * collected, and the HEALTHY / DEGRADED / UNHEALTHY rollup with its exit
 * status.  Every external call's outcome is an input to the model.
 */
module HealthCheck {
  import opened Text

  const Ok := "OK"
  const Warn := "WARN"
  const Fail := "FAIL"

  /** One row of the report.  The status is a free string, as in the script. */
  datatype HealthResult = HealthResult(component: string, status: string, details: string) {

    /** The status symbol; a status other than the three known ones shows "?". */
    function Icon(): (s: string)
      ensures status == Ok ==> s == "✓"
      ensures status == Warn ==> s == "!"
      ensures status == Fail ==> s == "✗"
      ensures s == "?" <==> status != Ok && status != Warn && status != Fail
    {
      if status == Ok then "✓"
      else if status == Warn then "!"
      else if status == Fail then "✗"
      else "?"
    }

    /** The ANSI colour; a status other than the three known ones gets none. */
    function Color(): (s: string)
      ensures status == Ok ==> s == "\U{1B}[92m"
      ensures status == Warn ==> s == "\U{1B}[93m"
      ensures status == Fail ==> s == "\U{1B}[91m"
      ensures s == "" <==> status != Ok && status != Warn && status != Fail
    {
      if status == Ok then "\U{1B}[92m"
      else if status == Warn then "\U{1B}[93m"
      else if status == Fail then "\U{1B}[91m"
      else ""
    }
  }

  predicate KnownStatus(s: string) {
    s == Ok || s == Warn || s == Fail
  }

  // ---------------------------------------------------------------------
  // Outcomes of the external calls
  // ---------------------------------------------------------------------

  /**
   * An HTTP request: the body it delivered (`T`), a `URLError` with its
   * reason, or any other exception with its text.
   */
  datatype Fetch<T> = Fetched(value: T) | UrlError(reason: string) | Raised(message: string)

  /**
   * A subprocess: it exited with a return code and some output (`T`), it
   * timed out, its binary was not found, or some other exception was raised.
   */
  datatype Run<T> = Exited(returncode: int, output: T) | TimedOut(message: string) | NotFound | Failed(message: string)

  /** A TCP connect to port 22: the `connect_ex` error code, a socket timeout, or an exception. */
  datatype Connect = ConnectCode(errno: int) | SocketTimeout | ConnectRaised(message: string)

  // ---------------------------------------------------------------------
  // The checks
  // ---------------------------------------------------------------------

  /** GET `<apiHost>/health`; `value` is the response status. */
  function CheckApiServer(apiHost: string, outcome: Fetch<nat>): (r: HealthResult)
    ensures r.component == "API Server" && KnownStatus(r.status)
    ensures r.status == Ok <==> outcome == Fetched(200)
    ensures r.status == Warn <==> outcome.Fetched? && outcome.value != 200
    ensures r.status == Fail <==> !outcome.Fetched?
    ensures r.status == Ok ==> r.details == apiHost + " responding"
    ensures r.status == Warn ==> r.details == "Status " + NatToString(outcome.value)
    ensures outcome.UrlError? ==> r.details == "Connection failed: " + outcome.reason
    ensures outcome.Raised? ==> r.details == outcome.message
  {
    match outcome
    case Fetched(status) =>
      if status == 200 then HealthResult("API Server", Ok, apiHost + " responding")
      else HealthResult("API Server", Warn, "Status " + NatToString(status))
    case UrlError(reason) => HealthResult("API Server", Fail, "Connection failed: " + reason)
    case Raised(message) => HealthResult("API Server", Fail, message)
  }

  /** `psql ... -c "SELECT 1"`; `output` is its standard error. */
  function CheckPostgresql(pgHost: string, pgDatabase: string, outcome: Run<string>): (r: HealthResult)
    ensures r.component == "PostgreSQL" && KnownStatus(r.status)
    ensures r.status == Ok <==> outcome.Exited? && outcome.returncode == 0
    ensures r.status == Warn <==> outcome.NotFound?
    ensures r.status == Ok ==> r.details == pgDatabase + "@" + pgHost
    ensures outcome.Exited? && outcome.returncode != 0 ==>
      r.status == Fail && r.details == Take(Strip(outcome.output), 50)
    ensures outcome.TimedOut? ==> r.status == Fail && r.details == "Connection timeout"
    ensures outcome.NotFound? ==> r.details == "psql not in PATH"
    ensures outcome.Failed? ==> r.status == Fail && r.details == Take(outcome.message, 50)
    ensures r.status == Fail ==> |r.details| <= 50
  {
    match outcome
    case Exited(returncode, stderr) =>
      if returncode == 0 then HealthResult("PostgreSQL", Ok, pgDatabase + "@" + pgHost)
      else HealthResult("PostgreSQL", Fail, Take(Strip(stderr), 50))
    case TimedOut(_) => HealthResult("PostgreSQL", Fail, "Connection timeout")
    case NotFound => HealthResult("PostgreSQL", Warn, "psql not in PATH")
    case Failed(message) => HealthResult("PostgreSQL", Fail, Take(message, 50))
  }

  /** The detail of a successful model listing: the count, then at most three names. */
  function ModelsDetail(names: seq<string>): (d: string)
    ensures |names| == 1 ==> d == "1 models: " + names[0]
    ensures |names| == 2 ==> d == "2 models: " + names[0] + ", " + names[1]
    ensures |names| >= 3 ==>
      d == NatToString(|names|) + " models: " + names[0] + ", " + names[1] + ", " + names[2]
  {
    var shown := Take(names, 3);
    assert |names| >= 2 ==> shown[1..][1..] == Take(names[2..], 1);
    assert |names| == 2 ==> Join(shown[1..], ", ") == names[1];
    assert |names| >= 3 ==> Join(shown[1..], ", ") == names[1] + ", " + names[2];
    NatToString(|names|) + " models: " + Join(shown, ", ")
  }

  /**
   * GET `<ollamaHost>/api/tags`; `value` is the list of model names in the
   * decoded reply.  A reply that fails to decode is a `Raised` outcome.
   */
  function CheckOllama(outcome: Fetch<seq<string>>): (r: HealthResult)
    ensures r.component == "Ollama" && KnownStatus(r.status)
    ensures r.status == Ok <==> outcome.Fetched? && outcome.value != []
    ensures r.status == Warn <==> outcome == Fetched([])
    ensures r.status == Ok ==> r.details == ModelsDetail(outcome.value)
    ensures r.status == Warn ==> r.details == "No models loaded"
    ensures outcome.UrlError? ==> r.details == "Unreachable: " + outcome.reason
    ensures outcome.Raised? ==> r.details == Take(outcome.message, 50)
  {
    match outcome
    case Fetched(models) =>
      if models != [] then HealthResult("Ollama", Ok, ModelsDetail(models))
      else HealthResult("Ollama", Warn, "No models loaded")
    case UrlError(reason) => HealthResult("Ollama", Fail, "Unreachable: " + reason)
    case Raised(message) => HealthResult("Ollama", Fail, Take(message, 50))
  }

  /** The number of peers whose `Online` flag is set. */
  function CountOnline(peers: seq<bool>): (n: nat)
    ensures n <= |peers|
    ensures n == 0 <==> forall i | 0 <= i < |peers| :: !peers[i]
  {
    if peers == [] then 0
    else
      var rest := CountOnline(peers[1..]);
      assert forall i | 1 <= i < |peers| :: peers[i] == peers[1..][i - 1];
      rest + (if peers[0] then 1 else 0)
  }

  /**
   * `tailscale status --json`; `output` is the `Online` flag of each peer in
   * the decoded reply.  A reply that fails to decode, and a timeout, reach the
   * generic exception branch; both are `Failed` or `TimedOut` with the
   * exception text.  The reported node count includes this machine.
   */
  function CheckTailscale(outcome: Run<seq<bool>>): (r: HealthResult)
    ensures r.component == "Tailscale" && KnownStatus(r.status)
    ensures r.status == Ok <==> outcome.Exited? && outcome.returncode == 0
    ensures r.status == Warn <==> outcome.NotFound?
    ensures r.status == Ok ==> r.details == NatToString(CountOnline(outcome.output) + 1) + " nodes online"
    ensures outcome.Exited? && outcome.returncode != 0 ==> r.details == "Status check failed"
    ensures outcome.NotFound? ==> r.details == "tailscale not in PATH"
    ensures outcome.TimedOut? ==> r.details == Take(outcome.message, 50)
    ensures outcome.Failed? ==> r.details == Take(outcome.message, 50)
  {
    match outcome
    case Exited(returncode, peers) =>
      if returncode == 0 then HealthResult("Tailscale", Ok, NatToString(CountOnline(peers) + 1) + " nodes online")
      else HealthResult("Tailscale", Fail, "Status check failed")
    case TimedOut(message) => HealthResult("Tailscale", Fail, Take(message, 50))
    case NotFound => HealthResult("Tailscale", Warn, "tailscale not in PATH")
    case Failed(message) => HealthResult("Tailscale", Fail, Take(message, 50))
  }

  /** The node count Tailscale reports is between 1 and the number of peers plus one. */
  lemma TailscaleNodeCountBounds(peers: seq<bool>)
    ensures 1 <= CountOnline(peers) + 1 <= |peers| + 1
    ensures CountOnline(peers) + 1 == 1 <==> forall i | 0 <= i < |peers| :: !peers[i]
  {
  }

  /** A TCP connect to port 22 of `host`: OK only for error code 0; never a warning. */
  function CheckNodeConnectivity(host: string, name: string, outcome: Connect): (r: HealthResult)
    ensures r.component == "Node: " + name
    ensures r.status == Ok || r.status == Fail
    ensures r.status == Ok <==> outcome == ConnectCode(0)
    ensures r.status == Ok ==> r.details == host + " reachable"
    ensures outcome.ConnectCode? && outcome.errno != 0 ==> r.details == host + " port 22 closed"
    ensures outcome.SocketTimeout? ==> r.details == host + " timeout"
    ensures outcome.ConnectRaised? ==> r.details == Take(outcome.message, 30)
  {
    match outcome
    case ConnectCode(code) =>
      if code == 0 then HealthResult("Node: " + name, Ok, host + " reachable")
      else HealthResult("Node: " + name, Fail, host + " port 22 closed")
    case SocketTimeout => HealthResult("Node: " + name, Fail, host + " timeout")
    case ConnectRaised(message) => HealthResult("Node: " + name, Fail, Take(message, 30))
  }

  // ---------------------------------------------------------------------
  // Collecting the checks
  // ---------------------------------------------------------------------

  /** A node to probe: its address and its display name. */
  datatype Node = Node(host: string, name: string)

  /** The nodes the script probes: its list of key nodes is shipped empty. */
  const KeyNodes: seq<Node> := []

  /** One connectivity check per node, appended in list order. */
  function NodeChecks(nodes: seq<Node>, connect: string -> Connect): (rs: seq<HealthResult>)
    ensures |rs| == |nodes|
  {
    if nodes == [] then []
    else
      var last := nodes[|nodes| - 1];
      NodeChecks(nodes[..|nodes| - 1], connect) + [CheckNodeConnectivity(last.host, last.name, connect(last.host))]
  }

  /** The i-th node result is the check of the i-th node. */
  lemma {:induction false} NodeChecksAt(nodes: seq<Node>, connect: string -> Connect, i: nat)
    requires i < |nodes|
    ensures NodeChecks(nodes, connect)[i] == CheckNodeConnectivity(nodes[i].host, nodes[i].name, connect(nodes[i].host))
  {
    var init := nodes[..|nodes| - 1];
    if i < |init| {
      NodeChecksAt(init, connect, i);
    }
  }

  /** What the four fixed checks observed. */
  datatype Observations = Observations(
    api: Fetch<nat>,
    postgres: Run<string>,
    ollama: Fetch<seq<string>>,
    tailscale: Run<seq<bool>>)

  /** The configuration the checks report on. */
  datatype Config = Config(apiHost: string, ollamaHost: string, pgHost: string, pgDatabase: string, pgUser: string)

  /** `run_all_checks`: API, PostgreSQL, Ollama and Tailscale, then one result per node. */
  function AllChecks(cfg: Config, obs: Observations, nodes: seq<Node>, connect: string -> Connect): seq<HealthResult> {
    [CheckApiServer(cfg.apiHost, obs.api),
     CheckPostgresql(cfg.pgHost, cfg.pgDatabase, obs.postgres),
     CheckOllama(obs.ollama),
     CheckTailscale(obs.tailscale)]
    + NodeChecks(nodes, connect)
  }

  /** The collected results come in the fixed order: four services, then the nodes in list order. */
  lemma AllChecksOrder(cfg: Config, obs: Observations, nodes: seq<Node>, connect: string -> Connect)
    ensures var rs := AllChecks(cfg, obs, nodes, connect);
      |rs| == 4 + |nodes|
      && rs[0].component == "API Server" && rs[1].component == "PostgreSQL"
      && rs[2].component == "Ollama" && rs[3].component == "Tailscale"
      && forall i | 0 <= i < |nodes| :: rs[4 + i].component == "Node: " + nodes[i].name
  {
    forall i | 0 <= i < |nodes|
      ensures AllChecks(cfg, obs, nodes, connect)[4 + i] == NodeChecks(nodes, connect)[i]
    {
    }
    forall i | 0 <= i < |nodes|
      ensures NodeChecks(nodes, connect)[i].component == "Node: " + nodes[i].name
    {
      NodeChecksAt(nodes, connect, i);
    }
  }

  // ---------------------------------------------------------------------
  // The rollup
  // ---------------------------------------------------------------------

  /** How many results carry `status`. */
  function CountStatus(rs: seq<HealthResult>, status: string): (n: nat)
    ensures n <= |rs|
  {
    if rs == [] then 0
    else CountStatus(rs[..|rs| - 1], status) + (if rs[|rs| - 1].status == status then 1 else 0)
  }

  predicate NoneWith(rs: seq<HealthResult>, status: string) {
    forall i | 0 <= i < |rs| :: rs[i].status != status
  }

  /** A status count is zero exactly when no result carries that status. */
  lemma {:induction false} CountStatusZero(rs: seq<HealthResult>, status: string)
    ensures CountStatus(rs, status) == 0 <==> NoneWith(rs, status)
  {
    if rs != [] {
      var init := rs[..|rs| - 1];
      CountStatusZero(init, status);
      assert forall i | 0 <= i < |init| :: init[i] == rs[i];
    }
  }

  /** Status counts add up over concatenation. */
  lemma {:induction false} CountStatusAppend(a: seq<HealthResult>, b: seq<HealthResult>, status: string)
    ensures CountStatus(a + b, status) == CountStatus(a, status) + CountStatus(b, status)
  {
    if b != [] {
      var init := b[..|b| - 1];
      assert (a + b)[..|a + b| - 1] == a + init;
      CountStatusAppend(a, init, status);
    } else {
      assert a + b == a;
    }
  }

  /** The overall verdict, with the counts the summary line prints. */
  datatype Overall = Healthy | Degraded(warnings: nat) | Unhealthy(failures: nat)

  /** The verdict from the FAIL and WARN counts: failures first, then warnings. */
  function Rollup(fails: nat, warns: nat): (o: Overall)
    ensures o.Healthy? <==> fails == 0 && warns == 0
    ensures o.Degraded? <==> fails == 0 && warns > 0
    ensures o.Unhealthy? <==> fails > 0
  {
    if fails == 0 && warns == 0 then Healthy
    else if fails == 0 then Degraded(warns)
    else Unhealthy(fails)
  }

  /** The verdict of a list of results. */
  function OverallOf(rs: seq<HealthResult>): Overall {
    Rollup(CountStatus(rs, Fail), CountStatus(rs, Warn))
  }

  /**
   * HEALTHY iff no result is FAIL or WARN; DEGRADED iff none is FAIL and one
   * is WARN; UNHEALTHY iff one is FAIL.  Any other status string counts as
   * neither.
   */
  lemma OverallOfResults(rs: seq<HealthResult>)
    ensures OverallOf(rs).Healthy? <==> NoneWith(rs, Fail) && NoneWith(rs, Warn)
    ensures OverallOf(rs).Degraded? <==> NoneWith(rs, Fail) && !NoneWith(rs, Warn)
    ensures OverallOf(rs).Unhealthy? <==> !NoneWith(rs, Fail)
  {
    CountStatusZero(rs, Fail);
    CountStatusZero(rs, Warn);
  }

  /** A result whose status is none of the three known ones never changes the verdict. */
  lemma UnknownStatusIgnored(rs: seq<HealthResult>, r: HealthResult)
    requires !KnownStatus(r.status)
    ensures OverallOf(rs + [r]) == OverallOf(rs)
  {
    assert (rs + [r])[..|rs + [r]| - 1] == rs;
  }

  /** Removing the result at index `j` removes its contribution to a status count. */
  lemma CountStatusRemove(b: seq<HealthResult>, j: nat, status: string)
    requires j < |b|
    ensures CountStatus(b, status)
      == CountStatus(b[..j] + b[j + 1..], status) + (if b[j].status == status then 1 else 0)
  {
    var left, right := b[..j], b[j + 1..];
    assert b == left + [b[j]] + right;
    CountStatusAppend(left, [b[j]], status);
    CountStatusAppend(left + [b[j]], right, status);
    CountStatusAppend(left, right, status);
  }

  /** Removing the element at index `j` removes one copy of it from the multiset. */
  lemma MultisetRemove<T>(b: seq<T>, j: nat)
    requires j < |b|
    ensures multiset(b[..j] + b[j + 1..]) == multiset(b) - multiset{b[j]}
  {
    assert b == b[..j] + [b[j]] + b[j + 1..];
  }

  /** A status count depends only on the multiset of results, not on their order. */
  lemma {:induction false} CountStatusPermutation(a: seq<HealthResult>, b: seq<HealthResult>, status: string)
    requires multiset(a) == multiset(b)
    ensures CountStatus(a, status) == CountStatus(b, status)
    decreases |a|
  {
    if a == [] {
      assert |b| == |multiset(b)| == 0;
    } else {
      var last := |a| - 1;
      var x := a[last];
      assert x in multiset(b);
      var j :| 0 <= j < |b| && b[j] == x;
      MultisetRemove(a, last);
      MultisetRemove(b, j);
      assert a[..last] + a[last + 1..] == a[..last];
      CountStatusPermutation(a[..last], b[..j] + b[j + 1..], status);
      CountStatusRemove(b, j, status);
    }
  }

  /** Only the multiset of results matters: reordering the results keeps the verdict. */
  lemma OverallIgnoresOrder(rs1: seq<HealthResult>, rs2: seq<HealthResult>)
    requires multiset(rs1) == multiset(rs2)
    ensures OverallOf(rs1) == OverallOf(rs2)
  {
    CountStatusPermutation(rs1, rs2, Fail);
    CountStatusPermutation(rs1, rs2, Warn);
  }

  /** One printed row: component, icon, status and the details cut to 40 characters. */
  datatype ReportRow = ReportRow(component: string, icon: string, status: string, details: string)

  function RowOf(r: HealthResult): (row: ReportRow)
    ensures row.component == r.component && row.status == r.status && row.icon == r.Icon()
    ensures row.details == Take(r.details, 40)
  {
    ReportRow(r.component, r.Icon(), r.status, Take(r.details, 40))
  }

  // ---------------------------------------------------------------------
  // End to end: what the observations decide
  // ---------------------------------------------------------------------

  /** The API check fails only when the request raised. */
  predicate ApiUp(o: Fetch<nat>) { o.Fetched? }

  /** The database check fails unless `psql` exited 0 or is missing. */
  predicate PostgresUp(o: Run<string>) { (o.Exited? && o.returncode == 0) || o.NotFound? }

  /** The Ollama check fails only when the request raised. */
  predicate OllamaUp(o: Fetch<seq<string>>) { o.Fetched? }

  /** The Tailscale check fails unless the status command exited 0 or is missing. */
  predicate TailscaleUp(o: Run<seq<bool>>) { (o.Exited? && o.returncode == 0) || o.NotFound? }

  predicate NodesUp(nodes: seq<Node>, connect: string -> Connect) {
    forall i | 0 <= i < |nodes| :: connect(nodes[i].host) == ConnectCode(0)
  }

  /** No collected result is FAIL exactly when every service and node is up in the sense above. */
  lemma {:induction false} NoFailIff(cfg: Config, obs: Observations, nodes: seq<Node>, connect: string -> Connect)
    ensures NoneWith(AllChecks(cfg, obs, nodes, connect), Fail) <==>
      ApiUp(obs.api) && PostgresUp(obs.postgres) && OllamaUp(obs.ollama) && TailscaleUp(obs.tailscale)
      && NodesUp(nodes, connect)
  {
    var rs := AllChecks(cfg, obs, nodes, connect);
    forall i | 0 <= i < |nodes|
      ensures rs[4 + i] == CheckNodeConnectivity(nodes[i].host, nodes[i].name, connect(nodes[i].host))
    {
      assert rs[4 + i] == NodeChecks(nodes, connect)[i];
      NodeChecksAt(nodes, connect, i);
    }
    assert rs[0] == CheckApiServer(cfg.apiHost, obs.api);
    assert rs[1] == CheckPostgresql(cfg.pgHost, cfg.pgDatabase, obs.postgres);
    assert rs[2] == CheckOllama(obs.ollama);
    assert rs[3] == CheckTailscale(obs.tailscale);
    if NoneWith(rs, Fail) {
      assert rs[0].status != Fail && rs[1].status != Fail && rs[2].status != Fail && rs[3].status != Fail;
      forall i | 0 <= i < |nodes|
        ensures connect(nodes[i].host) == ConnectCode(0)
      {
        assert rs[4 + i].status != Fail;
      }
    }
    if ApiUp(obs.api) && PostgresUp(obs.postgres) && OllamaUp(obs.ollama) && TailscaleUp(obs.tailscale)
       && NodesUp(nodes, connect)
    {
      forall i | 0 <= i < |rs|
        ensures rs[i].status != Fail
      {
        if i >= 4 {
          assert connect(nodes[i - 4].host) == ConnectCode(0);
        }
      }
    }
  }

  /** HEALTHY exactly when every check found its ideal outcome. */
  lemma {:induction false} HealthyIff(cfg: Config, obs: Observations, nodes: seq<Node>, connect: string -> Connect)
    ensures OverallOf(AllChecks(cfg, obs, nodes, connect)).Healthy? <==>
      obs.api == Fetched(200)
      && obs.postgres.Exited? && obs.postgres.returncode == 0
      && obs.ollama.Fetched? && obs.ollama.value != []
      && obs.tailscale.Exited? && obs.tailscale.returncode == 0
      && NodesUp(nodes, connect)
  {
    var rs := AllChecks(cfg, obs, nodes, connect);
    OverallOfResults(rs);
    NoFailIff(cfg, obs, nodes, connect);
    forall i | 0 <= i < |nodes|
      ensures rs[4 + i] == CheckNodeConnectivity(nodes[i].host, nodes[i].name, connect(nodes[i].host))
    {
      assert rs[4 + i] == NodeChecks(nodes, connect)[i];
      NodeChecksAt(nodes, connect, i);
    }
    assert rs[0] == CheckApiServer(cfg.apiHost, obs.api);
    assert rs[1] == CheckPostgresql(cfg.pgHost, cfg.pgDatabase, obs.postgres);
    assert rs[2] == CheckOllama(obs.ollama);
    assert rs[3] == CheckTailscale(obs.tailscale);
    if NoneWith(rs, Warn) {
      assert rs[0].status != Warn && rs[1].status != Warn && rs[2].status != Warn && rs[3].status != Warn;
    }
    forall i | 4 <= i < |rs|
      ensures rs[i].status != Warn
    {
      var j := i - 4;
      assert |rs| == 4 + |nodes| && i == 4 + j;
      assert rs[4 + j] == CheckNodeConnectivity(nodes[j].host, nodes[j].name, connect(nodes[j].host));
    }
  }

  /** External settings: `env[key]` when set, else the default. */
  function EnvGet(env: map<string, string>, key: string, default: string): string {
    if key in env then env[key] else default
  }

  /** The checker: its configuration and the results of its last run. */
  class HealthChecker {
    var apiHost: string
    var ollamaHost: string
    var pgHost: string
    var pgDatabase: string
    var pgUser: string
    var results: seq<HealthResult>

    constructor (env: map<string, string>)
      ensures apiHost == EnvGet(env, "KB_API_HOST", "http://localhost:8000")
      ensures ollamaHost == EnvGet(env, "OLLAMA_HOST", "http://localhost:11434")
      ensures pgHost == EnvGet(env, "PG_HOST", "localhost")
      ensures pgDatabase == EnvGet(env, "PG_DATABASE", "claude_memory")
      ensures pgUser == EnvGet(env, "PG_USER", "claude_mcp")
      ensures results == []
    {
      apiHost := EnvGet(env, "KB_API_HOST", "http://localhost:8000");
      ollamaHost := EnvGet(env, "OLLAMA_HOST", "http://localhost:11434");
      pgHost := EnvGet(env, "PG_HOST", "localhost");
      pgDatabase := EnvGet(env, "PG_DATABASE", "claude_memory");
      pgUser := EnvGet(env, "PG_USER", "claude_mcp");
      results := [];
    }

    function Configuration(): Config
      reads this
    {
      Config(apiHost, ollamaHost, pgHost, pgDatabase, pgUser)
    }

    /**
     * Replaces the stored results by the four service checks followed by one
     * check per node, in list order.
     */
    method RunAllChecks(obs: Observations, nodes: seq<Node>, connect: string -> Connect)
      returns (rs: seq<HealthResult>)
      modifies this`results
      ensures results == AllChecks(Configuration(), obs, nodes, connect)
      ensures rs == results
    {
      results := [
        CheckApiServer(apiHost, obs.api),
        CheckPostgresql(pgHost, pgDatabase, obs.postgres),
        CheckOllama(obs.ollama),
        CheckTailscale(obs.tailscale)
      ];
      ghost var fixed := results;
      var i := 0;
      while i < |nodes|
        invariant 0 <= i <= |nodes|
        invariant results == fixed + NodeChecks(nodes[..i], connect)
      {
        var node := nodes[i];
        results := results + [CheckNodeConnectivity(node.host, node.name, connect(node.host))];
        assert nodes[..i + 1][..i] == nodes[..i];
        i := i + 1;
      }
      assert nodes[..i] == nodes;
      rs := results;
    }

    /**
     * Counts FAIL and WARN over the stored results and picks the verdict;
     * the run counts as healthy (exit 0) when nothing failed, so a DEGRADED
     * run is still healthy.
     */
    method PrintReport() returns (healthy: bool, overall: Overall, rows: seq<ReportRow>)
      ensures overall == OverallOf(results)
      ensures healthy <==> NoneWith(results, Fail)
      ensures healthy <==> !overall.Unhealthy?
      ensures |rows| == |results|
      ensures forall i | 0 <= i < |results| :: rows[i] == RowOf(results[i])
    {
      rows := [];
      var i := 0;
      while i < |results|
        invariant 0 <= i <= |results|
        invariant |rows| == i
        invariant forall k | 0 <= k < i :: rows[k] == RowOf(results[k])
      {
        rows := rows + [RowOf(results[i])];
        i := i + 1;
      }
      var fails := 0;
      var warns := 0;
      i := 0;
      while i < |results|
        invariant 0 <= i <= |results|
        invariant fails == CountStatus(results[..i], Fail)
        invariant warns == CountStatus(results[..i], Warn)
      {
        if results[i].status == Fail {
          fails := fails + 1;
        }
        if results[i].status == Warn {
          warns := warns + 1;
        }
        assert results[..i + 1][..i] == results[..i];
        i := i + 1;
      }
      assert results[..i] == results;
      overall := Rollup(fails, warns);
      healthy := fails == 0;
      CountStatusZero(results, Fail);
    }
  }

  /**
   * The command: collect every check for the shipped node list, report, and
   * exit 0 exactly when no check failed.
   */
  method HealthMain(env: map<string, string>, obs: Observations, connect: string -> Connect) returns (code: int)
    ensures code == 0 || code == 1
    ensures code == 0 <==> ApiUp(obs.api) && PostgresUp(obs.postgres) && OllamaUp(obs.ollama) && TailscaleUp(obs.tailscale)
  {
    var checker := new HealthChecker(env);
    var _ := checker.RunAllChecks(obs, KeyNodes, connect);
    var healthy, overall, rows := checker.PrintReport();
    NoFailIff(checker.Configuration(), obs, KeyNodes, connect);
    code := if healthy then 0 else 1;
  }
}
