/**
 * The limits of a new job: createJob (internal/httpapi/http.go) fills and clamps the cfg map,
 * CreateDiscoveryJobWithConfig (internal/store/store.go) copies it into columns, and the worker reads it back.
 */
module Jobs {
  import opened Basics
  import opened Database
  import opened Protocol

  const NAMES := ["max_pages", "max_urls", "max_depth", "max_candidates_per_page"]

  type Config = map<string, int>

  /** The server's ceiling for a limit; intEnv never yields less than 1. */
  function Ceiling(server: Limits, name: string): nat {
    if name == "max_pages" then server.maxPages
    else if name == "max_urls" then server.maxURLs
    else if name == "max_depth" then server.maxDepth
    else server.maxCandidates
  }

  predicate Positive(server: Limits) {
    server.maxPages >= 1 && server.maxURLs >= 1 && server.maxDepth >= 1 && server.maxCandidates >= 1
  }

  /** What a client gets: its own limit if positive, cut to the ceiling; otherwise the ceiling. */
  function Clamped(requested: Config, server: Limits, name: string): int {
    if name in requested && requested[name] > 0 then Min(requested[name], Ceiling(server, name))
    else Ceiling(server, name)
  }

  method ClampLimits(requested: Config, server: Limits) returns (cfg: Config)
    ensures forall name :: name in NAMES ==> name in cfg && cfg[name] == Clamped(requested, server, name)
    ensures forall k :: k !in NAMES ==> (k in cfg <==> k in requested && requested[k] > 0)
    ensures forall k :: k !in NAMES && k in cfg ==> cfg[k] == requested[k]
  {
    cfg := map[];
    var keys := requested.Keys;
    while keys != {}
      invariant keys <= requested.Keys
      invariant forall k :: k in cfg <==> k in requested.Keys - keys && requested[k] > 0
      invariant forall k :: k in cfg ==> cfg[k] == requested[k]
      decreases keys
    {
      var k :| k in keys;
      keys := keys - {k};
      if requested[k] > 0 {
        cfg := cfg[k := requested[k]];
      }
    }
    var i := 0;
    while i < |NAMES|
      invariant 0 <= i <= |NAMES|
      invariant forall k :: k in cfg <==> k in NAMES[..i] || (k in requested && requested[k] > 0)
      invariant forall k :: k in cfg ==>
                  cfg[k] == if k in requested && requested[k] > 0 then requested[k] else Ceiling(server, k)
    {
      assert NAMES[..i + 1] == NAMES[..i] + [NAMES[i]];
      if NAMES[i] !in cfg {
        cfg := cfg[NAMES[i] := Ceiling(server, NAMES[i])];
      }
      i := i + 1;
    }
    assert NAMES[..i] == NAMES;
    ghost var full := cfg;
    i := 0;
    while i < |NAMES|
      invariant 0 <= i <= |NAMES| && cfg.Keys == full.Keys
      invariant forall k :: k in cfg ==> cfg[k] == if k in NAMES[..i] then Min(full[k], Ceiling(server, k)) else full[k]
    {
      assert NAMES[..i + 1] == NAMES[..i] + [NAMES[i]];
      if cfg[NAMES[i]] > Ceiling(server, NAMES[i]) {
        cfg := cfg[NAMES[i] := Ceiling(server, NAMES[i])];
      }
      i := i + 1;
    }
  }

  function Lookup(cfg: Config, name: string): Option<int> {
    if name in cfg then Some(cfg[name]) else None
  }

  function ConfigOf(cfg: Config, linkDiscovery: bool, activeProbe: bool): JobConfig {
    JobConfig(Lookup(cfg, "max_pages"), Lookup(cfg, "max_urls"), Lookup(cfg, "max_depth"),
              Lookup(cfg, "max_candidates_per_page"), linkDiscovery, activeProbe)
  }

  /** CreateDiscoveryJobWithConfig's choice of the four columns. */
  method Columns(cfg: Config) returns (limits: Limits)
    ensures forall links, probe :: limits == Effective(ConfigOf(cfg, links, probe), COLUMN_DEFAULTS)
  {
    var maxPages, maxURLs, maxDepth, maxCandidates := 100, 500, 3, 50;
    if "max_pages" in cfg && cfg["max_pages"] > 0 { maxPages := cfg["max_pages"]; }
    if "max_urls" in cfg && cfg["max_urls"] > 0 { maxURLs := cfg["max_urls"]; }
    if "max_depth" in cfg && cfg["max_depth"] >= 0 { maxDepth := cfg["max_depth"]; }
    if "max_candidates_per_page" in cfg && cfg["max_candidates_per_page"] > 0 {
      maxCandidates := cfg["max_candidates_per_page"];
    }
    limits := Limits(maxPages, maxURLs, maxDepth, maxCandidates);
  }

  predicate IsClamped(requested: Config, server: Limits, cfg: Config) {
    forall name :: name in NAMES ==> name in cfg && cfg[name] == Clamped(requested, server, name)
  }

  lemma ClampedInRange(requested: Config, server: Limits, name: string)
    requires Positive(server)
    ensures 1 <= Clamped(requested, server, name) <= Ceiling(server, name)
    ensures name in requested && 1 <= requested[name] <= Ceiling(server, name) ==>
              Clamped(requested, server, name) == requested[name]
    ensures name !in requested || requested[name] <= 0 || requested[name] > Ceiling(server, name) ==>
              Clamped(requested, server, name) == Ceiling(server, name)
  {
  }

  /**
   * A job created through the API carries, as columns, the clamped limits, each between 1 and the server's
   * ceiling, and its workers use exactly those columns, whatever limits the worker itself was started with.
   */
  lemma LimitsAgree(requested: Config, ceilings: Limits, cfg: Config, project: string, linkDiscovery: bool,
                    activeProbe: bool, server: Server)
    requires Positive(ceilings) && IsClamped(requested, ceilings, cfg)
    ensures
      var db := CreateJob(EMPTY, project, ConfigOf(cfg, linkDiscovery, activeProbe));
      var limits := db.jobs[0].limits;
      && limits == Limits(Clamped(requested, ceilings, "max_pages"), Clamped(requested, ceilings, "max_urls"),
                          Clamped(requested, ceilings, "max_depth"),
                          Clamped(requested, ceilings, "max_candidates_per_page"))
      && 1 <= limits.maxPages <= ceilings.maxPages && 1 <= limits.maxURLs <= ceilings.maxURLs
      && 1 <= limits.maxDepth <= ceilings.maxDepth && 1 <= limits.maxCandidates <= ceilings.maxCandidates
      && LimitsOf(server, db.jobs[0]) == limits
  {
    assert "max_pages" == NAMES[0] && "max_urls" == NAMES[1] && "max_depth" == NAMES[2]
        && "max_candidates_per_page" == NAMES[3];
    ClampedInRange(requested, ceilings, "max_pages");
    ClampedInRange(requested, ceilings, "max_urls");
    ClampedInRange(requested, ceilings, "max_depth");
    ClampedInRange(requested, ceilings, "max_candidates_per_page");
  }
}
