/**
 * next.config.js, `redirects`: the first-match path rewriting table, as a rewriting system on path
 * segments.
 */
module Redirects {
  import opened Options

  /** The parts between slashes. */
  type Path = seq<string>

  /** `/a/b`, `/a/b/:path*`, `/a/:id/b`, and `/a/:path((?!home$).*)`. */
  datatype Source = Exact(path: Path) | Under(prefix: Path) | Between(before: Path, after: Path) | Sweep(stem: Path)

  /** `splice` appends what the source's path parameter captured to the destination. */
  datatype Rule = Rule(docsHostOnly: bool, source: Source, dest: Path, splice: bool)

  /** next.config.js:140-160 */
  const V2_RULES: seq<Rule> := [
    Rule(false, Exact(["v2"]), [], false),
    Rule(false, Exact(["v2", "home"]), [], false),
    Rule(false, Exact(["v2", "docs"]), ["docs"], false),
    Rule(false, Exact(["v2", "agents"]), ["agents"], false),
    Rule(false, Exact(["v2", "containers"]), ["containers"], false),
    Rule(false, Exact(["v2", "architecture"]), ["architecture"], false),
    Rule(false, Exact(["v2", "setup"]), ["setup"], false),
    Rule(false, Exact(["v2", "provider-setup"]), ["provider-setup"], false),
    Rule(false, Exact(["v2", "auth"]), ["auth"], false),
    Rule(false, Exact(["v2", "admin"]), ["admin"], false),
    Rule(false, Under(["v2", "renter"]), ["renter"], true),
    Rule(false, Under(["v2", "provider"]), ["provider"], true),
    Rule(false, Sweep(["v2"]), [], true)
  ]

  /** next.config.js:163-170 */
  const RETIRED_PAGES: seq<Rule> := [
    Rule(false, Exact(["gpu-containers"]), ["containers"], false),
    Rule(false, Exact(["gpu-containers.html"]), ["containers"], false),
    Rule(false, Exact(["docs", "DCP-BRAND-GUIDELINES-v3.html"]), ["docs"], false),
    Rule(false, Exact(["docs", "brand"]), ["docs"], false),
    Rule(false, Under(["dcp-v2"]), [], false)
  ]

  /** next.config.js:172-174 */
  const MODEL_PAGES: seq<Rule> := [
    Rule(false, Exact(["models"]), ["renter", "playground"], false),
    Rule(false, Exact(["marketplace", "models"]), ["renter", "playground"], false),
    Rule(false, Exact(["marketplace", "templates"]), ["renter", "pods"], false)
  ]

  /** next.config.js:178-183 */
  const DOCS_PAGES: seq<Rule> := [
    Rule(false, Exact(["docs", "api"]), ["docs"], false),
    Rule(false, Under(["docs", "api"]), ["docs"], false),
    Rule(false, Exact(["docs", "quickstart"]), ["docs"], false),
    Rule(false, Exact(["docs", "models"]), ["docs"], false),
    Rule(false, Exact(["docs", "renter-guide"]), ["docs"], false),
    Rule(false, Exact(["docs", "provider-guide"]), ["docs"], false)
  ]

  /** next.config.js:185-188 */
  const ACCOUNT_LINKS: seq<Rule> := [
    Rule(false, Exact(["api-keys"]), ["renter", "keys"], false),
    Rule(false, Exact(["connections"]), ["renter", "keys"], false),
    Rule(false, Exact(["budget"]), ["renter", "usage"], false),
    Rule(false, Exact(["dashboard"]), ["renter", "dashboard"], false)
  ]

  /** next.config.js:189-192 */
  const JOB_LINKS: seq<Rule> := [
    Rule(false, Exact(["dashboard", "notifications"]), ["renter", "dashboard"], false),
    Rule(false, Exact(["dashboard", "jobs"]), ["renter", "jobs"], false),
    Rule(false, Exact(["jobs"]), ["renter", "jobs"], false),
    Rule(false, Exact(["jobs", "submit"]), ["renter", "playground"], false)
  ]

  /** next.config.js:194-198 */
  const RENTER_PAGES: seq<Rule> := [
    Rule(false, Exact(["renter", "register"]), ["setup"], false),
    Rule(false, Exact(["renter", "analytics"]), ["renter", "usage"], false),
    Rule(false, Exact(["renter", "cost-dashboard"]), ["renter", "usage"], false),
    Rule(false, Exact(["renter", "billing"]), ["renter", "wallet"], false),
    Rule(false, Under(["renter", "billing"]), ["renter", "wallet"], false)
  ]

  /** next.config.js:199-203 */
  const RENTER_SHOP_PAGES: seq<Rule> := [
    Rule(false, Exact(["renter", "models"]), ["renter", "playground"], false),
    Rule(false, Exact(["renter", "templates"]), ["renter", "pods"], false),
    Rule(false, Exact(["renter", "marketplace"]), ["renter", "pods"], false),
    Rule(false, Under(["renter", "marketplace"]), ["renter", "pods"], false),
    Rule(false, Exact(["renter", "gpu-comparison"]), ["renter", "pods"], false)
  ]

  /** next.config.js:204-209 */
  const RENTER_LINKS: seq<Rule> := [
    Rule(false, Exact(["renter", "live"]), ["renter", "dashboard"], false),
    Rule(false, Exact(["renter", "pricing"]), [], false),
    Rule(false, Exact(["renter", "waitlist"]), ["setup"], false)
  ]

  /** next.config.js:219-224 */
  const CONSOLE_ROOTS: seq<Rule> := [
    Rule(false, Exact(["provider"]), ["provider", "dashboard"], false),
    Rule(false, Exact(["renter"]), ["renter", "dashboard"], false),
    Rule(false, Exact(["provider", "withdraw"]), ["provider", "payouts"], false),
    Rule(false, Exact(["provider", "fleet"]), ["provider", "rigs"], false),
    Rule(false, Exact(["provider", "gpu"]), ["provider", "rigs"], false)
  ]

  /** next.config.js:225-228 */
  const PROVIDER_PAGES: seq<Rule> := [
    Rule(false, Exact(["provider", "activate"]), ["provider", "profile"], false),
    Rule(false, Exact(["provider", "download"]), ["earn"], false),
    Rule(false, Exact(["provider", "jobs"]), ["provider", "dashboard"], false),
    Rule(false, Under(["provider", "jobs"]), ["provider", "dashboard"], false)
  ]

  /** next.config.js:230-236 */
  const MARKETING_PAGES: seq<Rule> := [
    Rule(false, Exact(["intelligence"]), [], false),
    Rule(false, Exact(["arabic-rag"]), [], false),
    Rule(false, Exact(["onboarding"]), ["setup"], false),
    Rule(false, Exact(["provider-onboarding"]), ["earn"], false),
    Rule(false, Exact(["legal", "terms"]), ["terms"], false)
  ]

  /** next.config.js:248-262 */
  const FOLDED_PAGES: seq<Rule> := [
    Rule(false, Exact(["tokens"]), ["renter", "usage"], false),
    Rule(false, Exact(["quickstart"]), ["docs"], false),
    Rule(false, Exact(["solutions", "arabic-rag"]), ["docs"], false),
    Rule(false, Exact(["ar", "solutions", "arabic-rag"]), ["docs"], false),
    Rule(false, Exact(["mission"]), ["trust-center"], false)
  ]

  /** next.config.js:268-271 */
  const LEGAL_PAGES: seq<Rule> := [
    Rule(false, Exact(["legal", "pdpl"]), ["privacy"], false),
    Rule(false, Exact(["legal", "privacy"]), ["privacy"], false),
    Rule(false, Exact(["legal", "privacy-v2"]), ["privacy"], false),
    Rule(false, Exact(["legal", "terms-v2"]), ["terms"], false)
  ]

  /** next.config.js:275-277 */
  const MONITOR_PAGES: seq<Rule> := [
    Rule(false, Exact(["monitor"]), ["renter", "dashboard"], false),
    Rule(false, Between(["dashboard", "jobs"], []), ["renter", "jobs"], false),
    Rule(false, Between(["jobs"], ["monitor"]), ["renter", "dashboard"], false)
  ]

  /** next.config.js:130-135 */
  const DOCS_HOST_RULES: seq<Rule> := [Rule(true, Exact([]), ["docs"], false)]

  /** next.config.js:161-277 */
  const RETIRED: seq<Rule> :=
    RETIRED_PAGES + MODEL_PAGES + DOCS_PAGES + ACCOUNT_LINKS + JOB_LINKS + RENTER_PAGES + RENTER_SHOP_PAGES
    + RENTER_LINKS + CONSOLE_ROOTS + PROVIDER_PAGES + MARKETING_PAGES + FOLDED_PAGES + LEGAL_PAGES + MONITOR_PAGES

  /** The array `redirects` returns: the docs host's root, /v2 and its sub-paths, the retired pages. */
  const REDIRECTS: seq<Rule> := DOCS_HOST_RULES + V2_RULES + RETIRED

  // ---- First match ----

  predicate Matches(source: Source, path: Path) {
    match source
    case Exact(p) => path == p
    case Under(p) => p <= path
    case Between(b, a) => |path| == |b| + 1 + |a| && b <= path && path[|b| + 1..] == a
    case Sweep(p) => p < path && path[|p|..] != ["home"]
  }

  function Captured(source: Source, path: Path): Path
    requires Matches(source, path)
  {
    match source
    case Under(p) => path[|p|..]
    case Sweep(p) => path[|p|..]
    case _ => []
  }

  /** `docsHost` says the request is for docs.dcp.sa. */
  predicate Applies(rule: Rule, docsHost: bool, path: Path) {
    (rule.docsHostOnly ==> docsHost) && Matches(rule.source, path)
  }

  function Target(rule: Rule, path: Path): Path
    requires Matches(rule.source, path)
  {
    rule.dest + if rule.splice then Captured(rule.source, path) else []
  }

  /** What a source stands for: one path, all paths below one, one free segment, or all below but /home. */
  lemma MatchesIff(source: Source, path: Path)
    ensures match source
            case Exact(p) => Matches(source, path) <==> path == p
            case Under(p) => Matches(source, path) <==> exists rest: Path :: path == p + rest
            case Between(b, a) => Matches(source, path) <==> exists id: string :: path == b + [id] + a
            case Sweep(p) =>
              Matches(source, path) <==> exists rest: Path :: path == p + rest && rest != [] && rest != ["home"]
  {
    match source {
      case Exact(p) =>
      case Under(p) =>
        if p <= path {
          assert path == p + path[|p|..];
        }
      case Between(b, a) =>
        if Matches(source, path) {
          assert path == b + [path[|b|]] + a;
        }
        if id: string :| path == b + [id] + a {
          assert path[|b| + 1..] == a;
        }
      case Sweep(p) =>
        if Matches(source, path) {
          assert path == p + path[|p|..];
        }
        if rest: Path :| path == p + rest && rest != [] && rest != ["home"] {
          assert path[|p|..] == rest;
        }
    }
  }

  /** A rule keeps what is below its source if it splices, and goes to one place if it does not. */
  lemma TargetIs(rule: Rule, stem: Path, rest: Path)
    requires rule.source == Under(stem) || rule.source == Sweep(stem)
    requires Matches(rule.source, stem + rest)
    ensures Target(rule, stem + rest) == if rule.splice then rule.dest + rest else rule.dest
  {
    assert (stem + rest)[|stem|..] == rest;
  }

  /** One hop: the first rule that applies. */
  function Redirect(rules: seq<Rule>, docsHost: bool, path: Path): Option<Path> {
    if rules == [] then None
    else if Applies(rules[0], docsHost, path) then Some(Target(rules[0], path))
    else Redirect(rules[1..], docsHost, path)
  }

  lemma {:induction false} FirstMatchApplies(rules: seq<Rule>, docsHost: bool, path: Path)
    ensures Redirect(rules, docsHost, path).Some? ==>
      exists i :: 0 <= i < |rules| && Applies(rules[i], docsHost, path)
               && (forall j :: 0 <= j < i ==> !Applies(rules[j], docsHost, path))
               && Redirect(rules, docsHost, path) == Some(Target(rules[i], path))
    ensures Redirect(rules, docsHost, path).None? ==>
      forall i :: 0 <= i < |rules| ==> !Applies(rules[i], docsHost, path)
  {
    if rules != [] && !Applies(rules[0], docsHost, path) {
      var rest := rules[1..];
      FirstMatchApplies(rest, docsHost, path);
      assert forall i :: 1 <= i < |rules| ==> rules[i] == rest[i - 1];
      if Redirect(rest, docsHost, path).Some? {
        var i :| 0 <= i < |rest| && Applies(rest[i], docsHost, path)
              && (forall j :: 0 <= j < i ==> !Applies(rest[j], docsHost, path))
              && Redirect(rest, docsHost, path) == Some(Target(rest[i], path));
        assert rules[i + 1] == rest[i];
      }
    }
  }

  // ---- What the rules have in common ----

  /** Where the retired surfaces land. */
  predicate IsLanding(p: Path) {
    || |p| == 0
    || (|p| == 1
        && (p[0] == "containers" || p[0] == "docs" || p[0] == "setup" || p[0] == "earn" || p[0] == "terms"
            || p[0] == "trust-center" || p[0] == "privacy"))
    || (|p| == 2 && p[0] == "renter"
        && (p[1] == "playground" || p[1] == "pods" || p[1] == "keys" || p[1] == "usage" || p[1] == "dashboard"
            || p[1] == "jobs" || p[1] == "wallet"))
    || (|p| == 2 && p[0] == "provider"
        && (p[1] == "dashboard" || p[1] == "payouts" || p[1] == "rigs" || p[1] == "profile"))
  }

  /** A retired-page rule starts outside /v2, lands on a fixed page, and matches no landing page. */
  predicate RetiredRule(r: Rule) {
    && !r.docsHostOnly && !r.splice && IsLanding(r.dest)
    && match r.source
       case Exact(p) => |p| > 0 && p[0] != "v2" && !IsLanding(p)
       case Under(p) => (|p| == 1 && p[0] == "dcp-v2") || (|p| == 2 && p[0] != "v2" && !IsLanding(p))
       case Between(b, a) => |b| > 0 && b[0] != "v2" && |b| + 1 + |a| == 3
       case Sweep(_) => false
  }

  /** A /v2 rule strips the /v2, except that /v2/home goes to the root. */
  predicate V2Rule(r: Rule) {
    && !r.docsHostOnly
    && match r.source
       case Exact(p) => |p| > 0 && p[0] == "v2" && !r.splice && r.dest == Strip(p[1..])
       case Under(p) => |p| == 2 && p[0] == "v2" && p[1] != "home" && r.splice && r.dest == [p[1]]
       case Sweep(p) => p == ["v2"] && r.splice && r.dest == []
       case Between(_, _) => false
  }

  function Strip(rest: Path): Path {
    if |rest| == 1 && rest[0] == "home" then [] else rest
  }

  predicate DocsHostRule(r: Rule) {
    r == Rule(true, Exact([]), ["docs"], false)
  }

  predicate KnownRule(r: Rule) {
    DocsHostRule(r) || V2Rule(r) || RetiredRule(r)
  }

  ghost predicate AllKnown(rules: seq<Rule>) {
    forall i :: 0 <= i < |rules| ==> KnownRule(rules[i])
  }

  /** Enough to follow redirects by: known kinds of rule only, with the root, /v2, /v2/home and the sweep present. */
  ghost predicate GoodTable(rules: seq<Rule>) {
    && AllKnown(rules)
    && Rule(true, Exact([]), ["docs"], false) in rules
    && Rule(false, Exact(["v2"]), [], false) in rules
    && Rule(false, Exact(["v2", "home"]), [], false) in rules
    && Rule(false, Sweep(["v2"]), [], true) in rules
  }

  // ---- The table itself, group by group ----

  ghost predicate AllV2(rules: seq<Rule>) {
    forall i :: 0 <= i < |rules| ==> V2Rule(rules[i])
  }

  lemma V2RulesKnown()
    ensures AllKnown(V2_RULES) && AllV2(V2_RULES)
  {
    forall i | 0 <= i < |V2_RULES|
      ensures V2Rule(V2_RULES[i])
    {
      var r := V2_RULES[i];
      if r.source.Exact? {
        assert |r.source.path| == 2 ==> r.source.path[1..] == [r.source.path[1]];
        assert |r.source.path| == 1 ==> r.source.path[1..] == [];
      }
    }
  }

  lemma RetiredPagesKnown()
    ensures AllKnown(RETIRED_PAGES)
  {
    forall i | 0 <= i < |RETIRED_PAGES|
      ensures RetiredRule(RETIRED_PAGES[i])
    {
    }
  }

  lemma ModelPagesKnown()
    ensures AllKnown(MODEL_PAGES)
  {
    forall i | 0 <= i < |MODEL_PAGES|
      ensures RetiredRule(MODEL_PAGES[i])
    {
    }
  }

  lemma DocsPagesKnown()
    ensures AllKnown(DOCS_PAGES)
  {
    forall i | 0 <= i < |DOCS_PAGES|
      ensures RetiredRule(DOCS_PAGES[i])
    {
    }
  }

  lemma AccountLinksKnown()
    ensures AllKnown(ACCOUNT_LINKS)
  {
    forall i | 0 <= i < |ACCOUNT_LINKS|
      ensures RetiredRule(ACCOUNT_LINKS[i])
    {
    }
  }

  lemma JobLinksKnown()
    ensures AllKnown(JOB_LINKS)
  {
    forall i | 0 <= i < |JOB_LINKS|
      ensures RetiredRule(JOB_LINKS[i])
    {
    }
  }

  lemma RenterPagesKnown()
    ensures AllKnown(RENTER_PAGES)
  {
    forall i | 0 <= i < |RENTER_PAGES|
      ensures RetiredRule(RENTER_PAGES[i])
    {
    }
  }

  lemma RenterShopPagesKnown()
    ensures AllKnown(RENTER_SHOP_PAGES)
  {
    forall i | 0 <= i < |RENTER_SHOP_PAGES|
      ensures RetiredRule(RENTER_SHOP_PAGES[i])
    {
    }
  }

  lemma RenterLinksKnown()
    ensures AllKnown(RENTER_LINKS)
  {
    forall i | 0 <= i < |RENTER_LINKS|
      ensures RetiredRule(RENTER_LINKS[i])
    {
    }
  }

  lemma ConsoleRootsKnown()
    ensures AllKnown(CONSOLE_ROOTS)
  {
    forall i | 0 <= i < |CONSOLE_ROOTS|
      ensures RetiredRule(CONSOLE_ROOTS[i])
    {
    }
  }

  lemma ProviderPagesKnown()
    ensures AllKnown(PROVIDER_PAGES)
  {
    forall i | 0 <= i < |PROVIDER_PAGES|
      ensures RetiredRule(PROVIDER_PAGES[i])
    {
    }
  }

  lemma MarketingPagesKnown()
    ensures AllKnown(MARKETING_PAGES)
  {
    forall i | 0 <= i < |MARKETING_PAGES|
      ensures RetiredRule(MARKETING_PAGES[i])
    {
    }
  }

  lemma FoldedPagesKnown()
    ensures AllKnown(FOLDED_PAGES)
  {
    forall i | 0 <= i < |FOLDED_PAGES|
      ensures RetiredRule(FOLDED_PAGES[i])
    {
    }
  }

  lemma LegalPagesKnown()
    ensures AllKnown(LEGAL_PAGES)
  {
    forall i | 0 <= i < |LEGAL_PAGES|
      ensures RetiredRule(LEGAL_PAGES[i])
    {
    }
  }

  lemma MonitorPagesKnown()
    ensures AllKnown(MONITOR_PAGES)
  {
    forall i | 0 <= i < |MONITOR_PAGES|
      ensures RetiredRule(MONITOR_PAGES[i])
    {
    }
  }

  lemma AllKnownConcat(a: seq<Rule>, b: seq<Rule>)
    requires AllKnown(a) && AllKnown(b)
    ensures AllKnown(a + b)
  {
  }

  lemma RetiredKnown()
    ensures AllKnown(RETIRED)
  {
    hide KnownRule;
    var t1 := RETIRED_PAGES + MODEL_PAGES;
    RetiredPagesKnown();
    ModelPagesKnown();
    AllKnownConcat(RETIRED_PAGES, MODEL_PAGES);
    DocsPagesKnown();
    AllKnownConcat(t1, DOCS_PAGES);
    var t2 := t1 + DOCS_PAGES;
    AccountLinksKnown();
    AllKnownConcat(t2, ACCOUNT_LINKS);
    var t3 := t2 + ACCOUNT_LINKS;
    JobLinksKnown();
    AllKnownConcat(t3, JOB_LINKS);
    var t4 := t3 + JOB_LINKS;
    RenterPagesKnown();
    AllKnownConcat(t4, RENTER_PAGES);
    var t5 := t4 + RENTER_PAGES;
    RenterShopPagesKnown();
    AllKnownConcat(t5, RENTER_SHOP_PAGES);
    var t6 := t5 + RENTER_SHOP_PAGES;
    RenterLinksKnown();
    AllKnownConcat(t6, RENTER_LINKS);
    var t7 := t6 + RENTER_LINKS;
    ConsoleRootsKnown();
    AllKnownConcat(t7, CONSOLE_ROOTS);
    var t8 := t7 + CONSOLE_ROOTS;
    ProviderPagesKnown();
    AllKnownConcat(t8, PROVIDER_PAGES);
    var t9 := t8 + PROVIDER_PAGES;
    MarketingPagesKnown();
    AllKnownConcat(t9, MARKETING_PAGES);
    var t10 := t9 + MARKETING_PAGES;
    FoldedPagesKnown();
    AllKnownConcat(t10, FOLDED_PAGES);
    var t11 := t10 + FOLDED_PAGES;
    LegalPagesKnown();
    AllKnownConcat(t11, LEGAL_PAGES);
    var t12 := t11 + LEGAL_PAGES;
    MonitorPagesKnown();
    AllKnownConcat(t12, MONITOR_PAGES);
  }

  lemma TableOf(first: seq<Rule>, v2: seq<Rule>, retired: seq<Rule>)
    requires first == [Rule(true, Exact([]), ["docs"], false)] && AllKnown(v2) && AllKnown(retired)
    requires Rule(false, Exact(["v2"]), [], false) in v2 && Rule(false, Exact(["v2", "home"]), [], false) in v2
    requires Rule(false, Sweep(["v2"]), [], true) in v2
    ensures GoodTable(first + v2 + retired)
  {
    assert AllKnown(first);
    AllKnownConcat(first, v2);
    AllKnownConcat(first + v2, retired);
  }

  lemma V2RulesPresent()
    ensures Rule(false, Exact(["v2"]), [], false) in V2_RULES
        && Rule(false, Exact(["v2", "home"]), [], false) in V2_RULES
    ensures Rule(false, Sweep(["v2"]), [], true) in V2_RULES
  {
    assert V2_RULES[0] in V2_RULES && V2_RULES[1] in V2_RULES && V2_RULES[12] in V2_RULES;
  }

  /** The whole array: every rule is of a known kind, and the four the theory relies on are there. */
  lemma RedirectsGood()
    ensures GoodTable(REDIRECTS)
  {
    hide AllKnown, GoodTable;
    V2RulesKnown();
    V2RulesPresent();
    RetiredKnown();
    TableOf(DOCS_HOST_RULES, V2_RULES, RETIRED);
  }

  // ---- One hop ----

  /** What a rule of a known kind does where it applies. */
  ghost predicate Hop(docsHost: bool, path: Path, next: Path) {
    if path == [] then docsHost && next == ["docs"]
    else if path[0] == "v2" then next == Strip(path[1..])
    else IsLanding(next) && !IsLanding(path)
  }

  lemma KnownRuleHops(r: Rule, docsHost: bool, path: Path)
    requires KnownRule(r) && Applies(r, docsHost, path)
    ensures Hop(docsHost, path, Target(r, path))
  {
    assert r.dest + [] == r.dest;
    if V2Rule(r) {
      match r.source
      case Exact(p) =>
      case Under(p) =>
        assert path[..2] == p;
        assert path[1..] == [p[1]] + path[2..];
      case Sweep(p) =>
        assert [] + path[1..] == path[1..];
    } else if RetiredRule(r) {
      match r.source
      case Exact(p) =>
      case Under(p) => UnderIsNoLanding(p, path);
      case Between(b, a) => assert path[0] == b[0];
    }
  }

  lemma UnderIsNoLanding(p: Path, path: Path)
    requires p <= path && ((|p| == 1 && p[0] == "dcp-v2") || (|p| == 2 && !IsLanding(p)))
    ensures !IsLanding(path)
  {
    if |p| == 2 && |path| == 2 {
      assert path == p;
    }
  }

  /**
   * A hop out of /v2 strips one `v2`; any other hop lands on a fixed page that only the docs host's root
   * leaves again.
   */
  lemma RedirectHops(rules: seq<Rule>, docsHost: bool, path: Path)
    requires GoodTable(rules) && Redirect(rules, docsHost, path).Some?
    ensures Hop(docsHost, path, Redirect(rules, docsHost, path).value)
  {
    FirstMatchApplies(rules, docsHost, path);
    var i :| 0 <= i < |rules| && Applies(rules[i], docsHost, path)
          && Redirect(rules, docsHost, path) == Some(Target(rules[i], path));
    assert KnownRule(rules[i]);
    KnownRuleHops(rules[i], docsHost, path);
  }

  /** Every /v2 path and the docs host's root do hop. */
  lemma MustHop(rules: seq<Rule>, docsHost: bool, path: Path)
    requires GoodTable(rules) && (if path == [] then docsHost else path[0] == "v2")
    ensures Redirect(rules, docsHost, path).Some?
  {
    FirstMatchApplies(rules, docsHost, path);
    var r :=
      if path == [] then Rule(true, Exact([]), ["docs"], false)
      else if |path| == 1 then Rule(false, Exact(["v2"]), [], false)
      else if path[1..] == ["home"] then Rule(false, Exact(["v2", "home"]), [], false)
      else Rule(false, Sweep(["v2"]), [], true);
    assert path != [] ==> path == ["v2"] + path[1..];
    assert Applies(r, docsHost, path);
    var i :| 0 <= i < |rules| && rules[i] == r;
  }

  /** Landing pages are where redirecting stops, except the docs host's root, which goes to /docs. */
  lemma LandingStops(rules: seq<Rule>, docsHost: bool, path: Path)
    requires GoodTable(rules) && IsLanding(path)
    ensures Redirect(rules, docsHost, path) == if docsHost && path == [] then Some(["docs"]) else None
  {
    if Redirect(rules, docsHost, path).Some? {
      RedirectHops(rules, docsHost, path);
    }
    if docsHost && path == [] {
      MustHop(rules, docsHost, path);
    }
  }

  // ---- The rewriting system ----

  function LeadingV2(path: Path): nat {
    if path != [] && path[0] == "v2" then 1 + LeadingV2(path[1..]) else 0
  }

  /** Bounds the hops still to come. */
  ghost function Bound(rules: seq<Rule>, docsHost: bool, path: Path): nat {
    if LeadingV2(path) > 0 then LeadingV2(path) + 2
    else match Redirect(rules, docsHost, path)
         case None => 0
         case Some(next) => if docsHost && next == [] then 2 else 1
  }

  lemma HopDescends(rules: seq<Rule>, docsHost: bool, path: Path)
    requires GoodTable(rules) && Redirect(rules, docsHost, path).Some?
    ensures Bound(rules, docsHost, Redirect(rules, docsHost, path).value) < Bound(rules, docsHost, path)
  {
    RedirectHops(rules, docsHost, path);
    var next := Redirect(rules, docsHost, path).value;
    if path == [] || path[0] != "v2" {
      LandingStops(rules, docsHost, next);
      LandingStops(rules, docsHost, ["docs"]);
    }
  }

  /** Where a browser following redirects ends up: following always ends. */
  ghost function Final(rules: seq<Rule>, docsHost: bool, path: Path): Path
    requires GoodTable(rules)
    decreases Bound(rules, docsHost, path)
  {
    match Redirect(rules, docsHost, path)
    case None => path
    case Some(next) => HopDescends(rules, docsHost, path); Final(rules, docsHost, next)
  }

  /** How many redirects it follows. */
  ghost function Hops(rules: seq<Rule>, docsHost: bool, path: Path): nat
    requires GoodTable(rules)
    decreases Bound(rules, docsHost, path)
  {
    match Redirect(rules, docsHost, path)
    case None => 0
    case Some(next) => HopDescends(rules, docsHost, path); 1 + Hops(rules, docsHost, next)
  }

  /** No hop introduces a leading `v2`: what is left of them was already there. */
  lemma NeverIntoV2(rules: seq<Rule>, docsHost: bool, path: Path)
    requires GoodTable(rules) && Redirect(rules, docsHost, path).Some?
    ensures LeadingV2(Redirect(rules, docsHost, path).value) == if LeadingV2(path) > 0 then LeadingV2(path) - 1 else 0
  {
    RedirectHops(rules, docsHost, path);
  }

  lemma {:induction false} HopsWithinBound(rules: seq<Rule>, docsHost: bool, path: Path)
    requires GoodTable(rules)
    ensures Hops(rules, docsHost, path) <= Bound(rules, docsHost, path)
    decreases Bound(rules, docsHost, path)
  {
    if Redirect(rules, docsHost, path).Some? {
      HopDescends(rules, docsHost, path);
      HopsWithinBound(rules, docsHost, Redirect(rules, docsHost, path).value);
    }
  }

  /** The final page is outside /v2 and no rule applies to it. */
  lemma {:induction false} FinalIsFinal(rules: seq<Rule>, docsHost: bool, path: Path)
    requires GoodTable(rules)
    ensures Redirect(rules, docsHost, Final(rules, docsHost, path)).None?
    ensures LeadingV2(Final(rules, docsHost, path)) == 0
    decreases Bound(rules, docsHost, path)
  {
    if Redirect(rules, docsHost, path).Some? {
      HopDescends(rules, docsHost, path);
      FinalIsFinal(rules, docsHost, Redirect(rules, docsHost, path).value);
    } else if path != [] && path[0] == "v2" {
      MustHop(rules, docsHost, path);
    }
  }

  /** Every /v2 URL ends where its root twin ends, one hop later; /v2/home ends where the root does. */
  lemma V2EndsAtItsTwin(rules: seq<Rule>, docsHost: bool, rest: Path)
    requires GoodTable(rules)
    ensures Final(rules, docsHost, ["v2"] + rest) == Final(rules, docsHost, Strip(rest))
    ensures Hops(rules, docsHost, ["v2"] + rest) == 1 + Hops(rules, docsHost, Strip(rest))
  {
    var path := ["v2"] + rest;
    assert path[1..] == rest;
    MustHop(rules, docsHost, path);
    RedirectHops(rules, docsHost, path);
  }

  /** The table rewrites every path to a final page outside /v2 in at most k + 2 hops, k counting its leading `v2`s. */
  lemma RedirectsTerminate(docsHost: bool, path: Path)
    ensures GoodTable(REDIRECTS)
    ensures Hops(REDIRECTS, docsHost, path) <= LeadingV2(path) + 2
    ensures Redirect(REDIRECTS, docsHost, Final(REDIRECTS, docsHost, path)).None?
    ensures LeadingV2(Final(REDIRECTS, docsHost, path)) == 0
  {
    RedirectsGood();
    HopsWithinBound(REDIRECTS, docsHost, path);
    FinalIsFinal(REDIRECTS, docsHost, path);
  }

  function Repeated(k: nat): Path {
    if k == 0 then [] else ["v2"] + Repeated(k - 1)
  }

  /** The bound is met for every k, where a page outside /v2 goes home on the docs host: home goes on to /docs. */
  lemma {:induction false} BoundIsTight(rules: seq<Rule>, page: Path, k: nat)
    requires GoodTable(rules) && Redirect(rules, true, page) == Some([]) && page != [] && page[0] != "v2"
        && page != ["home"]
    ensures LeadingV2(Repeated(k) + page) == k
    ensures Hops(rules, true, Repeated(k) + page) == k + 2
    ensures Final(rules, true, Repeated(k) + page) == ["docs"]
  {
    hide GoodTable, Redirect, Final, Hops;
    if k == 0 {
      assert Repeated(0) + page == page;
      HomeThenDocs(rules, page);
    } else {
      var p := Repeated(k - 1) + page;
      BoundIsTight(rules, page, k - 1);
      assert Repeated(k) + page == ["v2"] + p;
      assert (["v2"] + p)[1..] == p;
      if |p| == 1 {
        assert p == page;
      }
      V2EndsAtItsTwin(rules, true, p);
    }
  }

  lemma HomeThenDocs(rules: seq<Rule>, page: Path)
    requires GoodTable(rules) && Redirect(rules, true, page) == Some([])
    ensures Hops(rules, true, page) == 2 && Final(rules, true, page) == ["docs"]
  {
    LandingStops(rules, true, []);
    LandingStops(rules, true, ["docs"]);
    hide GoodTable, Redirect;
    assert Hops(rules, true, ["docs"]) == 0 && Hops(rules, true, []) == 1;
    assert Final(rules, true, ["docs"]) == ["docs"] && Final(rules, true, []) == ["docs"];
  }

  /** Trying one list of rules, then another. */
  lemma {:induction false} RedirectConcat(a: seq<Rule>, b: seq<Rule>, docsHost: bool, path: Path)
    ensures Redirect(a + b, docsHost, path)
         == if Redirect(a, docsHost, path).Some? then Redirect(a, docsHost, path) else Redirect(b, docsHost, path)
  {
    if a == [] {
      assert a + b == b;
    } else if !Applies(a[0], docsHost, path) {
      RedirectConcat(a[1..], b, docsHost, path);
      assert (a + b)[1..] == a[1..] + b;
    }
  }

  /** Outside /v2 the /v2 rules do nothing, and away from the root neither does the docs host's. */
  lemma V2RulesStayInV2(v2: seq<Rule>, path: Path)
    requires AllV2(v2) && path != [] && path[0] != "v2"
    ensures Redirect([Rule(true, Exact([]), ["docs"], false)] + v2, true, path) == None
  {
    FirstMatchApplies(v2, true, path);
    forall i | 0 <= i < |v2|
      ensures !Applies(v2[i], true, path)
    {
      assert V2Rule(v2[i]);
    }
    RedirectConcat([Rule(true, Exact([]), ["docs"], false)], v2, true, path);
  }

  lemma HandoffInRetired()
    ensures Redirect(RETIRED_PAGES, true, ["dcp-v2"]) == Some([])
  {
    FirstMatchApplies(RETIRED_PAGES, true, ["dcp-v2"]);
    assert Applies(RETIRED_PAGES[4], true, ["dcp-v2"]);
  }

  /** /dcp-v2 is such a page: /v2/…/v2/dcp-v2 on the docs host takes exactly k + 2 hops. */
  lemma HandoffMeetsTheBound(k: nat)
    ensures GoodTable(REDIRECTS)
    ensures Hops(REDIRECTS, true, Repeated(k) + ["dcp-v2"]) == k + 2
    ensures LeadingV2(Repeated(k) + ["dcp-v2"]) == k
  {
    hide Redirect, GoodTable, Hops, Repeated, AllV2, AllKnown;
    var page := ["dcp-v2"];
    V2RulesKnown();
    V2RulesStayInV2(V2_RULES, page);
    HandoffInRetired();
    var rest := RETIRED[|RETIRED_PAGES|..];
    assert RETIRED == RETIRED_PAGES + rest;
    RedirectConcat(RETIRED_PAGES, rest, true, page);
    RedirectConcat(DOCS_HOST_RULES + V2_RULES, RETIRED, true, page);
    RedirectsGood();
    BoundIsTight(REDIRECTS, page, k);
  }
}
