/**
 * backend/installers/mining_guard.py: the miner classifier, the host allowlists that must yield to it, and
 * the host sweep with its quarantine verdict.
 */
module MiningGuard {
  import opened Options
  import opened Text

  const DEFINITE_MINER_PATTERNS := [
    "xmrig", "cpuminer", "cgminer", "bfgminer", "ethminer", "claymore", "phoenixminer", "lolminer", "gminer",
    "nbminer", "teamredminer", "srbminer", "cast-xmr", "xmr-stak", "minerd", "ccminer", "t-rex", "trex-miner",
    "trexminer", "kryptex", "pearlhash", "perlhash", "diamondhash", "nicehashminer", "nicehash", "coinhive",
    "cryptonight", "miningpoolhub"]

  const WEAK_MINER_TOKENS := [
    "stratum", "scrypt", "sha256", "ruby", "nezha", "forge", "ethash", "progpow", "kawpow", "autolykos", "octopus",
    "cuckoo", "kheavyhash", "yescrypt", "qubit", "dnrgate", "monero", "miningpool", "nanopool", "f2pool", "ethermine",
    "dwarfpool", "supportxmr", "minergate", "herominers", "hashflare", "prohashing", "hashvox"]

  const MINING_FLAGS := [
    "--algorithm", "--pool", "--wallet", "--stratum", "--rig-id", "--cpu-priority", "--no-cpu", "stratum+tcp",
    "stratum+ssl", "stratum+tcp://", "stratum+ssl://", "--algo", "--url=stry", "--user=", "-o stratum",
    "-o stratum+tcp", "-o stratum+ssl"]

  const PERSISTENCE_FLAGS := ["--pool", "--stratum", "stratum+tcp", "stratum+ssl", "--wallet"]

  const MINING_POOL_PORTS := {
    3333, 4444, 5555, 7777, 8888, 9999, 14444, 14433, 14442, 14477, 3334, 3443, 4433, 45700, 1400, 14041, 14042,
    14043, 14044}

  const ALLOWED_HOST_PROCESS_KEYWORDS := [
    "sha256sum", "sha1sum", "md5sum", "openssl", "nezha-agent", "nezha_agent", "/nezha/", "forgejo", "cargo forge",
    "cargo-forge", "ruby", "gem ", "bundle ", "rails", "puma", "sidekiq", "rake ", "dcp_daemon", "dcp-daemon",
    "mining_guard", "sshd", "systemd", "docker", "containerd", "nvidia-smi", "nv-hostengine"]

  const SYSTEM_PATHS := ["/usr/bin/", "/bin/", "/usr/sbin/", "/sbin/"]

  const SYSTEM_TOOLS := [
    "sha256sum", "sha1sum", "md5sum", "openssl", "bash", "sh", "python", "python3", "perl", "ruby", "node", "java"]

  const ALLOWED_HOST_GPU_KEYWORDS := [
    "llama-server", "llama.cpp", "llama-cli", "ollama", "vllm", "sglang", "tgi", "lmdeploy", "aphrodite",
    "text-generation-server", "text-generation-inference", "tritonserver", "triton-server", "prism", "huggingface",
    "hf-text", "open-webui", "open_webui", "comfyui", "automatic1111", "stable-diffusion", "diffusers", "python",
    "python3", "dcp_daemon", "dcp-daemon", "nvidia-smi", "nv-hostengine", "nvidia-cuda-mps", "nvidia-persistenced",
    "dockerd", "containerd", "containerd-shim", "runc", "docker-proxy", "Xorg", "gnome-shell", "tensorrt",
    "onnxruntime", "faster-whisper", "whisper"]

  const HOST_PYTHON_OK_MARKERS := [
    "torch", "vllm", "transformers", "diffusers", "train", "finetune", "lora", "axolotl", "unsloth", "trl",
    "deepspeed", "lightning", "jupyter", "ipython", "uvicorn", "gunicorn", "fastapi", "llama", "ollama", "sglang",
    "comfy", "inference", "gradio", "tensorrt", "onnx", "whisper", "open_webui", "open-webui"]

  // ---- Text ----

  predicate HasAny(text: string, patterns: seq<string>) {
    exists k :: 0 <= k < |patterns| && Contains(text, patterns[k])
  }

  /** sum(1 for p in patterns if p in text) */
  function Hits(text: string, patterns: seq<string>): nat {
    if patterns == [] then 0 else (if Contains(text, patterns[0]) then 1 else 0) + Hits(text, patterns[1..])
  }

  lemma HasAnyWithin(a: string, s: string, b: string, patterns: seq<string>)
    requires HasAny(s, patterns)
    ensures HasAny(a + s + b, patterns)
  {
    var k :| 0 <= k < |patterns| && Contains(s, patterns[k]);
    ContainsWithin(a, s, b, patterns[k]);
  }

  lemma {:induction false} HitsWithin(a: string, s: string, b: string, patterns: seq<string>)
    ensures Hits(s, patterns) <= Hits(a + s + b, patterns)
  {
    if patterns != [] {
      if Contains(s, patterns[0]) {
        ContainsWithin(a, s, b, patterns[0]);
      }
      HitsWithin(a, s, b, patterns[1..]);
    }
  }

  // ---- The classifier ----

  function MiningFlagCount(cmdline: string): nat {
    Hits(Lower(cmdline), MINING_FLAGS)
  }

  predicate IsMinerProcess(cmdline: string) {
    && cmdline != ""
    && var low := Lower(cmdline);
    && (HasAny(low, DEFINITE_MINER_PATTERNS) || MiningFlagCount(cmdline) >= 2
        || (HasAny(low, WEAK_MINER_TOKENS) && MiningFlagCount(cmdline) >= 1))
  }

  /** Wrapping a miner's command line in other text never hides it. */
  lemma MinerIsMonotone(before: string, cmdline: string, after: string)
    requires IsMinerProcess(cmdline)
    ensures IsMinerProcess(before + cmdline + after)
  {
    var low := Lower(cmdline);
    assert Lower(before + cmdline + after) == Lower(before) + low + Lower(after);
    HitsWithin(Lower(before), low, Lower(after), MINING_FLAGS);
    if HasAny(low, DEFINITE_MINER_PATTERNS) {
      HasAnyWithin(Lower(before), low, Lower(after), DEFINITE_MINER_PATTERNS);
    }
    if HasAny(low, WEAK_MINER_TOKENS) {
      HasAnyWithin(Lower(before), low, Lower(after), WEAK_MINER_TOKENS);
    }
  }

  // ---- The allowlists ----

  predicate IsSpace(c: char) {
    c == ' ' || '\t' <= c <= '\r'
  }

  /** text.rsplit("/", 1)[-1] */
  function AfterLastSlash(text: string): string {
    if text == "" || text[|text| - 1] == '/' then "" else AfterLastSlash(text[..|text| - 1]) + [text[|text| - 1]]
  }

  function SkipSpaces(text: string): string {
    if text != "" && IsSpace(text[0]) then SkipSpaces(text[1..]) else text
  }

  function Word(text: string): string {
    if text == "" || IsSpace(text[0]) then "" else [text[0]] + Word(text[1..])
  }

  /** text.split()[0], which raises IndexError on blank text. */
  function FirstWord(text: string): Option<string> {
    var t := SkipSpaces(text);
    if t == "" then None else Some(Word(t))
  }

  function LowerAll(patterns: seq<string>): seq<string> {
    seq(|patterns|, i requires 0 <= i < |patterns| => Lower(patterns[i]))
  }

  predicate StartsWithAny(text: string, prefixes: seq<string>) {
    exists k :: 0 <= k < |prefixes| && prefixes[k] <= text
  }

  /** None where the source raises: a system path whose last component is blank. */
  function IsAllowedHostProcess(cmdline: string): Option<bool> {
    if cmdline == "" then Some(true)
    else
      var low := Lower(cmdline);
      if HasAny(low, DEFINITE_MINER_PATTERNS) then Some(false)
      else if MiningFlagCount(cmdline) >= 2 then Some(false)
      else if HasAny(low, WEAK_MINER_TOKENS) && MiningFlagCount(cmdline) >= 1 then Some(false)
      else if HasAny(low, LowerAll(ALLOWED_HOST_PROCESS_KEYWORDS)) then Some(true)
      else if StartsWithAny(low, SYSTEM_PATHS) then
        match FirstWord(AfterLastSlash(low))
        case None => None
        case Some(base) => Some(base in SYSTEM_TOOLS)
      else Some(false)
  }

  /** (^|/)python3?(\s|$) */
  predicate NamesPython(low: string) {
    exists i :: 0 <= i <= |low| && (i == 0 || low[i - 1] == '/')
      && (EndsWord("python", low[i..]) || EndsWord("python3", low[i..]))
  }

  predicate EndsWord(word: string, text: string) {
    word <= text && (|text| == |word| || IsSpace(text[|word|]))
  }

  predicate RunsPython(low: string) {
    NamesPython(low) || "python" <= SkipSpaces(low)
  }

  predicate IsAllowedHostGpuProcess(cmdline: string) {
    if cmdline == "" then true
    else if IsMinerProcess(cmdline) then false
    else
      var low := Lower(cmdline);
      if !HasAny(low, LowerAll(ALLOWED_HOST_GPU_KEYWORDS)) then false
      else if RunsPython(low) then HasAny(low, HOST_PYTHON_OK_MARKERS)
      else true
  }

  /** Both host allowlists yield to the classifier, and neither raises on a miner. */
  lemma MinersAreNeverAllowed(cmdline: string)
    requires IsMinerProcess(cmdline)
    ensures IsAllowedHostProcess(cmdline) == Some(false)
    ensures !IsAllowedHostGpuProcess(cmdline)
  {
  }

  /** What `rsplit` leaves: the end of the text, from after its last slash. */
  lemma {:induction false} AfterLastSlashIs(text: string) returns (before: string)
    ensures text == before + AfterLastSlash(text) && '/' !in AfterLastSlash(text)
    ensures before == "" || before[|before| - 1] == '/'
  {
    if text == "" || text[|text| - 1] == '/' {
      before := text;
    } else {
      before := AfterLastSlashIs(text[..|text| - 1]);
    }
  }

  lemma {:induction false} SkipSpacesIs(text: string) returns (n: nat)
    ensures n <= |text| && SkipSpaces(text) == text[n..] && forall i :: 0 <= i < n ==> IsSpace(text[i])
    ensures n < |text| ==> !IsSpace(text[n])
  {
    n := 0;
    if text != "" && IsSpace(text[0]) {
      var m := SkipSpacesIs(text[1..]);
      n := m + 1;
      assert text[1..][m..] == text[n..] && forall i :: 0 < i < |text| ==> text[i] == text[1..][i - 1];
    }
  }

  lemma {:induction false} WordIs(text: string) returns (n: nat)
    ensures n <= |text| && Word(text) == text[..n] && forall i :: 0 <= i < n ==> !IsSpace(text[i])
    ensures n < |text| ==> IsSpace(text[n])
  {
    n := 0;
    if text != "" && !IsSpace(text[0]) {
      var m := WordIs(text[1..]);
      n := m + 1;
      assert [text[0]] + text[1..][..m] == text[..n] && forall i :: 0 < i < |text| ==> text[i] == text[1..][i - 1];
    }
  }

  /** A text has a first word unless it is blank: from its first non-space to the next space or the end. */
  lemma FirstWordIs(text: string) returns (from: nat, to: nat)
    ensures FirstWord(text).None? <==> forall i :: 0 <= i < |text| ==> IsSpace(text[i])
    ensures FirstWord(text).Some? ==>
      && from < to <= |text| && FirstWord(text).value == text[from..to]
      && (forall i :: 0 <= i < from ==> IsSpace(text[i])) && (forall i :: from <= i < to ==> !IsSpace(text[i]))
      && (to < |text| ==> IsSpace(text[to]))
  {
    hide SkipSpaces, Word, IsSpace;
    from := SkipSpacesIs(text);
    var rest := text[from..];
    var n := WordIs(rest);
    to := from + n;
    assert forall i :: 0 <= i < |rest| ==> rest[i] == text[from + i];
    assert from < |text| ==> rest != "" && rest[0] == text[from];
    assert rest[..n] == text[from..to];
  }

  /** A GPU process is allowed if it is no miner and has a listed name, and then, if Python, one of its markers. */
  lemma AllowedGpuIff(cmdline: string)
    ensures IsAllowedHostGpuProcess(cmdline) <==>
      || cmdline == ""
      || var low := Lower(cmdline);
         && !IsMinerProcess(cmdline) && HasAny(low, LowerAll(ALLOWED_HOST_GPU_KEYWORDS))
         && (RunsPython(low) ==> HasAny(low, HOST_PYTHON_OK_MARKERS))
  {
  }

  /** A host process is allowed by a listed name, or as a system tool under a system path; a blank one there raises. */
  lemma AllowedHostIff(cmdline: string)
    ensures var low := Lower(cmdline);
      var listed := HasAny(low, LowerAll(ALLOWED_HOST_PROCESS_KEYWORDS));
      var tool := FirstWord(AfterLastSlash(low));
      var pathOnly := cmdline != "" && !IsMinerProcess(cmdline) && !listed && StartsWithAny(low, SYSTEM_PATHS);
      && (IsAllowedHostProcess(cmdline) == Some(true) <==>
            cmdline == "" || (!IsMinerProcess(cmdline) && listed)
              || (pathOnly && tool.Some? && tool.value in SYSTEM_TOOLS))
      && (IsAllowedHostProcess(cmdline) == None <==> pathOnly && tool.None?)
  {
    hide AfterLastSlash, FirstWord, HasAny, StartsWithAny, MiningFlagCount, Lower, LowerAll;
  }

  // ---- Findings ----

  datatype Scope = HostGpu | HostProc | HostConn | PersistenceScope

  datatype Reason = KnownMinerPattern | HostGpuNotAllowlisted | MiningPoolPortConnection | PersistenceHit(hit: string)

  datatype Finding = Finding(
    scope: Scope, pid: Option<int>, path: Option<string>, port: Option<int>, reason: Reason, quarantine: bool)

  datatype Process = Process(pid: int, cmdline: string, vramMib: int, inContainer: bool)

  datatype File = File(path: string, body: string)

  /**
   * What the four scans see, a readable path's text in `bodies`; `scans` of them run to the end before one
   * raises (all, if 4 or more).
   */
  datatype Host = Host(gpu: seq<Process>, table: seq<Process>, ports: seq<int>, paths: seq<string>,
                       bodies: map<string, string>, scans: nat)

  function GpuFinding(p: Process, minVramMib: int): seq<Finding> {
    if p.vramMib < minVramMib || p.cmdline == "" || p.inContainer then []
    else if IsMinerProcess(p.cmdline) then [Finding(HostGpu, Some(p.pid), None, None, KnownMinerPattern, true)]
    else if !IsAllowedHostGpuProcess(p.cmdline) then
      [Finding(HostGpu, Some(p.pid), None, None, HostGpuNotAllowlisted, false)]
    else []
  }

  /** The allowlist skip is gone: it never fires. */
  function TableFinding(p: Process): seq<Finding> {
    if IsMinerProcess(p.cmdline) then [Finding(HostProc, Some(p.pid), None, None, KnownMinerPattern, true)] else []
  }

  function ConnectionFinding(port: int): seq<Finding> {
    if port in MINING_POOL_PORTS then [Finding(HostConn, None, None, Some(port), MiningPoolPortConnection, false)]
    else []
  }

  /** The first pattern that occurs in `low`. */
  function FirstHit(low: string, patterns: seq<string>): Option<string> {
    if patterns == [] then None
    else if Contains(low, patterns[0]) then Some(patterns[0])
    else FirstHit(low, patterns[1..])
  }

  function PersistenceHitReason(body: string): Option<string> {
    if body == "" then None
    else
      var low := Lower(body);
      var hit := FirstHit(low, DEFINITE_MINER_PATTERNS);
      if hit.Some? then hit
      else if Hits(low, PERSISTENCE_FLAGS) >= 2 then Some("mining_flags")
      else if Hits(low, PERSISTENCE_FLAGS) >= 1 && HasAny(low, WEAK_MINER_TOKENS) then Some("weak_plus_flag")
      else None
  }

  function FileFinding(f: File): seq<Finding> {
    match PersistenceHitReason(f.body)
    case None => []
    case Some(hit) => [Finding(PersistenceScope, None, Some(f.path), None, PersistenceHit(hit), true)]
  }

  /** One thing a scan looks at. */
  datatype Sighting =
    | OnGpu(gpu: Process, minVramMib: int) | InTable(process: Process) | OnPort(port: int) | InFile(file: File)

  function FindingsOf(x: Sighting): seq<Finding> {
    match x
    case OnGpu(p, minVramMib) => GpuFinding(p, minVramMib)
    case InTable(p) => TableFinding(p)
    case OnPort(port) => ConnectionFinding(port)
    case InFile(f) => FileFinding(f)
  }

  function Collect(xs: seq<Sighting>): seq<Finding> {
    if xs == [] then [] else Collect(xs[..|xs| - 1]) + FindingsOf(xs[|xs| - 1])
  }

  function OnGpus(gpu: seq<Process>, minVramMib: int): seq<Sighting> {
    seq(|gpu|, i requires 0 <= i < |gpu| => OnGpu(gpu[i], minVramMib))
  }

  function InTables(table: seq<Process>): seq<Sighting> {
    seq(|table|, i requires 0 <= i < |table| => InTable(table[i]))
  }

  function OnPorts(ports: seq<int>): seq<Sighting> {
    seq(|ports|, i requires 0 <= i < |ports| => OnPort(ports[i]))
  }

  /** Every path once, where it first occurs. */
  function Firsts(paths: seq<string>): seq<string> {
    if paths == [] then []
    else
      var init, last := Firsts(paths[..|paths| - 1]), paths[|paths| - 1];
      if last in init then init else init + [last]
  }

  lemma {:induction false} FirstsMembers(paths: seq<string>)
    ensures forall path :: path in Firsts(paths) <==> path in paths
    ensures forall i, j :: 0 <= i < j < |Firsts(paths)| ==> Firsts(paths)[i] != Firsts(paths)[j]
  {
    if paths != [] {
      FirstsMembers(paths[..|paths| - 1]);
      assert paths == paths[..|paths| - 1] + [paths[|paths| - 1]];
    }
  }

  /** An unreadable file reads as the empty text. */
  function ReadText(bodies: map<string, string>, path: string): string {
    if path in bodies then bodies[path] else ""
  }

  function InFiles(paths: seq<string>, bodies: map<string, string>): seq<Sighting> {
    seq(|paths|, i requires 0 <= i < |paths| => InFile(File(paths[i], ReadText(bodies, paths[i]))))
  }

  method ScanHostGpuProcesses(gpu: seq<Process>, minVramMib: int) returns (findings: seq<Finding>)
    ensures findings == Collect(OnGpus(gpu, minVramMib))
  {
    findings := [];
    ghost var xs := OnGpus(gpu, minVramMib);
    for i := 0 to |gpu|
      invariant findings == Collect(xs[..i])
    {
      assert xs[..i + 1][..i] == xs[..i];
      var p := gpu[i];
      if p.vramMib >= minVramMib && p.cmdline != "" && !p.inContainer {
        if IsMinerProcess(p.cmdline) {
          findings := findings + [Finding(HostGpu, Some(p.pid), None, None, KnownMinerPattern, true)];
        } else if !IsAllowedHostGpuProcess(p.cmdline) {
          findings := findings + [Finding(HostGpu, Some(p.pid), None, None, HostGpuNotAllowlisted, false)];
        }
      }
    }
    assert xs[..|gpu|] == xs;
  }

  /** The guarded `continue` for allowlisted processes is there, and every miner is found all the same. */
  method ScanHostProcessTable(table: seq<Process>) returns (findings: seq<Finding>)
    ensures findings == Collect(InTables(table))
  {
    findings := [];
    ghost var xs := InTables(table);
    for i := 0 to |table|
      invariant findings == Collect(xs[..i])
    {
      assert xs[..i + 1][..i] == xs[..i];
      var p := table[i];
      if p.cmdline != "" && IsMinerProcess(p.cmdline) {
        MinersAreNeverAllowed(p.cmdline);
        var skip := IsAllowedHostProcess(p.cmdline) == Some(true)
                 && !(HasAny(Lower(p.cmdline), DEFINITE_MINER_PATTERNS) || MiningFlagCount(p.cmdline) >= 2);
        if !skip {
          findings := findings + [Finding(HostProc, Some(p.pid), None, None, KnownMinerPattern, true)];
        }
      }
    }
    assert xs[..|table|] == xs;
  }

  method ScanHostConnections(ports: seq<int>) returns (findings: seq<Finding>)
    ensures findings == Collect(OnPorts(ports))
  {
    findings := [];
    ghost var xs := OnPorts(ports);
    for i := 0 to |ports|
      invariant findings == Collect(xs[..i])
    {
      assert xs[..i + 1][..i] == xs[..i];
      if ports[i] in MINING_POOL_PORTS {
        findings := findings + [Finding(HostConn, None, None, Some(ports[i]), MiningPoolPortConnection, false)];
      }
    }
    assert xs[..|ports|] == xs;
  }

  /** A path that occurs again in the list is not read again. */
  method HuntPersistence(paths: seq<string>, bodies: map<string, string>) returns (findings: seq<Finding>)
    ensures findings == Collect(InFiles(Firsts(paths), bodies))
  {
    hide PersistenceHitReason, Collect, InFiles, Firsts;
    findings := [];
    var seen: set<string> := {};
    FirstsOfNone(bodies);
    for i := 0 to |paths|
      invariant seen == set path | path in Firsts(paths[..i])
      invariant findings == Collect(InFiles(Firsts(paths[..i]), bodies))
    {
      var path := paths[i];
      FirstsSnoc(paths[..i], path);
      assert paths[..i + 1] == paths[..i] + [path] && Firsts(paths[..i]) + [] == Firsts(paths[..i]);
      if path !in seen {
        seen := seen + {path};
        InFilesSnoc(Firsts(paths[..i]), path, bodies);
        NothingToHit();
        var body := ReadText(bodies, path);
        var hit := PersistenceHitReason(body);
        if body != "" && hit.Some? {
          findings := findings + [Finding(PersistenceScope, None, Some(path), None, PersistenceHit(hit.value), true)];
        }
      }
    }
    assert paths[..|paths|] == paths;
  }

  lemma NothingToHit()
    ensures PersistenceHitReason("").None?
  {
  }

  lemma FirstsOfNone(bodies: map<string, string>)
    ensures Firsts([]) == [] && Collect(InFiles([], bodies)) == []
  {
  }

  lemma FirstsSnoc(paths: seq<string>, path: string)
    ensures Firsts(paths + [path]) == Firsts(paths) + if path in Firsts(paths) then [] else [path]
  {
    assert (paths + [path])[..|paths|] == paths;
  }

  lemma InFilesSnoc(paths: seq<string>, path: string, bodies: map<string, string>)
    ensures Collect(InFiles(paths + [path], bodies))
        == Collect(InFiles(paths, bodies)) + FileFinding(File(path, ReadText(bodies, path)))
  {
    hide FileFinding;
    var xs := InFiles(paths + [path], bodies);
    assert xs[..|xs| - 1] == InFiles(paths, bodies);
  }

  // ---- The verdict ----

  predicate IsKnownMiner(f: Finding) {
    (f.scope == HostGpu || f.scope == HostProc) && f.reason == KnownMinerPattern
  }

  predicate Damning(f: Finding) {
    f.quarantine || IsKnownMiner(f) || (f.scope == PersistenceScope && f.reason.PersistenceHit?)
  }

  predicate Warrants(findings: seq<Finding>) {
    exists i :: 0 <= i < |findings| && Damning(findings[i])
  }

  method FindingsWarrantQuarantine(findings: seq<Finding>) returns (r: bool)
    ensures r <==> Warrants(findings)
  {
    for i := 0 to |findings|
      invariant forall j :: 0 <= j < i ==> !Damning(findings[j])
    {
      var f := findings[i];
      if f.quarantine {
        return true;
      }
      if IsKnownMiner(f) {
        return true;
      }
      if f.scope == PersistenceScope && f.reason.PersistenceHit? {
        return true;
      }
    }
    return false;
  }

  /** (scope, pid, path, reason, port): everything but the flag. */
  function Key(f: Finding): Finding {
    f.(quarantine := false)
  }

  lemma KeyIff(f: Finding, g: Finding)
    ensures Key(f) == Key(g) <==>
      f.scope == g.scope && f.pid == g.pid && f.path == g.path && f.reason == g.reason && f.port == g.port
  {
  }

  /** In a finding made by the scans the key decides the flag. */
  predicate ByScan(f: Finding) {
    f.quarantine <==> IsKnownMiner(f) || (f.scope == PersistenceScope && f.reason.PersistenceHit?)
  }

  ghost predicate SameKeys(findings: seq<Finding>, deduped: seq<Finding>) {
    && (forall f <- deduped :: f in findings)
    && (forall f <- findings :: exists g <- deduped :: Key(g) == Key(f))
    && (forall i, j :: 0 <= i < j < |deduped| ==> Key(deduped[i]) != Key(deduped[j]))
  }

  ghost predicate IsFirst(findings: seq<Finding>, i: nat)
    requires i < |findings|
  {
    forall j :: 0 <= j < i ==> Key(findings[j]) != Key(findings[i])
  }

  /** `deduped` is the findings at the places `kept`, in order: those without an earlier one of the same key. */
  ghost predicate KeepsFirsts(findings: seq<Finding>, deduped: seq<Finding>, kept: seq<nat>) {
    && |kept| == |deduped|
    && (forall k :: 0 <= k < |kept| ==> kept[k] < |findings| && deduped[k] == findings[kept[k]])
    && (forall a, b :: 0 <= a < b < |kept| ==> kept[a] < kept[b])
    && (forall i :: 0 <= i < |findings| ==> (i in kept <==> IsFirst(findings, i)))
  }

  method Dedup(findings: seq<Finding>) returns (deduped: seq<Finding>)
    ensures SameKeys(findings, deduped) && exists kept :: KeepsFirsts(findings, deduped, kept)
  {
    deduped := [];
    ghost var kept: seq<nat> := [];
    var seen: set<Finding> := {};
    for i := 0 to |findings|
      invariant forall j :: 0 <= j < i ==> Key(findings[j]) in seen
      invariant forall k <- seen :: exists j :: 0 <= j < i && Key(findings[j]) == k
      invariant KeepsFirsts(findings[..i], deduped, kept)
    {
      var f := findings[i];
      assert findings[..i + 1] == findings[..i] + [f];
      assert Key(f) in seen <==> exists j :: 0 <= j < i && Key(findings[..i][j]) == Key(f);
      KeepsFirstsSnoc(findings[..i], f, deduped, kept);
      if Key(f) !in seen {
        seen := seen + {Key(f)};
        deduped := deduped + [f];
        kept := kept + [i];
      }
    }
    assert findings[..|findings|] == findings;
    FirstsKeepKeys(findings, deduped, kept);
  }

  lemma KeepsFirstsSnoc(findings: seq<Finding>, f: Finding, deduped: seq<Finding>, kept: seq<nat>)
    requires KeepsFirsts(findings, deduped, kept)
    ensures if exists j :: 0 <= j < |findings| && Key(findings[j]) == Key(f)
      then KeepsFirsts(findings + [f], deduped, kept)
      else KeepsFirsts(findings + [f], deduped + [f], kept + [|findings|])
  {
    hide Key;
    var all := findings + [f];
    assert forall j :: 0 <= j < |findings| ==> all[j] == findings[j];
    assert forall j :: 0 <= j < |findings| ==> (IsFirst(all, j) <==> IsFirst(findings, j));
    assert IsFirst(all, |findings|) <==> !exists j :: 0 <= j < |findings| && Key(findings[j]) == Key(f);
    assert forall j <- kept :: j < |findings|;
  }

  lemma {:induction false} FirstOfKey(findings: seq<Finding>, i: nat) returns (first: nat)
    requires i < |findings|
    ensures first < |findings| && IsFirst(findings, first) && Key(findings[first]) == Key(findings[i])
  {
    if j: nat :| j < i && Key(findings[j]) == Key(findings[i]) {
      first := FirstOfKey(findings, j);
    } else {
      first := i;
    }
  }

  /** Keeping the first of each key keeps the keys, each once. */
  lemma FirstsKeepKeys(findings: seq<Finding>, deduped: seq<Finding>, kept: seq<nat>)
    requires KeepsFirsts(findings, deduped, kept)
    ensures SameKeys(findings, deduped)
  {
    hide Key;
    forall f <- findings
      ensures exists g <- deduped :: Key(g) == Key(f)
    {
      var i :| 0 <= i < |findings| && findings[i] == f;
      var first := FirstOfKey(findings, i);
      assert first in kept;
      var k :| 0 <= k < |kept| && kept[k] == first;
      assert deduped[k] == findings[first] && deduped[k] in deduped;
    }
    forall i, j | 0 <= i < j < |deduped|
      ensures Key(deduped[i]) != Key(deduped[j])
    {
      assert kept[j] in kept && IsFirst(findings, kept[j]);
    }
  }

  /** Deduplicating scan findings never changes the verdict. */
  lemma DedupKeepsVerdict(findings: seq<Finding>, deduped: seq<Finding>)
    requires SameKeys(findings, deduped) && forall f <- findings :: ByScan(f)
    ensures Warrants(deduped) <==> Warrants(findings)
  {
    if Warrants(findings) {
      var i :| 0 <= i < |findings| && Damning(findings[i]);
      assert findings[i] in findings;
      var g :| g in deduped && Key(g) == Key(findings[i]);
      assert ByScan(g) && ByScan(findings[i]);
      assert IsKnownMiner(g) == IsKnownMiner(Key(g)) && IsKnownMiner(findings[i]) == IsKnownMiner(Key(findings[i]));
      var j :| 0 <= j < |deduped| && deduped[j] == g;
      assert Key(g).scope == Key(findings[i]).scope && Key(g).reason == Key(findings[i]).reason;
      assert Damning(deduped[j]);
    }
    if Warrants(deduped) {
      var j :| 0 <= j < |deduped| && Damning(deduped[j]);
      assert deduped[j] in findings;
      var i :| 0 <= i < |findings| && findings[i] == deduped[j];
    }
  }

  lemma OneKeyTwice(f: Finding, g: Finding)
    requires Key(f) == Key(g) && !Damning(f) && Damning(g)
    ensures SameKeys([f, g], [f]) && Warrants([f, g]) && !Warrants([f])
  {
    hide Key, Damning;
    assert f in [f] && [f, g][1] == g && forall x <- [f, g] :: x == f || x == g;
  }

  /** Without that, it could, on a list that no scan makes: the key leaves the flag out. */
  lemma DedupAloneCouldHideEvidence()
    ensures var plain := Finding(HostConn, None, None, Some(3333), MiningPoolPortConnection, false);
      var flagged := plain.(quarantine := true);
      SameKeys([plain, flagged], [plain]) && Warrants([plain, flagged]) && !Warrants([plain])
  {
    var plain := Finding(HostConn, None, None, Some(3333), MiningPoolPortConnection, false);
    var flagged := plain.(quarantine := true);
    OneKeyTwice(plain, flagged);
  }

  // ---- The sweep ----

  /** Everything the scans that ran to the end found, in order. */
  ghost function Raw(host: Host, minVramMib: int): seq<Finding> {
    (if host.scans >= 1 then Collect(OnGpus(host.gpu, minVramMib)) else [])
    + (if host.scans >= 2 then Collect(InTables(host.table)) else [])
    + (if host.scans >= 3 then Collect(OnPorts(host.ports)) else [])
    + (if host.scans >= 4 then Collect(InFiles(Firsts(host.paths), host.bodies)) else [])
  }

  /** What should quarantine a host: a miner on its GPU or in its process table, or a persistence hit. */
  ghost predicate Evidence(host: Host, minVramMib: int) {
    || (host.scans >= 1 && exists p <- host.gpu ::
          p.vramMib >= minVramMib && !p.inContainer && IsMinerProcess(p.cmdline))
    || (host.scans >= 2 && exists p <- host.table :: IsMinerProcess(p.cmdline))
    || (host.scans >= 4 && exists path <- host.paths :: PersistenceHitReason(ReadText(host.bodies, path)).Some?)
  }

  /** A GPU process above the threshold and outside containers: a miner, or one that is not on the list. */
  ghost predicate FoundOnGpu(p: Process, minVramMib: int, f: Finding) {
    && p.vramMib >= minVramMib && p.cmdline != "" && !p.inContainer
    && (IsMinerProcess(p.cmdline) || !IsAllowedHostGpuProcess(p.cmdline))
    && f == if IsMinerProcess(p.cmdline) then Finding(HostGpu, Some(p.pid), None, None, KnownMinerPattern, true)
            else Finding(HostGpu, Some(p.pid), None, None, HostGpuNotAllowlisted, false)
  }

  ghost predicate FoundInTable(p: Process, f: Finding) {
    IsMinerProcess(p.cmdline) && f == Finding(HostProc, Some(p.pid), None, None, KnownMinerPattern, true)
  }

  ghost predicate FoundOnPort(port: int, f: Finding) {
    port in MINING_POOL_PORTS && f == Finding(HostConn, None, None, Some(port), MiningPoolPortConnection, false)
  }

  ghost predicate FoundInFile(host: Host, path: string, f: Finding) {
    && path in host.bodies
    && var hit := PersistenceHitReason(host.bodies[path]);
    && hit.Some? && f == Finding(PersistenceScope, None, Some(path), None, PersistenceHit(hit.value), true)
  }

  /** What the completed scans should find. */
  ghost predicate Findable(host: Host, minVramMib: int, f: Finding) {
    || (host.scans >= 1 && exists p <- host.gpu :: FoundOnGpu(p, minVramMib, f))
    || (host.scans >= 2 && exists p <- host.table :: FoundInTable(p, f))
    || (host.scans >= 3 && exists port <- host.ports :: FoundOnPort(port, f))
    || (host.scans >= 4 && exists path <- host.paths :: FoundInFile(host, path, f))
  }

  lemma {:induction false} CollectHas(xs: seq<Sighting>, f: Finding)
    ensures f in Collect(xs) <==> exists i :: 0 <= i < |xs| && f in FindingsOf(xs[i])
  {
    hide FindingsOf;
    if xs != [] {
      var n := |xs| - 1;
      CollectHas(xs[..n], f);
      assert forall i :: 0 <= i < n ==> xs[..n][i] == xs[i];
    }
  }

  /** Findings stand in the order of what they were found on. */
  lemma {:induction false} CollectInOrder(xs: seq<Sighting>, n: nat)
    requires n <= |xs|
    ensures Collect(xs[..n]) <= Collect(xs)
  {
    hide FindingsOf;
    if n < |xs| {
      assert xs[..|xs| - 1][..n] == xs[..n];
      CollectInOrder(xs[..|xs| - 1], n);
    } else {
      assert xs[..n] == xs;
    }
  }

  lemma GpuScanHas(gpu: seq<Process>, minVramMib: int, f: Finding)
    ensures f in Collect(OnGpus(gpu, minVramMib)) <==> exists p <- gpu :: FoundOnGpu(p, minVramMib, f)
  {
    hide IsMinerProcess, IsAllowedHostGpuProcess, Collect;
    var xs := OnGpus(gpu, minVramMib);
    CollectHas(xs, f);
    assert forall i :: 0 <= i < |gpu| ==> (f in FindingsOf(xs[i]) <==> FoundOnGpu(gpu[i], minVramMib, f));
  }

  lemma TableScanHas(table: seq<Process>, f: Finding)
    ensures f in Collect(InTables(table)) <==> exists p <- table :: FoundInTable(p, f)
  {
    hide IsMinerProcess, Collect;
    var xs := InTables(table);
    CollectHas(xs, f);
    assert forall i :: 0 <= i < |table| ==> (f in FindingsOf(xs[i]) <==> FoundInTable(table[i], f));
  }

  lemma PortScanHas(ports: seq<int>, f: Finding)
    ensures f in Collect(OnPorts(ports)) <==> exists port <- ports :: FoundOnPort(port, f)
  {
    hide Collect;
    var xs := OnPorts(ports);
    CollectHas(xs, f);
    assert forall i :: 0 <= i < |ports| ==> (f in FindingsOf(xs[i]) <==> FoundOnPort(ports[i], f));
  }

  lemma FileScanHas(host: Host, f: Finding)
    ensures f in Collect(InFiles(Firsts(host.paths), host.bodies))
        <==> exists path <- host.paths :: FoundInFile(host, path, f)
  {
    NothingToHit();
    hide PersistenceHitReason, Collect;
    var files := Firsts(host.paths);
    var xs := InFiles(files, host.bodies);
    FirstsMembers(host.paths);
    CollectHas(xs, f);
    assert forall i :: 0 <= i < |files| ==> (f in FindingsOf(xs[i]) <==> FoundInFile(host, files[i], f));
  }

  /** The findings are exactly what the completed scans should find. */
  lemma RawHas(host: Host, minVramMib: int, f: Finding)
    ensures f in Raw(host, minVramMib) <==> Findable(host, minVramMib, f)
  {
    GpuScanHas(host.gpu, minVramMib, f);
    TableScanHas(host.table, f);
    PortScanHas(host.ports, f);
    FileScanHas(host, f);
    hide Collect, FoundOnGpu, FoundInTable, FoundOnPort, FoundInFile;
  }

  lemma {:induction false} CollectedByScan(xs: seq<Sighting>, f: Finding)
    requires f in Collect(xs)
    ensures ByScan(f)
  {
    var last := xs[|xs| - 1];
    if f !in FindingsOf(last) {
      CollectedByScan(xs[..|xs| - 1], f);
    }
  }

  lemma RawByScan(host: Host, minVramMib: int, f: Finding)
    requires f in Raw(host, minVramMib)
    ensures ByScan(f)
  {
    hide Collect, ByScan;
    if f in Collect(OnGpus(host.gpu, minVramMib)) {
      CollectedByScan(OnGpus(host.gpu, minVramMib), f);
    } else if f in Collect(InTables(host.table)) {
      CollectedByScan(InTables(host.table), f);
    } else if f in Collect(OnPorts(host.ports)) {
      CollectedByScan(OnPorts(host.ports), f);
    } else {
      CollectedByScan(InFiles(Firsts(host.paths), host.bodies), f);
    }
  }

  lemma WarrantsConcat(a: seq<Finding>, b: seq<Finding>)
    ensures Warrants(a + b) <==> Warrants(a) || Warrants(b)
  {
    if Warrants(a) {
      var i :| 0 <= i < |a| && Damning(a[i]);
      assert (a + b)[i] == a[i];
    }
    if Warrants(b) {
      var i :| 0 <= i < |b| && Damning(b[i]);
      assert (a + b)[|a| + i] == b[i];
    }
  }

  lemma {:induction false} CollectWarrants(xs: seq<Sighting>)
    ensures Warrants(Collect(xs)) <==> exists i :: 0 <= i < |xs| && Warrants(FindingsOf(xs[i]))
  {
    hide FindingsOf, Warrants;
    if xs == [] {
      NothingWarrants();
    } else {
      var n := |xs| - 1;
      CollectWarrants(xs[..n]);
      WarrantsConcat(Collect(xs[..n]), FindingsOf(xs[n]));
      assert forall i :: 0 <= i < n ==> xs[..n][i] == xs[i];
    }
  }

  lemma NothingWarrants()
    ensures !Warrants([])
  {
  }

  lemma GpuWarrants(p: Process, minVramMib: int)
    ensures Warrants(GpuFinding(p, minVramMib))
        <==> p.vramMib >= minVramMib && !p.inContainer && IsMinerProcess(p.cmdline)
  {
    if p.vramMib >= minVramMib && !p.inContainer && IsMinerProcess(p.cmdline) {
      assert Damning(GpuFinding(p, minVramMib)[0]);
    }
  }

  lemma TableWarrants(p: Process)
    ensures Warrants(TableFinding(p)) <==> IsMinerProcess(p.cmdline)
  {
    if IsMinerProcess(p.cmdline) {
      assert Damning(TableFinding(p)[0]);
    }
  }

  lemma FileWarrants(f: File)
    ensures Warrants(FileFinding(f)) <==> PersistenceHitReason(f.body).Some?
  {
    if PersistenceHitReason(f.body).Some? {
      assert Damning(FileFinding(f)[0]);
    }
  }

  lemma GpuScanWarrants(gpu: seq<Process>, minVramMib: int)
    ensures Warrants(Collect(OnGpus(gpu, minVramMib)))
       <==> exists p <- gpu :: p.vramMib >= minVramMib && !p.inContainer && IsMinerProcess(p.cmdline)
  {
    hide Warrants, IsMinerProcess, GpuFinding, Collect;
    var xs := OnGpus(gpu, minVramMib);
    CollectWarrants(xs);
    forall i | 0 <= i < |gpu|
      ensures Warrants(FindingsOf(xs[i]))
          <==> gpu[i].vramMib >= minVramMib && !gpu[i].inContainer && IsMinerProcess(gpu[i].cmdline)
    {
      GpuWarrants(gpu[i], minVramMib);
    }
  }

  lemma TableScanWarrants(table: seq<Process>)
    ensures Warrants(Collect(InTables(table))) <==> exists p <- table :: IsMinerProcess(p.cmdline)
  {
    hide Warrants, IsMinerProcess, TableFinding, Collect;
    var xs := InTables(table);
    CollectWarrants(xs);
    forall i | 0 <= i < |table|
      ensures Warrants(FindingsOf(xs[i])) <==> IsMinerProcess(table[i].cmdline)
    {
      TableWarrants(table[i]);
    }
  }

  lemma PortScanWarrants(ports: seq<int>)
    ensures !Warrants(Collect(OnPorts(ports)))
  {
    hide Collect;
    CollectWarrants(OnPorts(ports));
  }

  lemma FileScanWarrants(paths: seq<string>, bodies: map<string, string>)
    ensures Warrants(Collect(InFiles(Firsts(paths), bodies)))
       <==> exists path <- paths :: PersistenceHitReason(ReadText(bodies, path)).Some?
  {
    hide Warrants, PersistenceHitReason, FileFinding, Collect;
    var files := Firsts(paths);
    var xs := InFiles(files, bodies);
    FirstsMembers(paths);
    CollectWarrants(xs);
    forall i | 0 <= i < |files|
      ensures Warrants(FindingsOf(xs[i])) <==> PersistenceHitReason(ReadText(bodies, files[i])).Some?
    {
      FileWarrants(File(files[i], ReadText(bodies, files[i])));
    }
  }

  /** The findings warrant quarantine exactly on evidence: pool ports and unlisted GPU processes never do. */
  lemma RawWarrantsIffEvidence(host: Host, minVramMib: int)
    ensures Warrants(Raw(host, minVramMib)) <==> Evidence(host, minVramMib)
  {
    hide Warrants, Collect, IsMinerProcess, PersistenceHitReason;
    GpuScanWarrants(host.gpu, minVramMib);
    TableScanWarrants(host.table);
    PortScanWarrants(host.ports);
    FileScanWarrants(host.paths, host.bodies);
    NothingWarrants();
    var a := if host.scans >= 1 then Collect(OnGpus(host.gpu, minVramMib)) else [];
    var b := if host.scans >= 2 then Collect(InTables(host.table)) else [];
    var c := if host.scans >= 3 then Collect(OnPorts(host.ports)) else [];
    var d := if host.scans >= 4 then Collect(InFiles(Firsts(host.paths), host.bodies)) else [];
    WarrantsConcat(a, b);
    WarrantsConcat(a + b, c);
    WarrantsConcat(a + b + c, d);
    assert Raw(host, minVramMib) == a + b + c + d;
  }

  method ScanAll(host: Host, minVramMib: int) returns (raw: seq<Finding>)
    ensures raw == Raw(host, minVramMib)
  {
    raw := [];
    if host.scans >= 1 {
      raw := ScanHostGpuProcesses(host.gpu, minVramMib);
    }
    if host.scans >= 2 {
      var more := ScanHostProcessTable(host.table);
      raw := raw + more;
    }
    if host.scans >= 3 {
      var more := ScanHostConnections(host.ports);
      raw := raw + more;
    }
    if host.scans >= 4 {
      var more := HuntPersistence(host.paths, host.bodies);
      raw := raw + more;
    }
  }

  /** `pid` is to be killed on account of one of the first `n` findings. */
  ghost predicate Doomed(findings: seq<Finding>, n: nat, pid: int) {
    exists j :: 0 <= j < n <= |findings| && IsKnownMiner(findings[j]) && findings[j].pid == Some(pid)
  }

  /** A completed scan of the GPU or of the process table saw a miner with this pid. */
  ghost predicate MinerSeen(host: Host, minVramMib: int, pid: int) {
    || (host.scans >= 1 && exists p <- host.gpu ::
          p.pid == pid && p.vramMib >= minVramMib && !p.inContainer && IsMinerProcess(p.cmdline))
    || (host.scans >= 2 && exists p <- host.table :: p.pid == pid && IsMinerProcess(p.cmdline))
  }

  lemma DoomedIfSeen(host: Host, minVramMib: int, pid: int)
    ensures Doomed(Raw(host, minVramMib), |Raw(host, minVramMib)|, pid) <==> MinerSeen(host, minVramMib, pid)
  {
    var raw := Raw(host, minVramMib);
    var onGpu := Finding(HostGpu, Some(pid), None, None, KnownMinerPattern, true);
    var inTable := onGpu.(scope := HostProc);
    RawHas(host, minVramMib, onGpu);
    RawHas(host, minVramMib, inTable);
    NoMinerIsNameless();
    hide Raw, IsMinerProcess, IsAllowedHostGpuProcess, PersistenceHitReason;
    if Doomed(raw, |raw|, pid) {
      var i :| 0 <= i < |raw| && IsKnownMiner(raw[i]) && raw[i].pid == Some(pid);
      RawHas(host, minVramMib, raw[i]);
      assert raw[i] in raw;
    }
    if MinerSeen(host, minVramMib, pid) {
      var f := if onGpu in raw then onGpu else inTable;
      assert f in raw by {
        if host.scans >= 1 && exists p <- host.gpu ::
             p.pid == pid && p.vramMib >= minVramMib && !p.inContainer && IsMinerProcess(p.cmdline) {
          var p :| p in host.gpu && p.pid == pid && p.vramMib >= minVramMib && !p.inContainer
            && IsMinerProcess(p.cmdline);
          assert FoundOnGpu(p, minVramMib, onGpu);
        } else {
          var p :| p in host.table && p.pid == pid && IsMinerProcess(p.cmdline);
          assert FoundInTable(p, inTable);
        }
      }
      var j :| 0 <= j < |raw| && raw[j] == f;
    }
  }

  lemma NoMinerIsNameless()
    ensures !IsMinerProcess("")
  {
  }

  /** Deduplication forgets no pid that is to be killed. */
  lemma DedupKeepsDoomed(findings: seq<Finding>, deduped: seq<Finding>, pid: int)
    requires SameKeys(findings, deduped)
    ensures Doomed(findings, |findings|, pid) <==> Doomed(deduped, |deduped|, pid)
  {
    if Doomed(findings, |findings|, pid) {
      var i :| 0 <= i < |findings| && IsKnownMiner(findings[i]) && findings[i].pid == Some(pid);
      assert findings[i] in findings;
      var g :| g in deduped && Key(g) == Key(findings[i]);
      KeyIff(g, findings[i]);
      var j :| 0 <= j < |deduped| && deduped[j] == g;
      assert IsKnownMiner(deduped[j]) && deduped[j].pid == Some(pid);
    }
    if Doomed(deduped, |deduped|, pid) {
      var j :| 0 <= j < |deduped| && IsKnownMiner(deduped[j]) && deduped[j].pid == Some(pid);
      assert deduped[j] in findings;
      var i :| 0 <= i < |findings| && findings[i] == deduped[j];
    }
  }

  method KillMiners(findings: seq<Finding>, kill: bool, killable: set<int>) returns (killed: seq<int>)
    ensures forall pid :: pid in killed <==> kill && pid != 0 && pid in killable && Doomed(findings, |findings|, pid)
    ensures killed != [] ==> Warrants(findings)
  {
    killed := [];
    if kill {
      for i := 0 to |findings|
        invariant forall pid :: pid in killed <==> pid != 0 && pid in killable && Doomed(findings, i, pid)
      {
        var f := findings[i];
        assert forall pid ::
          Doomed(findings, i + 1, pid) <==> Doomed(findings, i, pid) || (IsKnownMiner(f) && f.pid == Some(pid));
        if IsKnownMiner(f) && f.pid.Some? && f.pid.value != 0 && f.pid.value in killable {
          killed := killed + [f.pid.value];
        }
      }
      if killed != [] {
        assert killed[0] in killed;
        assert Doomed(findings, |findings|, killed[0]);
        var j :| 0 <= j < |findings| && IsKnownMiner(findings[j]);
        assert Damning(findings[j]);
      }
    }
  }

  /**
   * The sweep: every distinct finding once; with `kill`, exactly the killable miners that a completed scan saw
   * are killed; the verdict is exactly the evidence, whatever was killed.
   */
  method RunHostMinerSweep(host: Host, kill: bool, minVramMib: int, killable: set<int>)
    returns (findings: seq<Finding>, killed: seq<int>, quarantine: bool)
    ensures SameKeys(Raw(host, minVramMib), findings)
    ensures exists kept :: KeepsFirsts(Raw(host, minVramMib), findings, kept)
    ensures forall pid :: Doomed(findings, |findings|, pid) <==> MinerSeen(host, minVramMib, pid)
    ensures forall pid :: pid in killed <==> kill && pid != 0 && pid in killable && MinerSeen(host, minVramMib, pid)
    ensures killed != [] ==> Warrants(findings)
    ensures quarantine <==> Evidence(host, minVramMib)
  {
    var raw := ScanAll(host, minVramMib);
    findings := Dedup(raw);
    killed := KillMiners(findings, kill, killable);
    forall f | f in raw
      ensures ByScan(f)
    {
      RawByScan(host, minVramMib, f);
    }
    DedupKeepsVerdict(raw, findings);
    RawWarrantsIffEvidence(host, minVramMib);
    forall pid
      ensures Doomed(findings, |findings|, pid) <==> MinerSeen(host, minVramMib, pid)
    {
      DedupKeepsDoomed(raw, findings, pid);
      DoomedIfSeen(host, minVramMib, pid);
    }
    var warranted := FindingsWarrantQuarantine(findings);
    quarantine := warranted || killed != [];
  }
}
