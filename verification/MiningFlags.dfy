/**
 * The flag list of backend/installers/mining_guard.py: which flags hold others, and so when its rules about
 * one flag and two really ask for that many.
 */
module MiningFlags {
  import opened Options
  import opened Text
  import opened MiningGuard

  // ---- Counting hits ----

  lemma {:induction false} SomeHit(text: string, patterns: seq<string>)
    ensures Hits(text, patterns) >= 1 <==> HasAny(text, patterns)
  {
    if patterns != [] {
      SomeHit(text, patterns[1..]);
      assert HasAny(text, patterns) <==> Contains(text, patterns[0]) || HasAny(text, patterns[1..]) by {
        HasAnyTail(text, patterns);
      }
    }
  }

  lemma HasAnyTail(text: string, patterns: seq<string>)
    requires patterns != []
    ensures HasAny(text, patterns) <==> Contains(text, patterns[0]) || HasAny(text, patterns[1..])
  {
    var rest := patterns[1..];
    assert forall k :: 0 <= k < |rest| ==> rest[k] == patterns[k + 1];
    if HasAny(text, patterns) && !Contains(text, patterns[0]) {
      var k :| 0 <= k < |patterns| && Contains(text, patterns[k]);
      assert rest[k - 1] == patterns[k];
    }
  }

  /** Two different places of the list both occur. */
  ghost predicate HasTwo(text: string, patterns: seq<string>) {
    exists i, j :: 0 <= i < j < |patterns| && Contains(text, patterns[i]) && Contains(text, patterns[j])
  }

  lemma HasTwoTail(text: string, patterns: seq<string>)
    requires patterns != []
    ensures HasTwo(text, patterns)
        <==> HasTwo(text, patterns[1..]) || (Contains(text, patterns[0]) && HasAny(text, patterns[1..]))
  {
    hide Contains;
    var rest := patterns[1..];
    assert forall k :: 0 <= k < |rest| ==> rest[k] == patterns[k + 1];
    if HasTwo(text, patterns) {
      var i, j :| 0 <= i < j < |patterns| && Contains(text, patterns[i]) && Contains(text, patterns[j]);
      assert rest[j - 1] == patterns[j];
      assert i > 0 ==> rest[i - 1] == patterns[i];
    }
    if HasTwo(text, rest) {
      var i, j :| 0 <= i < j < |rest| && Contains(text, rest[i]) && Contains(text, rest[j]);
      assert patterns[i + 1] == rest[i] && patterns[j + 1] == rest[j];
    }
    if Contains(text, patterns[0]) && HasAny(text, rest) {
      var k :| 0 <= k < |rest| && Contains(text, rest[k]);
      assert patterns[k + 1] == rest[k];
    }
  }

  lemma {:induction false} TwoHits(text: string, patterns: seq<string>)
    ensures Hits(text, patterns) >= 2 <==> HasTwo(text, patterns)
  {
    hide Contains, HasTwo, HasAny;
    if patterns == [] {
      NoTwo(text);
    } else {
      TwoHits(text, patterns[1..]);
      SomeHit(text, patterns[1..]);
      HasTwoTail(text, patterns);
    }
  }

  lemma NoTwo(text: string)
    ensures !HasTwo(text, [])
  {
  }

  // ---- Flags inside flags ----

  /** The flags that have another of the flags inside them. */
  const DOUBLED := ["--algorithm", "stratum+tcp://", "stratum+ssl://", "-o stratum+tcp", "-o stratum+ssl"]

  /**
   * One or two letters of every flag, each pair in no flag outside DOUBLED but its own; `-o stratum` also has
   * those of `--stratum`.
   */
  predicate OnlyOwnLetters(p: string, i: nat) {
    var own :=
      && 'h' !in p && '/' !in p && ('w' in p ==> i == 2) && ('d' in p ==> i == 4) && ('n' in p ==> i == 6)
      && (' ' in p ==> i == 14 && '+' !in p) && ('+' in p && 'c' in p ==> i == 7) && ('+' in p && 'l' in p ==> i == 8)
      && ('l' in p && 'p' in p ==> i == 1) && ('-' in p && 'm' in p ==> i == 3 || i == 14)
      && ('c' in p && 'i' in p ==> i == 5) && ('a' in p && 'g' in p ==> i == 11)
      && ('s' in p && 'y' in p ==> i == 12) && ('=' in p && 'e' in p ==> i == 13);
    own
  }

  lemma PoolLetters() ensures OnlyOwnLetters(MINING_FLAGS[1], 1) {}
  lemma WalletLetters() ensures OnlyOwnLetters(MINING_FLAGS[2], 2) {}
  lemma StratumLetters() ensures OnlyOwnLetters(MINING_FLAGS[3], 3) {}
  lemma RigIdLetters() ensures OnlyOwnLetters(MINING_FLAGS[4], 4) {}
  lemma CpuPriorityLetters() ensures OnlyOwnLetters(MINING_FLAGS[5], 5) {}
  lemma NoCpuLetters() ensures OnlyOwnLetters(MINING_FLAGS[6], 6) {}
  lemma TcpSchemeLetters() ensures OnlyOwnLetters(MINING_FLAGS[7], 7) {}
  lemma SslSchemeLetters() ensures OnlyOwnLetters(MINING_FLAGS[8], 8) {}
  lemma AlgoLetters() ensures OnlyOwnLetters(MINING_FLAGS[11], 11) {}
  lemma UrlLetters() ensures OnlyOwnLetters(MINING_FLAGS[12], 12) {}
  lemma UserLetters() ensures OnlyOwnLetters(MINING_FLAGS[13], 13) {}
  lemma OverStratumLetters() ensures OnlyOwnLetters(MINING_FLAGS[14], 14) {}

  lemma DoubledPlaces(i: nat)
    requires i in {0, 9, 10, 15, 16}
    ensures i < |MINING_FLAGS| && MINING_FLAGS[i] in DOUBLED
  {
  }

  lemma PlainFlagLetters(i: nat)
    requires i < |MINING_FLAGS| && i !in {0, 9, 10, 15, 16}
    ensures OnlyOwnLetters(MINING_FLAGS[i], i)
  {
    hide OnlyOwnLetters;
    match i {
      case 1 => PoolLetters();
      case 2 => WalletLetters();
      case 3 => StratumLetters();
      case 4 => RigIdLetters();
      case 5 => CpuPriorityLetters();
      case 6 => NoCpuLetters();
      case 7 => TcpSchemeLetters();
      case 8 => SslSchemeLetters();
      case 11 => AlgoLetters();
      case 12 => UrlLetters();
      case 13 => UserLetters();
      case _ => OverStratumLetters();
    }
  }

  predicate HasOwnLetters(q: string, j: nat) {
    && (j == 0 ==> 'h' in q) && (j == 9 || j == 10 ==> '/' in q) && (j == 15 || j == 16 ==> ' ' in q && '+' in q)
    && (j == 1 ==> 'l' in q && 'p' in q) && (j == 2 ==> 'w' in q) && (j == 3 ==> '-' in q && 'm' in q)
    && (j == 4 ==> 'd' in q) && (j == 5 ==> 'c' in q && 'i' in q) && (j == 6 ==> 'n' in q)
    && (j == 7 ==> '+' in q && 'c' in q) && (j == 8 ==> '+' in q && 'l' in q) && (j == 11 ==> 'a' in q && 'g' in q)
    && (j == 12 ==> 's' in q && 'y' in q) && (j == 13 ==> '=' in q && 'e' in q) && (j == 14 ==> ' ' in q)
  }

  lemma FlagLetters(j: nat)
    requires j < |MINING_FLAGS|
    ensures HasOwnLetters(MINING_FLAGS[j], j)
  {
  }

  lemma LettersDecide(p: string, i: nat, q: string, j: nat)
    requires OnlyOwnLetters(p, i) && HasOwnLetters(q, j) && j < 17 && forall c <- q :: c in p
    ensures i == j || (i == 14 && j == 3)
  {
  }

  lemma DashesApart()
    ensures !Contains("-o stratum", "--stratum")
  {
    var text, flag := "-o stratum", "--stratum";
    forall i | 0 <= i <= |text|
      ensures !(flag <= text[i..])
    {
      if i <= 1 {
        assert text[i..][1 - i] == 'o' && flag[1 - i] == '-';
      }
    }
  }

  /** A flag outside DOUBLED has no other flag inside it. */
  lemma PlainFlagStandsAlone(i: nat, j: nat)
    requires i < |MINING_FLAGS| && j < |MINING_FLAGS| && MINING_FLAGS[i] !in DOUBLED
    ensures Contains(MINING_FLAGS[i], MINING_FLAGS[j]) ==> i == j
  {
    if Contains(MINING_FLAGS[i], MINING_FLAGS[j]) {
      if i in {0, 9, 10, 15, 16} {
        DoubledPlaces(i);
      }
      PlainFlagLetters(i);
      FlagLetters(j);
      forall c <- MINING_FLAGS[j]
        ensures c in MINING_FLAGS[i]
      {
        ContainsLetters(MINING_FLAGS[i], MINING_FLAGS[j], c);
      }
      LettersDecide(MINING_FLAGS[i], i, MINING_FLAGS[j], j);
      DashesApart();
    }
  }

  /** And each flag of DOUBLED has one, at its start. */
  lemma DoubledHoldsAnother(flag: string) returns (i: nat, j: nat)
    requires flag in DOUBLED
    ensures i < |MINING_FLAGS| && j < |MINING_FLAGS| && i != j
    ensures MINING_FLAGS[i] == flag && Contains(flag, MINING_FLAGS[j])
  {
    var (of, inner) := if flag == "--algorithm" then (0, 11) else if flag == "stratum+tcp://" then (9, 7)
                       else if flag == "stratum+ssl://" then (10, 8) else if flag == "-o stratum+tcp" then (15, 14)
                       else (16, 14);
    assert flag[0..] == flag && MINING_FLAGS[inner] <= flag[0..];
    return of, inner;
  }

  /** Two listed flags, neither inside the other, both occur. */
  ghost predicate TwoSeparateFlags(low: string) {
    exists i, j :: 0 <= i < j < |MINING_FLAGS| && Contains(low, MINING_FLAGS[i]) && Contains(low, MINING_FLAGS[j])
      && !Contains(MINING_FLAGS[i], MINING_FLAGS[j]) && !Contains(MINING_FLAGS[j], MINING_FLAGS[i])
  }

  /**
   * Exactly when "at least two mining flags" is satisfied: two separate ones occur, or a single one of those
   * that are counted again as the flag inside them.
   */
  lemma TwoFlagsIff(cmdline: string)
    ensures MiningFlagCount(cmdline) >= 2 <==> TwoSeparateFlags(Lower(cmdline)) || HasAny(Lower(cmdline), DOUBLED)
  {
    var low := Lower(cmdline);
    TwoHits(low, MINING_FLAGS);
    hide Contains, Lower;
    if HasTwo(low, MINING_FLAGS) {
      var i, j :| 0 <= i < j < |MINING_FLAGS| && Contains(low, MINING_FLAGS[i]) && Contains(low, MINING_FLAGS[j]);
      if MINING_FLAGS[i] in DOUBLED {
        AnyOf(low, DOUBLED, MINING_FLAGS[i]);
      } else if MINING_FLAGS[j] in DOUBLED {
        AnyOf(low, DOUBLED, MINING_FLAGS[j]);
      } else {
        PlainFlagStandsAlone(i, j);
        PlainFlagStandsAlone(j, i);
      }
    }
    if HasAny(low, DOUBLED) {
      var k :| 0 <= k < |DOUBLED| && Contains(low, DOUBLED[k]);
      var i, j := DoubledHoldsAnother(DOUBLED[k]);
      ContainsTransitive(low, DOUBLED[k], MINING_FLAGS[j]);
    }
  }

  lemma AnyOf(text: string, patterns: seq<string>, p: string)
    requires p in patterns && Contains(text, p)
    ensures HasAny(text, patterns)
  {
  }

  /** All but one of them hold the weak token `stratum` as well. */
  lemma DoubledIsWeak(flag: string)
    requires flag in DOUBLED && flag != "--algorithm"
    ensures Contains(flag, "stratum") && "stratum" in WEAK_MINER_TOKENS && flag in MINING_FLAGS
  {
    assert WEAK_MINER_TOKENS[0] == "stratum";
    var i, _ := DoubledHoldsAnother(flag);
    if flag == "stratum+tcp://" || flag == "stratum+ssl://" {
      assert "stratum" <= flag[0..];
    } else {
      assert "stratum" <= flag[3..];
    }
  }

  /** So of a miner's verdict the double counting changes only that of `--algorithm`. */
  lemma MinerIff(cmdline: string)
    ensures var low := Lower(cmdline);
      cmdline != "" ==>
        (IsMinerProcess(cmdline) <==>
          || HasAny(low, DEFINITE_MINER_PATTERNS) || TwoSeparateFlags(low) || Contains(low, "--algorithm")
          || (HasAny(low, WEAK_MINER_TOKENS) && HasAny(low, MINING_FLAGS)))
  {
    var low := Lower(cmdline);
    TwoFlagsIff(cmdline);
    SomeHit(low, MINING_FLAGS);
    hide Contains, Lower, TwoSeparateFlags;
    if HasAny(low, DOUBLED) {
      var k :| 0 <= k < |DOUBLED| && Contains(low, DOUBLED[k]);
      if DOUBLED[k] != "--algorithm" {
        DoubledIsWeak(DOUBLED[k]);
        ContainsTransitive(low, DOUBLED[k], "stratum");
        AnyOf(low, WEAK_MINER_TOKENS, "stratum");
        AnyOf(low, MINING_FLAGS, DOUBLED[k]);
      }
    }
    if Contains(low, "--algorithm") {
      AnyOf(low, DOUBLED, "--algorithm");
    }
  }

  /** One `--algorithm` and nothing else makes a miner: it is counted again as `--algo`. */
  lemma AlgorithmFlagAloneIsAMiner(before: string, after: string)
    ensures IsMinerProcess(before + "--algorithm" + after)
  {
    var flag := "--algorithm";
    var text := before + flag + after;
    assert Lower(text) == Lower(before) + flag + Lower(after);
    assert Lower(text)[|before|..][..|flag|] == flag;
    MinerIff(text);
  }

  /** And every other flag of DOUBLED is counted twice too, wherever it stands. */
  lemma DoubledFlagCountsTwice(before: string, flag: string, after: string)
    requires flag in DOUBLED
    ensures MiningFlagCount(before + flag + after) >= 2
  {
    var text := before + flag + after;
    DoubledIsLower(flag);
    assert Lower(text) == Lower(before) + flag + Lower(after);
    assert flag[0..] == flag;
    ContainsWithin(Lower(before), flag, Lower(after), flag);
    AnyOf(Lower(text), DOUBLED, flag);
    TwoFlagsIff(text);
  }

  lemma DoubledIsLower(flag: string)
    requires flag in DOUBLED
    ensures Lower(flag) == flag
  {
  }

  // ---- One flag by itself ----

  /** Letters of every miner's name and weak token, and of none of the flags in question. */
  predicate Suspicious(text: string) {
    || 'm' in text || 'x' in text || 'h' in text || 'b' in text || 'f' in text || 'k' in text
    || ('c' in text && 's' in text) || ('g' in text && 'w' in text) || ('d' in text && 'n' in text)
    || ('a' in text && 'n' in text)
  }

  /** The same for `--algorithm`. */
  predicate SuspiciousBesideAlgorithm(text: string) {
    'e' in text || 'p' in text || 's' in text || 'u' in text || 'x' in text
  }

  /** And, for the names, for `-o stratum`. */
  predicate SuspiciousBesideStratum(text: string) {
    'e' in text || 'h' in text || 'x' in text
  }

  lemma NamesAreSuspicious(k: nat)
    requires k < |DEFINITE_MINER_PATTERNS|
    ensures Suspicious(DEFINITE_MINER_PATTERNS[k]) && SuspiciousBesideAlgorithm(DEFINITE_MINER_PATTERNS[k])
    ensures SuspiciousBesideStratum(DEFINITE_MINER_PATTERNS[k])
  {
  }

  lemma TokensAreSuspicious(k: nat)
    requires k < |WEAK_MINER_TOKENS|
    ensures Suspicious(WEAK_MINER_TOKENS[k]) && SuspiciousBesideAlgorithm(WEAK_MINER_TOKENS[k])
  {
  }

  lemma PlainFlagsUnsuspicious(i: nat)
    requires i in {1, 2, 4, 5, 6, 11, 12, 13}
    ensures !Suspicious(MINING_FLAGS[i])
  {
  }

  lemma SuspicionSpreads(p: string, q: string)
    requires Contains(p, q)
    ensures Suspicious(q) ==> Suspicious(p)
    ensures SuspiciousBesideAlgorithm(q) ==> SuspiciousBesideAlgorithm(p)
    ensures SuspiciousBesideStratum(q) ==> SuspiciousBesideStratum(p)
  {
    forall c <- q
      ensures c in p
    {
      ContainsLetters(p, q, c);
    }
  }

  /** None of the names and tokens occurs in a text without their letters. */
  lemma UnsuspiciousHasNone(p: string)
    ensures !Suspicious(p) || !SuspiciousBesideAlgorithm(p) || !SuspiciousBesideStratum(p) ==>
      !HasAny(p, DEFINITE_MINER_PATTERNS)
    ensures !Suspicious(p) || !SuspiciousBesideAlgorithm(p) ==> !HasAny(p, WEAK_MINER_TOKENS)
  {
    hide Suspicious, SuspiciousBesideAlgorithm, SuspiciousBesideStratum, Contains;
    forall k | 0 <= k < |DEFINITE_MINER_PATTERNS|
      ensures Contains(p, DEFINITE_MINER_PATTERNS[k]) ==>
        Suspicious(p) && SuspiciousBesideAlgorithm(p) && SuspiciousBesideStratum(p)
    {
      NamesAreSuspicious(k);
      if Contains(p, DEFINITE_MINER_PATTERNS[k]) {
        SuspicionSpreads(p, DEFINITE_MINER_PATTERNS[k]);
      }
    }
    forall k | 0 <= k < |WEAK_MINER_TOKENS|
      ensures Contains(p, WEAK_MINER_TOKENS[k]) ==> Suspicious(p) && SuspiciousBesideAlgorithm(p)
    {
      TokensAreSuspicious(k);
      if Contains(p, WEAK_MINER_TOKENS[k]) {
        SuspicionSpreads(p, WEAK_MINER_TOKENS[k]);
      }
    }
  }

  /** The flags with the weak token in them. */
  lemma StratumFlags(i: nat)
    requires i in {3, 7, 8, 9, 10, 14, 15, 16}
    ensures Contains(MINING_FLAGS[i], "stratum")
  {
    var at := if i == 3 then 2 else if i >= 14 then 3 else 0;
    assert "stratum" <= MINING_FLAGS[i][at..];
  }

  lemma FlagIsLower(i: nat)
    requires i < |MINING_FLAGS|
    ensures Lower(MINING_FLAGS[i]) == MINING_FLAGS[i] && MINING_FLAGS[i] != ""
  {
  }

  /** A flag outside DOUBLED holds no two separate flags and none of DOUBLED. */
  lemma PlainFlagCountsOnce(i: nat)
    requires i < |MINING_FLAGS| && MINING_FLAGS[i] !in DOUBLED
    ensures !TwoSeparateFlags(MINING_FLAGS[i]) && !HasAny(MINING_FLAGS[i], DOUBLED)
  {
    hide Contains;
    forall j | 0 <= j < |MINING_FLAGS|
      ensures Contains(MINING_FLAGS[i], MINING_FLAGS[j]) ==> i == j
    {
      PlainFlagStandsAlone(i, j);
    }
    forall k | 0 <= k < |DOUBLED|
      ensures !Contains(MINING_FLAGS[i], DOUBLED[k])
    {
      var j, _ := DoubledHoldsAnother(DOUBLED[k]);
    }
  }

  lemma FlagPlaces(i: nat)
    requires i < |MINING_FLAGS|
    ensures MINING_FLAGS[i] in DOUBLED <==> i in {0, 9, 10, 15, 16}
    ensures MINING_FLAGS[i] == "--algorithm" <==> i == 0
    ensures MINING_FLAGS[i] == "-o stratum" <==> i == 14
  {
  }

  lemma NoStratum(i: nat)
    requires i in {0, 1, 2, 4, 5, 6, 11, 12, 13}
    ensures !HasAny(MINING_FLAGS[i], DEFINITE_MINER_PATTERNS) && !HasAny(MINING_FLAGS[i], WEAK_MINER_TOKENS)
    ensures !Contains(MINING_FLAGS[i], "stratum")
  {
    if i == 0 {
      assert !SuspiciousBesideAlgorithm("--algorithm");
    } else {
      PlainFlagsUnsuspicious(i);
    }
    UnsuspiciousHasNone(MINING_FLAGS[i]);
    assert WEAK_MINER_TOKENS[0] == "stratum";
  }

  /**
   * Which of the flags makes a miner by itself: `--algorithm`, and whatever holds "stratum", which is the flag
   * and the weak token at once.
   */
  lemma LoneFlagIff(i: nat)
    requires i < |MINING_FLAGS|
    ensures IsMinerProcess(MINING_FLAGS[i])
        <==> MINING_FLAGS[i] == "--algorithm" || Contains(MINING_FLAGS[i], "stratum")
  {
    var flag := MINING_FLAGS[i];
    FlagIsLower(i);
    FlagPlaces(i);
    MinerIff(flag);
    ContainsItself(flag);
    hide Contains, IsMinerProcess, Lower;
    if i in {3, 7, 8, 9, 10, 14, 15, 16} {
      StratumFlags(i);
      AnyOf(flag, WEAK_MINER_TOKENS, "stratum");
      AnyOf(flag, MINING_FLAGS, flag);
    } else {
      NoStratum(i);
      if i != 0 {
        PlainFlagCountsOnce(i);
        if Contains(flag, "--algorithm") {
          AnyOf(flag, DOUBLED, "--algorithm");
        }
      }
    }
  }

  lemma {:induction false} FirstHitFinds(low: string, patterns: seq<string>)
    ensures FirstHit(low, patterns).Some? <==> HasAny(low, patterns)
  {
    if patterns != [] {
      FirstHitFinds(low, patterns[1..]);
      HasAnyTail(low, patterns);
    }
  }

  /** The label a hit is given: its first listed name, else that two flags or a flag and a weak token occur. */
  lemma PersistenceLabel(body: string)
    requires PersistenceHitReason(body).Some?
    ensures var low, hit := Lower(body), PersistenceHitReason(body).value;
      || (exists k :: && 0 <= k < |DEFINITE_MINER_PATTERNS| && hit == DEFINITE_MINER_PATTERNS[k]
                      && Contains(low, DEFINITE_MINER_PATTERNS[k])
                      && forall i :: 0 <= i < k ==> !Contains(low, DEFINITE_MINER_PATTERNS[i]))
      || (!HasAny(low, DEFINITE_MINER_PATTERNS)
          && hit == if HasTwo(low, PERSISTENCE_FLAGS) then "mining_flags" else "weak_plus_flag")
  {
    hide Contains, Lower, HasAny, HasTwo, Hits;
    var low := Lower(body);
    FirstHitFinds(low, DEFINITE_MINER_PATTERNS);
    TwoHits(low, PERSISTENCE_FLAGS);
    if FirstHit(low, DEFINITE_MINER_PATTERNS).Some? {
      var k := FirstHitIs(low, DEFINITE_MINER_PATTERNS);
    }
  }

  lemma {:induction false} FirstHitIs(low: string, patterns: seq<string>) returns (k: nat)
    requires FirstHit(low, patterns).Some?
    ensures k < |patterns| && FirstHit(low, patterns) == Some(patterns[k]) && Contains(low, patterns[k])
    ensures forall i :: 0 <= i < k ==> !Contains(low, patterns[i])
  {
    if Contains(low, patterns[0]) {
      k := 0;
    } else {
      var rest := patterns[1..];
      k := FirstHitIs(low, rest);
      assert forall i :: 0 < i < |patterns| ==> patterns[i] == rest[i - 1];
      k := k + 1;
    }
  }

  /** A text is a persistence hit exactly with a definite name, two of the five flags, or one and a weak token. */
  lemma PersistenceHitIff(body: string)
    ensures var low := Lower(body);
      body != "" ==>
        (PersistenceHitReason(body).Some? <==>
          || HasAny(low, DEFINITE_MINER_PATTERNS) || HasTwo(low, PERSISTENCE_FLAGS)
          || (HasAny(low, WEAK_MINER_TOKENS) && HasAny(low, PERSISTENCE_FLAGS)))
  {
    hide Contains, Lower, HasAny, HasTwo;
    FirstHitFinds(Lower(body), DEFINITE_MINER_PATTERNS);
    TwoHits(Lower(body), PERSISTENCE_FLAGS);
    SomeHit(Lower(body), PERSISTENCE_FLAGS);
  }

  /** Where the persistence flags stand among the mining flags. */
  function PlaceOf(k: nat): nat {
    if k == 0 then 1 else if k == 1 then 3 else if k == 2 then 7 else if k == 3 then 8 else 2
  }

  lemma PersistenceFlagPlace(k: nat)
    requires k < |PERSISTENCE_FLAGS|
    ensures PlaceOf(k) < |MINING_FLAGS| && PERSISTENCE_FLAGS[k] == MINING_FLAGS[PlaceOf(k)]
  {
  }

  /** A flag outside DOUBLED holds a persistence flag only by being it. */
  lemma PlainFlagHoldsOnlyItself(i: nat)
    requires i < |MINING_FLAGS| && MINING_FLAGS[i] !in DOUBLED
    ensures !HasTwo(MINING_FLAGS[i], PERSISTENCE_FLAGS)
    ensures HasAny(MINING_FLAGS[i], PERSISTENCE_FLAGS) ==> i in {1, 2, 3, 7, 8}
  {
    hide Contains;
    forall k | 0 <= k < |PERSISTENCE_FLAGS|
      ensures Contains(MINING_FLAGS[i], PERSISTENCE_FLAGS[k]) ==> i == PlaceOf(k)
    {
      PersistenceFlagPlace(k);
      PlainFlagStandsAlone(i, PlaceOf(k));
    }
  }

  lemma AlgorithmHoldsNone()
    ensures !HasAny("--algorithm", PERSISTENCE_FLAGS) && !HasTwo("--algorithm", PERSISTENCE_FLAGS)
  {
    hide Contains;
    assert !SuspiciousBesideAlgorithm("--algorithm");
    forall k | 0 <= k < |PERSISTENCE_FLAGS|
      ensures !Contains("--algorithm", PERSISTENCE_FLAGS[k])
    {
      assert SuspiciousBesideAlgorithm(PERSISTENCE_FLAGS[k]);
      if Contains("--algorithm", PERSISTENCE_FLAGS[k]) {
        SuspicionSpreads("--algorithm", PERSISTENCE_FLAGS[k]);
      }
    }
  }

  lemma StratumSchemes(i: nat)
    requires i in {3, 7, 8, 9, 10, 15, 16}
    ensures HasAny(MINING_FLAGS[i], PERSISTENCE_FLAGS)
  {
    var k, at := if i == 3 then 1 else if i in {7, 9, 15} then 2 else 3, if i >= 15 then 3 else 0;
    assert PERSISTENCE_FLAGS[k] <= MINING_FLAGS[i][at..];
    assert Contains(MINING_FLAGS[i], PERSISTENCE_FLAGS[k]);
  }

  lemma StratumOptionNamesNone()
    ensures !HasAny("-o stratum", DEFINITE_MINER_PATTERNS)
  {
    assert !SuspiciousBesideStratum("-o stratum");
    UnsuspiciousHasNone("-o stratum");
  }

  /** Which of the flags is a persistence hit by itself: whatever holds "stratum", but for `-o stratum`. */
  lemma LonePersistenceFlagIff(i: nat)
    requires i < |MINING_FLAGS|
    ensures PersistenceHitReason(MINING_FLAGS[i]).Some?
       <==> Contains(MINING_FLAGS[i], "stratum") && MINING_FLAGS[i] != "-o stratum"
  {
    var flag := MINING_FLAGS[i];
    FlagIsLower(i);
    FlagPlaces(i);
    PersistenceHitIff(flag);
    hide Contains, PersistenceHitReason, Lower, HasTwo;
    if i in {3, 7, 8, 9, 10, 14, 15, 16} {
      StratumFlags(i);
      AnyOf(flag, WEAK_MINER_TOKENS, "stratum");
      if i == 14 {
        StratumOptionNamesNone();
        PlainFlagHoldsOnlyItself(i);
      } else {
        StratumSchemes(i);
      }
    } else {
      NoStratum(i);
      if i == 0 {
        AlgorithmHoldsNone();
      } else {
        PlainFlagHoldsOnlyItself(i);
      }
    }
  }
}
