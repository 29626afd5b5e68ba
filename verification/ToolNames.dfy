/**
 The tool surface of an agent run: host tool names are mapped to names the
 provider accepts, kept apart from each other and from the injected tools, and
 routed back to the connection and tool they stand for.
 */
module ToolNames {
  import opened Options
  import opened Digits
  import opened Sets

  type Name = string

  const MAX_NAME := 128

  const RESERVED: set<Name> := {"final_answer", "spill_read", "await_human"}

  predicate Allowed(c: char) {
    'a' <= c <= 'z' || 'A' <= c <= 'Z' || '0' <= c <= '9' || c == '_' || c == '-'
  }

  /** The provider rule: one to 128 characters, all allowed. */
  predicate IsValid(name: Name) {
    1 <= |name| <= MAX_NAME && forall i | 0 <= i < |name| :: Allowed(name[i])
  }

  /** Where a call goes. */
  datatype Route = Route(connection: string, tool: Name)

  // ----- decimal suffixes -----

  /** The number spelled by the trailing digits of a name. */
  ghost function TrailingNumber(s: string): nat {
    if s == [] || !IsDigit(s[|s| - 1]) then 0
    else 10 * TrailingNumber(s[..|s| - 1]) + (s[|s| - 1] as int - '0' as int)
  }

  /** After anything that does not end in a digit, a decimal reads back as its number. */
  lemma {:induction false} DecimalReadsBack(before: string, n: nat)
    requires before == [] || !IsDigit(before[|before| - 1])
    ensures TrailingNumber(before + Decimal(n)) == n
  {
    var s := before + Decimal(n);
    if n >= 10 {
      DecimalReadsBack(before, n / 10);
      assert s[..|s| - 1] == before + Decimal(n / 10);
    } else {
      assert s[..|s| - 1] == before;
    }
  }

  // ----- candidates -----

  function Clean(tool: Name): (r: Name)
    ensures |r| == |tool| && forall i | 0 <= i < |r| :: Allowed(r[i])
    ensures forall i | 0 <= i < |r| :: if Allowed(tool[i]) then r[i] == tool[i] else r[i] == '_'
  {
    if tool == [] then [] else [if Allowed(tool[0]) then tool[0] else '_'] + Clean(tool[1..])
  }

  function Truncate(s: Name, n: nat): Name {
    if |s| <= n then s else s[..n]
  }

  /** The name before disambiguation: the tool's, character by character, as far as it goes. */
  function BaseName(tool: Name): (r: Name)
    ensures IsValid(r)
    ensures IsValid(tool) ==> r == tool
    ensures tool != [] ==> |r| == if |tool| <= MAX_NAME then |tool| else MAX_NAME
    ensures tool != [] ==> forall i | 0 <= i < |r| :: if Allowed(tool[i]) then r[i] == tool[i] else r[i] == '_'
  {
    Truncate(if tool == [] then "tool" else Clean(tool), MAX_NAME)
  }

  function Suffix(i: nat): (r: string)
    ensures |r| >= 2 && forall k | 0 <= k < |r| :: Allowed(r[k])
  {
    "_" + Decimal(i)
  }

  function Candidate(base: Name, i: nat): Name
    requires |Suffix(i)| <= MAX_NAME
  {
    Truncate(base, MAX_NAME - |Suffix(i)|) + Suffix(i)
  }

  /** The counter of the suffix search is a 32-bit signed integer. */
  const MAX_SUFFIX: nat := 0x7fff_ffff

  lemma SuffixFits(i: nat)
    requires i <= MAX_SUFFIX
    ensures |Suffix(i)| <= 11
  {
    assert Power10(10) == 10_000_000_000 by {
      assert Power10(5) == 100_000;
      assert Power10(6) == 1_000_000;
      assert Power10(7) == 10_000_000;
      assert Power10(8) == 100_000_000;
      assert Power10(9) == 1_000_000_000;
    }
    DecimalLength(i, 10);
  }

  lemma CandidateIsValid(base: Name, i: nat)
    requires IsValid(base) && |Suffix(i)| <= MAX_NAME
    ensures IsValid(Candidate(base, i))
  {
  }

  /** The suffix can be read off a candidate, however the base was cut; so different suffixes give different candidates. */
  lemma CandidateReadsBack(base: Name, i: nat)
    requires |Suffix(i)| <= MAX_NAME
    ensures TrailingNumber(Candidate(base, i)) == i
  {
    var cut := Truncate(base, MAX_NAME - |Suffix(i)|);
    assert Candidate(base, i) == (cut + "_") + Decimal(i);
    DecimalReadsBack(cut + "_", i);
  }

  /** A candidate is the base, cut only as far as it must be, an underscore and the number. */
  lemma CandidateKeepsBase(base: Name, i: nat) returns (cut: nat)
    requires |Suffix(i)| <= MAX_NAME && |base| <= MAX_NAME
    ensures cut <= |base| && Candidate(base, i) == base[..cut] + "_" + Decimal(i)
    ensures cut == |base| || |Candidate(base, i)| == MAX_NAME
  {
    cut := |Truncate(base, MAX_NAME - |Suffix(i)|)|;
    assert Candidate(base, i) == base[..cut] + ("_" + Decimal(i));
    assert base[..cut] + ("_" + Decimal(i)) == base[..cut] + "_" + Decimal(i);
  }

  // ----- choosing a name -----

  /** The name is the base if that is free, else the first of its numbered candidates that is. */
  ghost predicate FirstFree(base: Name, taken: map<Name, Route>, name: Name) {
    if Free(base, taken) then name == base else FirstCandidate(base, taken, name)
  }

  ghost predicate FirstCandidate(base: Name, taken: map<Name, Route>, name: Name) {
    exists n {:trigger IsCandidate(base, n, name)} :: IsCandidate(base, n, name) && NoneFree(base, taken, n)
  }

  predicate IsCandidate(base: Name, n: nat, name: Name) {
    2 <= n && |Suffix(n)| <= MAX_NAME && name == Candidate(base, n)
  }

  predicate BusyAt(base: Name, taken: map<Name, Route>, i: nat) {
    |Suffix(i)| <= MAX_NAME ==> !Free(Candidate(base, i), taken)
  }

  ghost predicate NoneFree(base: Name, taken: map<Name, Route>, n: nat) {
    forall i {:trigger BusyAt(base, taken, i)} | 2 <= i < n :: BusyAt(base, taken, i)
  }

  predicate Free(name: Name, taken: map<Name, Route>) {
    name !in RESERVED && name !in taken
  }

  /**
   Choose an exposed name for `tool` that is valid, not reserved and not taken;
   a valid free name is kept as it is. The suffix search stops because every
   rejected candidate is a different taken name; it has no name only if the
   counter runs out first, over more than two thousand million taken names.
   */
  method Sanitize(tool: Name, taken: map<Name, Route>) returns (name: Option<Name>)
    ensures name.Some? ==> IsValid(name.value) && Free(name.value, taken)
    ensures name.Some? ==> FirstFree(BaseName(tool), taken, name.value)
    ensures IsValid(tool) && Free(tool, taken) ==> name == Some(tool)
    ensures name.None? ==> |taken| + 5 >= MAX_SUFFIX
  {
    var base := BaseName(tool);
    if Free(base, taken) {
      return Some(base);
    }
    name := FreeCandidate(base, taken);
  }

  /** Try `base_2`, `base_3`, ... until one is free. */
  method FreeCandidate(base: Name, taken: map<Name, Route>) returns (name: Option<Name>)
    requires IsValid(base)
    ensures name.Some? ==> IsValid(name.value) && Free(name.value, taken) && FirstCandidate(base, taken, name.value)
    ensures name.None? ==> |taken| + 5 >= MAX_SUFFIX
  {
    ghost var refused: set<Name> := {};
    var i := 2;
    while i < MAX_SUFFIX
      invariant 2 <= i <= MAX_SUFFIX && RefusedUpTo(refused, taken, i) && NoneFree(base, taken, i)
    {
      SuffixFits(i);
      var candidate := Candidate(base, i);
      CandidateIsValid(base, i);
      TriedUpTo(base, taken, i);
      if Free(candidate, taken) {
        return Some(candidate);
      }
      CandidateReadsBack(base, i);
      RefuseOneMore(refused, taken, i, candidate);
      refused := refused + {candidate};
      i := i + 1;
    }
    BusySize(taken);
    SubsetFits(refused, RESERVED + taken.Keys);
    name := None;
  }

  /** As many names were refused as numbers tried, each a busy one that ends in a number tried. */
  ghost predicate RefusedUpTo(refused: set<Name>, taken: map<Name, Route>, i: nat) {
    && i == |refused| + 2 && refused <= RESERVED + taken.Keys
    && forall c | c in refused :: TrailingNumber(c) < i
  }

  lemma RefuseOneMore(refused: set<Name>, taken: map<Name, Route>, i: nat, candidate: Name)
    requires RefusedUpTo(refused, taken, i) && !Free(candidate, taken) && TrailingNumber(candidate) == i
    ensures RefusedUpTo(refused + {candidate}, taken, i + 1)
  {
    assert candidate !in refused;
  }

  lemma TriedUpTo(base: Name, taken: map<Name, Route>, i: nat)
    requires 2 <= i && |Suffix(i)| <= MAX_NAME && NoneFree(base, taken, i)
    ensures FirstCandidate(base, taken, Candidate(base, i))
    ensures !Free(Candidate(base, i), taken) ==> NoneFree(base, taken, i + 1)
  {
    assert IsCandidate(base, i, Candidate(base, i));
    if !Free(Candidate(base, i), taken) {
      assert BusyAt(base, taken, i);
    }
  }

  lemma BusySize(taken: map<Name, Route>)
    ensures |RESERVED + taken.Keys| <= |taken| + 3
  {
    assert |taken.Keys| == |taken|;
    assert |RESERVED + taken.Keys| <= |RESERVED| + |taken.Keys|;
  }

  // ----- the whole tool list -----

  datatype HostTool = HostTool(tool: Name, connection: string)

  /** Tool `k` is exposed under a valid, unreserved name that routes back to it. */
  ghost predicate Exposes(listed: seq<HostTool>, exposed: seq<Name>, routes: map<Name, Route>, k: nat)
    requires k < |exposed| && k < |listed|
  {
    && IsValid(exposed[k]) && exposed[k] !in RESERVED
    && exposed[k] in routes && routes[exposed[k]] == Route(listed[k].connection, listed[k].tool)
  }

  ghost predicate Distinct(names: seq<Name>) {
    forall j, k | 0 <= j < k < |names| :: names[j] != names[k]
  }

  /** The first `n` host tools are exposed under distinct names, each routing to its own tool. */
  ghost predicate ExposesAll(listed: seq<HostTool>, exposed: seq<Name>, routes: map<Name, Route>, n: nat) {
    && |exposed| == |routes| == n <= |listed| && Distinct(exposed)
    && forall k {:trigger Exposes(listed, exposed, routes, k)} | 0 <= k < n :: Exposes(listed, exposed, routes, k)
  }

  lemma ExposeOneMore(listed: seq<HostTool>, exposed: seq<Name>, routes: map<Name, Route>, n: nat, name: Name)
    requires n < |listed| && ExposesAll(listed, exposed, routes, n) && IsValid(name) && Free(name, routes)
    ensures ExposesAll(listed, exposed + [name], routes[name := Route(listed[n].connection, listed[n].tool)], n + 1)
  {
    var exposed', routes' := exposed + [name], routes[name := Route(listed[n].connection, listed[n].tool)];
    forall k | 0 <= k < n + 1 ensures Exposes(listed, exposed', routes', k) && (k < n ==> exposed'[k] != name) {
      assert k < n ==> Exposes(listed, exposed, routes, k);
    }
  }

  /**
   Expose every host tool, in order: exposed names are pairwise distinct, valid
   and never reserved, and each routes to its own connection and real name.
   */
  method ExposeTools(listed: seq<HostTool>) returns (exposed: seq<Name>, routes: map<Name, Route>, ok: bool)
    ensures ok ==> ExposesAll(listed, exposed, routes, |listed|)
    ensures !ok ==> |listed| + 5 > MAX_SUFFIX
  {
    exposed, routes := [], map[];
    var i := 0;
    while i < |listed|
      invariant 0 <= i <= |listed| && ExposesAll(listed, exposed, routes, i)
    {
      var name := Sanitize(listed[i].tool, routes);
      if name.None? {
        return exposed, routes, false;
      }
      ExposeOneMore(listed, exposed, routes, i, name.value);
      exposed := exposed + [name.value];
      routes := routes[name.value := Route(listed[i].connection, listed[i].tool)];
      i := i + 1;
    }
    ok := true;
  }

  /** How preparing the tools ends: ready, refused by the final guard, or out of suffixes. */
  datatype Prepared = Ready | InvalidName | OutOfSuffixes

  /** The guard over host and injected names never refuses what `ExposeTools` built. */
  method PrepareTools(listed: seq<HostTool>) returns (exposed: seq<Name>, routes: map<Name, Route>, r: Prepared)
    ensures r.Ready? ==> ExposesAll(listed, exposed, routes, |listed|)
    ensures !r.InvalidName?
    ensures r.OutOfSuffixes? ==> |listed| + 5 > MAX_SUFFIX
  {
    var ok;
    exposed, routes, ok := ExposeTools(listed);
    if !ok {
      r := OutOfSuffixes;
    } else {
      InjectedNamesAreValid();
      forall n | n in exposed ensures IsValid(n) {
        var k :| 0 <= k < |exposed| && exposed[k] == n;
        assert Exposes(listed, exposed, routes, k);
      }
      r := if (exists n | n in exposed :: !IsValid(n)) || (exists n | n in RESERVED :: !IsValid(n)) then InvalidName
           else Ready;
    }
  }

  lemma InjectedNamesAreValid()
    ensures forall n | n in RESERVED :: IsValid(n)
  {
    assert IsValid("final_answer");
    assert IsValid("spill_read");
    assert IsValid("await_human");
  }
}
