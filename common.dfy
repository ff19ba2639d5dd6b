/** Shared vocabulary of the football-statistics model: failure-compatible
    wrappers, the match record that head-to-head and form lists carry, the
    dictionary look-ups with defaults that every component performs, and the
    small numeric helpers (sums, means, percentages) they share. */
module Common {

  datatype Option<T> = None | Some(value: T)

  /** A component either produces its result or an error marker, the
      dictionary `{"error": message}` of the original. */
  datatype Result<T> = Ok(value: T) | Err(message: string)

  /** One played match as the extractor records it. Scores are the
      non-negative integers read from the report. */
  datatype Match = Match(homeTeam: string, awayTeam: string, homeScore: nat, awayScore: nat)

  /** `stats` of one team: metric name -> venue ("home"/"away"/...) -> value. */
  type Stats = map<string, map<string, real>>

  /** Python truthiness of an optional team name: `None` and `""` are false. */
  predicate Truthy(o: Option<string>) {
    o.Some? && o.value != ""
  }

  /** `d.get(key, default)` on a numeric dictionary. */
  function GetOr(d: map<string, real>, key: string, default: real): real {
    if key in d then d[key] else default
  }

  /** `d.get(key, default)` on an integer dictionary. */
  function GetIntOr(d: map<string, int>, key: string, default: int): int {
    if key in d then d[key] else default
  }

  /** `d.get(outer, {}).get(inner, default)` on a two-level dictionary. */
  function GetNested(d: map<string, map<string, real>>, outer: string, inner: string, default: real): real {
    if outer in d then GetOr(d[outer], inner, default) else default
  }

  /** The goals of one match seen from the fixture's sides: the fixture's
      home team is credited with the home score exactly when it was the home
      side of that match, otherwise with the away score. */
  function FixtureGoals(m: Match, fixtureHome: string): (g: (nat, nat))
    ensures m.homeTeam == fixtureHome ==> g == (m.homeScore, m.awayScore)
    ensures m.homeTeam != fixtureHome ==> g == (m.awayScore, m.homeScore)
    ensures g.0 + g.1 == m.homeScore + m.awayScore
  {
    if m.homeTeam == fixtureHome then (m.homeScore, m.awayScore) else (m.awayScore, m.homeScore)
  }

  /** The two goal lists built from a list of matches, each match seen
      from the fixture's sides. */
  function H2HGoals(matches: seq<Match>, fixtureHome: string): (g: (seq<nat>, seq<nat>))
    ensures |g.0| == |matches| && |g.1| == |matches|
  {
    (seq(|matches|, k requires 0 <= k < |matches| => FixtureGoals(matches[k], fixtureHome).0),
     seq(|matches|, k requires 0 <= k < |matches| => FixtureGoals(matches[k], fixtureHome).1))
  }

  /** Entry k of either list is the fixture home (away) team's score in
      match k: the match's home score exactly when the fixture's home team
      was at home, the away score otherwise. */
  lemma H2HGoalsAttribution(matches: seq<Match>, fixtureHome: string)
    ensures forall k :: 0 <= k < |matches| ==>
      var (hg, ag) := H2HGoals(matches, fixtureHome);
      (matches[k].homeTeam == fixtureHome ==> hg[k] == matches[k].homeScore && ag[k] == matches[k].awayScore)
      && (matches[k].homeTeam != fixtureHome ==> hg[k] == matches[k].awayScore && ag[k] == matches[k].homeScore)
  {
  }

  /** Number of entries of s that satisfy p. */
  function Count<T>(s: seq<T>, p: T -> bool): (n: nat)
    ensures n <= |s|
    ensures s == [] ==> n == 0
  {
    if s == [] then 0 else Count(s[..|s| - 1], p) + (if p(s[|s| - 1]) then 1 else 0)
  }

  lemma CountStep<T>(s: seq<T>, i: nat, p: T -> bool)
    requires i < |s|
    ensures Count(s[..i + 1], p) == Count(s[..i], p) + (if p(s[i]) then 1 else 0)
  {
    assert s[..i + 1][..i] == s[..i];
  }

  /** A test implied by another counts at least as many entries. */
  lemma {:induction false} CountImplies<T>(s: seq<T>, p: T -> bool, q: T -> bool)
    requires forall k :: 0 <= k < |s| ==> p(s[k]) ==> q(s[k])
    ensures Count(s, p) <= Count(s, q)
  {
    if s != [] {
      var t := s[..|s| - 1];
      assert forall k :: 0 <= k < |t| ==> t[k] == s[k];
      CountImplies(t, p, q);
    }
  }

  /** Three tests no entry satisfies twice count at most |s| entries
      together, and exactly |s| when every entry satisfies one of them. */
  lemma {:induction false} CountThree<T>(s: seq<T>, p: T -> bool, q: T -> bool, r: T -> bool)
    requires forall k :: 0 <= k < |s| ==> !(p(s[k]) && q(s[k])) && !(p(s[k]) && r(s[k])) && !(q(s[k]) && r(s[k]))
    ensures Count(s, p) + Count(s, q) + Count(s, r) <= |s|
    ensures (forall k :: 0 <= k < |s| ==> p(s[k]) || q(s[k]) || r(s[k])) ==>
      Count(s, p) + Count(s, q) + Count(s, r) == |s|
  {
    if s != [] {
      var t := s[..|s| - 1];
      assert forall k :: 0 <= k < |t| ==> t[k] == s[k];
      CountThree(t, p, q, r);
    }
  }

  function SumNat(s: seq<nat>): nat {
    if s == [] then 0 else s[0] + SumNat(s[1..])
  }

  /** Summing entrywise sums adds the two sums. */
  lemma {:induction false} SumNatPointwise(a: seq<nat>, b: seq<nat>, c: seq<nat>)
    requires |a| == |b| == |c| && forall k :: 0 <= k < |c| ==> c[k] == a[k] + b[k]
    ensures SumNat(c) == SumNat(a) + SumNat(b)
  {
    if c != [] {
      SumNatPointwise(a[1..], b[1..], c[1..]);
    }
  }

  // Real division, one step at a time

  lemma QuotientSum(a: real, b: real, t: real)
    requires t != 0.0
    ensures a / t + b / t == (a + b) / t
  {
  }

  lemma QuotientSelf(t: real)
    requires t != 0.0
    ensures t / t == 1.0
  {
  }

  lemma QuotientPositive(a: real, b: real)
    requires a > 0.0 && b > 0.0
    ensures a / b > 0.0
  {
  }

  lemma QuotientMonotone(a: real, b: real, t: real)
    requires a <= b && t > 0.0
    ensures a / t <= b / t
  {
  }

  lemma QuotientAtMost(a: real, t: real, b: real)
    requires t > 0.0 && 0.0 <= a <= t * b
    ensures 0.0 <= a / t <= b
  {
    assert a / t <= (t * b) / t;
  }

  /** The mean of entrywise sums is the sum of the two means. */
  lemma MeanPointwise(a: seq<nat>, b: seq<nat>, c: seq<nat>)
    requires |a| == |b| == |c| && forall k :: 0 <= k < |c| ==> c[k] == a[k] + b[k]
    ensures Mean(c) == Mean(a) + Mean(b)
  {
    SumNatPointwise(a, b, c);
    if |c| != 0 {
      QuotientSum(SumNat(a) as real, SumNat(b) as real, |c| as real);
    }
  }

  /** `np.mean(xs) if xs else 0`. */
  function Mean(s: seq<nat>): real {
    if |s| == 0 then 0.0 else SumNat(s) as real / |s| as real
  }

  /** `(count / n) * 100 if n else 0`. */
  function Percent(count: int, n: int): real {
    if n == 0 then 0.0 else (count as real / n as real) * 100.0
  }

  lemma {:induction false} SumNatBound(s: seq<nat>, bound: nat)
    requires forall k :: 0 <= k < |s| ==> s[k] <= bound
    ensures SumNat(s) <= |s| * bound
  {
    if s != [] {
      SumNatBound(s[1..], bound);
    }
  }

  /** A count of at most n items out of n gives a percentage in [0, 100]. */
  lemma PercentBounds(count: int, n: int)
    requires 0 <= count <= n
    ensures 0.0 <= Percent(count, n) <= 100.0
  {
    if n != 0 {
      QuotientAtMost(count as real, n as real, 1.0);
    }
  }

  /** The mean of values that are all at most `bound` is at most `bound`. */
  lemma MeanBound(s: seq<nat>, bound: nat)
    requires forall k :: 0 <= k < |s| ==> s[k] <= bound
    ensures 0.0 <= Mean(s) <= bound as real
  {
    if |s| != 0 {
      SumNatBound(s, bound);
      assert SumNat(s) as real <= |s| as real * bound as real;
      QuotientAtMost(SumNat(s) as real, |s| as real, bound as real);
    }
  }
}
