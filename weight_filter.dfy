/**
 * The weight filter of a proxy group: the search for the first
 * `<op><digits>` condition in the filter text (the unanchored pattern
 * `(==|<=|!=|>=)([\d]+)`), the decimal conversion of its digits, and the
 * order-preserving selection of the proxies whose weight satisfies it.
 */
module WeightFilter {
  import opened Types
  import opened Sequences

  datatype CmpOp = Eq | Ne | Ge | Le

  /** Largest value of Go's 64-bit `int`, the range of a successful `strconv.Atoi`. */
  const MaxInt: int := 0x7FFF_FFFF_FFFF_FFFF

  const InvalidWeightFilter: string := "invalid weight filter"

  /** The two characters that spell each operator. */
  function OperatorText(op: CmpOp): (r: string)
  {
    match op
    case Eq => "=="
    case Ne => "!="
    case Ge => ">="
    case Le => "<="
  }

  /** The operator spelled by the two characters at position `i`, if any. */
  function OperatorAt(s: string, i: nat): (r: Option<CmpOp>)
    requires i + 2 <= |s|
    ensures r.Some? ==> s[i..i + 2] == OperatorText(r.value)
    ensures forall op :: s[i..i + 2] == OperatorText(op) ==> r == Some(op)
  {
    if s[i + 1] != '=' then None
    else if s[i] == '=' then Some(Eq)
    else if s[i] == '<' then Some(Le)
    else if s[i] == '!' then Some(Ne)
    else if s[i] == '>' then Some(Ge)
    else None
  }

  /** The digit class of the pattern, restricted to ASCII decimal digits. */
  predicate IsDigit(c: char)
  {
    '0' <= c <= '9'
  }

  /** The pattern matches at `i`: an operator followed by at least one digit. */
  predicate MatchAt(s: string, i: nat)
  {
    i + 3 <= |s| && OperatorAt(s, i).Some? && IsDigit(s[i + 2])
  }

  /** End of the longest run of digits that starts at `j` (the greedy `[\d]+`). */
  function DigitRunEnd(s: string, j: nat): (e: nat)
    requires j <= |s|
    ensures j <= e <= |s|
    ensures forall k :: j <= k < e ==> IsDigit(s[k])
    ensures e == |s| || !IsDigit(s[e])
    decreases |s| - j
  {
    if j < |s| && IsDigit(s[j]) then DigitRunEnd(s, j + 1) else j
  }

  /** A match of the pattern: where it starts, its operator and its digit group. */
  datatype Match = Match(start: nat, op: CmpOp, digits: string)

  /**
   * `m` is the leftmost match in `s`: nothing matches before `m.start`, the
   * operator is spelled at `m.start`, and `m.digits` is the whole run of
   * digits that follows it.
   */
  ghost predicate LeftmostMatch(s: string, m: Match)
  {
    && m.start + 2 + |m.digits| <= |s|
    && (forall i :: 0 <= i < m.start ==> !MatchAt(s, i))
    && s[m.start..m.start + 2] == OperatorText(m.op)
    && |m.digits| > 0
    && s[m.start + 2..m.start + 2 + |m.digits|] == m.digits
    && (forall k :: 0 <= k < |m.digits| ==> IsDigit(m.digits[k]))
    && (m.start + 2 + |m.digits| == |s| || !IsDigit(s[m.start + 2 + |m.digits|]))
  }

  /** Unanchored search for the pattern from position `from` on. */
  function FindMatch(s: string, from: nat): (r: Option<Match>)
    requires from <= |s|
    ensures r.None? ==> forall i :: from <= i < |s| ==> !MatchAt(s, i)
    ensures r.Some? ==> from <= r.value.start && MatchAt(s, r.value.start)
    ensures r.Some? ==> forall i :: from <= i < r.value.start ==> !MatchAt(s, i)
    ensures r.Some? ==> OperatorAt(s, r.value.start) == Some(r.value.op)
    ensures r.Some? ==> r.value.digits == s[r.value.start + 2..DigitRunEnd(s, r.value.start + 2)]
    decreases |s| - from
  {
    if from + 3 > |s| then None
    else if MatchAt(s, from) then
      Some(Match(from, OperatorAt(s, from).value, s[from + 2..DigitRunEnd(s, from + 2)]))
    else FindMatch(s, from + 1)
  }

  /** What the search returns is the leftmost match. */
  lemma FindMatchSound(s: string, m: Match)
    requires FindMatch(s, 0) == Some(m)
    ensures LeftmostMatch(s, m)
  {
    LeftmostFromParts(s, m);
  }

  /** A match found at the first matching position, with its whole digit run, is the leftmost match. */
  lemma LeftmostFromParts(s: string, m: Match)
    requires MatchAt(s, m.start) && OperatorAt(s, m.start) == Some(m.op)
    requires forall i :: 0 <= i < m.start ==> !MatchAt(s, i)
    requires m.digits == s[m.start + 2..DigitRunEnd(s, m.start + 2)]
    ensures LeftmostMatch(s, m)
  {
    DigitRunIsGroup(s, m.start + 2, m.digits);
  }

  /** The text from `j` to the end of its digit run is a non-empty, maximal run of digits. */
  lemma DigitRunIsGroup(s: string, j: nat, digits: string)
    requires j < |s| && IsDigit(s[j])
    requires digits == s[j..DigitRunEnd(s, j)]
    ensures |digits| > 0 && j + |digits| <= |s| && s[j..j + |digits|] == digits
    ensures forall k :: 0 <= k < |digits| ==> IsDigit(digits[k])
    ensures j + |digits| == |s| || !IsDigit(s[j + |digits|])
  {
    var d := DigitRunEnd(s, j);
    assert |digits| == d - j;
    forall k | 0 <= k < |digits| ensures IsDigit(digits[k]) {
      assert digits[k] == s[j + k];
    }
  }

  /** The leftmost match is what the search returns. */
  lemma FindMatchComplete(s: string, m: Match)
    requires LeftmostMatch(s, m)
    ensures FindMatch(s, 0) == Some(m)
  {
    var e := m.start + 2 + |m.digits|;
    assert OperatorAt(s, m.start) == Some(m.op);
    assert s[m.start + 2] == m.digits[0];
    assert MatchAt(s, m.start);
    var r := FindMatch(s, 0);
    assert r.Some? && r.value.start == m.start;
    forall k | m.start + 2 <= k < e ensures IsDigit(s[k]) {
      assert s[k] == m.digits[k - (m.start + 2)];
    }
    assert DigitRunEnd(s, m.start + 2) == e;
  }

  /** The search finds `m` exactly when `m` is the leftmost match, so the match is unique. */
  lemma FindMatchIsLeftmost(s: string, m: Match)
    ensures FindMatch(s, 0) == Some(m) <==> LeftmostMatch(s, m)
  {
    if FindMatch(s, 0) == Some(m) {
      FindMatchSound(s, m);
    }
    if LeftmostMatch(s, m) {
      FindMatchComplete(s, m);
    }
  }

  /** Value of a string of decimal digits. */
  function DecimalValue(digits: string): (v: nat)
    requires forall k :: 0 <= k < |digits| ==> IsDigit(digits[k])
    decreases |digits|
  {
    if digits == [] then 0
    else DecimalValue(digits[..|digits| - 1]) * 10 + DigitValue(digits[|digits| - 1])
  }

  function DigitValue(c: char): (v: nat)
    requires IsDigit(c)
    ensures v < 10
  {
    c as int - '0' as int
  }

  /** 10 to the power `n`. */
  function Pow10(n: nat): (r: nat)
    ensures r >= 1
  {
    if n == 0 then 1 else 10 * Pow10(n - 1)
  }

  lemma {:induction false} Pow10Monotone(m: nat, n: nat)
    requires m <= n
    ensures Pow10(m) <= Pow10(n)
    decreases n
  {
    if m < n {
      Pow10Monotone(m, n - 1);
    }
  }

  /** A string of `n` digits denotes a value below 10^n. */
  lemma {:induction false} DecimalValueBelowPow10(digits: string)
    requires forall k :: 0 <= k < |digits| ==> IsDigit(digits[k])
    ensures DecimalValue(digits) < Pow10(|digits|)
    decreases |digits|
  {
    if digits != [] {
      DecimalValueBelowPow10(digits[..|digits| - 1]);
    }
  }

  /** A leading zero does not change the value of a digit string. */
  lemma {:induction false} LeadingZeroIgnored(digits: string)
    requires forall k :: 0 <= k < |digits| ==> IsDigit(digits[k])
    ensures DecimalValue("0" + digits) == DecimalValue(digits)
    decreases |digits|
  {
    if digits == [] {
      assert ("0" + digits)[..0] == [];
    } else {
      var n := |digits| - 1;
      assert ("0" + digits)[..n + 1] == "0" + digits[..n];
      LeadingZeroIgnored(digits[..n]);
    }
  }

  /** 10^18, the smallest value with 19 digits, is within `MaxInt`. */
  lemma Pow10EighteenInRange()
    ensures Pow10(18) == 1_000_000_000_000_000_000 <= MaxInt
  {
    assert Pow10(3) == 1_000;
    assert Pow10(6) == 1_000_000;
    assert Pow10(9) == 1_000_000_000;
    assert Pow10(12) == 1_000_000_000_000;
    assert Pow10(15) == 1_000_000_000_000_000;
  }

  /** A literal of at most 18 digits is within `MaxInt`. */
  lemma ShortLiteralInRange(digits: string)
    requires forall k :: 0 <= k < |digits| ==> IsDigit(digits[k])
    ensures |digits| <= 18 ==> DecimalValue(digits) <= MaxInt
  {
    if |digits| <= 18 {
      DecimalValueBelowPow10(digits);
      Pow10Monotone(|digits|, 18);
      Pow10EighteenInRange();
    }
  }

  /**
   * `strconv.Atoi` on a run of digits: the value, or a range error beyond
   * `MaxInt`. No literal of at most 18 digits is out of range, so only a
   * longer one can make the weight filter panic.
   */
  function Atoi(digits: string): (r: Option<int>)
    requires forall k :: 0 <= k < |digits| ==> IsDigit(digits[k])
    ensures r.Some? ==> r.value == DecimalValue(digits) <= MaxInt
    ensures r.None? ==> DecimalValue(digits) > MaxInt
    ensures |digits| <= 18 ==> r.Some?
  {
    ShortLiteralInRange(digits);
    var v := DecimalValue(digits);
    if v <= MaxInt then Some(v) else None
  }

  /** Leading zeros do not change what `strconv.Atoi` returns. */
  lemma AtoiIgnoresLeadingZero(digits: string)
    requires forall k :: 0 <= k < |digits| ==> IsDigit(digits[k])
    ensures Atoi("0" + digits) == Atoi(digits)
  {
    LeadingZeroIgnored(digits);
  }

  /** The comparison `weight <op> val`. */
  predicate Satisfies(op: CmpOp, weight: int, val: int)
  {
    match op
    case Eq => weight == val
    case Ne => weight != val
    case Ge => weight >= val
    case Le => weight <= val
  }

  /** The proxies whose weight satisfies `op val`, in input order. */
  function Selected(ps: seq<Proxy>, op: CmpOp, val: int): (r: seq<Proxy>)
  {
    Filter(ps, (p: Proxy) => Satisfies(op, p.weight, val))
  }

  /** What `filterProxyByWeight` produces for `ps` and the filter text `weightFilter`. */
  function WeightFiltered(ps: seq<Proxy>, weightFilter: string): (r: Outcome<seq<Proxy>>)
  {
    if weightFilter == "" then Ok(ps)
    else
      match FindMatch(weightFilter, 0)
      case None => Ok(ps)
      case Some(m) =>
        match Atoi(m.digits)
        case None => Panic(InvalidWeightFilter)
        case Some(val) => Ok(Selected(ps, m.op, val))
  }

  /**
   * The filter itself: find the condition, convert its value (a conversion
   * error panics), then keep each proxy whose weight satisfies it.
   */
  method FilterProxyByWeight(ps: seq<Proxy>, weightFilter: string) returns (r: Outcome<seq<Proxy>>)
    ensures r == WeightFiltered(ps, weightFilter)
  {
    if weightFilter == "" {
      return Ok(ps);
    }
    var found := FindMatch(weightFilter, 0);
    if found.None? {
      return Ok(ps);
    }
    var m := found.value;
    var parsed := Atoi(m.digits);
    if parsed.None? {
      return Panic(InvalidWeightFilter);
    }
    var val := parsed.value;
    ghost var keep := (p: Proxy) => Satisfies(m.op, p.weight, val);
    var kept: seq<Proxy> := [];
    for i := 0 to |ps|
      invariant kept == Filter(ps[..i], keep)
    {
      var p := ps[i];
      var take := match m.op
        case Eq => p.weight == val
        case Ne => p.weight != val
        case Ge => p.weight >= val
        case Le => p.weight <= val;
      if take {
        kept := kept + [p];
      }
      assert ps[..i + 1][..i] == ps[..i];
    }
    assert ps[..|ps|] == ps;
    return Ok(kept);
  }

  /** An empty filter text keeps the input as it is. */
  lemma EmptyFilterKeepsAll(ps: seq<Proxy>)
    ensures WeightFiltered(ps, "") == Ok(ps)
  {
  }

  /** A filter text with no `<op><digits>` anywhere in it keeps the input as it is. */
  lemma NoConditionKeepsAll(ps: seq<Proxy>, weightFilter: string)
    requires forall i :: 0 <= i < |weightFilter| ==> !MatchAt(weightFilter, i)
    ensures WeightFiltered(ps, weightFilter) == Ok(ps)
  {
  }

  /**
   * With a leftmost condition `op digits` whose value fits in an `int`, the
   * result is exactly the proxies whose weight satisfies it: the subsequence
   * of the input at the positions of those proxies, every copy kept.
   */
  lemma ConditionSelects(ps: seq<Proxy>, weightFilter: string, m: Match)
    requires LeftmostMatch(weightFilter, m)
    requires DecimalValue(m.digits) <= MaxInt
    ensures var val := DecimalValue(m.digits);
      var keep := (p: Proxy) => Satisfies(m.op, p.weight, val);
      && WeightFiltered(ps, weightFilter).Ok?
      && SubsequenceAt(WeightFiltered(ps, weightFilter).value, ps, KeptPositions(ps, keep))
      && (forall i :: 0 <= i < |ps| ==> (i in KeptPositions(ps, keep) <==> Satisfies(m.op, ps[i].weight, val)))
      && (forall p :: multiset(WeightFiltered(ps, weightFilter).value)[p]
            == if Satisfies(m.op, p.weight, val) then multiset(ps)[p] else 0)
  {
    FindMatchComplete(weightFilter, m);
    var val := DecimalValue(m.digits);
    var keep := (p: Proxy) => Satisfies(m.op, p.weight, val);
    assert Atoi(m.digits) == Some(val);
    assert WeightFiltered(ps, weightFilter) == Ok(Filter(ps, keep));
    FilterIsSubsequence(ps, keep);
    forall p {
      FilterMultiplicity(ps, keep, p);
    }
  }

  /**
   * The filter panics exactly when a condition is found whose value does not
   * fit in an `int`; the operator switch itself never panics.
   */
  lemma PanicsOnlyOnOutOfRangeValue(ps: seq<Proxy>, weightFilter: string)
    ensures WeightFiltered(ps, weightFilter).Panic?
      <==> weightFilter != "" && exists m :: LeftmostMatch(weightFilter, m) && DecimalValue(m.digits) > MaxInt
  {
    var found := FindMatch(weightFilter, 0);
    if found.Some? {
      FindMatchIsLeftmost(weightFilter, found.value);
    }
    if exists m :: LeftmostMatch(weightFilter, m) && DecimalValue(m.digits) > MaxInt {
      var m :| LeftmostMatch(weightFilter, m) && DecimalValue(m.digits) > MaxInt;
      FindMatchIsLeftmost(weightFilter, m);
    }
  }

  /** A successful filter never adds or reorders proxies: its result is drawn from its input. */
  lemma ResultDrawnFromInput(ps: seq<Proxy>, weightFilter: string, p: Proxy)
    requires WeightFiltered(ps, weightFilter).Ok?
    requires p in WeightFiltered(ps, weightFilter).value
    ensures p in ps
  {
  }
}
