/**
 * `runServerChecks` (main.go:84-177): merges a server's checks from its groups
 * and its own list, runs each one, judges the output, and stores the result and
 * raises an alert where the code does. Command execution and the regex engine
 * are inputs: `run` maps a command to its output or error, `findAll` maps an
 * expression and an output to the submatch rows `FindAllStringSubmatch` returns.
 */
module ServerRun {
  import opened Wrappers
  import opened Text
  import opened Config
  import opened ServerCheckDb
  import opened Alerting

  // ---------------------------------------------------------------------------
  // Merging checks by name
  // ---------------------------------------------------------------------------

  /** Writing each check of `cs` into `m` under its name, in order, as `checks[check.Name] = check` does. */
  function Put(m: map<string, Check>, cs: seq<Check>): map<string, Check>
    decreases |cs|
  {
    if cs == [] then m
    else Put(m, cs[..|cs| - 1])[cs[|cs| - 1].name := cs[|cs| - 1]]
  }

  /** The last check in `cs` named `n`, if any. */
  function LastWith(cs: seq<Check>, n: string): (r: Option<Check>)
    ensures r.None? <==> forall c :: c in cs ==> c.name != n
    ensures r.Some? ==> r.value in cs && r.value.name == n
  {
    if cs == [] then None
    else if cs[|cs| - 1].name == n then Some(cs[|cs| - 1])
    else LastWith(cs[..|cs| - 1], n)
  }

  /** A name maps to the last check carrying it; names no check carries keep their old entry. */
  lemma {:induction false} PutLookup(m: map<string, Check>, cs: seq<Check>, n: string)
    ensures LastWith(cs, n).Some? ==> n in Put(m, cs) && Put(m, cs)[n] == LastWith(cs, n).value
    ensures LastWith(cs, n).None? ==> (n in Put(m, cs) <==> n in m)
    ensures LastWith(cs, n).None? && n in m ==> Put(m, cs)[n] == m[n]
    decreases |cs|
  {
    if cs != [] {
      PutLookup(m, cs[..|cs| - 1], n);
    }
  }

  /** Writing `a` then `b` is writing `a + b`. */
  lemma {:induction false} PutConcat(m: map<string, Check>, a: seq<Check>, b: seq<Check>)
    ensures Put(m, a + b) == Put(Put(m, a), b)
    decreases |b|
  {
    if b == [] {
      assert a + b == a;
    } else {
      assert (a + b)[..|a + b| - 1] == a + b[..|b| - 1];
      PutConcat(m, a, b[..|b| - 1]);
    }
  }

  /** The checks of group `g`, once for every entry of `memberOf` naming it (main.go:90-97). */
  function GroupHits(g: GroupConfig, memberOf: seq<string>): seq<Check>
    decreases |memberOf|
  {
    if memberOf == [] then []
    else GroupHits(g, memberOf[..|memberOf| - 1]) + (if g.name == memberOf[|memberOf| - 1] then g.checks else [])
  }

  /** The group checks in the order the nested loops of main.go:89-98 write them. */
  function IncludedChecks(groups: seq<GroupConfig>, memberOf: seq<string>): seq<Check>
    decreases |groups|
  {
    if groups == [] then []
    else IncludedChecks(groups[..|groups| - 1], memberOf) + GroupHits(groups[|groups| - 1], memberOf)
  }

  /** The checks a server runs: its groups' checks, then its own, later ones replacing earlier ones of the same name. */
  function EffectiveChecks(groups: seq<GroupConfig>, memberOf: seq<string>, direct: seq<Check>): map<string, Check>
  {
    Put(map[], IncludedChecks(groups, memberOf) + direct)
  }

  /** `for _, check := range cs { checks[check.Name] = check }` (main.go:92-94 and 99-101). */
  method PutAll(checks: map<string, Check>, cs: seq<Check>) returns (m: map<string, Check>)
    ensures m == Put(checks, cs)
  {
    m := checks;
    for k := 0 to |cs|
      invariant m == Put(checks, cs[..k])
    {
      assert cs[..k + 1][..k] == cs[..k];
      m := m[cs[k].name := cs[k]];
    }
    assert cs[..|cs|] == cs;
  }

  /** The middle loop of main.go:90-97: one group's checks, once per entry of the server's group list naming it. */
  method AddGroup(checks: map<string, Check>, group: GroupConfig, memberOf: seq<string>)
    returns (m: map<string, Check>)
    ensures m == Put(checks, GroupHits(group, memberOf))
  {
    m := checks;
    for j := 0 to |memberOf|
      invariant m == Put(checks, GroupHits(group, memberOf[..j]))
    {
      assert memberOf[..j + 1][..j] == memberOf[..j];
      ghost var done := GroupHits(group, memberOf[..j]);
      if group.name == memberOf[j] {
        m := PutAll(m, group.checks);
        PutConcat(checks, done, group.checks);
      } else {
        assert done + [] == done;
      }
    }
    assert memberOf[..|memberOf|] == memberOf;
  }

  /** The merge loops of main.go:87-101. */
  method MergeChecks(groups: seq<GroupConfig>, memberOf: seq<string>, direct: seq<Check>)
    returns (checks: map<string, Check>)
    ensures checks == EffectiveChecks(groups, memberOf, direct)
  {
    checks := map[];
    for i := 0 to |groups|
      invariant checks == Put(map[], IncludedChecks(groups[..i], memberOf))
    {
      assert groups[..i + 1][..i] == groups[..i];
      checks := AddGroup(checks, groups[i], memberOf);
      PutConcat(map[], IncludedChecks(groups[..i], memberOf), GroupHits(groups[i], memberOf));
    }
    assert groups[..|groups|] == groups;
    checks := PutAll(checks, direct);
    PutConcat(map[], IncludedChecks(groups, memberOf), direct);
  }

  /** A check is included from a group exactly when the server lists that group. */
  lemma {:induction false} IncludedIff(groups: seq<GroupConfig>, memberOf: seq<string>, c: Check)
    ensures c in IncludedChecks(groups, memberOf) <==>
              exists g :: g in groups && g.name in memberOf && c in g.checks
    decreases |groups|
  {
    if groups != [] {
      var last := groups[|groups| - 1];
      IncludedIff(groups[..|groups| - 1], memberOf, c);
      GroupHitsIff(last, memberOf, c);
      if exists g :: g in groups && g.name in memberOf && c in g.checks {
        var g :| g in groups && g.name in memberOf && c in g.checks;
        if g != last {
          assert g in groups[..|groups| - 1];
        }
      }
      if exists g :: g in groups[..|groups| - 1] && g.name in memberOf && c in g.checks {
        var g :| g in groups[..|groups| - 1] && g.name in memberOf && c in g.checks;
        assert g in groups;
      }
    }
  }

  lemma {:induction false} GroupHitsIff(g: GroupConfig, memberOf: seq<string>, c: Check)
    ensures c in GroupHits(g, memberOf) <==> g.name in memberOf && c in g.checks
    decreases |memberOf|
  {
    if memberOf != [] {
      var prefix := memberOf[..|memberOf| - 1];
      GroupHitsIff(g, prefix, c);
      assert memberOf == prefix + [memberOf[|memberOf| - 1]];
      assert g.name in memberOf <==> g.name in prefix || g.name == memberOf[|memberOf| - 1];
    }
  }

  /** A server's own check overrides any group check of the same name, the last one listed winning. */
  lemma DirectWins(groups: seq<GroupConfig>, memberOf: seq<string>, direct: seq<Check>, n: string)
    requires LastWith(direct, n).Some?
    ensures n in EffectiveChecks(groups, memberOf, direct)
    ensures EffectiveChecks(groups, memberOf, direct)[n] == LastWith(direct, n).value
  {
    var inc := IncludedChecks(groups, memberOf);
    PutConcat(map[], inc, direct);
    PutLookup(Put(map[], inc), direct, n);
  }

  /**
   * The merged checks are exactly the server's own checks and the checks of the
   * groups it lists: every entry is one of those, under its own name, and every
   * one of those names has an entry.
   */
  lemma GroupOnlyIfListed(groups: seq<GroupConfig>, memberOf: seq<string>, direct: seq<Check>, n: string)
    ensures n in EffectiveChecks(groups, memberOf, direct) ==>
              var c := EffectiveChecks(groups, memberOf, direct)[n];
              && c.name == n
              && (c in direct || exists g :: g in groups && g.name in memberOf && c in g.checks)
    ensures (exists c :: c in direct && c.name == n) ==> n in EffectiveChecks(groups, memberOf, direct)
    ensures (exists g, c :: g in groups && g.name in memberOf && c in g.checks && c.name == n) ==>
              n in EffectiveChecks(groups, memberOf, direct)
  {
    var all := IncludedChecks(groups, memberOf) + direct;
    PutLookup(map[], all, n);
    var last := LastWith(all, n);
    if last.Some? {
      if last.value !in direct {
        IncludedIff(groups, memberOf, last.value);
      }
    }
    if exists g, c :: g in groups && g.name in memberOf && c in g.checks && c.name == n {
      var g, c :| g in groups && g.name in memberOf && c in g.checks && c.name == n;
      IncludedIff(groups, memberOf, c);
      assert c in all;
    }
    if exists c :: c in direct && c.name == n {
      var c :| c in direct && c.name == n;
      assert c in all;
    }
  }

  /** The last check named `n` in `a + b` is the last in `b`, or else the last in `a`. */
  lemma {:induction false} LastWithConcat(a: seq<Check>, b: seq<Check>, n: string)
    ensures LastWith(a + b, n) == if LastWith(b, n).Some? then LastWith(b, n) else LastWith(a, n)
    decreases |b|
  {
    if b == [] {
      assert a + b == a;
    } else {
      assert (a + b)[..|a + b| - 1] == a + b[..|b| - 1];
      LastWithConcat(a, b[..|b| - 1], n);
    }
  }

  /** A listed group contributes its own last check of a name; an unlisted one contributes nothing. */
  lemma {:induction false} GroupHitsLast(g: GroupConfig, memberOf: seq<string>, n: string)
    ensures LastWith(GroupHits(g, memberOf), n) == if g.name in memberOf then LastWith(g.checks, n) else None
    decreases |memberOf|
  {
    if memberOf != [] {
      var prefix := memberOf[..|memberOf| - 1];
      GroupHitsLast(g, prefix, n);
      assert memberOf == prefix + [memberOf[|memberOf| - 1]];
      LastWithConcat(GroupHits(g, prefix), if g.name == memberOf[|memberOf| - 1] then g.checks else [], n);
    }
  }

  /** Up to any later point, the last included check of a name comes from group `j` when no later listed group has one. */
  lemma {:induction false} IncludedLast(groups: seq<GroupConfig>, memberOf: seq<string>, j: nat, m: nat, n: string)
    requires j < m <= |groups| && groups[j].name in memberOf && LastWith(groups[j].checks, n).Some?
    requires forall k :: j < k < |groups| && groups[k].name in memberOf ==> LastWith(groups[k].checks, n).None?
    ensures LastWith(IncludedChecks(groups[..m], memberOf), n) == LastWith(groups[j].checks, n)
    decreases m
  {
    var prefix := groups[..m][..m - 1];
    assert prefix == groups[..m - 1];
    LastWithConcat(IncludedChecks(prefix, memberOf), GroupHits(groups[m - 1], memberOf), n);
    GroupHitsLast(groups[m - 1], memberOf, n);
    if m - 1 > j {
      IncludedLast(groups, memberOf, j, m - 1, n);
    }
  }

  /**
   * Among the groups a server lists, the one latest in the global group list
   * that has a check of a given name provides it, unless the server declares
   * that name itself.
   */
  lemma LaterGroupWins(groups: seq<GroupConfig>, memberOf: seq<string>, direct: seq<Check>, j: nat, n: string)
    requires j < |groups| && groups[j].name in memberOf && LastWith(groups[j].checks, n).Some?
    requires forall k :: j < k < |groups| && groups[k].name in memberOf ==> LastWith(groups[k].checks, n).None?
    requires LastWith(direct, n).None?
    ensures n in EffectiveChecks(groups, memberOf, direct)
    ensures EffectiveChecks(groups, memberOf, direct)[n] == LastWith(groups[j].checks, n).value
  {
    IncludedLast(groups, memberOf, j, |groups|, n);
    assert groups[..|groups|] == groups;
    var inc := IncludedChecks(groups, memberOf);
    LastWithConcat(inc, direct, n);
    PutLookup(map[], inc + direct, n);
  }

  // ---------------------------------------------------------------------------
  // Regex assertions
  // ---------------------------------------------------------------------------

  /** Every submatch row has a group at `index`; the source indexes rows without a check. */
  predicate IndexInRange(rows: seq<seq<string>>, index: int) {
    && (rows != [] ==> 0 <= index)
    && forall k :: 0 <= k < |rows| ==> index < |rows[k]|
  }

  /** The message for a value at or below `GreaterThan` (main.go:135). */
  function TooLowMessage(name: string, bound: int, actual: string): string {
    "'" + name + "' is less than '" + IntToString(bound) + "': " + actual
  }

  /** The message for a value at or above `LessThan` (main.go:139). */
  function TooHighMessage(name: string, bound: int, actual: string): string {
    "'" + name + "' is greater than '" + IntToString(bound) + "': " + actual
  }

  /** The message for text other than `Equals` (main.go:143). */
  function UnequalMessage(name: string, expected: string, actual: string): string {
    "'" + name + "' does not equal '" + expected + "': " + actual
  }

  lemma PrefixInRange(rows: seq<seq<string>>, index: int, n: nat)
    requires IndexInRange(rows, index) && n <= |rows|
    ensures IndexInRange(rows[..n], index)
  {
    forall k | 0 <= k < n
      ensures index < |rows[..n][k]|
    {
      assert rows[..n][k] == rows[k];
    }
  }

  /** The message, if any, for a value at or below `GreaterThan`. */
  function TooLow(name: string, rx: Regex, actual: string): seq<string> {
    if rx.greaterThan.Some? && Atoi(actual) <= rx.greaterThan.value
    then [TooLowMessage(name, rx.greaterThan.value, actual)] else []
  }

  /** The message, if any, for a value at or above `LessThan`. */
  function TooHigh(name: string, rx: Regex, actual: string): seq<string> {
    if rx.lessThan.Some? && Atoi(actual) >= rx.lessThan.value
    then [TooHighMessage(name, rx.lessThan.value, actual)] else []
  }

  /** The message, if any, for text other than a non-empty `Equals`. */
  function Unequal(name: string, rx: Regex, actual: string): seq<string> {
    if rx.equals != "" && actual != rx.equals then [UnequalMessage(name, rx.equals, actual)] else []
  }

  /** The error messages one submatch row produces (main.go:132-145), in the order they are appended. */
  function RowViolations(name: string, rx: Regex, row: seq<string>, index: int): (errs: seq<string>)
    requires 0 <= index < |row|
    ensures |errs| <= 3
  {
    TooLow(name, rx, row[index]) + TooHigh(name, rx, row[index]) + Unequal(name, rx, row[index])
  }

  /** The messages of all rows, row by row. */
  function Violations(name: string, rx: Regex, rows: seq<seq<string>>, index: int): seq<string>
    requires IndexInRange(rows, index)
    decreases |rows|
  {
    if rows == [] then []
    else
      PrefixInRange(rows, index, |rows| - 1);
      Violations(name, rx, rows[..|rows| - 1], index) + RowViolations(name, rx, rows[|rows| - 1], index)
  }

  /**
   * A row fails the assertion exactly when its value is at or below `greaterThan`,
   * at or above `lessThan`, or its text differs from a non-empty `equals`.
   */
  lemma RowFailsIff(name: string, rx: Regex, row: seq<string>, index: int)
    requires 0 <= index < |row|
    ensures RowViolations(name, rx, row, index) != [] <==>
              || (rx.greaterThan.Some? && Atoi(row[index]) <= rx.greaterThan.value)
              || (rx.lessThan.Some? && Atoi(row[index]) >= rx.lessThan.value)
              || (rx.equals != "" && row[index] != rx.equals)
  {
  }

  /** The loop of main.go:131-146: the collected messages, and whether the check still passes. */
  method EvaluateRegex(name: string, rx: Regex, rows: seq<seq<string>>, index: int)
    returns (passed: bool, errors: seq<string>)
    requires IndexInRange(rows, index)
    ensures errors == Violations(name, rx, rows, index)
    ensures passed <==> errors == []
  {
    passed := true;
    errors := [];
    for i := 0 to |rows|
      invariant IndexInRange(rows[..i], index)
      invariant errors == Violations(name, rx, rows[..i], index)
      invariant passed <==> errors == []
    {
      ViolationsSnoc(name, rx, rows, index, i);
      var resultEntry := rows[i];
      var actualResult := resultEntry[index];
      var intVal := Atoi(actualResult);
      ghost var start := errors;
      if rx.greaterThan.Some? && intVal <= rx.greaterThan.value {
        errors := errors + [TooLowMessage(name, rx.greaterThan.value, actualResult)];
        passed := false;
      }
      assert errors == start + TooLow(name, rx, actualResult);
      if rx.lessThan.Some? && intVal >= rx.lessThan.value {
        errors := errors + [TooHighMessage(name, rx.lessThan.value, actualResult)];
        passed := false;
      }
      assert errors == start + TooLow(name, rx, actualResult) + TooHigh(name, rx, actualResult);
      if rx.equals != "" && resultEntry[index] != rx.equals {
        errors := errors + [UnequalMessage(name, rx.equals, actualResult)];
        passed := false;
      }
      AppendAssoc(start, TooLow(name, rx, actualResult), TooHigh(name, rx, actualResult), Unequal(name, rx, actualResult));
    }
    assert rows[..|rows|] == rows;
  }

  /** The messages of the first `i + 1` rows extend those of the first `i`. */
  lemma ViolationsSnoc(name: string, rx: Regex, rows: seq<seq<string>>, index: int, i: nat)
    requires IndexInRange(rows, index) && i < |rows|
    ensures IndexInRange(rows[..i], index) && IndexInRange(rows[..i + 1], index)
    ensures Violations(name, rx, rows[..i + 1], index) ==
              Violations(name, rx, rows[..i], index) + RowViolations(name, rx, rows[i], index)
  {
    PrefixInRange(rows, index, i);
    PrefixInRange(rows, index, i + 1);
    assert rows[..i + 1][..i] == rows[..i];
  }

  lemma AppendAssoc(a: seq<string>, b: seq<string>, c: seq<string>, d: seq<string>)
    ensures a + b + c + d == a + (b + c + d)
  {
  }

  // ---------------------------------------------------------------------------
  // Removing repeated messages
  // ---------------------------------------------------------------------------

  predicate NoDuplicates(s: seq<string>) {
    forall i, j :: 0 <= i < j < |s| ==> s[i] != s[j]
  }

  /** The position of the first occurrence of `x` in `s`. */
  function FirstIndex(s: seq<string>, x: string): (i: nat)
    requires x in s
    ensures i < |s| && s[i] == x && x !in s[..i]
  {
    if s[0] == x then 0 else 1 + FirstIndex(s[1..], x)
  }

  /** The first occurrence of every message, in the order of first occurrence. */
  function Distinct(s: seq<string>): (r: seq<string>)
    ensures forall x :: x in r <==> x in s
    ensures NoDuplicates(r)
    decreases |s|
  {
    if s == [] then []
    else
      var d := Distinct(s[..|s| - 1]);
      var x := s[|s| - 1];
      assert forall y :: y in s <==> y in s[..|s| - 1] || y == x by {
        assert s == s[..|s| - 1] + [x];
      }
      if x in d then d else d + [x]
  }

  lemma {:induction false} FirstIndexPrefix(p: seq<string>, q: seq<string>, x: string)
    requires x in p
    ensures FirstIndex(p + q, x) == FirstIndex(p, x)
  {
    if p[0] != x {
      assert (p + q)[1..] == p[1..] + q;
      FirstIndexPrefix(p[1..], q, x);
    }
  }

  /** `Distinct` keeps messages in the order they first appear. */
  lemma {:induction false} DistinctKeepsFirstOrder(s: seq<string>)
    ensures forall i, j :: 0 <= i < j < |Distinct(s)| ==>
              FirstIndex(s, Distinct(s)[i]) < FirstIndex(s, Distinct(s)[j])
    decreases |s|
  {
    if s != [] {
      var p := s[..|s| - 1];
      var x := s[|s| - 1];
      assert s == p + [x];
      DistinctKeepsFirstOrder(p);
      var d := Distinct(p);
      forall y | y in d
        ensures FirstIndex(s, y) == FirstIndex(p, y)
      {
        FirstIndexPrefix(p, [x], y);
      }
      if x !in d {
        assert FirstIndex(s, x) == |p|;
      }
    }
  }

  /** A list without repeats is its own `Distinct`. */
  lemma {:induction false} DistinctOfDistinct(s: seq<string>)
    requires NoDuplicates(s)
    ensures Distinct(s) == s
    decreases |s|
  {
    if s != [] {
      var p := s[..|s| - 1];
      DistinctOfDistinct(p);
      assert s[|s| - 1] !in p;
      assert p + [s[|s| - 1]] == s;
    }
  }

  /** Removing repeats twice is removing them once. */
  lemma DistinctIdempotent(s: seq<string>)
    ensures Distinct(Distinct(s)) == Distinct(s)
  {
    DistinctOfDistinct(Distinct(s));
  }

  /** The `uniqueErrors` loop of main.go:148-155. */
  method Dedup(errors: seq<string>) returns (finalErrors: seq<string>)
    ensures finalErrors == Distinct(errors)
  {
    var uniqueErrors: map<string, bool> := map[];
    finalErrors := [];
    for i := 0 to |errors|
      invariant finalErrors == Distinct(errors[..i])
      invariant forall e :: e in uniqueErrors ==> uniqueErrors[e]
      invariant forall e :: e in uniqueErrors <==> e in errors[..i]
    {
      assert errors[..i + 1][..i] == errors[..i];
      var errorMessage := errors[i];
      var seen := errorMessage in uniqueErrors && uniqueErrors[errorMessage];
      if !seen {
        uniqueErrors := uniqueErrors[errorMessage := true];
        finalErrors := finalErrors + [errorMessage];
      }
    }
    assert errors[..|errors|] == errors;
  }

  // ---------------------------------------------------------------------------
  // Judging one check
  // ---------------------------------------------------------------------------

  /** What happens to one check: dropped without a stored result, or stored with a verdict and maybe an alert message. */
  datatype Outcome =
    | Skipped
    | Recorded(passed: bool, alert: Option<string>)

  /** The regex assertion is evaluated: the command ran, no substring is expected, and an expression and an index are set. */
  predicate RegexEvaluated(check: Check, response: Result<string, string>) {
    && response.Success?
    && check.responseContains == ""
    && check.regex.Some?
    && check.regex.value.expression != ""
    && check.regex.value.index.Some?
  }

  /**
   * The verdict of main.go:110-161 for one check, given the command's result and
   * the submatch rows of the check's expression over the output.
   */
  function Classify(check: Check, response: Result<string, string>, rows: seq<seq<string>>): (o: Outcome)
    requires RegexEvaluated(check, response) ==> IndexInRange(rows, check.regex.value.index.value)
    ensures o.Recorded? ==> (o.alert.Some? <==> !o.passed)
  {
    if response.Failure? then Skipped
    else if check.responseContains != "" then
      if Contains(response.value, check.responseContains) then Recorded(true, None) else Skipped
    else if RegexEvaluated(check, response) then
      var rx := check.regex.value;
      var errs := Violations(check.name, rx, rows, rx.index.value);
      if errs == [] then Recorded(true, None) else Recorded(false, Some(Join(Distinct(errs), ", ")))
    else Recorded(true, None)
  }

  /** A command that fails to run leaves no stored result and raises no alert (the `continue` at main.go:115). */
  lemma CommandErrorSkips(check: Check, err: string, rows: seq<seq<string>>)
    ensures Classify(check, Failure(err), rows) == Skipped
  {
  }

  /**
   * An expected substring decides the check alone: present means a stored pass,
   * absent means nothing stored (the `continue` at main.go:122); the regex is
   * ignored whatever it would find.
   */
  lemma SubstringDecides(check: Check, output: string, rows: seq<seq<string>>, rows': seq<seq<string>>)
    requires check.responseContains != ""
    ensures Classify(check, Success(output), rows) == Classify(check, Success(output), rows')
    ensures Classify(check, Success(output), rows) ==
              if Contains(output, check.responseContains) then Recorded(true, None) else Skipped
  {
  }

  /** A regex without an index is not evaluated: the check passes (main.go:125-126). */
  lemma MissingIndexPasses(check: Check, output: string, rows: seq<seq<string>>)
    requires check.responseContains == "" && check.regex.Some? && check.regex.value.index.None?
    ensures Classify(check, Success(output), rows) == Recorded(true, None)
  {
  }

  /**
   * With a regex evaluated, the check fails exactly when some row violates the
   * assertion, and its alert lists each distinct message once.
   */
  lemma {:induction false} RegexFailsIff(check: Check, output: string, rows: seq<seq<string>>)
    requires RegexEvaluated(check, Success(output))
    requires IndexInRange(rows, check.regex.value.index.value)
    ensures var idx := check.regex.value.index.value;
            Classify(check, Success(output), rows).Recorded? &&
            (!Classify(check, Success(output), rows).passed <==>
               exists row :: row in rows && RowViolations(check.name, check.regex.value, row, idx) != [])
    ensures var idx := check.regex.value.index.value;
            !Classify(check, Success(output), rows).passed ==>
              Classify(check, Success(output), rows).alert ==
                Some(Join(Distinct(Violations(check.name, check.regex.value, rows, idx)), ", "))
  {
    ViolationsEmptyIff(check.name, check.regex.value, rows, check.regex.value.index.value);
  }

  /** No message at all exactly when no row produces one. */
  lemma {:induction false} ViolationsEmptyIff(name: string, rx: Regex, rows: seq<seq<string>>, index: int)
    requires IndexInRange(rows, index)
    ensures Violations(name, rx, rows, index) == [] <==>
              forall row :: row in rows ==> RowViolations(name, rx, row, index) == []
    decreases |rows|
  {
    if rows != [] {
      var p := rows[..|rows| - 1];
      var last := rows[|rows| - 1];
      assert rows == p + [last];
      assert IndexInRange(p, index);
      ViolationsEmptyIff(name, rx, p, index);
    }
  }

  // ---------------------------------------------------------------------------
  // Running all checks of a server
  // ---------------------------------------------------------------------------

  /** What running one check leaves behind: the stored document, if any, and the alert raised, if any. */
  datatype CheckReport = CheckReport(name: string, doc: Option<ServerCheckDoc>, alert: Option<AlertRequest>)

  /** The submatch rows the check's regex yields over an output, or none when no regex applies. */
  function RowsFor(check: Check, response: Result<string, string>, findAll: (string, string) -> seq<seq<string>>)
    : seq<seq<string>>
  {
    if RegexEvaluated(check, response) then findAll(check.regex.value.expression, response.value) else []
  }

  /** The check can be judged without the index panic. */
  predicate Evaluable(check: Check, run: string -> Result<string, string>, findAll: (string, string) -> seq<seq<string>>) {
    var response := run(check.command);
    RegexEvaluated(check, response) ==>
      IndexInRange(RowsFor(check, response, findAll), check.regex.value.index.value)
  }

  /** What one check on `server` should leave behind, stamped at `now`. */
  function ExpectedReport(serverName: string, check: Check, run: string -> Result<string, string>,
                          findAll: (string, string) -> seq<seq<string>>, now: int): CheckReport
    requires Evaluable(check, run, findAll)
  {
    var response := run(check.command);
    match Classify(check, response, RowsFor(check, response, findAll))
    case Skipped => CheckReport(check.name, None, None)
    case Recorded(passed, alert) =>
      CheckReport(
        check.name,
        Some(ServerCheckDoc(TestIdFor(serverName, check.name), serverName, check.name, passed, now)),
        if alert.Some? then Some(AlertRequest(serverName + " (" + check.name + ")", alert.value)) else None)
  }

  /** One iteration of the loop at main.go:102-174. */
  method RunOne(server: ServerConfig, check: Check, run: string -> Result<string, string>,
                findAll: (string, string) -> seq<seq<string>>, now: int) returns (report: CheckReport)
    requires Evaluable(check, run, findAll)
    ensures report == ExpectedReport(server.name, check, run, findAll, now)
  {
    var response := run(check.command);
    var checkResult := new ServerCheck(server, Some(check), true);
    var alert: Option<AlertRequest> := None;
    var outcome := Classify(check, response, RowsFor(check, response, findAll));
    if outcome.Skipped? {
      return CheckReport(check.name, None, None);
    }
    checkResult.passed := outcome.passed;
    if outcome.alert.Some? {
      alert := Some(AlertRequest(server.name + " (" + check.name + ")", outcome.alert.value));
    }
    var doc := checkResult.GetMapping(true, now);
    report := CheckReport(check.name, Some(doc), alert);
  }

  /** Every name in the merged map carries a check of that name. */
  lemma KeysAreNames(groups: seq<GroupConfig>, memberOf: seq<string>, direct: seq<Check>)
    ensures forall n :: n in EffectiveChecks(groups, memberOf, direct) ==> EffectiveChecks(groups, memberOf, direct)[n].name == n
  {
    forall n | n in EffectiveChecks(groups, memberOf, direct) {
      GroupOnlyIfListed(groups, memberOf, direct, n);
    }
  }

  /**
   * `runServerChecks`: marks the server busy, runs every merged check once in
   * the map's unspecified order, and clears the busy flag. Each check's report is
   * the one `ExpectedReport` gives.
   */
  method RunServerChecks(server: ServerConfig, groups: seq<GroupConfig>, run: string -> Result<string, string>,
                         findAll: (string, string) -> seq<seq<string>>, now: int)
    returns (reports: seq<CheckReport>)
    requires forall n :: n in EffectiveChecks(groups, server.groups, server.checks) ==>
               Evaluable(EffectiveChecks(groups, server.groups, server.checks)[n], run, findAll)
    modifies server`inProgress
    ensures !server.inProgress
    ensures |reports| == |EffectiveChecks(groups, server.groups, server.checks)|
    ensures forall i, j :: 0 <= i < j < |reports| ==> reports[i].name != reports[j].name
    ensures forall i :: 0 <= i < |reports| ==>
              var checks := EffectiveChecks(groups, server.groups, server.checks);
              reports[i].name in checks &&
              reports[i] == ExpectedReport(server.name, checks[reports[i].name], run, findAll, now)
  {
    server.inProgress := true;
    var checks := MergeChecks(groups, server.groups, server.checks);
    KeysAreNames(groups, server.groups, server.checks);
    var remaining := checks.Keys;
    reports := [];
    while remaining != {}
      invariant remaining <= checks.Keys
      invariant |reports| + |remaining| == |checks.Keys|
      invariant forall i :: 0 <= i < |reports| ==> reports[i].name in checks.Keys - remaining
      invariant forall i, j :: 0 <= i < j < |reports| ==> reports[i].name != reports[j].name
      invariant forall i :: 0 <= i < |reports| ==>
                  reports[i] == ExpectedReport(server.name, checks[reports[i].name], run, findAll, now)
      decreases remaining
    {
      var name :| name in remaining;
      var report := RunOne(server, checks[name], run, findAll, now);
      reports := reports + [report];
      remaining := remaining - {name};
    }
    assert |checks| == |checks.Keys|;
    server.inProgress := false;
  }
}
