/**
 The edit distance behind the command suggestion. The table the program fills is proved to hold the
 least number of single-character insertions, deletions and substitutions between two prefixes.
 */
module EditDistance {
  import opened Wrappers

  // ----- edits -----

  datatype Edit = Ins(at: nat, c: char) | Del(at: nat) | Sub(at: nat, c: char)

  predicate Applicable(x: string, e: Edit) {
    match e
    case Ins(i, _) => i <= |x|
    case Del(i) => i < |x|
    case Sub(i, _) => i < |x|
  }

  function Edited(x: string, e: Edit): string
    requires Applicable(x, e)
  {
    match e
    case Ins(i, c) => x[..i] + [c] + x[i..]
    case Del(i) => x[..i] + x[i + 1..]
    case Sub(i, c) => x[i := c]
  }

  /** Whether a script of edits leads from `x` to `y`. */
  predicate Leads(x: string, script: seq<Edit>, y: string)
    decreases |script|
  {
    if script == [] then x == y
    else Applicable(x, script[0]) && Leads(Edited(x, script[0]), script[1..], y)
  }

  // ----- the distance -----

  function Min(a: nat, b: nat): nat { if a <= b then a else b }

  function Init(s: string): string
    requires s != ""
  {
    s[..|s| - 1]
  }

  function Last(s: string): char
    requires s != ""
  {
    s[|s| - 1]
  }

  function Cost(c: char, d: char): nat { if c == d then 0 else 1 }

  /** The recurrence. */
  function Lev(a: string, b: string): nat
    decreases |a| + |b|
  {
    if a == "" then |b|
    else if b == "" then |a|
    else Min(Min(Lev(Init(a), b) + 1, Lev(a, Init(b)) + 1), Lev(Init(a), Init(b)) + Cost(Last(a), Last(b)))
  }

  lemma {:induction false} LevStep(a: string, b: string)
    requires a != "" && b != ""
    ensures Lev(a, b) == Min(Min(Lev(Init(a), b) + 1, Lev(a, Init(b)) + 1), Lev(Init(a), Init(b)) + Cost(Last(a), Last(b)))
  {}

  // ----- no script is shorter -----

  /** One more or one fewer last character costs at most one. */
  lemma {:induction false} LevLast(a: string, c: char, b: string)
    ensures Lev(a + [c], b) <= Lev(a, b) + 1
    ensures Lev(a, b) <= Lev(a + [c], b) + 1
    decreases |b|
  {
    assert Init(a + [c]) == a;
    if b != "" {
      LevLast(a, c, Init(b));
    }
  }

  /** On strings that end alike, what holds of every shorter pair carries over. */
  lemma {:induction false} LevSameLast(a: string, a': string, b: string)
    requires a != "" && a' != "" && Last(a) == Last(a')
    requires |a| <= |a'| + 1
    requires b != "" ==>
               && Lev(Init(a), b) <= Lev(Init(a'), b) + 1
               && Lev(a, Init(b)) <= Lev(a', Init(b)) + 1
               && Lev(Init(a), Init(b)) <= Lev(Init(a'), Init(b)) + 1
    ensures Lev(a, b) <= Lev(a', b) + 1
  {}

  lemma {:induction false} LevSub(a: string, c: char, b: string)
    requires a != ""
    requires b != "" ==> Lev(a, Init(b)) <= Lev(Init(a) + [c], Init(b)) + 1
    ensures Lev(a, b) <= Lev(Init(a) + [c], b) + 1
  {
    assert Init(Init(a) + [c]) == Init(a);
  }

  predicate AtLast(a: string, e: Edit)
    requires Applicable(a, e)
  {
    match e
    case Ins(i, _) => i == |a|
    case Del(i) => i == |a| - 1
    case Sub(i, _) => i == |a| - 1
  }

  lemma {:induction false} EditedBefore(a: string, e: Edit)
    requires Applicable(a, e) && !AtLast(a, e)
    ensures a != "" && Applicable(Init(a), e) && Edited(a, e) == Edited(Init(a), e) + [Last(a)]
  {}

  /** One edit changes the distance to any string by at most one. */
  lemma {:induction false} EditMovesByOne(a: string, e: Edit, b: string)
    requires Applicable(a, e)
    ensures Lev(a, b) <= Lev(Edited(a, e), b) + 1
    decreases |a| + |b|
  {
    if AtLast(a, e) {
      match e
      case Ins(i, c) =>
        assert Edited(a, e) == a + [c];
        LevLast(a, c, b);
      case Del(i) =>
        assert Edited(a, e) == Init(a) && a == Init(a) + [Last(a)];
        LevLast(Init(a), Last(a), b);
      case Sub(i, c) =>
        assert Edited(a, e) == Init(a) + [c];
        if b != "" { EditMovesByOne(a, e, Init(b)); }
        LevSub(a, c, b);
    } else {
      EditedBefore(a, e);
      var a' := Edited(a, e);
      assert Init(a') == Edited(Init(a), e);
      if b != "" {
        EditMovesByOne(Init(a), e, b);
        EditMovesByOne(a, e, Init(b));
        EditMovesByOne(Init(a), e, Init(b));
      }
      LevSameLast(a, a', b);
    }
  }

  lemma {:induction false} LevSelf(a: string)
    ensures Lev(a, a) == 0
    decreases |a|
  {
    if a != "" { LevSelf(Init(a)); }
  }

  /** No script from `a` to `b` is shorter than the distance. */
  lemma {:induction false} NoScriptShorter(a: string, script: seq<Edit>, b: string)
    requires Leads(a, script, b)
    ensures Lev(a, b) <= |script|
    decreases |script|
  {
    if script == [] {
      LevSelf(a);
    } else {
      EditMovesByOne(a, script[0], b);
      NoScriptShorter(Edited(a, script[0]), script[1..], b);
    }
  }

  // ----- a script of that length -----

  lemma {:induction false} LeadsThen(a: string, s: seq<Edit>, b: string, e: Edit)
    requires Leads(a, s, b) && Applicable(b, e)
    ensures Leads(a, s + [e], Edited(b, e))
    decreases |s|
  {
    if s == [] {
      assert (s + [e])[1..] == [];
    } else {
      assert (s + [e])[1..] == s[1..] + [e];
      LeadsThen(Edited(a, s[0]), s[1..], b, e);
    }
  }

  /** A script works as well in front of one more character. */
  lemma {:induction false} LeadsBefore(a: string, s: seq<Edit>, b: string, c: char)
    requires Leads(a, s, b)
    ensures Leads(a + [c], s, b + [c])
    decreases |s|
  {
    if s != [] {
      EditBefore(a, s[0], c);
      LeadsBefore(Edited(a, s[0]), s[1..], b, c);
    }
  }

  lemma {:induction false} EditBefore(a: string, e: Edit, c: char)
    requires Applicable(a, e)
    ensures Applicable(a + [c], e) && Edited(a + [c], e) == Edited(a, e) + [c]
  {}

  /** A shortest script, by the recurrence. */
  function Script(a: string, b: string): seq<Edit>
    decreases |a| + |b|
  {
    if a == "" && b == "" then []
    else if b == "" || (a != "" && Lev(a, b) == Lev(Init(a), b) + 1) then [Del(|a| - 1)] + Script(Init(a), b)
    else if a == "" || Lev(a, b) == Lev(a, Init(b)) + 1 then Script(a, Init(b)) + [Ins(|b| - 1, Last(b))]
    else Script(Init(a), Init(b)) + if Last(a) == Last(b) then [] else [Sub(|b| - 1, Last(b))]
  }

  lemma {:induction false} DeleteFirst(a: string, rest: seq<Edit>, b: string)
    requires a != "" && Leads(Init(a), rest, b)
    ensures Leads(a, [Del(|a| - 1)] + rest, b)
  {
    assert Edited(a, Del(|a| - 1)) == Init(a);
    assert ([Del(|a| - 1)] + rest)[1..] == rest;
  }

  lemma {:induction false} InsertLast(a: string, s: seq<Edit>, b: string)
    requires b != "" && Leads(a, s, Init(b))
    ensures Leads(a, s + [Ins(|b| - 1, Last(b))], b)
  {
    assert Edited(Init(b), Ins(|b| - 1, Last(b))) == b;
    LeadsThen(a, s, Init(b), Ins(|b| - 1, Last(b)));
  }

  lemma {:induction false} InitLast(a: string)
    requires a != ""
    ensures Init(a) + [Last(a)] == a
  {}

  lemma {:induction false} SubLast(a: string, x: char, y: char)
    ensures Edited(a + [x], Sub(|a|, y)) == a + [y]
  {}

  lemma {:induction false} ReplaceLast(a: string, s: seq<Edit>, b: string)
    requires a != "" && b != "" && Leads(Init(a), s, Init(b))
    ensures Last(a) == Last(b) ==> Leads(a, s, b)
    ensures Leads(a, s + [Sub(|b| - 1, Last(b))], b)
  {
    LeadsBefore(Init(a), s, Init(b), Last(a));
    InitLast(a);
    InitLast(b);
    SubLast(Init(b), Last(a), Last(b));
    LeadsThen(a, s, Init(b) + [Last(a)], Sub(|b| - 1, Last(b)));
  }

  /** There is a script as short as the distance. */
  lemma {:induction false} ScriptExists(a: string, b: string)
    ensures Leads(a, Script(a, b), b) && |Script(a, b)| == Lev(a, b)
    decreases |a| + |b|
  {
    if a == "" && b == "" {
    } else if b == "" || (a != "" && Lev(a, b) == Lev(Init(a), b) + 1) {
      ScriptExists(Init(a), b);
      DeleteFirst(a, Script(Init(a), b), b);
    } else if a == "" || Lev(a, b) == Lev(a, Init(b)) + 1 {
      ScriptExists(a, Init(b));
      InsertLast(a, Script(a, Init(b)), b);
    } else {
      ScriptExists(Init(a), Init(b));
      ReplaceLast(a, Script(Init(a), Init(b)), b);
      assert Script(Init(a), Init(b)) + [] == Script(Init(a), Init(b));
    }
  }

  /** Edit distance is exact: it is the least length of a script. */
  lemma {:induction false} LevIsLeast(a: string, b: string, n: nat)
    ensures (exists s :: Leads(a, s, b) && |s| == n) ==> Lev(a, b) <= n
    ensures exists s :: Leads(a, s, b) && |s| == Lev(a, b)
  {
    forall s | Leads(a, s, b) ensures Lev(a, b) <= |s| { NoScriptShorter(a, s, b); }
    ScriptExists(a, b);
  }

  // ----- the table -----

  /** What the table holds: the distance between two prefixes. */
  function Prefix(a: string, b: string, i: nat, j: nat): nat
    requires i <= |a| && j <= |b|
  {
    Lev(a[..i], b[..j])
  }

  lemma {:induction false} Entry(a: string, b: string, i: nat, j: nat)
    requires 0 < i <= |a| && 0 < j <= |b|
    ensures Prefix(a, b, i, j)
            == Min(Min(Prefix(a, b, i - 1, j) + 1, Prefix(a, b, i, j - 1) + 1),
                   Prefix(a, b, i - 1, j - 1) + Cost(a[i - 1], b[j - 1]))
  {
    var x, y := a[..i], b[..j];
    assert Init(x) == a[..i - 1] && Init(y) == b[..j - 1];
    LevStep(x, y);
  }

  /** The inner function: row by row, each entry from its three neighbours. */
  method Distance(a: string, b: string) returns (d: nat)
    ensures d == Lev(a, b)
  {
    var dp := new nat[|a| + 1, |b| + 1]((i, j) => if i == 0 && j >= 0 then j else if j == 0 && i >= 0 then i else 0);
    for i := 1 to |a| + 1
      invariant forall x, y :: 0 <= x < i && 0 <= y <= |b| ==> dp[x, y] == Prefix(a, b, x, y)
      invariant forall x :: 0 <= x <= |a| ==> dp[x, 0] == x
    {
      for j := 1 to |b| + 1
        invariant forall x, y :: 0 <= x < i && 0 <= y <= |b| ==> dp[x, y] == Prefix(a, b, x, y)
        invariant forall x :: 0 <= x <= |a| ==> dp[x, 0] == x
        invariant forall y :: 0 <= y < j ==> dp[i, y] == Prefix(a, b, i, y)
      {
        Entry(a, b, i, j);
        dp[i, j] := Min(Min(dp[i - 1, j] + 1, dp[i, j - 1] + 1), dp[i - 1, j - 1] + if a[i - 1] == b[j - 1] then 0 else 1);
      }
    }
    assert a[..|a|] == a && b[..|b|] == b;
    return dp[|a|, |b|];
  }

  // ----- the suggestion -----

  const MAX_SAFE_INTEGER := 9_007_199_254_740_991

  function Threshold(k: string): nat { if 2 >= |k| / 3 then 2 else |k| / 3 }

  /** Whether command `k` is within its own threshold of the input; `lower` is the lower-casing of a string. */
  predicate Close(input: string, k: string, lower: string -> string) {
    Score(input, k, lower) <= Threshold(k)
  }

  function Score(input: string, k: string, lower: string -> string): nat { Lev(lower(input), lower(k)) }

  /** Of the first `m` commands, number `n` is close, no close one is closer, and none before it is as close. */
  ghost predicate Suggested(input: string, known: seq<string>, lower: string -> string, n: nat, m: nat)
    requires n < m <= |known|
  {
    && Close(input, known[n], lower)
    && forall j :: 0 <= j < m && Close(input, known[j], lower) ==>
         && Score(input, known[n], lower) <= Score(input, known[j], lower)
         && (j < n ==> Score(input, known[n], lower) < Score(input, known[j], lower))
  }

  ghost predicate NoneClose(input: string, known: seq<string>, lower: string -> string, m: nat)
    requires m <= |known|
  {
    forall j :: 0 <= j < m ==> !Close(input, known[j], lower)
  }

  /**
   `suggestCommand`: the first command of least distance among those within their own thresholds, or
   nothing when there is none. A string has at most 2^53 - 1 elements (section 6.1.4 of ECMA-262).
   */
  method SuggestCommand(input: string, known: seq<string>, lower: string -> string) returns (best: Option<string>)
    requires forall k :: k in known ==> |k| <= MAX_SAFE_INTEGER
    ensures best.None? <==> NoneClose(input, known, lower, |known|)
    ensures best.Some? ==> exists n: nat :: n < |known| && known[n] == best.value && Suggested(input, known, lower, n, |known|)
  {
    best := None;
    var bestScore := MAX_SAFE_INTEGER;
    ghost var at: nat := 0;
    for i := 0 to |known|
      invariant best.None? ==> bestScore == MAX_SAFE_INTEGER && NoneClose(input, known, lower, i)
      invariant best.Some? ==> at < i && known[at] == best.value && Suggested(input, known, lower, at, i)
      invariant best.Some? ==> bestScore == Score(input, best.value, lower)
    {
      var k := known[i];
      var d := Distance(lower(input), lower(k));
      var threshold := if 2 >= |k| / 3 then 2 else |k| / 3;
      assert threshold == Threshold(k) < MAX_SAFE_INTEGER;
      if d <= threshold && d < bestScore {
        best, bestScore, at := Some(k), d, i;
      }
    }
    if best.Some? { assert Close(input, known[at], lower); }
  }
}
