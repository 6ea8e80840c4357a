/** The edit distance behind the "did you mean" suggestions (internal/util/suggestion_list.go). */
module LexicalDistance {

  // ---------------------------------------------------------------------------------------------
  // Alignments
  // ---------------------------------------------------------------------------------------------

  datatype Edit = Keep(c: char) | Substitute(x: char, y: char) | Delete(x: char) | Insert(y: char) | Swap(x: char, y: char)

  /** What an edit takes away, and what it puts there. */
  function From(e: Edit): string {
    match e
    case Keep(c) => [c]
    case Substitute(x, _) => [x]
    case Delete(x) => [x]
    case Insert(_) => ""
    case Swap(x, y) => [x, y]
  }

  function To(e: Edit): string {
    match e
    case Keep(c) => [c]
    case Substitute(_, y) => [y]
    case Delete(_) => ""
    case Insert(y) => [y]
    case Swap(x, y) => [y, x]
  }

  function Source(edits: seq<Edit>): string {
    if edits == [] then "" else Source(edits[..|edits| - 1]) + From(edits[|edits| - 1])
  }

  function Target(edits: seq<Edit>): string {
    if edits == [] then "" else Target(edits[..|edits| - 1]) + To(edits[|edits| - 1])
  }

  /** The number of edits that are not Keep. */
  function Cost(edits: seq<Edit>): nat {
    if edits == [] then 0 else Cost(edits[..|edits| - 1]) + if edits[|edits| - 1].Keep? then 0 else 1
  }

  /** The edits turn `a` into `b`. */
  predicate Aligns(edits: seq<Edit>, a: string, b: string) {
    Source(edits) == a && Target(edits) == b
  }

  // ---------------------------------------------------------------------------------------------
  // The recurrence
  // ---------------------------------------------------------------------------------------------

  function Min(x: int, y: int): int { if y < x then y else x }

  function Init(s: string): string
    requires s != ""
  {
    s[..|s| - 1]
  }

  function Last(s: string): char
    requires s != ""
  {
    s[|s| - 1]
  }

  /** The last two characters of `a` are those of `b` swapped. */
  predicate Swapped(a: string, b: string) {
    |a| > 1 && |b| > 1 && a[|a| - 1] == b[|b| - 2] && a[|a| - 2] == b[|b| - 1]
  }

  function Distance(a: string, b: string): nat
    decreases |a| + |b|
  {
    if b == "" then |a|
    else if a == "" then |b|
    else
      var cost := if Last(a) == Last(b) then 0 else 1;
      var min := Min(Min(Distance(Init(a), b) + 1, Distance(a, Init(b)) + 1), Distance(Init(a), Init(b)) + cost);
      if Swapped(a, b) then Min(min, Distance(a[..|a| - 2], b[..|b| - 2]) + cost) else min
  }

  /** The distance of two prefixes. */
  function At(a: string, b: string, i: nat, j: nat): nat
    requires i <= |a| && j <= |b|
  {
    Distance(a[..i], b[..j])
  }

  predicate Fits(d: array2<nat>, a: string, b: string) {
    d.Length0 == |a| + 1 && d.Length1 == |b| + 1
  }

  /** The first column, and the rows before `i`, hold the distances of the prefixes. */
  ghost predicate Filled(d: array2<nat>, a: string, b: string, i: nat)
    requires Fits(d, a, b) && i <= |a| + 1
    reads d
  {
    && (forall k | 0 <= k <= |a| :: d[k, 0] == At(a, b, k, 0))
    && (forall k, l | 0 <= k < i && 0 <= l <= |b| :: d[k, l] == At(a, b, k, l))
  }

  /** The table of lexicalDistance, row by row. */
  method FillTable(a: string, b: string) returns (distance: nat)
    ensures distance == Distance(a, b)
  {
    var d := new nat[|a| + 1, |b| + 1]((i, j) => 0);
    FillBorders(d, a, b);
    for i := 1 to |a| + 1
      invariant Filled(d, a, b, i)
    {
      FillRow(d, a, b, i);
    }
    assert a[..|a|] == a && b[..|b|] == b;
    distance := d[|a|, |b|];
  }

  method FillBorders(d: array2<nat>, a: string, b: string)
    requires Fits(d, a, b)
    modifies d
    ensures Filled(d, a, b, 1)
  {
    for i := 0 to |a| + 1
      invariant forall k | 0 <= k < i :: d[k, 0] == k
    {
      d[i, 0] := i;
    }
    for j := 1 to |b| + 1
      invariant forall k | 0 <= k <= |a| :: d[k, 0] == k
      invariant forall l | 0 <= l < j :: d[0, l] == l
    {
      d[0, j] := j;
    }
  }

  method FillRow(d: array2<nat>, a: string, b: string, i: nat)
    requires Fits(d, a, b) && 0 < i <= |a| && Filled(d, a, b, i)
    modifies d
    ensures Filled(d, a, b, i + 1)
  {
    for j := 1 to |b| + 1
      invariant Filled(d, a, b, i)
      invariant forall l | 0 <= l < j :: d[i, l] == At(a, b, i, l)
    {
      var swap := if i > 1 && j > 1 then d[i - 2, j - 2] else 0;
      var min := Cell(a, b, i, j, d[i - 1, j], d[i, j - 1], d[i - 1, j - 1], swap);
      d[i, j] := min;
    }
  }

  /** One cell of the table from those above it, before it and across. */
  method Cell(a: string, b: string, i: nat, j: nat, above: nat, before: nat, across: nat, swap: nat) returns (min: nat)
    requires 0 < i <= |a| && 0 < j <= |b|
    requires above == At(a, b, i - 1, j) && before == At(a, b, i, j - 1) && across == At(a, b, i - 1, j - 1)
    requires i > 1 && j > 1 ==> swap == At(a, b, i - 2, j - 2)
    ensures min == At(a, b, i, j)
  {
    Prefixes(a, b, i, j);
    var cost := 0;
    if a[i - 1] != b[j - 1] { cost := 1; }
    var x, y, z := above + 1, before + 1, across + cost;
    min := x;
    if y < min { min := y; }
    if z < min { min := z; }
    if i > 1 && j > 1 {
      if a[i - 1] == b[j - 2] && a[i - 2] == b[j - 1] {
        var w := swap + cost;
        if w < min { min := w; }
      }
    }
  }

  lemma Prefixes(a: string, b: string, i: nat, j: nat)
    requires 0 < i <= |a| && 0 < j <= |b|
    ensures Init(a[..i]) == a[..i - 1] && Init(b[..j]) == b[..j - 1] && Last(a[..i]) == a[i - 1] && Last(b[..j]) == b[j - 1]
    ensures i > 1 ==> a[..i][..i - 2] == a[..i - 2] && a[..i][i - 2] == a[i - 2]
    ensures j > 1 ==> b[..j][..j - 2] == b[..j - 2] && b[..j][j - 2] == b[j - 2]
  {
  }

  // ---------------------------------------------------------------------------------------------
  // The distance is the least cost of an alignment
  // ---------------------------------------------------------------------------------------------

  lemma Extend(edits: seq<Edit>, e: Edit)
    ensures Source(edits + [e]) == Source(edits) + From(e)
    ensures Target(edits + [e]) == Target(edits) + To(e)
    ensures Cost(edits + [e]) == Cost(edits) + if e.Keep? then 0 else 1
  {
    assert (edits + [e])[..|edits|] == edits;
  }

  lemma InitLast(s: string)
    requires s != ""
    ensures Init(s) + [Last(s)] == s
  {
  }

  /** No alignment is cheaper. */
  lemma {:induction false} DistanceIsLeast(edits: seq<Edit>)
    ensures Distance(Source(edits), Target(edits)) <= Cost(edits)
  {
    if edits != [] {
      var n := |edits| - 1;
      DistanceIsLeast(edits[..n]);
      LastEdit(Source(edits[..n]), Target(edits[..n]), edits[n]);
    }
  }

  /** One more edit raises the distance by its cost at most. */
  lemma LastEdit(a: string, b: string, e: Edit)
    ensures Distance(a + From(e), b + To(e)) <= Distance(a, b) + if e.Keep? then 0 else 1
  {
    assert a + "" == a && b + "" == b;
    match e
    case Keep(c) => assert Init(a + [c]) == a && Init(b + [c]) == b;
    case Substitute(x, y) => assert Init(a + [x]) == a && Init(b + [y]) == b;
    case Delete(x) => assert Init(a + [x]) == a;
    case Insert(y) => assert Init(b + [y]) == b;
    case Swap(x, y) =>
      assert (a + [x, y])[..|a|] == a && (b + [y, x])[..|b|] == b;
      assert Swapped(a + [x, y], b + [y, x]);
  }

  lemma {:induction false} DeleteAll(a: string) returns (edits: seq<Edit>)
    ensures Aligns(edits, a, "") && Cost(edits) == |a|
  {
    if a == "" {
      edits := [];
    } else {
      var before := DeleteAll(Init(a));
      edits := before + [Delete(Last(a))];
      Extend(before, Delete(Last(a)));
      InitLast(a);
    }
  }

  lemma {:induction false} InsertAll(b: string) returns (edits: seq<Edit>)
    ensures Aligns(edits, "", b) && Cost(edits) == |b|
  {
    if b == "" {
      edits := [];
    } else {
      var before := InsertAll(Init(b));
      edits := before + [Insert(Last(b))];
      Extend(before, Insert(Last(b)));
      InitLast(b);
    }
  }

  /** Some alignment costs no more than the distance. */
  lemma {:induction false} DistanceIsReached(a: string, b: string) returns (edits: seq<Edit>)
    ensures Aligns(edits, a, b) && Cost(edits) <= Distance(a, b)
    decreases |a| + |b|
  {
    if b == "" {
      edits := DeleteAll(a);
    } else if a == "" {
      edits := InsertAll(b);
    } else {
      var cost := if Last(a) == Last(b) then 0 else 1;
      if Distance(a, b) == Distance(Init(a), b) + 1 {
        var before := DistanceIsReached(Init(a), b);
        edits := Reached(before, Delete(Last(a)), a, b);
      } else if Distance(a, b) == Distance(a, Init(b)) + 1 {
        var before := DistanceIsReached(a, Init(b));
        edits := Reached(before, Insert(Last(b)), a, b);
      } else if Distance(a, b) == Distance(Init(a), Init(b)) + cost {
        var before := DistanceIsReached(Init(a), Init(b));
        edits := Reached(before, if cost == 0 then Keep(Last(a)) else Substitute(Last(a), Last(b)), a, b);
      } else {
        var before := DistanceIsReached(a[..|a| - 2], b[..|b| - 2]);
        edits := SwapIsReached(a, b, before);
      }
    }
  }

  /** One more edit at the end. */
  lemma Reached(before: seq<Edit>, e: Edit, a: string, b: string) returns (edits: seq<Edit>)
    requires a != "" && b != ""
    requires (e == Delete(Last(a)) && Aligns(before, Init(a), b)) || (e == Insert(Last(b)) && Aligns(before, a, Init(b)))
             || (e == Keep(Last(a)) && Last(a) == Last(b) && Aligns(before, Init(a), Init(b)))
             || (e == Substitute(Last(a), Last(b)) && Aligns(before, Init(a), Init(b)))
    ensures Aligns(edits, a, b) && Cost(edits) == Cost(before) + if e.Keep? then 0 else 1
  {
    edits := before + [e];
    Extend(before, e);
    InitLast(a);
    InitLast(b);
    assert a + "" == a && b + "" == b;
  }

  /** Two characters that are swapped; if they are equal they are kept. */
  lemma SwapIsReached(a: string, b: string, before: seq<Edit>) returns (edits: seq<Edit>)
    requires Swapped(a, b) && Aligns(before, a[..|a| - 2], b[..|b| - 2])
    ensures Aligns(edits, a, b) && Cost(edits) == Cost(before) + if Last(a) == Last(b) then 0 else 1
  {
    var x, y := a[|a| - 2], a[|a| - 1];
    LastTwo(a);
    LastTwo(b);
    if x == y {
      edits := before + [Keep(x)] + [Keep(x)];
      KeepTwo(before, x);
    } else {
      edits := before + [Swap(x, y)];
      Extend(before, Swap(x, y));
    }
  }

  lemma LastTwo(s: string)
    requires |s| > 1
    ensures s[..|s| - 2] + [s[|s| - 2], s[|s| - 1]] == s
  {
  }

  lemma KeepTwo(edits: seq<Edit>, c: char)
    ensures var longer := edits + [Keep(c)] + [Keep(c)];
            && Source(longer) == Source(edits) + [c, c] && Target(longer) == Target(edits) + [c, c] && Cost(longer) == Cost(edits)
  {
    Extend(edits, Keep(c));
    Extend(edits + [Keep(c)], Keep(c));
    assert Source(edits) + [c] + [c] == Source(edits) + [c, c] && Target(edits) + [c] + [c] == Target(edits) + [c, c];
  }

  /** The distance is the least cost of all alignments. */
  lemma DistanceIsOptimal(a: string, b: string)
    ensures exists edits :: Aligns(edits, a, b) && Cost(edits) == Distance(a, b)
    ensures forall edits | Aligns(edits, a, b) :: Distance(a, b) <= Cost(edits)
  {
    forall edits | Aligns(edits, a, b) ensures Distance(a, b) <= Cost(edits) {
      DistanceIsLeast(edits);
    }
    var edits := DistanceIsReached(a, b);
    DistanceIsLeast(edits);
  }

  /** The edits that turn `b` back into `a`. */
  function Inverse(edits: seq<Edit>): seq<Edit> {
    if edits == [] then []
    else Inverse(edits[..|edits| - 1]) + [Undo(edits[|edits| - 1])]
  }

  function Undo(e: Edit): Edit {
    match e
    case Keep(c) => Keep(c)
    case Substitute(x, y) => Substitute(y, x)
    case Delete(x) => Insert(x)
    case Insert(y) => Delete(y)
    case Swap(x, y) => Swap(y, x)
  }

  lemma UndoEdit(e: Edit)
    ensures From(Undo(e)) == To(e) && To(Undo(e)) == From(e) && (Undo(e).Keep? <==> e.Keep?)
  {
  }

  lemma {:induction false} InverseAligns(edits: seq<Edit>)
    ensures Aligns(Inverse(edits), Target(edits), Source(edits)) && Cost(Inverse(edits)) == Cost(edits)
  {
    if edits != [] {
      var n := |edits| - 1;
      InverseAligns(edits[..n]);
      Extend(Inverse(edits[..n]), Undo(edits[n]));
      UndoEdit(edits[n]);
    }
  }

  lemma DistanceIsSymmetric(a: string, b: string)
    ensures Distance(a, b) == Distance(b, a)
  {
    var edits := DistanceIsReached(a, b);
    InverseAligns(edits);
    DistanceIsLeast(Inverse(edits));
    var back := DistanceIsReached(b, a);
    InverseAligns(back);
    DistanceIsLeast(Inverse(back));
  }

  lemma {:induction false} CostBounds(edits: seq<Edit>)
    ensures |Source(edits)| - |Target(edits)| <= Cost(edits) && |Target(edits)| - |Source(edits)| <= Cost(edits)
    ensures Cost(edits) == 0 ==> Source(edits) == Target(edits)
  {
    if edits != [] {
      CostBounds(edits[..|edits| - 1]);
    }
  }

  lemma {:induction false} DistanceAtMost(a: string, b: string)
    ensures Distance(a, b) <= if |a| < |b| then |b| else |a|
    ensures a == b ==> Distance(a, b) == 0
    decreases |a| + |b|
  {
    if a != "" && b != "" {
      DistanceAtMost(Init(a), Init(b));
    }
  }

  /** The distance lies between the difference of the lengths and the greater length, and is zero for equal
      strings alone. */
  lemma DistanceBounds(a: string, b: string)
    ensures |a| - |b| <= Distance(a, b) && |b| - |a| <= Distance(a, b)
    ensures Distance(a, b) <= if |a| < |b| then |b| else |a|
    ensures Distance(a, b) == 0 <==> a == b
  {
    var edits := DistanceIsReached(a, b);
    DistanceIsLeast(edits);
    CostBounds(edits);
    DistanceAtMost(a, b);
  }

  // ---------------------------------------------------------------------------------------------
  // lexicalDistance and SuggestionList
  // ---------------------------------------------------------------------------------------------

  /** Any change of case counts as a single edit; `lower` is strings.ToLower. */
  function LexicalDistanceOf(lower: string -> string, a: string, b: string): nat {
    if a == b then 0 else if lower(a) == lower(b) then 1 else Distance(lower(a), lower(b))
  }

  method ComputeLexicalDistance(lower: string -> string, aStr: string, bStr: string) returns (distance: nat)
    ensures distance == LexicalDistanceOf(lower, aStr, bStr)
    ensures distance == 0 <==> aStr == bStr
  {
    if aStr == bStr { return 0; }
    var a, b := lower(aStr), lower(bStr);
    if a == b { return 1; }
    distance := FillTable(a, b);
    DistanceBounds(a, b);
  }

  /** lexicalDistance is symmetric, whatever the case mapping does. */
  lemma LexicalDistanceIsSymmetric(lower: string -> string, a: string, b: string)
    ensures LexicalDistanceOf(lower, a, b) == LexicalDistanceOf(lower, b, a)
  {
    DistanceIsSymmetric(lower(a), lower(b));
  }

  function Max(x: real, y: real): real { if x < y then y else x }

  /** The option is close enough to the input. */
  predicate Close(lower: string -> string, input: string, option: string) {
    LexicalDistanceOf(lower, input, option) as real
      <= Max(Max(|input| as real / 2.0, |option| as real / 2.0), 1.0)
  }

  function Filtered(lower: string -> string, input: string, options: seq<string>): seq<string> {
    if options == [] then []
    else
      var rest := Filtered(lower, input, options[..|options| - 1]);
      var last := options[|options| - 1];
      if Close(lower, input, last) then rest + [last] else rest
  }

  ghost predicate SortedBy(lower: string -> string, input: string, options: seq<string>) {
    forall i, j | 0 <= i < j < |options| ::
      LexicalDistanceOf(lower, input, options[i]) <= LexicalDistanceOf(lower, input, options[j])
  }

  /** The options that are close enough, the closest first. */
  method SuggestionList(lower: string -> string, input: string, options: seq<string>) returns (suggestions: seq<string>)
    ensures multiset(suggestions) == multiset(Filtered(lower, input, options))
    ensures SortedBy(lower, input, suggestions)
  {
    var filterOptions: seq<string> := [];
    var optionDistances: seq<nat> := [];
    for i := 0 to |options|
      invariant filterOptions == Filtered(lower, input, options[..i]) && |optionDistances| == |filterOptions|
      invariant forall k | 0 <= k < |filterOptions| :: optionDistances[k] == LexicalDistanceOf(lower, input, filterOptions[k])
    {
      var option := options[i];
      var distance := ComputeLexicalDistance(lower, input, option);
      var threshold := Max(Max(|input| as real / 2.0, |option| as real / 2.0), 1.0);
      assert options[..i + 1][..i] == options[..i];
      if distance as real <= threshold {
        filterOptions := filterOptions + [option];
        optionDistances := optionDistances + [distance];
      }
    }
    assert options[..|options|] == options;
    suggestions := Sorted(filterOptions, optionDistances, lower, input);
  }

  function SwapDown<T>(s: seq<T>, j: nat): (r: seq<T>)
    requires 0 < j < |s|
    ensures |r| == |s| && r[j - 1] == s[j] && r[j] == s[j - 1]
    ensures forall k | 0 <= k < |s| && k != j && k != j - 1 :: r[k] == s[k]
  {
    s[j := s[j - 1]][j - 1 := s[j]]
  }

  lemma SwapIsPermutation<T>(s: seq<T>, j: nat)
    requires 0 < j < |s|
    ensures multiset(SwapDown(s, j)) == multiset(s)
  {
    var r := SwapDown(s, j);
    assert s == s[..j - 1] + [s[j - 1], s[j]] + s[j + 1..];
    assert r == s[..j - 1] + [s[j], s[j - 1]] + s[j + 1..];
    SwapPair(s[..j - 1], s[j - 1], s[j], s[j + 1..]);
  }

  lemma SwapPair<T>(p: seq<T>, x: T, y: T, q: seq<T>)
    ensures multiset(p + [x, y] + q) == multiset(p + [y, x] + q)
  {
    assert multiset([x, y]) == multiset([y, x]);
    assert multiset(p + [x, y] + q) == multiset(p) + multiset([x, y]) + multiset(q);
    assert multiset(p + [y, x] + q) == multiset(p) + multiset([y, x]) + multiset(q);
  }

  /** Stands for sort.Sort: the two sequences are sorted together by swapping neighbours. */
  method Sorted(options: seq<string>, distances: seq<nat>, ghost lower: string -> string, ghost input: string)
    returns (r: seq<string>)
    requires |options| == |distances|
    requires forall k | 0 <= k < |options| :: distances[k] == LexicalDistanceOf(lower, input, options[k])
    ensures multiset(r) == multiset(options) && SortedBy(lower, input, r)
  {
    r := options;
    var d := distances;
    for i := 0 to |r|
      invariant |r| == |d| == |options| && multiset(r) == multiset(options)
      invariant forall k | 0 <= k < |r| :: d[k] == LexicalDistanceOf(lower, input, r[k])
      invariant forall k, l | 0 <= k < l < i :: d[k] <= d[l]
    {
      var j := i;
      while j > 0 && d[j] < d[j - 1]
        invariant 0 <= j <= i && |r| == |d| == |options| && multiset(r) == multiset(options)
        invariant forall k | 0 <= k < |r| :: d[k] == LexicalDistanceOf(lower, input, r[k])
        invariant forall k, l | 0 <= k < l <= i && l != j :: d[k] <= d[l]
      {
        SwapIsPermutation(r, j);
        r, d := SwapDown(r, j), SwapDown(d, j);
        j := j - 1;
      }
    }
  }
}
