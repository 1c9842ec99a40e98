/** Compiling context sections under a token budget. */
module ContextCompiler {
  import opened Ordering

  datatype Input = Input(kind: Id, id: Id, text: string, provenance: Option<Id>)

  datatype Section = Section(kind: Id, id: Id, text: string, tokens: nat, provenance: Option<Id>)

  datatype Bundle = Bundle(
    projectId: Id, workPackageId: Id, sections: seq<Section>, tokenBudget: nat, tokensUsed: nat, truncated: bool)

  const DEFAULT_MAX_TOKENS: nat := 8000
  const ELLIPSIS: string := "\U{2026}"

  /** Tokens are four runes each, the last one possibly short. */
  function EstimateTokens(text: string): (r: nat)
    ensures 4 * r >= |text| > 4 * r - 4
  {
    if |text| == 0 then 0 else (|text| + 3) / 4
  }

  lemma EstimateWithin(text: string, tokens: nat)
    ensures EstimateTokens(text) <= tokens <==> |text| <= 4 * tokens
  {
  }

  // ---- truncating a text ----

  /** Unicode white space. */
  predicate IsSpace(c: char) {
    var n := c as int;
    9 <= n <= 13 || n == 32 || n == 0x85 || n == 0xA0 || n == 0x1680 || 0x2000 <= n <= 0x200A
    || n == 0x2028 || n == 0x2029 || n == 0x202F || n == 0x205F || n == 0x3000
  }

  /** The white space characters one by one. */
  lemma SpacesAre(c: char)
    ensures IsSpace(c) <==>
              c in {'\t', '\n', '\U{000B}', '\U{000C}', '\r', ' ', '\U{0085}', '\U{00A0}', '\U{1680}', '\U{2000}',
                    '\U{2001}', '\U{2002}', '\U{2003}', '\U{2004}', '\U{2005}', '\U{2006}', '\U{2007}', '\U{2008}',
                    '\U{2009}', '\U{200A}', '\U{2028}', '\U{2029}', '\U{202F}', '\U{205F}', '\U{3000}'}
  {
  }

  function TrimLeft(s: string): string {
    if s != [] && IsSpace(s[0]) then TrimLeft(s[1..]) else s
  }

  function TrimRight(s: string): string {
    if s != [] && IsSpace(s[|s| - 1]) then TrimRight(s[..|s| - 1]) else s
  }

  /** What is left out at either end is white space, and what is left has none there. */
  lemma {:induction false} TrimLeftDrops(s: string)
    ensures |TrimLeft(s)| <= |s| && TrimLeft(s) == s[|s| - |TrimLeft(s)|..]
    ensures forall i :: 0 <= i < |s| - |TrimLeft(s)| ==> IsSpace(s[i])
    ensures TrimLeft(s) == [] || !IsSpace(TrimLeft(s)[0])
  {
    if s != [] && IsSpace(s[0]) {
      TrimLeftDrops(s[1..]);
      var t := TrimLeft(s[1..]);
      assert s[1..][|s[1..]| - |t|..] == s[|s| - |t|..];
      forall i | 0 <= i < |s| - |t| ensures IsSpace(s[i]) {
        assert i > 0 ==> s[i] == s[1..][i - 1];
      }
    }
  }

  lemma {:induction false} TrimRightDrops(s: string)
    ensures TrimRight(s) <= s
    ensures forall i :: |TrimRight(s)| <= i < |s| ==> IsSpace(s[i])
    ensures TrimRight(s) == [] || !IsSpace(TrimRight(s)[|TrimRight(s)| - 1])
  {
    if s != [] && IsSpace(s[|s| - 1]) {
      TrimRightDrops(s[..|s| - 1]);
    }
  }

  function TrimSpace(s: string): string {
    TrimRight(TrimLeft(s))
  }

  function TruncateToTokens(text: string, maxTokens: nat): string {
    if |text| <= maxTokens * 4 then text
    else if maxTokens * 4 <= 1 then ""
    else TrimSpace(text[..maxTokens * 4 - 1]) + ELLIPSIS
  }

  lemma TrimSpaceShrinks(s: string)
    ensures |TrimSpace(s)| <= |s|
    ensures s != [] && !IsSpace(s[0]) && !IsSpace(s[|s| - 1]) ==> TrimSpace(s) == s
  {
    TrimLeftDrops(s);
    TrimRightDrops(TrimLeft(s));
  }

  /** A text that is too long comes back shorter, not empty, within its tokens, and exactly filling
      them when there is no white space to trim at the cut or at the front. */
  lemma TruncationFits(text: string, maxTokens: nat)
    requires maxTokens > 0 && EstimateTokens(text) > maxTokens
    ensures var t := TruncateToTokens(text, maxTokens);
            && 0 < |t| < |text| && EstimateTokens(t) <= maxTokens
            && (!IsSpace(text[0]) && !IsSpace(text[maxTokens * 4 - 2]) ==> EstimateTokens(t) == maxTokens)
  {
    var n := maxTokens * 4;
    var cut := text[..n - 1];
    assert cut[0] == text[0] && cut[|cut| - 1] == text[n - 2];
    TrimSpaceShrinks(cut);
    assert |TruncateToTokens(text, maxTokens)| == |TrimSpace(cut)| + 1;
    EstimateWithin(TruncateToTokens(text, maxTokens), maxTokens);
  }

  /** t is the beginning of a text, cut one rune short of the tokens allowed and trimmed at both ends, and an
      ellipsis. */
  ghost predicate IsCutOf(t: string, text: string, maxTokens: nat) {
    exists i: nat, j: nat :: IsCutAt(t, text, maxTokens, i, j)
  }

  ghost predicate IsCutAt(t: string, text: string, maxTokens: nat, i: nat, j: nat) {
    && i <= j <= 4 * maxTokens - 1 <= |text| && t == text[i..j] + "\U{2026}"
    && (forall m :: 0 <= m < i || j <= m < 4 * maxTokens - 1 ==> IsSpace(text[m]))
    && (i < j ==> !IsSpace(text[i]) && !IsSpace(text[j - 1]))
  }

  lemma TruncationCuts(text: string, maxTokens: nat)
    requires maxTokens > 0 && |text| > 4 * maxTokens
    ensures IsCutOf(TruncateToTokens(text, maxTokens), text, maxTokens)
  {
    var cut := text[..maxTokens * 4 - 1];
    var left := TrimLeft(cut);
    var p := TrimRight(left);
    TrimLeftDrops(cut);
    TrimRightDrops(left);
    var i: nat := |cut| - |left|;
    var j: nat := i + |p|;
    assert text[i..j] == p;
    forall m | 0 <= m < i || j <= m < 4 * maxTokens - 1 ensures IsSpace(text[m]) {
      if m < i {
        assert text[m] == cut[m];
      } else {
        assert text[m] == left[m - i];
      }
    }
    assert i < j ==> p[0] == left[0] == text[i] && p[|p| - 1] == text[j - 1];
    assert IsCutAt(TruncateToTokens(text, maxTokens), text, maxTokens, i, j);
  }

  // ---- filling the budget ----

  datatype Filled = Filled(sections: seq<Section>, used: nat, truncated: bool)

  function Whole(input: Input): Section {
    Section(input.kind, input.id, input.text, EstimateTokens(input.text), input.provenance)
  }

  function Cut(input: Input, tokens: nat): Section {
    var text := TruncateToTokens(input.text, tokens);
    Section(input.kind, input.id, text, EstimateTokens(text), input.provenance)
  }

  /** One input offered to what is filled so far; the second result says whether to go on. */
  function Offer(f: Filled, input: Input, budget: nat): (Filled, bool) {
    var tokens := EstimateTokens(input.text);
    if input.text == "" then (f, true)
    else if f.used + tokens <= budget then (Filled(f.sections + [Whole(input)], f.used + tokens, f.truncated), true)
    else if budget <= f.used then (f.(truncated := true), false)
    else if TruncateToTokens(input.text, budget - f.used) == "" then (f.(truncated := true), false)
    else
      var cut := Cut(input, budget - f.used);
      (Filled(f.sections + [cut], f.used + cut.tokens, true), false)
  }

  function FillFrom(f: Filled, sorted: seq<Input>, budget: nat): Filled
    decreases sorted
  {
    if sorted == [] then f
    else
      var (next, on) := Offer(f, sorted[0], budget);
      if on then FillFrom(next, sorted[1..], budget) else next
  }

  const NOTHING: Filled := Filled([], 0, false)

  function NonEmpty(s: seq<Input>): (r: seq<Input>)
    ensures forall x :: x in r <==> x in s && x.text != ""
  {
    if s == [] then [] else (if s[0].text == "" then [] else [s[0]]) + NonEmpty(s[1..])
  }

  function Wholes(s: seq<Input>): (r: seq<Section>)
    ensures |r| == |s| && forall i :: 0 <= i < |s| ==> r[i] == Whole(s[i])
  {
    seq(|s|, i requires 0 <= i < |s| => Whole(s[i]))
  }

  /** What the first k inputs cost. */
  function Cost(s: seq<Input>, k: nat): nat
    requires k <= |s|
  {
    if k == 0 then 0 else Cost(s, k - 1) + EstimateTokens(s[k - 1].text)
  }

  function TokensOf(s: seq<Section>): nat {
    if s == [] then 0 else TokensOf(s[..|s| - 1]) + s[|s| - 1].tokens
  }

  /** k is the length of the longest prefix that fits. */
  ghost predicate LongestFit(s: seq<Input>, budget: nat, k: nat) {
    k <= |s| && Cost(s, k) <= budget && (k < |s| ==> Cost(s, k + 1) > budget)
  }

  /** What a fill should be, given the inputs that have any text and how many of them fit whole. */
  ghost predicate FillIs(f: Filled, s: seq<Input>, budget: nat, k: nat)
    requires k <= |s|
  {
    if k == |s| then f == Filled(Wholes(s), Cost(s, k), false)
    else if Cost(s, k) == budget then f == Filled(Wholes(s[..k]), budget, true)
    else Cost(s, k) < budget
         && f == Filled(Wholes(s[..k]) + [Cut(s[k], budget - Cost(s, k))],
                        Cost(s, k) + Cut(s[k], budget - Cost(s, k)).tokens, true)
  }

  lemma {:induction false} CostOfPrefix(s: seq<Input>, n: nat, k: nat)
    requires k <= n <= |s|
    ensures Cost(s[..n], k) == Cost(s, k)
  {
    if k > 0 {
      CostOfPrefix(s, n, k - 1);
    }
  }

  lemma {:induction false} CostGrows(s: seq<Input>, j: nat, k: nat)
    requires j <= k <= |s| && forall x :: x in s ==> x.text != ""
    ensures Cost(s, j) + k - j <= Cost(s, k)
    decreases k
  {
    if j < k {
      CostGrows(s, j, k - 1);
      assert s[k - 1] in s;
    }
  }

  /** There is only one longest fitting prefix. */
  lemma LongestFitUnique(s: seq<Input>, budget: nat, j: nat, k: nat)
    requires LongestFit(s, budget, j) && LongestFit(s, budget, k) && forall x :: x in s ==> x.text != ""
    ensures j == k
  {
    if j < k {
      CostGrows(s, j + 1, k);
    } else if k < j {
      CostGrows(s, k + 1, j);
    }
  }

  lemma WholesOneMore(s: seq<Input>, n: nat)
    requires n < |s|
    ensures Wholes(s[..n + 1]) == Wholes(s[..n]) + [Whole(s[n])]
  {
  }

  /** The state of a fill after n whole inputs. */
  function After(s: seq<Input>, n: nat): Filled
    requires n <= |s|
  {
    Filled(Wholes(s[..n]), Cost(s, n), false)
  }

  lemma FillGoesOn(s: seq<Input>, rest: seq<Input>, n: nat, budget: nat)
    requires n < |s| && rest != [] && rest[0] == s[n] && s[n].text != "" && Cost(s, n + 1) <= budget
    ensures FillFrom(After(s, n), rest, budget) == FillFrom(After(s, n + 1), rest[1..], budget)
  {
    WholesOneMore(s, n);
    assert Offer(After(s, n), rest[0], budget) == (After(s, n + 1), true);
  }

  lemma FillStopsFull(s: seq<Input>, rest: seq<Input>, n: nat, budget: nat)
    requires n < |s| && rest != [] && rest[0] == s[n] && s[n].text != "" && Cost(s, n) == budget
    ensures FillIs(FillFrom(After(s, n), rest, budget), s, budget, n)
  {
    assert Offer(After(s, n), rest[0], budget) == (Filled(Wholes(s[..n]), budget, true), false);
  }

  lemma FillStopsCutting(s: seq<Input>, rest: seq<Input>, n: nat, budget: nat)
    requires n < |s| && rest != [] && rest[0] == s[n] && s[n].text != "" && Cost(s, n) < budget < Cost(s, n + 1)
    ensures FillIs(FillFrom(After(s, n), rest, budget), s, budget, n)
  {
    TruncationFits(s[n].text, budget - Cost(s, n));
    var cut := Cut(s[n], budget - Cost(s, n));
    assert Offer(After(s, n), rest[0], budget) == (Filled(Wholes(s[..n]) + [cut], Cost(s, n) + cut.tokens, true),
                                                   false);
  }

  lemma FillSkips(f: Filled, rest: seq<Input>, budget: nat)
    requires rest != [] && rest[0].text == ""
    ensures NonEmpty(rest) == NonEmpty(rest[1..]) && FillFrom(f, rest, budget) == FillFrom(f, rest[1..], budget)
  {
    assert [] + NonEmpty(rest[1..]) == NonEmpty(rest[1..]);
  }

  lemma NextOfNonEmpty(s: seq<Input>, rest: seq<Input>, n: nat)
    requires n <= |s| && rest != [] && rest[0].text != "" && NonEmpty(rest) == s[n..]
    ensures n < |s| && rest[0] == s[n] && NonEmpty(rest[1..]) == s[n + 1..]
  {
    assert NonEmpty(rest)[0] == rest[0] && NonEmpty(rest)[1..] == NonEmpty(rest[1..]);
  }

  /** Filling after n whole inputs ends with the longest fitting prefix. */
  lemma {:induction false} FillReaches(s: seq<Input>, rest: seq<Input>, n: nat, budget: nat) returns (k: nat)
    requires n <= |s| && NonEmpty(rest) == s[n..] && Cost(s, n) <= budget && forall x :: x in s ==> x.text != ""
    ensures LongestFit(s, budget, k) && FillIs(FillFrom(After(s, n), rest, budget), s, budget, k)
    decreases rest
  {
    if rest == [] {
      k := n;
      assert s[..n] == s;
    } else if rest[0].text == "" {
      FillSkips(After(s, n), rest, budget);
      k := FillReaches(s, rest[1..], n, budget);
    } else {
      NextOfNonEmpty(s, rest, n);
      if Cost(s, n + 1) <= budget {
        FillGoesOn(s, rest, n, budget);
        k := FillReaches(s, rest[1..], n + 1, budget);
      } else {
        k := n;
        if Cost(s, n) == budget {
          FillStopsFull(s, rest, n, budget);
        } else {
          FillStopsCutting(s, rest, n, budget);
        }
      }
    }
  }

  lemma {:induction false} TokensOfWholes(s: seq<Input>, k: nat)
    requires k <= |s|
    ensures TokensOf(Wholes(s[..k])) == Cost(s, k)
  {
    if k > 0 {
      TokensOfWholes(s, k - 1);
      WholesOneMore(s, k - 1);
      assert Wholes(s[..k])[..k - 1] == Wholes(s[..k - 1]);
    }
  }

  /** f keeps to the budget: its use is the sum over its sections and within the budget, its sections
      are the k first inputs whole and at most one more cut to what is left, and it counts as truncated
      exactly when some input is not in it whole. */
  /** A section carries what identifies its input, and as many tokens as its text needs. */
  predicate StandsFor(x: Section, input: Input) {
    && x.kind == input.kind && x.id == input.id && x.provenance == input.provenance
    && 4 * x.tokens >= |x.text| > 4 * x.tokens - 4
  }

  ghost predicate MeetsBudget(f: Filled, s: seq<Input>, budget: nat, k: nat)
    requires k <= |s| && Cost(s, k) <= budget
  {
    && f.used == TokensOf(f.sections) <= budget
    && k <= |f.sections| <= k + 1 && f.sections[..k] == Wholes(s[..k])
    && (f.truncated <==> k < |s|)
    && (|f.sections| == k + 1 <==> k < |s| && Cost(s, k) < budget)
    && (forall i :: 0 <= i < k ==> StandsFor(f.sections[i], s[i]) && f.sections[i].text == s[i].text)
    && (|f.sections| == k + 1 ==> && StandsFor(f.sections[k], s[k])
                                  && IsCutOf(f.sections[k].text, s[k].text, budget - Cost(s, k))
                                  && f.sections[k].text != s[k].text
                                  && 0 < f.sections[k].tokens <= budget - Cost(s, k))
  }

  lemma CutFits(input: Input, tokens: nat)
    requires 0 < tokens < EstimateTokens(input.text)
    ensures var x := Cut(input, tokens);
            StandsFor(x, input) && IsCutOf(x.text, input.text, tokens) && x.text != input.text && 0 < x.tokens <= tokens
  {
    TruncationFits(input.text, tokens);
    EstimateWithin(input.text, tokens);
    TruncationCuts(input.text, tokens);
  }

  lemma FillIsMeetsBudget(f: Filled, s: seq<Input>, budget: nat, k: nat)
    requires LongestFit(s, budget, k) && FillIs(f, s, budget, k) && forall x :: x in s ==> x.text != ""
    ensures MeetsBudget(f, s, budget, k)
  {
    TokensOfWholes(s, k);
    assert s[..|s|] == s;
    if k < |s| && Cost(s, k) < budget {
      CutFits(s[k], budget - Cost(s, k));
      assert f.sections[..|f.sections| - 1] == Wholes(s[..k]);
    } else {
      assert f.sections == Wholes(s[..k]);
    }
  }

  /** Every fill takes the longest fitting prefix of the inputs with text, and keeps to the budget. */
  lemma FillMeetsBudget(sorted: seq<Input>, budget: nat) returns (k: nat)
    ensures LongestFit(NonEmpty(sorted), budget, k)
    ensures MeetsBudget(FillFrom(NOTHING, sorted, budget), NonEmpty(sorted), budget, k)
  {
    var s := NonEmpty(sorted);
    assert Wholes(s[..0]) == [] && s[0..] == s;
    assert After(s, 0) == NOTHING;
    k := FillReaches(s, sorted, 0, budget);
    FillIsMeetsBudget(FillFrom(NOTHING, sorted, budget), s, budget, k);
  }

  /** A larger budget never loses a whole section. */
  lemma LargerBudgetKeepsMore(s: seq<Input>, small: nat, large: nat, j: nat, k: nat)
    requires small <= large && LongestFit(s, small, j) && LongestFit(s, large, k) && forall x :: x in s ==> x.text != ""
    ensures j <= k
  {
    if k < j {
      CostGrows(s, k + 1, j);
    }
  }

  // ---- sorting the inputs ----

  predicate NotAfter(a: Input, b: Input) {
    a.kind < b.kind || (a.kind == b.kind && a.id <= b.id)
  }

  ghost predicate InKeyOrder(s: seq<Input>) {
    forall i, j :: 0 <= i < j < |s| ==> NotAfter(s[i], s[j])
  }

  /** What an unstable sort may leave: any arrangement of the inputs in key order. */
  ghost predicate Arranges(sorted: seq<Input>, inputs: seq<Input>) {
    InKeyOrder(sorted) && multiset(sorted) == multiset(inputs)
  }

  function InsertInput(x: Input, s: seq<Input>): (r: seq<Input>)
    ensures forall y :: y in r <==> y == x || y in s
  {
    if s == [] || NotAfter(x, s[0]) then [x] + s else [s[0]] + InsertInput(x, s[1..])
  }

  function SortInputs(s: seq<Input>): seq<Input> {
    if s == [] then [] else InsertInput(s[0], SortInputs(s[1..]))
  }

  lemma {:induction false} InsertKeepsInputs(x: Input, s: seq<Input>)
    ensures multiset(InsertInput(x, s)) == multiset(s) + multiset{x}
  {
    if s == [] || NotAfter(x, s[0]) {
      assert multiset([x] + s) == multiset{x} + multiset(s);
    } else {
      InsertKeepsInputs(x, s[1..]);
      SplitFirst(s);
      assert InsertInput(x, s)[1..] == InsertInput(x, s[1..]);
      SplitFirst(InsertInput(x, s));
    }
  }

  lemma {:induction false} InsertKeepsOrder(x: Input, s: seq<Input>)
    requires InKeyOrder(s)
    ensures InKeyOrder(InsertInput(x, s))
  {
    if s != [] && !NotAfter(x, s[0]) {
      InsertKeepsOrder(x, s[1..]);
      var rest := InsertInput(x, s[1..]);
      forall j | 0 <= j < |rest| ensures NotAfter(s[0], rest[j]) {
        assert rest[j] in rest;
      }
    }
  }

  lemma {:induction false} SortArranges(s: seq<Input>)
    ensures Arranges(SortInputs(s), s)
  {
    if s != [] {
      SortArranges(s[1..]);
      InsertKeepsOrder(s[0], SortInputs(s[1..]));
      InsertKeepsInputs(s[0], SortInputs(s[1..]));
      SplitFirst(s);
    }
  }

  /** Inputs with the same kind and identifier are the same input. */
  ghost predicate KeysDecide(s: seq<Input>) {
    forall x, y :: x in s && y in s && x.kind == y.kind && x.id == y.id ==> x == y
  }

  lemma SameLeast(a: seq<Input>, b: seq<Input>)
    requires InKeyOrder(a) && InKeyOrder(b) && multiset(a) == multiset(b) && KeysDecide(a) && a != []
    ensures b != [] && a[0] == b[0]
  {
    SameMultisetSameElements(a, b);
    assert a[0] in Elements(b) && b[0] in Elements(a);
    assert NotAfter(a[0], b[0]) && NotAfter(b[0], a[0]);
  }

  lemma {:induction false} ArrangementUnique(a: seq<Input>, b: seq<Input>)
    requires InKeyOrder(a) && InKeyOrder(b) && multiset(a) == multiset(b) && KeysDecide(a)
    ensures a == b
    decreases |a|
  {
    if a == [] {
      assert |multiset(b)| == 0;
    } else {
      SameLeast(a, b);
      SplitFirst(a);
      SplitFirst(b);
      assert multiset(a[1..]) == multiset(a) - multiset{a[0]};
      assert multiset(b[1..]) == multiset(b) - multiset{b[0]};
      ArrangementUnique(a[1..], b[1..]);
    }
  }

  // ---- compiling ----

  function Budget(maxTokens: int): (r: nat)
    ensures r > 0
  {
    if maxTokens <= 0 then DEFAULT_MAX_TOKENS else maxTokens
  }

  function BundleOf(maxTokens: int, projectId: Id, workPackageId: Id, sorted: seq<Input>): Bundle {
    var f := FillFrom(NOTHING, sorted, Budget(maxTokens));
    Bundle(projectId, workPackageId, f.sections, Budget(maxTokens), f.used, f.truncated)
  }

  /** Inputs without text leave no trace in a fill. */
  lemma {:induction false} FillOfNonEmpty(f: Filled, sorted: seq<Input>, budget: nat)
    ensures FillFrom(f, sorted, budget) == FillFrom(f, NonEmpty(sorted), budget)
    decreases sorted
  {
    if sorted != [] {
      var (next, on) := Offer(f, sorted[0], budget);
      FillOfNonEmpty(next, sorted[1..], budget);
      if sorted[0].text == "" {
        assert NonEmpty(sorted) == NonEmpty(sorted[1..]);
      } else {
        assert NonEmpty(sorted)[0] == sorted[0] && NonEmpty(sorted)[1..] == NonEmpty(sorted[1..]);
      }
    }
  }

  lemma {:induction false} NonEmptyCounts(s: seq<Input>, x: Input)
    ensures multiset(NonEmpty(s))[x] == if x.text == "" then 0 else multiset(s)[x]
  {
    if s != [] {
      NonEmptyCounts(s[1..], x);
      SplitFirst(s);
      if s[0].text == "" {
        assert NonEmpty(s) == NonEmpty(s[1..]);
      } else {
        assert NonEmpty(s) == [s[0]] + NonEmpty(s[1..]);
        SplitFirst(NonEmpty(s));
      }
    }
  }

  lemma {:induction false} NonEmptyInOrder(s: seq<Input>)
    requires InKeyOrder(s)
    ensures InKeyOrder(NonEmpty(s))
  {
    if s != [] {
      NonEmptyInOrder(s[1..]);
      var rest := NonEmpty(s[1..]);
      forall j | 0 <= j < |rest| ensures NotAfter(s[0], rest[j]) {
        assert rest[j] in rest;
      }
      assert NonEmpty(s) == if s[0].text == "" then rest else [s[0]] + rest;
    }
  }

  lemma SameNonEmpty(a: seq<Input>, b: seq<Input>)
    requires multiset(a) == multiset(b)
    ensures multiset(NonEmpty(a)) == multiset(NonEmpty(b))
  {
    forall x ensures multiset(NonEmpty(a))[x] == multiset(NonEmpty(b))[x] {
      NonEmptyCounts(a, x);
      NonEmptyCounts(b, x);
    }
  }

  /** However the inputs come and however the sort breaks its ties, the bundle is the same when the
      inputs with text are decided by their kind and identifier. */
  lemma InputOrderIrrelevant(maxTokens: int, projectId: Id, workPackageId: Id,
                             a: seq<Input>, b: seq<Input>, sortedA: seq<Input>, sortedB: seq<Input>)
    requires multiset(a) == multiset(b) && KeysDecide(NonEmpty(a)) && Arranges(sortedA, a) && Arranges(sortedB, b)
    ensures BundleOf(maxTokens, projectId, workPackageId, sortedA)
        == BundleOf(maxTokens, projectId, workPackageId, sortedB)
  {
    SameNonEmpty(a, sortedA);
    SameNonEmpty(sortedA, sortedB);
    NonEmptyInOrder(sortedA);
    NonEmptyInOrder(sortedB);
    SameMultisetSameElements(NonEmpty(a), NonEmpty(sortedA));
    forall x | x in NonEmpty(sortedA) ensures x in NonEmpty(a) {
      assert x in Elements(NonEmpty(sortedA));
    }
    ArrangementUnique(NonEmpty(sortedA), NonEmpty(sortedB));
    FillOfNonEmpty(NOTHING, sortedA, Budget(maxTokens));
    FillOfNonEmpty(NOTHING, sortedB, Budget(maxTokens));
  }

  // ---- ties ----

  lemma {:induction false} FitsWhole(s: seq<Input>, budget: nat)
    requires Cost(NonEmpty(s), |NonEmpty(s)|) <= budget
    ensures FillFrom(NOTHING, s, budget).sections == Wholes(NonEmpty(s))
  {
    var all := NonEmpty(s);
    assert all[..0] == [] && all[0..] == all;
    assert After(all, 0) == NOTHING;
    var k := FillReaches(all, s, 0, budget);
    LongestFitUnique(all, budget, k, |all|);
  }

  lemma {:induction false} NonEmptyConcat(a: seq<Input>, b: seq<Input>)
    ensures NonEmpty(a + b) == NonEmpty(a) + NonEmpty(b)
  {
    if a == [] {
      assert a + b == b;
    } else {
      assert (a + b)[0] == a[0] && (a + b)[1..] == a[1..] + b;
      NonEmptyConcat(a[1..], b);
      ConcatAssociates(if a[0].text == "" then [] else [a[0]], NonEmpty(a[1..]), NonEmpty(b));
    }
  }

  /** The place an input with text takes among the inputs with text. */
  lemma PlaceAmongNonEmpty(s: seq<Input>, i: nat)
    requires i < |s| && s[i].text != ""
    ensures var k := |NonEmpty(s[..i])|; k < |NonEmpty(s)| && NonEmpty(s)[k] == s[i]
  {
    assert s == s[..i] + s[i..];
    NonEmptyConcat(s[..i], s[i..]);
    assert NonEmpty(s[i..])[0] == s[i];
  }

  /** Swapping two inputs under one key gives another arrangement. */
  lemma SwapArranges(sorted: seq<Input>, inputs: seq<Input>, i: nat, j: nat)
    requires Arranges(sorted, inputs) && i < j < |sorted|
    requires sorted[i].kind == sorted[j].kind && sorted[i].id == sorted[j].id
    ensures Arranges(sorted[i := sorted[j]][j := sorted[i]], inputs)
  {
    var swapped := sorted[i := sorted[j]][j := sorted[i]];
    forall m, n | 0 <= m < n < |swapped| ensures NotAfter(swapped[m], swapped[n]) {
      assert NotAfter(sorted[m], sorted[n]);
    }
    assert multiset(swapped) == multiset(sorted);
  }

  /** Two arrangements that agree up to a place and have different inputs with text there. */
  lemma DifferentAt(a: seq<Input>, b: seq<Input>, i: nat)
    requires i < |a| && i < |b| && a[..i] == b[..i] && a[i].text != "" && b[i].text != "" && a[i] != b[i]
    ensures Wholes(NonEmpty(a)) != Wholes(NonEmpty(b))
  {
    PlaceAmongNonEmpty(a, i);
    PlaceAmongNonEmpty(b, i);
    var k := |NonEmpty(a[..i])|;
    assert Wholes(NonEmpty(a))[k] == Whole(a[i]) && Wholes(NonEmpty(b))[k] == Whole(b[i]);
    assert Whole(a[i]) != Whole(b[i]);
  }

  lemma TieInSorted(inputs: seq<Input>, x: Input, y: Input) returns (i: nat, j: nat)
    requires x in inputs && y in inputs && x != y
    ensures var sorted := SortInputs(inputs);
            i < j < |sorted| && ((sorted[i] == x && sorted[j] == y) || (sorted[i] == y && sorted[j] == x))
  {
    var sorted := SortInputs(inputs);
    SortArranges(inputs);
    SameMultisetSameElements(sorted, inputs);
    assert x in Elements(sorted) && y in Elements(sorted);
    i :| 0 <= i < |sorted| && sorted[i] == x;
    j :| 0 <= j < |sorted| && sorted[j] == y;
    if j < i {
      i, j := j, i;
    }
  }

  /** Two different inputs with text under one key: some budget shows how the sort broke the tie. */
  lemma TieShows(inputs: seq<Input>, x: Input, y: Input, projectId: Id, workPackageId: Id)
    returns (maxTokens: int, a: seq<Input>, b: seq<Input>)
    requires x in NonEmpty(inputs) && y in NonEmpty(inputs) && x != y && x.kind == y.kind && x.id == y.id
    ensures Arranges(a, inputs) && Arranges(b, inputs)
    ensures BundleOf(maxTokens, projectId, workPackageId, a) != BundleOf(maxTokens, projectId, workPackageId, b)
  {
    a := SortInputs(inputs);
    SortArranges(inputs);
    var i, j := TieInSorted(inputs, x, y);
    b := a[i := a[j]][j := a[i]];
    SwapArranges(a, inputs, i, j);
    maxTokens := Cost(NonEmpty(a), |NonEmpty(a)|) + Cost(NonEmpty(b), |NonEmpty(b)|) + 1;
    DifferentBundles(a, b, i, maxTokens, projectId, workPackageId);
  }

  /** A budget that everything fits shows the first place where two arrangements differ. */
  lemma DifferentBundles(a: seq<Input>, b: seq<Input>, i: nat, maxTokens: int, projectId: Id, workPackageId: Id)
    requires i < |a| && i < |b| && a[..i] == b[..i] && a[i].text != "" && b[i].text != "" && a[i] != b[i]
    requires maxTokens > Cost(NonEmpty(a), |NonEmpty(a)|) && maxTokens > Cost(NonEmpty(b), |NonEmpty(b)|)
    ensures BundleOf(maxTokens, projectId, workPackageId, a) != BundleOf(maxTokens, projectId, workPackageId, b)
  {
    DifferentAt(a, b, i);
    FitsWhole(a, maxTokens);
    FitsWhole(b, maxTokens);
  }

  /** Every budget and every way to break ties give one bundle. */
  ghost predicate OneBundle(inputs: seq<Input>, projectId: Id, workPackageId: Id) {
    forall maxTokens, a, b :: Arranges(a, inputs) && Arranges(b, inputs) ==>
      BundleOf(maxTokens, projectId, workPackageId, a) == BundleOf(maxTokens, projectId, workPackageId, b)
  }

  /** The exact condition: kind and identifier decide the inputs that have text. */
  lemma OneBundleIff(inputs: seq<Input>, projectId: Id, workPackageId: Id)
    ensures OneBundle(inputs, projectId, workPackageId) <==> KeysDecide(NonEmpty(inputs))
  {
    if KeysDecide(NonEmpty(inputs)) {
      forall maxTokens, a, b | Arranges(a, inputs) && Arranges(b, inputs)
        ensures BundleOf(maxTokens, projectId, workPackageId, a) == BundleOf(maxTokens, projectId, workPackageId, b)
      {
        InputOrderIrrelevant(maxTokens, projectId, workPackageId, inputs, inputs, a, b);
      }
    } else {
      var x, y :| x in NonEmpty(inputs) && y in NonEmpty(inputs) && x.kind == y.kind && x.id == y.id && x != y;
      var maxTokens, a, b := TieShows(inputs, x, y, projectId, workPackageId);
    }
  }

  lemma OfferNext(f: Filled, rest: seq<Input>, budget: nat)
    requires rest != []
    ensures var (next, on) := Offer(f, rest[0], budget);
            FillFrom(f, rest, budget) == if on then FillFrom(next, rest[1..], budget) else next
  {
  }

  method Fill(sorted: seq<Input>, budget: nat) returns (sections: seq<Section>, used: nat, truncated: bool)
    ensures Filled(sections, used, truncated) == FillFrom(NOTHING, sorted, budget)
  {
    sections, used, truncated := [], 0, false;
    var i := 0;
    ghost var goal := FillFrom(NOTHING, sorted, budget);
    assert sorted[0..] == sorted;
    while i < |sorted|
      invariant 0 <= i <= |sorted| && used <= budget && !truncated
      invariant FillFrom(Filled(sections, used, truncated), sorted[i..], budget) == goal
    {
      var input := sorted[i];
      assert sorted[i..][0] == input && sorted[i..][1..] == sorted[i + 1..];
      OfferNext(Filled(sections, used, truncated), sorted[i..], budget);
      i := i + 1;
      if input.text == "" {
        continue;
      }
      var tokens := EstimateTokens(input.text);
      if used + tokens <= budget {
        sections := sections + [Section(input.kind, input.id, input.text, tokens, input.provenance)];
        used := used + tokens;
        continue;
      }
      var remaining := budget - used;
      if remaining <= 0 {
        truncated := true;
        break;
      }
      var text := TruncateToTokens(input.text, remaining);
      if text == "" {
        truncated := true;
        break;
      }
      sections := sections + [Section(input.kind, input.id, text, EstimateTokens(text), input.provenance)];
      used := used + EstimateTokens(text);
      truncated := true;
      break;
    }
  }

  /** A bundle holds the longest fitting prefix of its inputs with text, and perhaps one more cut. */
  ghost predicate FitsBundle(b: Bundle, sorted: seq<Input>, k: nat) {
    var s := NonEmpty(sorted);
    LongestFit(s, b.tokenBudget, k) && MeetsBudget(Filled(b.sections, b.tokensUsed, b.truncated), s, b.tokenBudget, k)
  }

  /** The sections of a bundle come by kind, and by identifier within a kind. */
  ghost predicate ByKindThenId(s: seq<Section>) {
    forall i, j :: 0 <= i < j < |s| ==> s[i].kind < s[j].kind || (s[i].kind == s[j].kind && s[i].id <= s[j].id)
  }

  lemma SectionsByKey(b: Bundle, sorted: seq<Input>, k: nat)
    requires InKeyOrder(sorted) && FitsBundle(b, sorted, k)
    ensures ByKindThenId(b.sections)
  {
    var s := NonEmpty(sorted);
    NonEmptyInOrder(sorted);
    assert forall i :: 0 <= i < |b.sections| ==> StandsFor(b.sections[i], s[i]);
    forall i, j | 0 <= i < j < |b.sections|
      ensures b.sections[i].kind < b.sections[j].kind
              || (b.sections[i].kind == b.sections[j].kind && b.sections[i].id <= b.sections[j].id)
    {
      assert NotAfter(s[i], s[j]);
    }
  }

  method Compile(maxTokens: int, projectId: Id, workPackageId: Id, inputs: seq<Input>) returns (bundle: Bundle)
    ensures exists sorted :: Arranges(sorted, inputs) && bundle == BundleOf(maxTokens, projectId, workPackageId, sorted)
    ensures exists sorted, k :: Arranges(sorted, inputs) && FitsBundle(bundle, sorted, k)
    ensures bundle.projectId == projectId && bundle.workPackageId == workPackageId && ByKindThenId(bundle.sections)
    ensures bundle.tokenBudget == (if maxTokens <= 0 then 8000 else maxTokens)
    ensures bundle.tokensUsed == TokensOf(bundle.sections) <= bundle.tokenBudget
  {
    var budget := if maxTokens <= 0 then DEFAULT_MAX_TOKENS else maxTokens;
    var sorted := SortInputs(inputs);
    SortArranges(inputs);
    var sections, used, truncated := Fill(sorted, budget);
    ghost var k := FillMeetsBudget(sorted, budget);
    bundle := Bundle(projectId, workPackageId, sections, budget, used, truncated);
    assert bundle == BundleOf(maxTokens, projectId, workPackageId, sorted);
    assert FitsBundle(bundle, sorted, k);
    SectionsByKey(bundle, sorted, k);
  }
}
