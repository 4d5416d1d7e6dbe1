/**
 * The evaluator of the A::B term-rewriting example
 * (examples/ab_problem/eval.py): one left-to-right rewrite pass, the
 * fixpoint loop that normalises a program, the extraction of a proposed
 * solution from a chat message, and the verdict on the most recent one.
 */
module AbEval {
  import opened Wrappers
  import opened Strings
  import opened PyValues

  /**
   * A word of a program: one of the four tokens `#A`, `#B`, `A#`, `B#`, or
   * any other string.
   */
  datatype Token = HA | HB | AH | BH | Word(text: string)

  /** The four tokens' texts, `TOKENS`. */
  const TokenTexts: seq<string> := ["#A", "#B", "A#", "B#"]

  /** The token a word of the program stands for. */
  function ToToken(w: string): Token {
    if w == "#A" then HA
    else if w == "#B" then HB
    else if w == "A#" then AH
    else if w == "B#" then BH
    else Word(w)
  }

  function TokenText(t: Token): string {
    match t
    case HA => "#A"
    case HB => "#B"
    case AH => "A#"
    case BH => "B#"
    case Word(w) => w
  }

  /** Every word is read back from its token, so words compare as their tokens do. */
  lemma TokenTextRoundTrip(w: string)
    ensures TokenText(ToToken(w)) == w
    ensures !ToToken(w).Word? <==> w in TokenTexts
  {
  }

  /** A program or term as tokens. */
  type Term = seq<Token>

  function ToTerm(words: seq<string>): (t: Term)
    ensures |t| == |words| && forall k :: 0 <= k < |words| ==> t[k] == ToToken(words[k])
  {
    seq(|words|, k requires 0 <= k < |words| => ToToken(words[k]))
  }

  function Texts(t: Term): (words: seq<string>)
    ensures |words| == |t| && forall k :: 0 <= k < |t| ==> words[k] == TokenText(t[k])
  {
    seq(|t|, k requires 0 <= k < |t| => TokenText(t[k]))
  }

  /** Reading a program into tokens loses nothing. */
  lemma TextsOfTerm(words: seq<string>)
    ensures Texts(ToTerm(words)) == words
  {
    forall k | 0 <= k < |words|
      ensures Texts(ToTerm(words))[k] == words[k]
    {
      TokenTextRoundTrip(words[k]);
    }
  }

  /**
   * The rule for an adjacent pair, if any: `A# #B` and `B# #A` swap, `A# #A`
   * and `B# #B` vanish.
   */
  function Rule(x: Token, y: Token): Option<Term> {
    if x == AH && y == HB then Some([HB, AH])
    else if x == BH && y == HA then Some([HA, BH])
    else if x == AH && y == HA then Some([])
    else if x == BH && y == HB then Some([])
    else None
  }

  /** What one `reduce` pass returns, scanning from the left. */
  function Pass(xs: Term): (r: Term)
    ensures |r| <= |xs|
    decreases |xs|
  {
    if xs == [] then []
    else if |xs| >= 2 && Rule(xs[0], xs[1]).Some? then Rule(xs[0], xs[1]).value + Pass(xs[2..])
    else [xs[0]] + Pass(xs[1..])
  }

  /** How many rules one `reduce` pass fires. */
  function Rewrites(xs: Term): (r: nat)
    ensures 2 * r <= |xs|
    decreases |xs|
  {
    if xs == [] then 0
    else if |xs| >= 2 && Rule(xs[0], xs[1]).Some? then 1 + Rewrites(xs[2..])
    else Rewrites(xs[1..])
  }

  /** Whether a rule fires on the pair at position `i`. */
  predicate FiresAt(xs: Term, i: nat) {
    i + 1 < |xs| && Rule(xs[i], xs[i + 1]).Some?
  }

  /** One step of the pass at position `i`. */
  lemma PassAt(xs: Term, i: nat)
    requires i < |xs|
    ensures FiresAt(xs, i) ==>
      Pass(xs[i..]) == Rule(xs[i], xs[i + 1]).value + Pass(xs[i + 2..]) && Rewrites(xs[i..]) == 1 + Rewrites(xs[i + 2..])
    ensures !FiresAt(xs, i) ==>
      Pass(xs[i..]) == [xs[i]] + Pass(xs[i + 1..]) && Rewrites(xs[i..]) == Rewrites(xs[i + 1..])
  {
    var t := xs[i..];
    assert t[0] == xs[i];
    if i + 1 < |xs| {
      assert t[1] == xs[i + 1];
      assert t[2..] == xs[i + 2..];
    }
    assert t[1..] == xs[i + 1..];
  }

  /** The first step of the pass. */
  lemma PassFront(xs: Term)
    requires xs != []
    ensures FiresAt(xs, 0) ==>
      Pass(xs) == Rule(xs[0], xs[1]).value + Pass(xs[2..]) && Rewrites(xs) == 1 + Rewrites(xs[2..])
    ensures !FiresAt(xs, 0) ==>
      Pass(xs) == [xs[0]] + Pass(xs[1..]) && Rewrites(xs) == Rewrites(xs[1..])
  {
  }

  /** The pass so far, `ys`, extended by one step at position `i`. */
  lemma ReduceStep(xs: Term, i: nat, ys: Term, out: Term)
    requires i < |xs| && ys + Pass(xs[i..]) == out
    ensures FiresAt(xs, i) ==> (ys + Rule(xs[i], xs[i + 1]).value) + Pass(xs[i + 2..]) == out
    ensures !FiresAt(xs, i) ==> (ys + [xs[i]]) + Pass(xs[i + 1..]) == out
  {
    PassAt(xs, i);
    if FiresAt(xs, i) {
      assert ys + Pass(xs[i..]) == (ys + Rule(xs[i], xs[i + 1]).value) + Pass(xs[i + 2..]);
    } else {
      assert ys + Pass(xs[i..]) == (ys + [xs[i]]) + Pass(xs[i + 1..]);
    }
  }

  /** `reduce`: the cursor moves past both tokens of a pair a rule fires on, and past one token otherwise. */
  method Reduce(xs: Term) returns (ys: Term, rwts: nat)
    ensures ys == Pass(xs) && rwts == Rewrites(xs)
  {
    ys := [];
    rwts := 0;
    var i := 0;
    while i < |xs|
      invariant 0 <= i <= |xs|
      invariant ys + Pass(xs[i..]) == Pass(xs)
      invariant rwts + Rewrites(xs[i..]) == Rewrites(xs)
      decreases |xs| - i
    {
      var next: Option<Token> := if i == |xs| - 1 then None else Some(xs[i + 1]);
      PassAt(xs, i);
      ReduceStep(xs, i, ys, Pass(xs));
      if xs[i] == AH && next == Some(HB) {
        assert FiresAt(xs, i) && Rule(xs[i], xs[i + 1]).value == [HB, AH];
        ys := ys + [HB, AH];
        i := i + 2;
        rwts := rwts + 1;
      } else if xs[i] == BH && next == Some(HA) {
        assert FiresAt(xs, i) && Rule(xs[i], xs[i + 1]).value == [HA, BH];
        ys := ys + [HA, BH];
        i := i + 2;
        rwts := rwts + 1;
      } else if xs[i] == AH && next == Some(HA) {
        assert FiresAt(xs, i) && Rule(xs[i], xs[i + 1]).value == [];
        assert ys + [] == ys;
        i := i + 2;
        rwts := rwts + 1;
      } else if xs[i] == BH && next == Some(HB) {
        assert FiresAt(xs, i) && Rule(xs[i], xs[i + 1]).value == [];
        assert ys + [] == ys;
        i := i + 2;
        rwts := rwts + 1;
      } else {
        assert !FiresAt(xs, i);
        ys := ys + [xs[i]];
        i := i + 1;
      }
    }
    assert xs[i..] == [];
  }

  /** No adjacent pair has a rule. */
  predicate NormalForm(xs: Term) {
    forall k :: 0 <= k < |xs| - 1 ==> Rule(xs[k], xs[k + 1]).None?
  }

  lemma NormalFormCons(xs: Term)
    requires xs != []
    ensures NormalForm(xs) <==> (|xs| < 2 || Rule(xs[0], xs[1]).None?) && NormalForm(xs[1..])
  {
    var rest := xs[1..];
    if (|xs| < 2 || Rule(xs[0], xs[1]).None?) && NormalForm(rest) {
      forall k | 0 <= k < |xs| - 1
        ensures Rule(xs[k], xs[k + 1]).None?
      {
        if k > 0 {
          assert xs[k] == rest[k - 1] && xs[k + 1] == rest[k];
        }
      }
    }
    if NormalForm(xs) {
      forall k | 0 <= k < |rest| - 1
        ensures Rule(rest[k], rest[k + 1]).None?
      {
        assert rest[k] == xs[k + 1] && rest[k + 1] == xs[k + 2];
      }
    }
  }

  /**
   * A pass fires nothing exactly when the term is in normal form, and then
   * returns it unchanged; it never lengthens a term.
   */
  lemma {:induction false} PassFacts(xs: Term)
    ensures Rewrites(xs) == 0 <==> NormalForm(xs)
    ensures Rewrites(xs) == 0 ==> Pass(xs) == xs
    ensures |Pass(xs)| <= |xs|
    decreases |xs|
  {
    if xs != [] {
      if |xs| >= 2 && Rule(xs[0], xs[1]).Some? {
        PassFacts(xs[2..]);
        assert !NormalForm(xs);
      } else {
        var rest := xs[1..];
        PassFacts(rest);
        NormalFormCons(xs);
        assert xs == [xs[0]] + rest;
      }
    }
  }

  /** Occurrences of a token. */
  function Count(xs: Term, t: Token): nat
    decreases |xs|
  {
    if xs == [] then 0 else (if xs[0] == t then 1 else 0) + Count(xs[1..], t)
  }

  lemma {:induction false} CountConcat(a: Term, b: Term, t: Token)
    ensures Count(a + b, t) == Count(a, t) + Count(b, t)
    decreases |a|
  {
    if a != [] {
      assert (a + b)[0] == a[0];
      assert (a + b)[1..] == a[1..] + b;
      CountConcat(a[1..], b, t);
    } else {
      assert a + b == b;
    }
  }

  /**
   * `A#` minus `#A`, and `B#` minus `#B`: swapping keeps both counts, and a
   * pair that vanishes takes one of each.
   */
  function BalanceA(xs: Term): int { Count(xs, AH) as int - Count(xs, HA) as int }
  function BalanceB(xs: Term): int { Count(xs, BH) as int - Count(xs, HB) as int }

  /** The occurrences in a term of at most two tokens. */
  lemma CountShort(xs: Term, t: Token)
    requires |xs| <= 2
    ensures Count(xs, t) == (if |xs| > 0 && xs[0] == t then 1 else 0) + (if |xs| > 1 && xs[1] == t then 1 else 0)
  {
    if xs != [] {
      assert xs[1..] == [] || xs[1..] == [xs[1]];
      if |xs| == 2 {
        assert xs[1..][1..] == [];
      }
    }
  }

  /** A rule adds no token. */
  lemma RuleCount(x: Token, y: Token, t: Token)
    requires Rule(x, y).Some?
    ensures Count(Rule(x, y).value, t) <= Count([x, y], t)
  {
    CountShort(Rule(x, y).value, t);
    CountShort([x, y], t);
  }

  /** A rule keeps both balances. */
  lemma RuleKeepsBalances(x: Token, y: Token)
    requires Rule(x, y).Some?
    ensures BalanceA(Rule(x, y).value) == BalanceA([x, y]) && BalanceB(Rule(x, y).value) == BalanceB([x, y])
  {
    var r := Rule(x, y).value;
    CountShort(r, AH);
    CountShort(r, HA);
    CountShort(r, BH);
    CountShort(r, HB);
    CountShort([x, y], AH);
    CountShort([x, y], HA);
    CountShort([x, y], BH);
    CountShort([x, y], HB);
  }

  /** The balances of a concatenation add up. */
  lemma BalancesConcat(a: Term, b: Term)
    ensures BalanceA(a + b) == BalanceA(a) + BalanceA(b) && BalanceB(a + b) == BalanceB(a) + BalanceB(b)
  {
    CountConcat(a, b, AH);
    CountConcat(a, b, HA);
    CountConcat(a, b, BH);
    CountConcat(a, b, HB);
  }

  /** A pass never adds a token of any kind. */
  lemma {:induction false} PassCount(xs: Term, t: Token)
    ensures Count(Pass(xs), t) <= Count(xs, t)
    decreases |xs|
  {
    if xs != [] {
      PassFront(xs);
      if FiresAt(xs, 0) {
        var rest := xs[2..];
        PassCount(rest, t);
        RuleCount(xs[0], xs[1], t);
        assert xs == [xs[0], xs[1]] + rest;
        CountConcat([xs[0], xs[1]], rest, t);
        CountConcat(Rule(xs[0], xs[1]).value, Pass(rest), t);
      } else {
        var rest := xs[1..];
        PassCount(rest, t);
        assert xs == [xs[0]] + rest;
        CountConcat([xs[0]], rest, t);
        CountConcat([xs[0]], Pass(rest), t);
      }
    }
  }

  /** A pass keeps both balances. */
  lemma {:induction false} PassKeepsBalances(xs: Term)
    ensures BalanceA(Pass(xs)) == BalanceA(xs) && BalanceB(Pass(xs)) == BalanceB(xs)
    decreases |xs|
  {
    if xs != [] {
      PassFront(xs);
      if FiresAt(xs, 0) {
        var rest := xs[2..];
        PassKeepsBalances(rest);
        RuleKeepsBalances(xs[0], xs[1]);
        assert xs == [xs[0], xs[1]] + rest;
        BalancesConcat([xs[0], xs[1]], rest);
        BalancesConcat(Rule(xs[0], xs[1]).value, Pass(rest));
      } else {
        var rest := xs[1..];
        PassKeepsBalances(rest);
        assert xs == [xs[0]] + rest;
        BalancesConcat([xs[0]], rest);
        BalancesConcat([xs[0]], Pass(rest));
      }
    }
  }

  /** Right-facing tokens `A#` and `B#`, and left-facing ones `#A` and `#B`. */
  predicate RightFacing(x: Token) { x == AH || x == BH }
  predicate LeftFacing(x: Token) { x == HA || x == HB }

  function CountLeft(xs: Term): nat
    decreases |xs|
  {
    if xs == [] then 0 else (if LeftFacing(xs[0]) then 1 else 0) + CountLeft(xs[1..])
  }

  /** The number of right-facing tokens before a left-facing one: what the rules work to remove. */
  function Inversions(xs: Term): nat
    decreases |xs|
  {
    if xs == [] then 0 else (if RightFacing(xs[0]) then CountLeft(xs[1..]) else 0) + Inversions(xs[1..])
  }

  /** The measure `solve` decreases: inversions plus length. */
  function Measure(xs: Term): nat {
    Inversions(xs) + |xs|
  }

  lemma InversionsCons(x: Token, t: Term)
    ensures Inversions([x] + t) == (if RightFacing(x) then CountLeft(t) else 0) + Inversions(t)
    ensures CountLeft([x] + t) == (if LeftFacing(x) then 1 else 0) + CountLeft(t)
  {
    assert ([x] + t)[1..] == t;
  }

  /**
   * A rule fires on a right-facing token before a left-facing one, and
   * either drops both or puts them the other way round: either way the
   * measure drops by more than it does on what follows.
   */
  lemma RuleMeasure(x: Token, y: Token, rest: Term, p: Term, k: nat)
    requires Rule(x, y).Some?
    requires Measure(p) + k <= Measure(rest) && CountLeft(p) <= CountLeft(rest)
    ensures Measure(Rule(x, y).value + p) + 1 + k <= Measure([x, y] + rest)
    ensures CountLeft(Rule(x, y).value + p) <= CountLeft([x, y] + rest)
  {
    assert RightFacing(x) && LeftFacing(y);
    FacingPairMeasure(x, y, rest);
    var r := Rule(x, y).value;
    if r == [] {
      assert r + p == p;
    } else {
      assert r == [r[0], r[1]] && LeftFacing(r[0]) && RightFacing(r[1]);
      SwappedPairMeasure(r[0], r[1], p);
    }
  }

  /** The measure of a term that starts with a pair a rule fires on. */
  lemma FacingPairMeasure(x: Token, y: Token, rest: Term)
    requires RightFacing(x) && LeftFacing(y)
    ensures Measure([x, y] + rest) == 3 + CountLeft(rest) + Inversions(rest) + |rest|
    ensures CountLeft([x, y] + rest) == 1 + CountLeft(rest)
  {
    var t := [y] + rest;
    assert [x, y] + rest == [x] + t;
    InversionsCons(y, rest);
    InversionsCons(x, t);
  }

  /** The measure of a term that starts with a pair a rule has swapped. */
  lemma SwappedPairMeasure(x: Token, y: Token, rest: Term)
    requires LeftFacing(x) && RightFacing(y)
    ensures Measure([x, y] + rest) == 2 + CountLeft(rest) + Inversions(rest) + |rest|
    ensures CountLeft([x, y] + rest) == 1 + CountLeft(rest)
  {
    var t := [y] + rest;
    assert [x, y] + rest == [x] + t;
    InversionsCons(y, rest);
    InversionsCons(x, t);
  }

  /** The measure drops by one step more than on the rest when a rule fires at the front. */
  lemma MeasureWhenFiring(xs: Term)
    requires FiresAt(xs, 0)
    requires Measure(Pass(xs[2..])) + Rewrites(xs[2..]) <= Measure(xs[2..])
    requires CountLeft(Pass(xs[2..])) <= CountLeft(xs[2..])
    ensures Measure(Pass(xs)) + Rewrites(xs) <= Measure(xs)
    ensures CountLeft(Pass(xs)) <= CountLeft(xs)
  {
    var x, y, rest := xs[0], xs[1], xs[2..];
    PassFront(xs);
    assert xs == [x, y] + rest;
    RuleMeasure(x, y, rest, Pass(rest), Rewrites(rest));
  }

  /** The measure drops as on the rest when the front token is kept. */
  lemma MeasureWhenKeeping(xs: Term)
    requires xs != [] && !FiresAt(xs, 0)
    requires Measure(Pass(xs[1..])) + Rewrites(xs[1..]) <= Measure(xs[1..])
    requires CountLeft(Pass(xs[1..])) <= CountLeft(xs[1..])
    ensures Measure(Pass(xs)) + Rewrites(xs) <= Measure(xs)
    ensures CountLeft(Pass(xs)) <= CountLeft(xs)
  {
    var rest := xs[1..];
    PassFront(xs);
    assert xs == [xs[0]] + rest;
    InversionsCons(xs[0], Pass(rest));
    InversionsCons(xs[0], rest);
  }

  /** A pass lowers the measure by at least the number of rules it fires. */
  lemma {:induction false} PassMeasure(xs: Term)
    ensures Measure(Pass(xs)) + Rewrites(xs) <= Measure(xs)
    ensures CountLeft(Pass(xs)) <= CountLeft(xs)
    decreases |xs|
  {
    if xs != [] {
      if FiresAt(xs, 0) {
        PassMeasure(xs[2..]);
        MeasureWhenFiring(xs);
      } else {
        PassMeasure(xs[1..]);
        MeasureWhenKeeping(xs);
      }
    }
  }

  /** The term `solve` returns: passes until one fires nothing. */
  function SolveTerm(xs: Term): (r: Term)
    ensures NormalForm(r) && |r| <= |xs|
    decreases Measure(xs)
  {
    PassFacts(xs);
    if Rewrites(xs) == 0 then Pass(xs)
    else
      PassMeasure(xs);
      SolveTerm(Pass(xs))
  }

  /** The steps `solve` returns: the rules fired over all passes. */
  function SolveSteps(xs: Term): (r: nat)
    ensures r == 0 <==> NormalForm(xs)
    decreases Measure(xs)
  {
    PassFacts(xs);
    if Rewrites(xs) == 0 then 0
    else
      PassMeasure(xs);
      Rewrites(xs) + SolveSteps(Pass(xs))
  }

  /** `solve`: `reduce` until it does no work, summing the work. */
  method Solve(xs: Term) returns (term: Term, steps: nat)
    ensures term == SolveTerm(xs) && steps == SolveSteps(xs)
  {
    steps := 0;
    term := xs;
    while true
      invariant SolveTerm(term) == SolveTerm(xs)
      invariant steps + SolveSteps(term) == SolveSteps(xs)
      decreases Measure(term)
    {
      var next, work := Reduce(term);
      if work > 0 {
        PassMeasure(term);
        steps := steps + work;
        term := next;
      } else {
        term := next;
        break;
      }
    }
  }

  /**
   * The solved term is in normal form, no longer than the program, with the
   * same balances; solving it again changes nothing; and the program needed
   * no step exactly when it was already in normal form.
   */
  lemma {:induction false} SolveFacts(xs: Term)
    ensures NormalForm(SolveTerm(xs))
    ensures |SolveTerm(xs)| <= |xs|
    ensures BalanceA(SolveTerm(xs)) == BalanceA(xs) && BalanceB(SolveTerm(xs)) == BalanceB(xs)
    ensures SolveTerm(SolveTerm(xs)) == SolveTerm(xs)
    ensures SolveSteps(xs) == 0 <==> NormalForm(xs)
    decreases Measure(xs)
  {
    PassFacts(xs);
    PassKeepsBalances(xs);
    if Rewrites(xs) != 0 {
      PassMeasure(xs);
      SolveFacts(Pass(xs));
    } else {
      PassFacts(SolveTerm(xs));
    }
  }

  /** Every token is one of the four. */
  predicate ValidTokens(xs: Term) {
    forall k :: 0 <= k < |xs| ==> !xs[k].Word?
  }

  /** A valid program solves to a valid term. */
  lemma {:induction false} PassKeepsTokensValid(xs: Term)
    requires ValidTokens(xs)
    ensures ValidTokens(Pass(xs))
    decreases |xs|
  {
    if xs != [] {
      if |xs| >= 2 && Rule(xs[0], xs[1]).Some? {
        PassKeepsTokensValid(xs[2..]);
        var r := Rule(xs[0], xs[1]).value;
        assert forall k :: 0 <= k < |r| ==> !r[k].Word?;
        assert forall k :: 0 <= k < |r + Pass(xs[2..])| ==>
          (r + Pass(xs[2..]))[k] == if k < |r| then r[k] else Pass(xs[2..])[k - |r|];
      } else {
        PassKeepsTokensValid(xs[1..]);
        assert forall k :: 1 <= k < |Pass(xs)| ==> Pass(xs)[k] == Pass(xs[1..])[k - 1];
      }
    }
  }

  lemma {:induction false} SolveKeepsTokensValid(xs: Term)
    requires ValidTokens(xs)
    ensures ValidTokens(SolveTerm(xs))
    decreases Measure(xs)
  {
    PassKeepsTokensValid(xs);
    if Rewrites(xs) != 0 {
      PassMeasure(xs);
      SolveKeepsTokensValid(Pass(xs));
    }
  }

  // ---------------------------------------------------------------------------
  // Messages and the verdict

  /** `s.strip().split(" ")`, each word read as its token. */
  function Tokenize(s: string): (t: Term)
    ensures Texts(t) == Split(PyStrip(s), ' ')
  {
    TextsOfTerm(Split(PyStrip(s), ' '));
    ToTerm(Split(PyStrip(s), ' '))
  }

  /** `v[key]` for a chain of string keys. */
  function Lookup(v: PyValue, keys: seq<string>): Result<PyValue, PyError>
    decreases |keys|
  {
    if keys == [] then Ok(v)
    else
      match GetItem(v, keys[0])
      case Err(e) => Err(e)
      case Ok(w) => Lookup(w, keys[1..])
  }

  /** `v.strip().split(" ")`: only strings have `strip`. */
  function TokenizeValue(v: PyValue): Result<Term, PyError> {
    if v.PyStr? then Ok(Tokenize(v.s)) else Err(AttributeError)
  }

  /**
   * `get_solution`: the tokens of `data[1].payload` of an agent message whose
   * `data[1].action` is `solution`, every test being evaluated left to right
   * with Python's short-circuit and its exceptions.
   */
  function GetSolution(message: PyValue): (r: Result<Option<Term>, PyError>)
    ensures GetItem(message, "type").Err? ==> r == Err(GetItem(message, "type").error)
    ensures r.Ok? && r.value.Some? ==> GetItem(message, "type") == Ok(PyStr("agent"))
  {
    match GetItem(message, "type")
    case Err(e) => Err(e)
    case Ok(kind) =>
      if kind != PyStr("agent") || "data" !in message.entries then Ok(None)
      else
        var data := message.entries["data"];
        if data == PyNone then Ok(None)
        else
          match GetIndex(data, 1)
          case Err(e) => Err(e)
          case Ok(entry) =>
            if entry == PyNone then Ok(None)
            else
              match GetItem(entry, "action")
              case Err(e) => Err(e)
              case Ok(action) =>
                if action != PyStr("solution") then Ok(None)
                else
                  match GetItem(entry, "payload")
                  case Err(e) => Err(e)
                  case Ok(payload) =>
                    if payload == PyNone then Ok(None)
                    else
                      match TokenizeValue(payload)
                      case Err(e) => Err(e)
                      case Ok(tokens) => Ok(Some(tokens))
  }

  /**
   * A solution is found only in an agent message whose `data[1]` has action
   * `solution` and a string payload, and it is that payload's tokens; any
   * other message type has none.
   */
  lemma GetSolutionFacts(message: PyValue)
    ensures GetSolution(message).Ok? && GetSolution(message).value.Some? ==>
      && GetItem(message, "type") == Ok(PyStr("agent"))
      && Lookup(message, ["data"]).Ok?
      && GetIndex(Lookup(message, ["data"]).value, 1).Ok?
      && Lookup(GetIndex(Lookup(message, ["data"]).value, 1).value, ["action"]) == Ok(PyStr("solution"))
      && Lookup(GetIndex(Lookup(message, ["data"]).value, 1).value, ["payload"]).Ok?
      && Lookup(GetIndex(Lookup(message, ["data"]).value, 1).value, ["payload"]).value.PyStr?
      && GetSolution(message).value.value == Tokenize(Lookup(GetIndex(Lookup(message, ["data"]).value, 1).value, ["payload"]).value.s)
    ensures GetItem(message, "type").Ok? && GetItem(message, "type").value != PyStr("agent") ==> GetSolution(message) == Ok(None)
  {
  }

  /** The most recent solution in the history: the scan from the end, an exception ending it. */
  function LatestSolution(messages: seq<PyValue>): (r: Result<Option<Term>, PyError>)
    ensures r != Ok(None) ==> messages != []
    ensures messages != [] && GetSolution(messages[|messages| - 1]) != Ok(None) ==> r == GetSolution(messages[|messages| - 1])
    decreases |messages|
  {
    if messages == [] then Ok(None)
    else
      match GetSolution(messages[|messages| - 1])
      case Err(e) => Err(e)
      case Ok(Some(solution)) => Ok(Some(solution))
      case Ok(None) => LatestSolution(messages[..|messages| - 1])
  }

  /** No message after index `i` proposes a solution. */
  ghost predicate NoSolutionAfter(messages: seq<PyValue>, i: int) {
    forall j :: 0 <= j < |messages| && i < j ==> GetSolution(messages[j]) == Ok(None)
  }

  lemma NoSolutionAfterSnoc(init: seq<PyValue>, m: PyValue, i: int)
    requires i < |init|
    ensures NoSolutionAfter(init + [m], i) <==> NoSolutionAfter(init, i) && GetSolution(m) == Ok(None)
  {
    var ms := init + [m];
    assert ms[|init|] == m;
    assert forall j :: 0 <= j < |init| ==> ms[j] == init[j];
  }

  /** A solution found is the one of a message after which no message proposes one. */
  lemma {:induction false} LatestSolutionSpec(messages: seq<PyValue>)
    ensures LatestSolution(messages) == Ok(None) <==> NoSolutionAfter(messages, -1)
    ensures LatestSolution(messages).Ok? && LatestSolution(messages).value.Some? ==>
      exists i :: 0 <= i < |messages| && GetSolution(messages[i]) == LatestSolution(messages) && NoSolutionAfter(messages, i)
    decreases |messages|
  {
    if messages != [] {
      var init, m := messages[..|messages| - 1], messages[|messages| - 1];
      assert messages == init + [m];
      LatestSolutionSpec(init);
      NoSolutionAfterSnoc(init, m, -1);
      var r := LatestSolution(messages);
      if GetSolution(m) == Ok(None) {
        assert r == LatestSolution(init);
        if r.Ok? && r.value.Some? {
          var i :| 0 <= i < |init| && GetSolution(init[i]) == r && NoSolutionAfter(init, i);
          NoSolutionAfterSnoc(init, m, i);
          assert messages[i] == init[i];
        }
      } else if r.Ok? && r.value.Some? {
        assert NoSolutionAfter(messages, |init|);
      }
    }
  }

  /** How the script ends. */
  datatype Verdict =
    | InvalidProgram   // "Invalid program", exit status 1
    | Correct          // exit status 42
    | InvalidSolution  // "Invalid solution, ...", exit status 0
    | Incorrect        // "Solution is incorrect", exit status 0
    | NoSolution       // "No solution provided", exit status 0

  function ExitStatus(v: Verdict): int {
    match v
    case InvalidProgram => 1
    case Correct => 42
    case _ => 0
  }

  /** The judgement of a proposed solution against the solved program. */
  function Judge(actual: Term, solution: Option<Term>): (v: Verdict)
    ensures v == Correct <==> solution == Some(actual)
    ensures v == NoSolution <==> solution.None?
    ensures v == InvalidSolution <==> solution.Some? && solution.value != actual && !ValidTokens(solution.value)
    ensures v != InvalidProgram
  {
    match solution
    case None => NoSolution
    case Some(s) => if s == actual then Correct else if !ValidTokens(s) then InvalidSolution else Incorrect
  }

  /** `any(token not in TOKENS for token in xs)`, written as the scan it is. */
  method HasInvalidToken(xs: Term) returns (invalid: bool)
    ensures invalid <==> !ValidTokens(xs)
  {
    invalid := false;
    var k := 0;
    while k < |xs|
      invariant 0 <= k <= |xs|
      invariant !invalid <==> forall j :: 0 <= j < k ==> !xs[j].Word?
    {
      if xs[k].Word? {
        return true;
      }
      k := k + 1;
    }
  }

  /** The loop over the reversed history: the first solution found decides. */
  method JudgeHistory(actual: Term, messages: seq<PyValue>) returns (r: Result<Verdict, PyError>)
    ensures LatestSolution(messages).Err? ==> r == Err(LatestSolution(messages).error)
    ensures LatestSolution(messages).Ok? ==> r == Ok(Judge(actual, LatestSolution(messages).value))
  {
    var k := |messages|;
    assert messages[..k] == messages;
    while k > 0
      invariant 0 <= k <= |messages|
      invariant LatestSolution(messages) == LatestSolution(messages[..k])
    {
      assert messages[..k][..k - 1] == messages[..k - 1];
      var solution := GetSolution(messages[k - 1]);
      if solution.Err? {
        return Err(solution.error);
      }
      if solution.value.Some? {
        if actual == solution.value.value {
          return Ok(Correct);
        }
        var invalid := HasInvalidToken(solution.value.value);
        if invalid {
          return Ok(InvalidSolution);
        }
        return Ok(Incorrect);
      }
      k := k - 1;
    }
    assert messages[..0] == [];
    r := Ok(NoSolution);
  }

  /**
   * `reversed(...)` over the decoded history: a list's items; a string's
   * characters; the keys of a dict, the first of which (a string) makes
   * `get_solution` fail; any other value cannot be reversed.
   */
  function HistoryMessages(v: PyValue): Result<seq<PyValue>, PyError> {
    match v
    case PyList(items) => Ok(items)
    case PyStr(s) => Ok(seq(|s|, k requires 0 <= k < |s| => PyStr([s[k]])))
    case PyDict(entries) => if entries == map[] then Ok([]) else Err(TypeError)
    case _ => Err(TypeError)
  }

  /** What the script decides for a decoded state, given the solved program. */
  function Outcome(state: PyValue, solve: Term -> Term): (r: Result<Verdict, PyError>)
    ensures r == Ok(InvalidProgram) <==>
      && Lookup(state, ["globals", "program"]).Ok?
      && TokenizeValue(Lookup(state, ["globals", "program"]).value).Ok?
      && !ValidTokens(TokenizeValue(Lookup(state, ["globals", "program"]).value).value)
  {
    match Lookup(state, ["globals", "program"])
    case Err(e) => Err(e)
    case Ok(p) =>
      match TokenizeValue(p)
      case Err(e) => Err(e)
      case Ok(program) =>
        if !ValidTokens(program) then Ok(InvalidProgram)
        else
          match Lookup(state, ["chat", "history", "conversation"])
          case Err(e) => Err(e)
          case Ok(history) =>
            match HistoryMessages(history)
            case Err(e) => Err(e)
            case Ok(messages) =>
              match LatestSolution(messages)
              case Err(e) => Err(e)
              case Ok(solution) => Ok(Judge(solve(program), solution))
  }

  /** The script's main block on the decoded standard input. */
  method Evaluate(state: PyValue) returns (r: Result<Verdict, PyError>)
    ensures r == Outcome(state, SolveTerm)
  {
    var p := Lookup(state, ["globals", "program"]);
    if p.Err? {
      return Err(p.error);
    }
    var tokens := TokenizeValue(p.value);
    if tokens.Err? {
      return Err(tokens.error);
    }
    var program := tokens.value;
    var invalid := HasInvalidToken(program);
    if invalid {
      return Ok(InvalidProgram);
    }
    var actual, _ := Solve(program);
    var history := Lookup(state, ["chat", "history", "conversation"]);
    if history.Err? {
      return Err(history.error);
    }
    var messages := HistoryMessages(history.value);
    if messages.Err? {
      return Err(messages.error);
    }
    r := JudgeHistory(actual, messages.value);
  }

  /**
   * The script exits with 42 exactly when the program is valid and the most
   * recent solution is its normal form; such a solution is valid and in
   * normal form itself.
   */
  lemma CorrectMeansNormalForm(state: PyValue)
    ensures Outcome(state, SolveTerm) == Ok(Correct) <==>
      && Lookup(state, ["globals", "program"]).Ok?
      && TokenizeValue(Lookup(state, ["globals", "program"]).value).Ok?
      && ValidTokens(TokenizeValue(Lookup(state, ["globals", "program"]).value).value)
      && Lookup(state, ["chat", "history", "conversation"]).Ok?
      && HistoryMessages(Lookup(state, ["chat", "history", "conversation"]).value).Ok?
      && LatestSolution(HistoryMessages(Lookup(state, ["chat", "history", "conversation"]).value).value)
         == Ok(Some(SolveTerm(TokenizeValue(Lookup(state, ["globals", "program"]).value).value)))
    ensures Outcome(state, SolveTerm) == Ok(Correct) ==>
      var program := TokenizeValue(Lookup(state, ["globals", "program"]).value).value;
      NormalForm(SolveTerm(program)) && ValidTokens(SolveTerm(program))
  {
    var p := Lookup(state, ["globals", "program"]);
    if p.Ok? && TokenizeValue(p.value).Ok? && ValidTokens(TokenizeValue(p.value).value) {
      SolveFacts(TokenizeValue(p.value).value);
      SolveKeepsTokensValid(TokenizeValue(p.value).value);
    }
  }
}
