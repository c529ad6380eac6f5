/** Version 4 of the postfix calculator: the arithmetic operators are only
    `+ - * /`, and the exchange `x`, the sum `s` and the average `a` each
    have a classifier and a branch of their own. `%`, `^` and `v` are not
    known to this version, so they are invalid tokens. */
module Calculator4 {
  import opened Rpn
  import opened Tokenizer

  /** `isOperator`: the four arithmetic symbols. */
  predicate IsOperator(t: string) {
    t == "+" || t == "-" || t == "*" || t == "/"
  }

  /** `isExchange`, the "Vaihda" command. */
  predicate IsExchange(t: string) {
    t == "x"
  }

  /** `isSum`, the "Summa" command. */
  predicate IsSum(t: string) {
    t == "s"
  }

  /** `isAverage`, the "Keskiarvo" command. */
  predicate IsAverage(t: string) {
    t == "a"
  }

  /** `evaluateOperation`: `operand1` is the left operand (the lower stack
      entry), `operand2` the right one (the top). The branch the code
      reports as an invalid operator, answering NaN, is `None`; it is taken
      exactly for the symbols `isOperator` rejects. */
  function EvaluateOperation(lib: Numerics, operand1: real, operand2: real, op: string): (r: Option<real>)
    ensures r.Some? <==> IsOperator(op)
  {
    if op == "+" then Some(operand1 + operand2)
    else if op == "-" then Some(operand1 - operand2)
    else if op == "*" then Some(operand1 * operand2)
    else if op == "/" then Some(lib.div(operand1, operand2))
    else None
  }

  /** What one token does to the operand stack in `evaluatePostFix`. The
      average divides the sum by the number of entries drained, which the
      guard keeps above zero. */
  function Step(lib: Numerics, st: Stack, t: string): Result<Stack> {
    if lib.isNumber(t) then Ok(st + [lib.parse(t)])
    else if IsOperator(t) then
      if |st| < 2 then Err(InsufficientOperands)
      else Ok(Pop(Pop(st)) + [EvaluateOperation(lib, Top(Pop(st)), Top(st), t).value])
    else if IsExchange(t) then
      if |st| < 2 then Err(InsufficientOperands)
      else Ok(Pop(Pop(st)) + [Top(st), Top(Pop(st))])
    else if IsSum(t) then Ok([Sum(st)])
    else if IsAverage(t) then
      if |st| < 1 then Err(InsufficientOperands)
      else Ok([lib.div(Sum(st), |st| as real)])
    else Err(InvalidToken(t))
  }

  function Stepper(lib: Numerics): (Stack, string) -> Result<Stack> {
    (st, t) => Step(lib, st, t)
  }

  /** The whole evaluation of an input line, as a function. */
  function Evaluate(lib: Numerics, expression: string): Result<real> {
    Finish(Run(Stepper(lib), [], Tokens(expression)))
  }

  /** `evaluatePostFix`: reads tokens with `ss >> token` and updates the
      operand stack one token at a time, returning at the first failure. */
  method EvaluatePostFix(lib: Numerics, expression: string) returns (r: Result<real>)
    ensures r == Evaluate(lib, expression)
  {
    var operands: Stack := [];
    var pos := 0;
    while true
      invariant pos <= |expression|
      invariant Run(Stepper(lib), operands, Tokens(expression[pos..])) == Run(Stepper(lib), [], Tokens(expression))
      decreases |expression| - pos
    {
      var token, next, ok := NextToken(expression, pos);
      if !ok {
        break;
      }
      ghost var before := operands;
      RunFirst(lib, operands, Tokens(expression[pos..]));
      if lib.isNumber(token) {
        operands := operands + [lib.parse(token)];
      } else if IsOperator(token) {
        if |operands| < 2 {
          return Err(InsufficientOperands);
        }
        var operand2 := Top(operands);
        operands := Pop(operands);
        var operand1 := Top(operands);
        operands := Pop(operands);
        operands := operands + [EvaluateOperation(lib, operand1, operand2, token).value];
        assert Step(lib, before, token) == Ok(operands);
      } else if IsExchange(token) {
        if |operands| < 2 {
          return Err(InsufficientOperands);
        }
        var operand2 := Top(operands);
        operands := Pop(operands);
        var operand1 := Top(operands);
        operands := Pop(operands);
        assert operands == Pop(Pop(before)) && operand2 == Top(before) && operand1 == Top(Pop(before));
        operands := operands + [operand2];
        operands := operands + [operand1];
        assert operands == Pop(Pop(before)) + [operand2, operand1];
        assert Step(lib, before, token) == Ok(operands);
      } else if IsSum(token) {
        var sum := 0.0;
        while operands != []
          invariant sum + Sum(operands) == Sum(before)
          decreases |operands|
        {
          sum := sum + Top(operands);
          operands := Pop(operands);
        }
        assert operands == [] && sum == Sum(before);
        operands := operands + [sum];
        assert operands == [Sum(before)];
        assert Step(lib, before, token) == Ok(operands);
      } else if IsAverage(token) {
        if |operands| < 1 {
          return Err(InsufficientOperands);
        }
        var sum := 0.0;
        var count := 0;
        while operands != []
          invariant sum + Sum(operands) == Sum(before)
          invariant count + |operands| == |before|
          decreases |operands|
        {
          sum := sum + Top(operands);
          operands := Pop(operands);
          count := count + 1;
        }
        assert operands == [] && sum == Sum(before) && count == |before| > 0;
        operands := operands + [lib.div(sum, count as real)];
        assert operands == [lib.div(Sum(before), |before| as real)];
        assert Step(lib, before, token) == Ok(operands);
      } else {
        return Err(InvalidToken(token));
      }
      pos := next;
    }
    if |operands| != 1 {
      return Err(BadFinalSize);
    }
    return Ok(Top(operands));
  }

  /** Unfolds the token loop by one token. */
  lemma RunFirst(lib: Numerics, st: Stack, ts: seq<string>)
    requires ts != []
    ensures Run(Stepper(lib), st, ts) == Continue(Stepper(lib), Step(lib, st, ts[0]), ts[1..])
  {
    assert Stepper(lib)(st, ts[0]) == Step(lib, st, ts[0]);
  }

  /** Version 4 as a machine on the stack depth alone: what each token does
      to the number of entries, and when it fails. */
  function DepthStep(isNumber: string -> bool, d: nat, t: string): Result<nat> {
    if isNumber(t) then Ok(d + 1)
    else if IsOperator(t) then
      if d < 2 then Err(InsufficientOperands) else Ok(d - 1)
    else if IsExchange(t) then
      if d < 2 then Err(InsufficientOperands) else Ok(d)
    else if IsSum(t) then Ok(1)
    else if IsAverage(t) then
      if d < 1 then Err(InsufficientOperands) else Ok(1)
    else Err(InvalidToken(t))
  }

  function DepthStepper(isNumber: string -> bool): (nat, string) -> Result<nat> {
    (d: nat, t: string) => DepthStep(isNumber, d, t)
  }

  /** Each token's outcome depends on the stack depth alone. */
  lemma StepDepth(lib: Numerics)
    ensures forall st: Stack, t: string :: SameShape(Stepper(lib)(st, t), DepthStepper(lib.isNumber)(|st|, t))
  {
    forall st: Stack, t: string
      ensures SameShape(Stepper(lib)(st, t), DepthStepper(lib.isNumber)(|st|, t))
    {
      assert Stepper(lib)(st, t) == Step(lib, st, t);
      assert DepthStepper(lib.isNumber)(|st|, t) == DepthStep(lib.isNumber, |st|, t);
    }
  }

  /** Evaluation succeeds exactly when the depth machine ends at one entry
      without failing; otherwise it fails with the depth machine's error, or
      with BadFinalSize when the final depth is not one. */
  lemma EvaluateDecidedByDepth(lib: Numerics, expression: string)
    ensures var d := Run(DepthStepper(lib.isNumber), 0, Tokens(expression));
      && (Evaluate(lib, expression).Ok? <==> d == Ok(1))
      && (d.Err? ==> Evaluate(lib, expression) == Err(d.error))
      && (d.Ok? && d.value != 1 ==> Evaluate(lib, expression) == Err(BadFinalSize))
  {
    StepDepth(lib);
    FinishTracksDepth(Stepper(lib), DepthStepper(lib.isNumber), Tokens(expression));
  }

  /** Only structural errors exist: whether and how an evaluation fails
      does not depend on `stod` or `/`. */
  lemma FailureIsStructural(lib1: Numerics, lib2: Numerics, expression: string)
    requires lib1.isNumber == lib2.isNumber
    ensures Evaluate(lib1, expression).Ok? == Evaluate(lib2, expression).Ok?
    ensures Evaluate(lib1, expression).Err? ==> Evaluate(lib1, expression) == Evaluate(lib2, expression)
  {
    StepDepth(lib1);
    StepDepth(lib2);
    FailureTracksDepth(Stepper(lib1), Stepper(lib2), DepthStepper(lib1.isNumber), Tokens(expression));
  }

  /** Evaluation succeeds exactly when the token loop ends with one entry,
      and the result is that entry. */
  lemma EvaluateResult(lib: Numerics, expression: string)
    ensures var run := Run(Stepper(lib), [], Tokens(expression));
      && (Evaluate(lib, expression).Ok? <==> run.Ok? && |run.value| == 1)
      && (Evaluate(lib, expression).Ok? ==> Evaluate(lib, expression).value == run.value[0])
      && (run.Ok? && |run.value| != 1 ==> Evaluate(lib, expression) == Err(BadFinalSize))
  {
  }

  /** Each token falls into at most one class, and `%`, `^` and `v` fall
      into none: this version rejects them as invalid tokens. */
  lemma ClassifiersDisjoint(lib: Numerics, st: Stack, t: string)
    ensures lib.isNumber(t) ==> !IsOperator(t) && !IsExchange(t) && !IsSum(t) && !IsAverage(t)
    ensures IsOperator(t) ==> !IsExchange(t) && !IsSum(t) && !IsAverage(t)
    ensures t == "%" || t == "^" || t == "v" ==> Step(lib, st, t) == Err(InvalidToken(t))
  {
  }

  /** A number pushes exactly one entry, its value, and keeps every other entry. */
  lemma NumberPushes(lib: Numerics, st: Stack, t: string)
    requires lib.isNumber(t)
    ensures var r := Step(lib, st, t);
      r.Ok? && |r.value| == |st| + 1 && r.value[..|st|] == st && Top(r.value) == lib.parse(t)
  {
    assert (st + [lib.parse(t)])[..|st|] == st;
  }

  /** Every number token is pushed, whatever the stack. */
  lemma StepPushesNumbers(lib: Numerics)
    ensures PushesNumbers(Stepper(lib), lib)
  {
    forall s: Stack, t: string | lib.isNumber(t)
      ensures Stepper(lib)(s, t) == Ok(s + [lib.parse(t)])
    {
      assert Stepper(lib)(s, t) == Step(lib, s, t);
    }
  }

  /** `+ - * /` need two entries. With two or more, the depth drops by one,
      the entries below the top two are kept, and the pushed value is
      `evaluateOperation` applied to the lower entry as left operand and
      the top as right operand. */
  lemma ArithmeticStep(lib: Numerics, st: Stack, op: string)
    requires IsOperator(op)
    ensures |st| < 2 ==> Step(lib, st, op) == Err(InsufficientOperands)
    ensures |st| >= 2 ==>
      var r := Step(lib, st, op);
      && r.Ok? && |r.value| == |st| - 1
      && r.value[..|st| - 2] == st[..|st| - 2]
      && Some(Top(r.value)) == EvaluateOperation(lib, st[|st| - 2], st[|st| - 1], op)
  {
    if |st| >= 2 {
      assert Pop(Pop(st)) == st[..|st| - 2];
    }
  }

  /** `x` needs two entries; it swaps the top two and changes nothing else. */
  lemma ExchangeStep(lib: Numerics, st: Stack)
    ensures |st| < 2 ==> Step(lib, st, "x") == Err(InsufficientOperands)
    ensures |st| >= 2 ==> Step(lib, st, "x") == Ok(st[..|st| - 2] + [st[|st| - 1], st[|st| - 2]])
  {
    assert !IsOperator("x") && IsExchange("x");
    if |st| >= 2 {
      assert Pop(Pop(st)) == st[..|st| - 2];
    }
  }

  /** Two exchanges in a row restore the stack. */
  lemma ExchangeTwiceRestores(lib: Numerics, st: Stack)
    requires |st| >= 2
    ensures Run(Stepper(lib), st, ["x", "x"]) == Ok(st)
  {
    assert !IsOperator("x") && IsExchange("x");
    var n := |st|;
    var swapped := st[..n - 2] + [st[n - 1], st[n - 2]];
    calc {
      Run(Stepper(lib), st, ["x", "x"]);
      == { RunFirst(lib, st, ["x", "x"]); ExchangeStep(lib, st); }
      Run(Stepper(lib), swapped, ["x"]);
      == { RunFirst(lib, swapped, ["x"]); ExchangeStep(lib, swapped); }
      Ok(swapped[..n - 2] + [swapped[n - 1], swapped[n - 2]]);
      == { assert swapped[..n - 2] == st[..n - 2]; }
      Ok(st[..n - 2] + [st[n - 2], st[n - 1]]);
      == { RebuildTopTwo(st); }
      Ok(st);
    }
  }

  /** `s` replaces the whole stack by one entry, the sum of all entries; it
      never fails, and on an empty stack it gives [0]. */
  lemma SumStep(lib: Numerics, st: Stack)
    ensures Step(lib, st, "s") == Ok([Sum(st)])
    ensures st == [] ==> Step(lib, st, "s") == Ok([0.0])
  {
    assert !IsOperator("s") && !IsExchange("s") && IsSum("s");
  }

  /** `a` fails on an empty stack; otherwise it replaces the whole stack by
      the sum divided by the number of entries, which is never zero. */
  lemma AverageStep(lib: Numerics, st: Stack)
    ensures st == [] ==> Step(lib, st, "a") == Err(InsufficientOperands)
    ensures st != [] ==> Step(lib, st, "a") == Ok([lib.div(Sum(st), |st| as real)]) && |st| as real != 0.0
  {
    assert !lib.isNumber("a") && !IsOperator("a") && !IsExchange("a") && !IsSum("a") && IsAverage("a");
  }

  /** A token that is none of a number, an operator, `x`, `s` or `a` stops
      the evaluation with InvalidToken, and no later token is processed. */
  lemma InvalidTokenAborts(lib: Numerics, st: Stack, before: seq<string>, t: string, after: seq<string>)
    requires Run(Stepper(lib), st, before).Ok?
    requires !lib.isNumber(t) && !IsOperator(t) && !IsExchange(t) && !IsSum(t) && !IsAverage(t)
    ensures Run(Stepper(lib), st, before + [t] + after) == Err(InvalidToken(t))
  {
    assert Stepper(lib)(Run(Stepper(lib), st, before).value, t) == Err(InvalidToken(t));
    RunAbortsAt(Stepper(lib), st, before, t, after);
  }

  /** The tokens of the numbers followed by one command, joined by spaces,
      read back as exactly those tokens, and the numbers are all pushed. */
  lemma NumbersThenCommand(lib: Numerics, ts: seq<string>, cmd: string)
    requires IsWord(cmd)
    requires forall k :: 0 <= k < |ts| ==> IsWord(ts[k]) && lib.isNumber(ts[k])
    ensures Run(Stepper(lib), [], Tokens(Join(ts + [cmd]))) == Step(lib, Values(lib, ts), cmd)
  {
    var all := ts + [cmd];
    forall k | 0 <= k < |all| ensures IsWord(all[k]) {
      if k < |ts| { assert all[k] == ts[k]; }
    }
    TokensOfJoin(all);
    StepPushesNumbers(lib);
    NumbersPushInOrder(Stepper(lib), lib, [], ts);
    assert [] + Values(lib, ts) == Values(lib, ts);
    RunAppend(Stepper(lib), [], ts, [cmd]);
    RunFirst(lib, Values(lib, ts), [cmd]);
    match Step(lib, Values(lib, ts), cmd)
    case Err(e) =>
    case Ok(s) =>
  }

  /** "n1 n2 ... nk s" evaluates to the sum of the k numbers, for every k,
      including k = 0. */
  lemma EvaluateSumOfNumbers(lib: Numerics, ts: seq<string>)
    requires forall k :: 0 <= k < |ts| ==> IsWord(ts[k]) && lib.isNumber(ts[k])
    ensures Evaluate(lib, Join(ts + ["s"])) == Ok(Sum(Values(lib, ts)))
  {
    assert IsWord("s");
    NumbersThenCommand(lib, ts, "s");
  }

  /** "n1 n2 ... nk a" evaluates to the sum divided by k when k > 0, and
      fails with InsufficientOperands when k = 0. */
  lemma EvaluateAverageOfNumbers(lib: Numerics, ts: seq<string>)
    requires forall k :: 0 <= k < |ts| ==> IsWord(ts[k]) && lib.isNumber(ts[k])
    ensures ts == [] ==> Evaluate(lib, Join(ts + ["a"])) == Err(InsufficientOperands)
    ensures ts != [] ==> Evaluate(lib, Join(ts + ["a"])) == Ok(lib.div(Sum(Values(lib, ts)), |ts| as real))
  {
    assert IsWord("a");
    NumbersThenCommand(lib, ts, "a");
  }

  /** "A B op" evaluates to `evaluateOperation(A, B, op)` for every
      arithmetic operator: B, pushed last, is the right operand. */
  lemma EvaluateBinary(lib: Numerics, a: string, b: string, op: string)
    requires IsWord(a) && IsWord(b) && lib.isNumber(a) && lib.isNumber(b)
    requires IsOperator(op)
    ensures Evaluate(lib, Join([a, b, op])) == Ok(EvaluateOperation(lib, lib.parse(a), lib.parse(b), op).value)
  {
    var pa, pb := lib.parse(a), lib.parse(b);
    assert Tokens(Join([a, b, op])) == [a, b, op] by {
      assert IsWord(op) by { assert |op| == 1 && !IsSpace(op[0]); }
      TokensOfJoin([a, b, op]);
    }
    assert Run(Stepper(lib), [], [a, b, op]) == Run(Stepper(lib), [pa, pb], [op]) by {
      StepPushesNumbers(lib);
      PushTwoNumbers(Stepper(lib), lib, a, b, [op]);
    }
    assert Run(Stepper(lib), [pa, pb], [op]) == Ok([EvaluateOperation(lib, pa, pb, op).value]) by {
      RunFirst(lib, [pa, pb], [op]);
      ArithmeticStep(lib, [pa, pb], op);
    }
  }

  /** "A B x -" computes B - A: the exchange reverses the operand order. */
  lemma EvaluateExchangeThenMinus(lib: Numerics, a: string, b: string)
    requires IsWord(a) && IsWord(b) && lib.isNumber(a) && lib.isNumber(b)
    ensures Evaluate(lib, Join([a, b, "x", "-"])) == Ok(lib.parse(b) - lib.parse(a))
  {
    var pa, pb := lib.parse(a), lib.parse(b);
    assert Tokens(Join([a, b, "x", "-"])) == [a, b, "x", "-"] by {
      assert IsWord("x") && IsWord("-");
      TokensOfJoin([a, b, "x", "-"]);
    }
    assert Run(Stepper(lib), [], [a, b, "x", "-"]) == Run(Stepper(lib), [pa, pb], ["x", "-"]) by {
      StepPushesNumbers(lib);
      PushTwoNumbers(Stepper(lib), lib, a, b, ["x", "-"]);
    }
    ExchangeThenMinus(lib, pa, pb);
  }

  /** On a stack [A, B], "x -" leaves [B - A]. */
  lemma ExchangeThenMinus(lib: Numerics, pa: real, pb: real)
    ensures Run(Stepper(lib), [pa, pb], ["x", "-"]) == Ok([pb - pa])
  {
    assert Run(Stepper(lib), [pa, pb], ["x", "-"]) == Run(Stepper(lib), [pb, pa], ["-"]) by {
      assert !IsOperator("x") && IsExchange("x");
      RunFirst(lib, [pa, pb], ["x", "-"]);
      ExchangeStep(lib, [pa, pb]);
    }
    RunFirst(lib, [pb, pa], ["-"]);
    ArithmeticStep(lib, [pb, pa], "-");
  }
}
