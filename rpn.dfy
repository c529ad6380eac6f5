/** What both calculator versions share: the outcome of an evaluation, the
    numeric library they call, the operand stack and its sum, and the token
    loop of `evaluatePostFix`, which hands each token to a step and returns
    at the first step that fails. */
module Rpn {

  datatype Option<T> = None | Some(value: T)

  /** The structural failures; the C++ code reports each on `cerr` and
      returns NaN instead. */
  datatype ErrorKind =
    | InvalidToken(token: string)  // neither a number nor a known symbol
    | InsufficientOperands         // an operator found too few entries
    | BadFinalSize                 // the stack did not end with one entry

  datatype Result<T> = Ok(value: T) | Err(error: ErrorKind)

  /** The library calls the evaluator makes, left uninterpreted:
      `isNumber` (a full `stringstream >> double` parse), `stod`, and the
      double operations `/`, `fmod`, `pow` and `sqrt`. */
  datatype Library = Library(
    isNumber: string -> bool,
    parse: string -> real,
    div: (real, real) -> real,
    fmod: (real, real) -> real,
    pow: (real, real) -> real,
    sqrt: real -> real)

  /** No operator symbol of either version parses as a double. */
  predicate RejectsSymbols(lib: Library) {
    !lib.isNumber("+") && !lib.isNumber("-") && !lib.isNumber("*") && !lib.isNumber("/") &&
    !lib.isNumber("%") && !lib.isNumber("^") && !lib.isNumber("v") &&
    !lib.isNumber("s") && !lib.isNumber("a") && !lib.isNumber("x")
  }

  type Numerics = lib: Library | RejectsSymbols(lib)
    witness Library(t => false, t => 0.0, (x, y) => 0.0, (x, y) => 0.0, (x, y) => 0.0, x => 0.0)

  /** The operand stack, bottom first: the top is the last element. */
  type Stack = seq<real>

  function Top(st: Stack): real
    requires st != []
  {
    st[|st| - 1]
  }

  function Pop(st: Stack): Stack
    requires st != []
  {
    st[..|st| - 1]
  }

  /** A stack is its entries below the top two, then those two. */
  lemma RebuildTopTwo(st: Stack)
    requires |st| >= 2
    ensures st[..|st| - 2] + [st[|st| - 2], st[|st| - 1]] == st
  {
  }

  /** The sum of all entries. The drain loops add the top entry first and
      this adds it last; over `real` the order does not matter. */
  function Sum(st: Stack): real {
    if st == [] then 0.0 else Sum(Pop(st)) + Top(st)
  }

  /** The values `stod` gives for a sequence of number tokens, in order. */
  function Values(lib: Numerics, ts: seq<string>): (vs: Stack)
    ensures |vs| == |ts|
  {
    if ts == [] then [] else [lib.parse(ts[0])] + Values(lib, ts[1..])
  }

  /** The token loop: each token is handed to `step` in order, and the first
      failure ends the evaluation; no later token is looked at. */
  function Run<S>(step: (S, string) -> Result<S>, s: S, ts: seq<string>): Result<S> {
    if ts == [] then Ok(s)
    else
      match step(s, ts[0])
      case Err(e) => Err(e)
      case Ok(s') => Run(step, s', ts[1..])
  }

  /** Go on with more tokens from an earlier outcome. */
  function Continue<S>(step: (S, string) -> Result<S>, r: Result<S>, ts: seq<string>): Result<S> {
    match r
    case Err(e) => Err(e)
    case Ok(s) => Run(step, s, ts)
  }

  /** Running two token sequences one after the other is running their concatenation. */
  lemma {:induction false} RunAppend<S>(step: (S, string) -> Result<S>, s: S, first: seq<string>, second: seq<string>)
    ensures Run(step, s, first + second) == Continue(step, Run(step, s, first), second)
  {
    if first == [] {
      assert first + second == second;
    } else {
      assert (first + second)[0] == first[0];
      assert (first + second)[1..] == first[1..] + second;
      match step(s, first[0])
      case Err(e) =>
      case Ok(s') => RunAppend(step, s', first[1..], second);
    }
  }

  /** A token whose step fails ends the evaluation with that failure,
      whatever follows it. */
  lemma RunAbortsAt<S>(step: (S, string) -> Result<S>, s: S, before: seq<string>, t: string, after: seq<string>)
    requires Run(step, s, before).Ok?
    requires step(Run(step, s, before).value, t).Err?
    ensures Run(step, s, before + [t] + after) == Err(step(Run(step, s, before).value, t).error)
  {
    RunAppend(step, s, before, [t] + after);
    assert before + [t] + after == before + ([t] + after);
  }

  /** An outcome on the stack and an outcome on its depth alone agree: both
      fail with the same error, or both succeed and the depth is the stack's. */
  predicate SameShape(r: Result<Stack>, d: Result<nat>) {
    match r
    case Err(e) => d == Err(e)
    case Ok(st) => d == Ok(|st|)
  }

  /** If each step's outcome is decided by the stack depth alone, so is the
      outcome of the whole token loop. */
  lemma {:induction false} RunTracksDepth(step: (Stack, string) -> Result<Stack>, depthStep: (nat, string) -> Result<nat>,
                                          st: Stack, ts: seq<string>)
    requires forall s: Stack, t: string :: SameShape(step(s, t), depthStep(|s|, t))
    ensures SameShape(Run(step, st, ts), Run(depthStep, |st|, ts))
    decreases |ts|
  {
    if ts != [] {
      assert SameShape(step(st, ts[0]), depthStep(|st|, ts[0]));
      match step(st, ts[0])
      case Err(e) =>
      case Ok(st') => RunTracksDepth(step, depthStep, st', ts[1..]);
    }
  }

  /** When each step's outcome is decided by the depth alone, the whole
      evaluation succeeds exactly when the depth run ends at one entry;
      otherwise it fails with the depth run's error, or with BadFinalSize
      when the final depth is not one. */
  lemma FinishTracksDepth(step: (Stack, string) -> Result<Stack>, depthStep: (nat, string) -> Result<nat>,
                          ts: seq<string>)
    requires forall s: Stack, t: string :: SameShape(step(s, t), depthStep(|s|, t))
    ensures var d := Run(depthStep, 0, ts);
      && (Finish(Run(step, [], ts)).Ok? <==> d == Ok(1))
      && (d.Err? ==> Finish(Run(step, [], ts)) == Err(d.error))
      && (d.Ok? && d.value != 1 ==> Finish(Run(step, [], ts)) == Err(BadFinalSize))
  {
    RunTracksDepth(step, depthStep, [], ts);
  }

  /** Two steps decided by the same depth machine fail alike: both succeed,
      or both fail with the same error. */
  lemma FailureTracksDepth(step1: (Stack, string) -> Result<Stack>, step2: (Stack, string) -> Result<Stack>,
                           depthStep: (nat, string) -> Result<nat>, ts: seq<string>)
    requires forall s: Stack, t: string :: SameShape(step1(s, t), depthStep(|s|, t))
    requires forall s: Stack, t: string :: SameShape(step2(s, t), depthStep(|s|, t))
    ensures Finish(Run(step1, [], ts)).Ok? == Finish(Run(step2, [], ts)).Ok?
    ensures Finish(Run(step1, [], ts)).Err? ==> Finish(Run(step1, [], ts)) == Finish(Run(step2, [], ts))
  {
    FinishTracksDepth(step1, depthStep, ts);
    FinishTracksDepth(step2, depthStep, ts);
  }

  /** A step that pushes the value of every number token, as both versions do. */
  ghost predicate PushesNumbers(step: (Stack, string) -> Result<Stack>, lib: Numerics) {
    forall s: Stack, t: string :: lib.isNumber(t) ==> step(s, t) == Ok(s + [lib.parse(t)])
  }

  /** Number tokens are pushed in order, each on top of the previous ones. */
  lemma {:induction false} NumbersPushInOrder(step: (Stack, string) -> Result<Stack>, lib: Numerics,
                                              st: Stack, ts: seq<string>)
    requires PushesNumbers(step, lib)
    requires forall k :: 0 <= k < |ts| ==> lib.isNumber(ts[k])
    ensures Run(step, st, ts) == Ok(st + Values(lib, ts))
    decreases |ts|
  {
    if ts == [] {
      assert st + Values(lib, ts) == st;
    } else {
      assert step(st, ts[0]) == Ok(st + [lib.parse(ts[0])]);
      NumbersPushInOrder(step, lib, st + [lib.parse(ts[0])], ts[1..]);
      assert st + [lib.parse(ts[0])] + Values(lib, ts[1..]) == st + Values(lib, ts);
    }
  }

  /** Two leading number tokens leave their two values on the stack. */
  lemma PushTwoNumbers(step: (Stack, string) -> Result<Stack>, lib: Numerics, a: string, b: string, rest: seq<string>)
    requires PushesNumbers(step, lib)
    requires lib.isNumber(a) && lib.isNumber(b)
    ensures Run(step, [], [a, b] + rest) == Run(step, [lib.parse(a), lib.parse(b)], rest)
  {
    var pa, pb := lib.parse(a), lib.parse(b);
    assert step([], a) == Ok([] + [pa]) && [] + [pa] == [pa];
    assert step([pa], b) == Ok([pa] + [pb]) && [pa] + [pb] == [pa, pb];
    assert ([a, b] + rest)[1..] == [b] + rest && ([b] + rest)[1..] == rest;
  }

  /** The check after the loop: exactly one entry must remain, and it is the result. */
  function Finish(r: Result<Stack>): Result<real> {
    match r
    case Err(e) => Err(e)
    case Ok(st) => if |st| != 1 then Err(BadFinalSize) else Ok(Top(st))
  }
}
