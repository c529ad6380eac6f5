# Postfix calculator, versions 4 and 5

A model of the evaluator at the heart of two revisions of a small
command-line calculator for postfix (reverse Polish) expressions,
`inkrementit/postfix_calculator4.cpp` and `inkrementit/postfix_calculator5.cpp`.
`evaluatePostFix` splits the expression into whitespace-separated tokens. It
pushes each number onto a stack of doubles and applies each operator to the
entries on top. The expression is accepted only if exactly one entry is left.
Both versions know `+ - * /` and the commands `x` (swap the top two entries),
`s` (replace the stack by its sum) and `a` (average). Version 5 adds `%`, `^`
and `v`, and moves every symbol into a single `isOperator` list. That move
changes what `a` and `v` do (see below).

The project has four files:

- `tokenizer.dfy` (module `Tokenizer`) models the `while (ss >> token)` loop,
  that is, the C-locale whitespace split. `Tokens` gives the token list. The
  imperative `NextToken` is one stream extraction, and it is proved to advance
  through exactly that list. `Tokens` undoes `Join`.
- `rpn.dfy` (module `Rpn`) holds what the two versions share:
  - the outcome `Result`, where the error kinds stand for the C++ code's
    `cerr` message followed by a NaN return;
  - the stack, a `seq<real>` with the top last, and its `Sum`;
  - the numeric library as an uninterpreted record `Numerics` (`isNumber`,
    `stod`, `/`, `fmod`, `pow`, `sqrt`);
  - the token loop `Run`, which stops at the first failing token;
  - the final one-entry check `Finish`.
- `calculator5.dfy` and `calculator4.dfy` (modules `Calculator5` and
  `Calculator4`) model each version separately:
  - its classifiers and `evaluateOperation`;
  - a per-token `Step`, and `Evaluate` as the specification of the whole
    evaluation;
  - `EvaluatePostFix`, an imperative method that follows the C++ function
    statement by statement (including its drain loops) and is proved equal to
    `Evaluate`;
  - the lemmas on what each token does and what whole expressions evaluate
    to.

In several places the code does something other than its own comments
suggest, and the model follows the code:

- In version 5, `evaluateOperation` labels `a` "Average operation"
  (`inkrementit/postfix_calculator5.cpp:38`). But `evaluatePostFix` catches
  `a` in the branch commented "Handle sum and average operations
  differently" (`inkrementit/postfix_calculator5.cpp:59`), and that branch
  pushes the sum of the stack for both symbols (`Calculator5.SumStep`).
  Version 4 averages.
- In version 5, `v` is the "Square root operation", a one-operand
  `sqrt(operand1)` (`inkrementit/postfix_calculator5.cpp:34-35`). It still
  goes down the two-operand path of `evaluatePostFix`: it needs two
  entries, pops both, and pushes the square root of the lower one, so the
  top entry is discarded (`Calculator5.SqrtDropsTop`).
- In version 5, the `s`, `a`, `x` and invalid-operator branches of
  `evaluateOperation` can never be reached from `evaluatePostFix`
  (`Calculator5.DispatchReachesOnlyArithmetic`).
- In version 4, `%`, `^` and `v` are invalid tokens
  (`Calculator4.ClassifiersDisjoint`).
- The final-size error message says "too many operands" whatever the size.
  The model calls the error `BadFinalSize`, and it covers both an empty
  stack and one with several entries.

## Model

| member | source | states |
|---|---|---|
| Tokenizer.TokensAreWords | inkrementit/postfix_calculator5.cpp:52-55 | every extracted token is non-empty and free of whitespace, and there are no tokens exactly when the expression is empty or all whitespace |
| Tokenizer.Tokens | inkrementit/postfix_calculator5.cpp:52-55 | the tokens that successive `ss >> token` extractions produce, in order: skip whitespace, then take the longest run of non-whitespace; a definition whose properties are stated by `TokensAreWords`, `TokensOfJoin` and `NextToken` |
| Tokenizer.TokensOfJoin | inkrementit/postfix_calculator5.cpp:52-55 | splitting words joined with spaces gives back exactly those words, in order |
| Tokenizer.TokensOfWord | inkrementit/postfix_calculator5.cpp:55 | a word followed by a space is extracted as exactly that word, and the rest is tokenized on its own |
| Tokenizer.TokensAtWord | inkrementit/postfix_calculator5.cpp:55 | from a word boundary, the tokens are that word followed by the tokens after it |
| Tokenizer.WordLen | inkrementit/postfix_calculator5.cpp:55 | a word extends over non-whitespace characters up to the first whitespace or the end |
| Tokenizer.SkipSpace | inkrementit/postfix_calculator5.cpp:55 | skipping whitespace stops at a non-space or the end and leaves the remaining tokens unchanged |
| Tokenizer.ScanWord | inkrementit/postfix_calculator5.cpp:55 | reading a token consumes exactly the maximal run of non-whitespace characters |
| Tokenizer.NextToken | inkrementit/postfix_calculator4.cpp:58 | an extraction succeeds exactly when a token remains, returns the first remaining token, and moves past it; once it fails, the stream is at its end |
| Rpn.Values | inkrementit/postfix_calculator5.cpp:57 | converting number tokens gives one value per token |
| Rpn.Sum | inkrementit/postfix_calculator5.cpp:60-64 | the sum of all stack entries, the value the drain loops accumulate; a definition, and the drain loops of both `EvaluatePostFix` methods are proved to compute it |
| Rpn.Run | inkrementit/postfix_calculator5.cpp:55-95 | the token loop: each token is handed to the step in order and the first failure is the outcome; a definition whose properties are stated by `RunAppend`, `RunAbortsAt` and `RunTracksDepth` |
| Rpn.Finish | inkrementit/postfix_calculator5.cpp:97-104 | the check after the loop: a failure stays a failure, a final stack of other than one entry is BadFinalSize, and otherwise the result is the one entry; a definition, stated for each version by `EvaluateResult` |
| Rpn.RunAppend | inkrementit/postfix_calculator5.cpp:55-95 | evaluating two token sequences in turn is evaluating their concatenation, and a failure in the first ends it |
| Rpn.RunAbortsAt | inkrementit/postfix_calculator5.cpp:67-70 | a token whose step fails ends the evaluation with that error, whatever tokens follow it |
| Rpn.RunTracksDepth | inkrementit/postfix_calculator4.cpp:58-111 | if every token's success and error depend only on the stack depth, so do those of the whole loop |
| Rpn.FinishTracksDepth | inkrementit/postfix_calculator4.cpp:52-121 | when each step is decided by the depth alone, the evaluation succeeds exactly when the depth run ends at one, and otherwise fails with the depth run's error or BadFinalSize |
| Rpn.FailureTracksDepth | inkrementit/postfix_calculator4.cpp:52-121 | two steps decided by the same depth machine both succeed, or both fail with the same error |
| Rpn.NumbersPushInOrder | inkrementit/postfix_calculator5.cpp:55-57 | for any step that pushes numbers, a run of number tokens appends their values in input order onto any stack |
| Rpn.PushTwoNumbers | inkrementit/postfix_calculator5.cpp:56-57 | for any step that pushes numbers, two leading number tokens leave their two values, in order, before the rest runs |
| Calculator5.EvaluateOperation | inkrementit/postfix_calculator5.cpp:21-46 | gives a value for exactly the ten operator symbols and reports an invalid operator otherwise |
| Calculator5.IsOperator | inkrementit/postfix_calculator5.cpp:9-11 | a token is an operator exactly when it is one of the ten symbols `+ - * / % ^ v s a x`; a definition, stated by `DispatchReachesOnlyArithmetic` |
| Calculator5.Step | inkrementit/postfix_calculator5.cpp:56-94 | one pass of the loop body: number, then operator (`s`/`a`, then `x`, then the arithmetic path), else invalid token; a definition whose cases are stated by `NumberPushes`, `SumStep`, `ExchangeStep`, `ArithmeticStep`, `SqrtDropsTop`, `InvalidTokenAborts` and `StepDepth` |
| Calculator5.Evaluate | inkrementit/postfix_calculator5.cpp:49-105 | the whole evaluation: tokenize, run the loop from an empty stack, then the final check; the specification `EvaluatePostFix` is proved against |
| Calculator5.EvaluatePostFix | inkrementit/postfix_calculator5.cpp:49-105 | the imperative evaluator, with its drain loop, returns exactly `Evaluate`, the token-by-token specification |
| Calculator5.StepDepth | inkrementit/postfix_calculator5.cpp:55-95 | each token's success or error, and the depth it leaves, depend only on the depth before it |
| Calculator5.EvaluateDecidedByDepth | inkrementit/postfix_calculator5.cpp:49-105 | an evaluation succeeds exactly when the depth-only run ends at depth one, and otherwise fails with the error of that run (or BadFinalSize) |
| Calculator5.FailureIsStructural | inkrementit/postfix_calculator5.cpp:49-105 | whether and how an evaluation fails does not depend on `stod`, `/`, `fmod`, `pow` or `sqrt` |
| Calculator5.EvaluateResult | inkrementit/postfix_calculator5.cpp:97-104 | an evaluation succeeds exactly when the loop leaves one entry, and the result is that entry |
| Calculator5.DispatchReachesOnlyArithmetic | inkrementit/postfix_calculator5.cpp:9-11 | numbers and operators are disjoint; the operators that reach `evaluateOperation` are exactly `+ - * / % ^ v`, and each of them yields a value |
| Calculator5.NumberPushes | inkrementit/postfix_calculator5.cpp:56-57 | a number pushes its value on top and keeps every other entry |
| Calculator5.StepPushesNumbers | inkrementit/postfix_calculator5.cpp:56-57 | every number token pushes its value, whatever the stack |
| Calculator5.ArithmeticStep | inkrementit/postfix_calculator5.cpp:78-89 | a binary operator fails with fewer than two entries; otherwise it replaces the top two with `evaluateOperation(lower, top)` |
| Calculator5.SqrtDropsTop | inkrementit/postfix_calculator5.cpp:34-35 | `v` needs two entries and replaces them with the square root of the lower one |
| Calculator5.ExchangeStep | inkrementit/postfix_calculator5.cpp:66-77 | `x` fails with fewer than two entries; otherwise it swaps the top two and leaves the rest unchanged |
| Calculator5.ExchangeTwiceRestores | inkrementit/postfix_calculator5.cpp:66-77 | two exchanges in a row restore the stack |
| Calculator5.SumStep | inkrementit/postfix_calculator5.cpp:59-65 | `s` and `a` never fail and replace the stack with its sum, which is 0 on an empty stack |
| Calculator5.SumTwiceIsSum | inkrementit/postfix_calculator5.cpp:59-65 | a second sum right after a first changes nothing |
| Calculator5.InvalidTokenAborts | inkrementit/postfix_calculator5.cpp:91-94 | a token that is neither a number nor an operator ends the evaluation with InvalidToken, and no later token is looked at |
| Calculator5.EvaluateSumOfNumbers | inkrementit/postfix_calculator5.cpp:59-65 | "n1 ... nk s" and "n1 ... nk a" evaluate to the sum of the k numbers, for every k including 0 |
| Calculator5.EvaluateBinary | inkrementit/postfix_calculator5.cpp:78-89 | "A B op" evaluates to `evaluateOperation(A, B, op)`: the number pushed last is the right operand |
| Calculator5.EvaluateExchangeThenMinus | inkrementit/postfix_calculator5.cpp:66-89 | "A B x -" evaluates to B - A |
| Calculator5.ExchangeThenMinus | inkrementit/postfix_calculator5.cpp:66-89 | on the stack [A, B], "x -" leaves [B - A] |
| Calculator4.EvaluateOperation | inkrementit/postfix_calculator4.cpp:36-49 | gives a value for exactly `+ - * /` and reports an invalid operator otherwise |
| Calculator4.IsOperator | inkrementit/postfix_calculator4.cpp:9-11 | a token is an operator exactly when it is `+ - * /`; a definition, stated by `ClassifiersDisjoint` |
| Calculator4.IsExchange | inkrementit/postfix_calculator4.cpp:14-16 | the exchange command is exactly `x`; a definition, stated by `ClassifiersDisjoint` |
| Calculator4.IsSum | inkrementit/postfix_calculator4.cpp:19-21 | the sum command is exactly `s`; a definition, stated by `ClassifiersDisjoint` |
| Calculator4.IsAverage | inkrementit/postfix_calculator4.cpp:24-26 | the average command is exactly `a`; a definition, stated by `ClassifiersDisjoint` |
| Calculator4.Step | inkrementit/postfix_calculator4.cpp:59-110 | one pass of the loop body: number, operator, exchange, sum, average, else invalid token, in that order; a definition whose cases are stated by `NumberPushes`, `ArithmeticStep`, `ExchangeStep`, `SumStep`, `AverageStep`, `InvalidTokenAborts` and `StepDepth` |
| Calculator4.Evaluate | inkrementit/postfix_calculator4.cpp:52-121 | the whole evaluation: tokenize, run the loop from an empty stack, then the final check; the specification `EvaluatePostFix` is proved against |
| Calculator4.EvaluatePostFix | inkrementit/postfix_calculator4.cpp:52-121 | the imperative evaluator, with its sum and average drain loops, returns exactly `Evaluate`, the token-by-token specification |
| Calculator4.StepDepth | inkrementit/postfix_calculator4.cpp:58-111 | each token's success or error, and the depth it leaves, depend only on the depth before it |
| Calculator4.EvaluateDecidedByDepth | inkrementit/postfix_calculator4.cpp:52-121 | an evaluation succeeds exactly when the depth-only run ends at depth one, and otherwise fails with the error of that run (or BadFinalSize) |
| Calculator4.FailureIsStructural | inkrementit/postfix_calculator4.cpp:52-121 | whether and how an evaluation fails does not depend on `stod` or `/` |
| Calculator4.EvaluateResult | inkrementit/postfix_calculator4.cpp:113-120 | an evaluation succeeds exactly when the loop leaves one entry, and the result is that entry |
| Calculator4.ClassifiersDisjoint | inkrementit/postfix_calculator4.cpp:9-33 | numbers, operators and the three commands are disjoint; `%`, `^` and `v` are invalid tokens |
| Calculator4.NumberPushes | inkrementit/postfix_calculator4.cpp:59-60 | a number pushes its value on top and keeps every other entry |
| Calculator4.StepPushesNumbers | inkrementit/postfix_calculator4.cpp:59-60 | every number token pushes its value, whatever the stack |
| Calculator4.ArithmeticStep | inkrementit/postfix_calculator4.cpp:61-72 | an operator fails with fewer than two entries; otherwise it replaces the top two with `evaluateOperation(lower, top)` |
| Calculator4.ExchangeStep | inkrementit/postfix_calculator4.cpp:73-84 | `x` fails with fewer than two entries; otherwise it swaps the top two and leaves the rest unchanged |
| Calculator4.ExchangeTwiceRestores | inkrementit/postfix_calculator4.cpp:73-84 | two exchanges in a row restore the stack |
| Calculator4.SumStep | inkrementit/postfix_calculator4.cpp:85-91 | `s` never fails and replaces the stack with its sum, which is 0 on an empty stack |
| Calculator4.AverageStep | inkrementit/postfix_calculator4.cpp:92-106 | `a` fails on an empty stack; otherwise it replaces the stack with its sum divided by its (non-zero) depth |
| Calculator4.InvalidTokenAborts | inkrementit/postfix_calculator4.cpp:107-110 | a token in none of the five classes ends the evaluation with InvalidToken, and no later token is looked at |
| Calculator4.NumbersThenCommand | inkrementit/postfix_calculator4.cpp:58-60 | "n1 ... nk cmd" runs `cmd` on the stack of the k values |
| Calculator4.EvaluateSumOfNumbers | inkrementit/postfix_calculator4.cpp:85-91 | "n1 ... nk s" evaluates to the sum of the k numbers, for every k including 0 |
| Calculator4.EvaluateAverageOfNumbers | inkrementit/postfix_calculator4.cpp:92-106 | "n1 ... nk a" fails for k = 0 and otherwise evaluates to the sum divided by k |
| Calculator4.EvaluateBinary | inkrementit/postfix_calculator4.cpp:61-72 | "A B op" evaluates to `evaluateOperation(A, B, op)`: the number pushed last is the right operand |
| Calculator4.EvaluateExchangeThenMinus | inkrementit/postfix_calculator4.cpp:61-84 | "A B x -" evaluates to B - A |
| Calculator4.ExchangeThenMinus | inkrementit/postfix_calculator4.cpp:61-84 | on the stack [A, B], "x -" leaves [B - A] |

## Left out

- `main` in both versions (reading one line from standard input, the `-p`
  prompt, printing the result) is input/output and is not modelled. The
  expression is a parameter of `Evaluate`/`EvaluatePostFix`.
- The `cerr` diagnostics are not modelled. Each diagnostic-plus-NaN return is
  an `Err` carrying its kind.
- Floating point is not modelled. Values are `real`. `stod`, `/` on doubles,
  `fmod`, `pow` and `sqrt` are uninterpreted fields of `Numerics`, so no
  claim is made about rounding, infinities or NaN. In particular, the C++
  `main` cannot tell a NaN produced by arithmetic (such as `0 0 /`) from an
  error; the model keeps the two apart.
- The grammar of `isNumber` (what `stringstream >> double` accepts with
  nothing left over) is not modelled. It is the `isNumber` field of
  `Numerics`. The only thing assumed about it is that no operator or command
  symbol parses as a number, which holds for every C++ standard library.
  A literal that underflows (such as `1e-400`) passes `isNumber`, but
  `stod` then throws `out_of_range` and the program ends. The model pushes
  `parse(t)` instead.
- Calculator4.EvaluatePostFix: the version 4 average divides by `count`, an
  `int` converted to `double`. The model divides by the depth as a `real` and
  does not model `int` overflow, which would need more than 2^31 stack
  entries.
- The `std::stack` container is modelled as a value sequence that the methods
  reassign. There is no aliasing to capture, because the stack is local to
  `evaluatePostFix`.
