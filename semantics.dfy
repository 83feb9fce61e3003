/**
 * What a syntactically valid token sequence evaluates to.
 *
 * `Continue` is the reference: the usual grammar of the operators, read by
 * recursive descent (products and quotients first, then sums and
 * differences from left to right, assignment last and to the right).
 * `Build` is the token-index-driven recursion of the expression builder:
 * it keeps a running result and consults NeedsToBeEvaluatedFirst to decide
 * whether to reduce now or to resolve the right operand first.
 * `AsWrittenBuild` is the same recursion as the builder's declaration
 * allows it to be written, where the right operand is resolved up to the end
 * of the tokens; it is kept to exhibit where it departs from the reference.
 */
module Semantics {
  import opened Outcomes
  import opened Operations
  import opened Tokens
  import DecimalText

  /** `i` is an operator position of a valid sequence, or its end. */
  predicate OperatorPosition(ts: seq<Token>, i: nat) {
    IsSyntaxValid(ts) && i % 2 == 1 && i <= |ts|
  }

  /** An operator is followed by its right operand, and then by an operator position. */
  lemma Operands(ts: seq<Token>, i: nat)
    requires OperatorPosition(ts, i) && i < |ts|
    ensures i + 1 < |ts| && (i + 1) % 2 == 0 && OperatorPosition(ts, i + 2)
  {
  }

  /** convertTokenToNode: the number a Number token stands for. */
  function NumberAt(ts: seq<Token>, i: nat): real
    requires IsSyntaxValid(ts) && i % 2 == 0 && i < |ts|
  {
    DecimalText.ReadDecimal(ts[i].lexeme)
  }

  /** The operator an Operator token stands for. */
  function OperatorAt(ts: seq<Token>, i: nat): (op: Operator)
    requires IsSyntaxValid(ts) && i % 2 == 1 && i < |ts|
    ensures Symbol(op) == ts[i].lexeme[0]
  {
    assert IsOperator(ts[i]);
    OperatorOf(ts[i].lexeme[0]).value
  }

  /**
   * A chain of products and quotients that has reduced to `acc` so far,
   * continued from operator position `i`; it stops at the first operator
   * that is not a product or a quotient and returns where it stopped.
   */
  function Term(ts: seq<Token>, acc: real, i: nat): (r: Result<(real, nat)>)
    requires OperatorPosition(ts, i)
    ensures r.Ok? ==> i <= r.value.1 <= |ts| && r.value.1 % 2 == 1
    ensures r.Ok? && r.value.1 < |ts| ==> Level(OperatorAt(ts, r.value.1)) < 2
    decreases |ts| - i
  {
    if i < |ts| && Level(OperatorAt(ts, i)) == 2 then
      Operands(ts, i);
      var a :- Apply(OperatorAt(ts, i), acc, NumberAt(ts, i + 1));
      Term(ts, a, i + 2)
    else
      Ok((acc, i))
  }

  /**
   * A chain of sums and differences of terms that has reduced to `acc` so
   * far, continued from operator position `i`; it stops at an assignment or
   * at the end.
   */
  function Sum(ts: seq<Token>, acc: real, i: nat): (r: Result<(real, nat)>)
    requires OperatorPosition(ts, i)
    requires i < |ts| ==> Level(OperatorAt(ts, i)) < 2
    ensures r.Ok? ==> i <= r.value.1 <= |ts| && r.value.1 % 2 == 1
    ensures r.Ok? && r.value.1 < |ts| ==> OperatorAt(ts, r.value.1) == Assign
    decreases |ts| - i
  {
    if i < |ts| && Level(OperatorAt(ts, i)) == 1 then
      Operands(ts, i);
      var (t, k) :- Term(ts, NumberAt(ts, i + 1), i + 2);
      var a :- Apply(OperatorAt(ts, i), acc, t);
      Sum(ts, a, k)
    else
      Ok((acc, i))
  }

  /**
   * The reference value of the rest of an expression from operator position
   * `i`, when everything before it has reduced to `acc` and the term in
   * progress is still open: finish the term, then the sum, then, if an
   * assignment follows, the whole expression on its right, whose value the
   * assignment takes.
   */
  function Continue(ts: seq<Token>, acc: real, i: nat): Result<real>
    requires OperatorPosition(ts, i)
    decreases |ts| - i, 2
  {
    match Term(ts, acc, i)
    case Err(e) => Err(e)
    case Ok((t, k)) => Additive(ts, t, k)
  }

  /** The rest of an expression once the term in progress is complete. */
  function Additive(ts: seq<Token>, t: real, k: nat): Result<real>
    requires OperatorPosition(ts, k)
    requires k < |ts| ==> Level(OperatorAt(ts, k)) < 2
    decreases |ts| - k, 1
  {
    match Sum(ts, t, k)
    case Err(e) => Err(e)
    case Ok((v, m)) => Assignment(ts, v, m)
  }

  /** The rest of an expression once the sum in progress is complete. */
  function Assignment(ts: seq<Token>, v: real, m: nat): Result<real>
    requires OperatorPosition(ts, m)
    requires m < |ts| ==> OperatorAt(ts, m) == Assign
    decreases |ts| - m, 0
  {
    if m < |ts| then
      assert m + 1 < |ts| && (m + 1) % 2 == 0;
      match Continue(ts, NumberAt(ts, m + 1), m + 2)
      case Err(e) => Err(e)
      case Ok(w) => Apply(Assign, v, w)
    else
      Ok(v)
  }

  /** The value of a valid expression by the usual precedence and associativity rules. */
  function Reference(ts: seq<Token>): Result<real>
    requires IsSyntaxValid(ts)
  {
    Continue(ts, NumberAt(ts, 0), 1)
  }

  /**
   * The corrected builder, from operator position `i` with running result
   * `acc`, resolving the right operand of `pending` when there is one: it
   * stops as soon as `pending` must be reduced before the next operator.
   * An operator that must be reduced before its successor (or is the last
   * one) is combined with the running result at once; otherwise the right
   * operand is resolved first by a recursive call that reports where it
   * stopped, and the scan carries on from there.
   */
  function Build(ts: seq<Token>, i: nat, acc: real, pending: Option<Operator>): (r: Result<(real, nat)>)
    requires OperatorPosition(ts, i)
    ensures r.Ok? ==> i <= r.value.1 <= |ts| && r.value.1 % 2 == 1
    decreases |ts| - i
  {
    if i == |ts| || (pending.Some? && EvaluatedBefore(pending.value, OperatorAt(ts, i))) then
      Ok((acc, i))
    else
      Operands(ts, i);
      var op, x := OperatorAt(ts, i), NumberAt(ts, i + 1);
      if i + 2 == |ts| || EvaluatedBefore(op, OperatorAt(ts, i + 2)) then
        var a :- Apply(op, acc, x);
        Build(ts, i + 2, a, pending)
      else
        var (t, k) :- Build(ts, i + 2, x, Some(op));
        var a :- Apply(op, acc, t);
        Build(ts, k, a, pending)
  }

  /** The operator at `i` must be combined with the running result before the next one is read. */
  predicate ReducesNow(ts: seq<Token>, i: nat)
    requires OperatorPosition(ts, i) && i < |ts|
  {
    i + 2 == |ts| || EvaluatedBefore(OperatorAt(ts, i), OperatorAt(ts, i + 2))
  }

  /** One step of Build when the operator at `i` reduces at once. */
  lemma BuildReduces(ts: seq<Token>, i: nat, acc: real, pending: Option<Operator>)
    requires OperatorPosition(ts, i) && i < |ts| && ReducesNow(ts, i)
    requires !(pending.Some? && EvaluatedBefore(pending.value, OperatorAt(ts, i)))
    ensures var e := Apply(OperatorAt(ts, i), acc, NumberAt(ts, i + 1));
            Build(ts, i, acc, pending) == if e.Err? then Err(e.error) else Build(ts, i + 2, e.value, pending)
  {
  }

  /** One step of Build when the right operand of the operator at `i` is resolved first. */
  lemma BuildDefers(ts: seq<Token>, i: nat, acc: real, pending: Option<Operator>)
    requires OperatorPosition(ts, i) && i < |ts| && !ReducesNow(ts, i)
    requires !(pending.Some? && EvaluatedBefore(pending.value, OperatorAt(ts, i)))
    ensures var sub := Build(ts, i + 2, NumberAt(ts, i + 1), Some(OperatorAt(ts, i)));
            sub.Err? ==> Build(ts, i, acc, pending) == Err(sub.error)
    ensures var sub := Build(ts, i + 2, NumberAt(ts, i + 1), Some(OperatorAt(ts, i)));
            sub.Ok? ==>
              var e := Apply(OperatorAt(ts, i), acc, sub.value.0);
              Build(ts, i, acc, pending) == if e.Err? then Err(e.error) else Build(ts, sub.value.1, e.value, pending)
  {
  }

  /**
   * The decision read off the operator characters, as the builder makes it:
   * the operator at `i` reduces at once when it is the last one or when
   * NeedsToBeEvaluatedFirst holds of it and the next one.
   */
  lemma ReducesNowByChars(ts: seq<Token>, i: nat)
    requires OperatorPosition(ts, i) && i < |ts|
    ensures i + 2 <= |ts|
    ensures OperatorOf(ts[i].lexeme[0]) == Some(OperatorAt(ts, i))
    ensures ReducesNow(ts, i) ==
              (i + 2 == |ts| || NeedsToBeEvaluatedFirst(ts[i].lexeme[0], ts[i + 2].lexeme[0]))
  {
    Operands(ts, i);
    SymbolRoundTrip(OperatorAt(ts, i), ts[i].lexeme[0]);
    if i + 2 < |ts| {
      SymbolRoundTrip(OperatorAt(ts, i + 2), ts[i + 2].lexeme[0]);
    }
  }

  /**
   * One step of Build, once the right operand of the operator at `i` is
   * known to be `operand` and the scan to go on from `next`.
   */
  lemma BuildStepsTo(ts: seq<Token>, i: nat, acc: real, pending: Option<Operator>, operand: real, next: nat)
    requires OperatorPosition(ts, i) && i < |ts| && OperatorPosition(ts, next)
    requires !(pending.Some? && EvaluatedBefore(pending.value, OperatorAt(ts, i)))
    requires ReducesNow(ts, i) ==> next == i + 2 && operand == NumberAt(ts, i + 1)
    requires !ReducesNow(ts, i) ==>
               Build(ts, i + 2, NumberAt(ts, i + 1), Some(OperatorAt(ts, i))) == Ok((operand, next))
    ensures var e := Apply(OperatorAt(ts, i), acc, operand);
            Build(ts, i, acc, pending) == if e.Err? then Err(e.error) else Build(ts, next, e.value, pending)
  {
    if ReducesNow(ts, i) {
      BuildReduces(ts, i, acc, pending);
    } else {
      BuildDefers(ts, i, acc, pending);
    }
  }

  /** The value the corrected builder computes for a whole valid expression. */
  function BuildValue(ts: seq<Token>): Result<real>
    requires IsSyntaxValid(ts)
  {
    var (v, _) :- Build(ts, 1, NumberAt(ts, 0), None);
    Ok(v)
  }

  /**
   * The builder as declared: with no way to report where a recursive call
   * stopped, the right operand of an operator that does not reduce first
   * is the whole rest of the expression.
   */
  function AsWrittenBuild(ts: seq<Token>, i: nat, acc: real): Result<real>
    requires OperatorPosition(ts, i)
    decreases |ts| - i
  {
    if i == |ts| then
      Ok(acc)
    else
      Operands(ts, i);
      var op, x := OperatorAt(ts, i), NumberAt(ts, i + 1);
      if i + 2 == |ts| || EvaluatedBefore(op, OperatorAt(ts, i + 2)) then
        var a :- Apply(op, acc, x);
        AsWrittenBuild(ts, i + 2, a)
      else
        var t :- AsWrittenBuild(ts, i + 2, x);
        Apply(op, acc, t)
  }

  /** The value the builder as declared computes for a whole valid expression. */
  function AsWrittenValue(ts: seq<Token>): (r: Result<real>)
    requires IsSyntaxValid(ts)
    ensures r.Err? ==> r.error == DivisionByZero
    ensures |ts| == 1 ==> r == Ok(NumberAt(ts, 0))
  {
    AsWrittenFails(ts, 1, NumberAt(ts, 0));
    AsWrittenBuild(ts, 1, NumberAt(ts, 0))
  }

  /** The recursion as declared fails only on a division by zero. */
  lemma {:induction false} AsWrittenFails(ts: seq<Token>, i: nat, acc: real)
    requires OperatorPosition(ts, i)
    ensures AsWrittenBuild(ts, i, acc).Err? ==> AsWrittenBuild(ts, i, acc).error == DivisionByZero
    decreases |ts| - i
  {
    if i < |ts| {
      Operands(ts, i);
      var op, x := OperatorAt(ts, i), NumberAt(ts, i + 1);
      if i + 2 == |ts| || EvaluatedBefore(op, OperatorAt(ts, i + 2)) {
        var a := Apply(op, acc, x);
        if a.Ok? {
          AsWrittenFails(ts, i + 2, a.value);
        }
      } else {
        AsWrittenFails(ts, i + 2, x);
      }
    }
  }

  /**
   * Resolving the right operand of an addition or a subtraction consumes
   * exactly the products and quotients that follow it.
   */
  lemma {:induction false} BuildUnderSum(ts: seq<Token>, i: nat, acc: real, p: Operator)
    requires OperatorPosition(ts, i)
    requires Level(p) == 1
    ensures Build(ts, i, acc, Some(p)) == Term(ts, acc, i)
    decreases |ts| - i
  {
    if i < |ts| && Level(OperatorAt(ts, i)) == 2 {
      var e := UnderSumStep(ts, i, acc, p);
      if e.Ok? {
        BuildUnderSum(ts, i + 2, e.value, p);
      }
    } else {
      UnderSumStops(ts, i, acc, p);
    }
  }

  /** Under a pending sum, a product or a quotient reduces at once: one step of both readings. */
  lemma UnderSumStep(ts: seq<Token>, i: nat, acc: real, p: Operator) returns (e: Result<real>)
    requires OperatorPosition(ts, i) && i < |ts| && Level(OperatorAt(ts, i)) == 2 && Level(p) == 1
    ensures OperatorPosition(ts, i + 2)
    ensures e.Err? ==> Build(ts, i, acc, Some(p)) == Err(e.error) == Term(ts, acc, i)
    ensures e.Ok? && Build(ts, i + 2, e.value, Some(p)) == Term(ts, e.value, i + 2) ==>
              Build(ts, i, acc, Some(p)) == Term(ts, acc, i)
  {
    Operands(ts, i);
    e := Apply(OperatorAt(ts, i), acc, NumberAt(ts, i + 1));
    assert ReducesNow(ts, i);
    BuildReduces(ts, i, acc, Some(p));
  }

  /** Under a pending sum, the builder stops where the chain of products and quotients does. */
  lemma UnderSumStops(ts: seq<Token>, i: nat, acc: real, p: Operator)
    requires OperatorPosition(ts, i) && (i < |ts| ==> Level(OperatorAt(ts, i)) < 2) && Level(p) == 1
    ensures Build(ts, i, acc, Some(p)) == Ok((acc, i)) == Term(ts, acc, i)
  {
  }

  /** With no operator left, the rest of an expression is its running result. */
  lemma ContinueAtEnd(ts: seq<Token>, acc: real)
    requires IsSyntaxValid(ts)
    ensures Continue(ts, acc, |ts|) == Ok(acc)
  {
    assert Term(ts, acc, |ts|) == Ok((acc, |ts|));
    assert Sum(ts, acc, |ts|) == Ok((acc, |ts|));
    assert Additive(ts, acc, |ts|) == Assignment(ts, acc, |ts|);
  }

  /** A value paired with the position where the scan ended. */
  function EndedAt(r: Result<real>, n: nat): Result<(real, nat)> {
    match r
    case Ok(v) => Ok((v, n))
    case Err(e) => Err(e)
  }

  /** At an operator below the products, the term in progress is complete. */
  lemma ContinueAtSum(ts: seq<Token>, acc: real, i: nat)
    requires OperatorPosition(ts, i) && (i < |ts| ==> Level(OperatorAt(ts, i)) < 2)
    ensures Continue(ts, acc, i) == Additive(ts, acc, i)
  {
    assert Term(ts, acc, i) == Ok((acc, i));
  }

  /** At a product or a quotient, the term in progress takes in the next number. */
  lemma ContinueAtProduct(ts: seq<Token>, acc: real, i: nat)
    requires OperatorPosition(ts, i) && i < |ts| && Level(OperatorAt(ts, i)) == 2
    ensures var e := Apply(OperatorAt(ts, i), acc, NumberAt(ts, i + 1));
            Continue(ts, acc, i) == if e.Err? then Err(e.error) else Continue(ts, e.value, i + 2)
  {
    Operands(ts, i);
    var e := Apply(OperatorAt(ts, i), acc, NumberAt(ts, i + 1));
    if e.Ok? {
      assert Term(ts, acc, i) == Term(ts, e.value, i + 2);
    }
  }

  /** At a sum or a difference, the sum in progress takes in the next term. */
  lemma AdditiveStep(ts: seq<Token>, t: real, i: nat)
    requires OperatorPosition(ts, i) && i < |ts| && Level(OperatorAt(ts, i)) == 1
    ensures var u := Term(ts, NumberAt(ts, i + 1), i + 2);
            u.Err? ==> Additive(ts, t, i) == Err(u.error)
    ensures var u := Term(ts, NumberAt(ts, i + 1), i + 2);
            u.Ok? ==>
              var e := Apply(OperatorAt(ts, i), t, u.value.0);
              Additive(ts, t, i) == if e.Err? then Err(e.error) else Additive(ts, e.value, u.value.1)
  {
    Operands(ts, i);
    var u := Term(ts, NumberAt(ts, i + 1), i + 2);
    if u.Ok? {
      var e := Apply(OperatorAt(ts, i), t, u.value.0);
      if e.Ok? {
        assert Sum(ts, t, i) == Sum(ts, e.value, u.value.1);
      }
    }
  }

  /**
   * At the outermost level, or on the right of an assignment, the builder
   * runs to the end of the tokens and computes the reference value of the
   * rest of the expression.
   */
  lemma {:induction false} BuildUnbounded(ts: seq<Token>, i: nat, acc: real, pending: Option<Operator>)
    requires OperatorPosition(ts, i)
    requires pending == None || pending == Some(Assign)
    ensures Build(ts, i, acc, pending) == EndedAt(Continue(ts, acc, i), |ts|)
    decreases |ts| - i, 2
  {
    if i == |ts| {
      ContinueAtEnd(ts, acc);
    } else {
      var op := OperatorAt(ts, i);
      if Level(op) == 2 {
        BuildUnboundedProduct(ts, i, acc, pending);
      } else if Level(op) == 1 {
        if ReducesNow(ts, i) {
          BuildUnboundedSumNow(ts, i, acc, pending);
        } else {
          BuildUnboundedSumDeferred(ts, i, acc, pending);
        }
      } else {
        BuildUnboundedAssign(ts, i, acc, pending);
      }
    }
  }

  /** A product or a quotient reduces at once: one step of both readings. */
  lemma ProductStep(ts: seq<Token>, i: nat, acc: real, pending: Option<Operator>) returns (e: Result<real>)
    requires OperatorPosition(ts, i) && i < |ts| && Level(OperatorAt(ts, i)) == 2
    requires pending == None || pending == Some(Assign)
    ensures OperatorPosition(ts, i + 2)
    ensures e.Err? ==> Build(ts, i, acc, pending) == Err(e.error) && Continue(ts, acc, i) == Err(e.error)
    ensures e.Ok? ==> Build(ts, i, acc, pending) == Build(ts, i + 2, e.value, pending)
    ensures e.Ok? ==> Continue(ts, acc, i) == Continue(ts, e.value, i + 2)
  {
    Operands(ts, i);
    e := Apply(OperatorAt(ts, i), acc, NumberAt(ts, i + 1));
    assert ReducesNow(ts, i);
    BuildReduces(ts, i, acc, pending);
    ContinueAtProduct(ts, acc, i);
  }

  lemma {:induction false} BuildUnboundedProduct(ts: seq<Token>, i: nat, acc: real, pending: Option<Operator>)
    requires OperatorPosition(ts, i) && i < |ts| && Level(OperatorAt(ts, i)) == 2
    requires pending == None || pending == Some(Assign)
    ensures Build(ts, i, acc, pending) == EndedAt(Continue(ts, acc, i), |ts|)
    decreases |ts| - i, 1
  {
    var e := ProductStep(ts, i, acc, pending);
    if e.Ok? {
      BuildUnbounded(ts, i + 2, e.value, pending);
    }
  }

  /** An addition or a subtraction that reduces at once: one step of both readings. */
  lemma SumNowStep(ts: seq<Token>, i: nat, acc: real, pending: Option<Operator>) returns (a: real)
    requires OperatorPosition(ts, i) && i < |ts| && Level(OperatorAt(ts, i)) == 1 && ReducesNow(ts, i)
    requires pending == None || pending == Some(Assign)
    ensures OperatorPosition(ts, i + 2)
    ensures Build(ts, i, acc, pending) == Build(ts, i + 2, a, pending)
    ensures Continue(ts, acc, i) == Continue(ts, a, i + 2)
  {
    Operands(ts, i);
    var x := NumberAt(ts, i + 1);
    // a sum or a difference never fails
    a := Apply(OperatorAt(ts, i), acc, x).value;
    assert Build(ts, i, acc, pending) == Build(ts, i + 2, a, pending) by {
      BuildReduces(ts, i, acc, pending);
    }
    assert Continue(ts, acc, i) == Additive(ts, a, i + 2) by {
      assert Term(ts, x, i + 2) == Ok((x, i + 2));
      AdditiveStep(ts, acc, i);
      ContinueAtSum(ts, acc, i);
    }
    ContinueAtSum(ts, a, i + 2);
  }

  lemma {:induction false} BuildUnboundedSumNow(ts: seq<Token>, i: nat, acc: real, pending: Option<Operator>)
    requires OperatorPosition(ts, i) && i < |ts| && Level(OperatorAt(ts, i)) == 1 && ReducesNow(ts, i)
    requires pending == None || pending == Some(Assign)
    ensures Build(ts, i, acc, pending) == EndedAt(Continue(ts, acc, i), |ts|)
    decreases |ts| - i, 0
  {
    var a := SumNowStep(ts, i, acc, pending);
    BuildUnbounded(ts, i + 2, a, pending);
  }

  /**
   * An addition or a subtraction whose right operand is a chain of products
   * and quotients: one step of both readings, to where that chain ends.
   */
  lemma SumDeferredStep(ts: seq<Token>, i: nat, acc: real, pending: Option<Operator>) returns (e: Result<(real, nat)>)
    requires OperatorPosition(ts, i) && i < |ts| && Level(OperatorAt(ts, i)) == 1 && !ReducesNow(ts, i)
    requires pending == None || pending == Some(Assign)
    ensures e.Err? ==> Build(ts, i, acc, pending) == Err(e.error) && Continue(ts, acc, i) == Err(e.error)
    ensures e.Ok? ==> i + 2 <= e.value.1 && OperatorPosition(ts, e.value.1)
    ensures e.Ok? ==> Build(ts, i, acc, pending) == Build(ts, e.value.1, e.value.0, pending)
    ensures e.Ok? ==> Continue(ts, acc, i) == Continue(ts, e.value.0, e.value.1)
  {
    Operands(ts, i);
    var op, x := OperatorAt(ts, i), NumberAt(ts, i + 1);
    var u := Term(ts, x, i + 2);
    if u.Err? {
      e := Err(u.error);
      assert Build(ts, i, acc, pending) == Err(u.error) by {
        BuildDefers(ts, i, acc, pending);
        BuildUnderSum(ts, i + 2, x, op);
      }
      assert Continue(ts, acc, i) == Err(u.error) by {
        AdditiveStep(ts, acc, i);
        ContinueAtSum(ts, acc, i);
      }
    } else {
      // a sum or a difference never fails
      var a, k := Apply(op, acc, u.value.0).value, u.value.1;
      e := Ok((a, k));
      assert Build(ts, i, acc, pending) == Build(ts, k, a, pending) by {
        BuildDefers(ts, i, acc, pending);
        BuildUnderSum(ts, i + 2, x, op);
      }
      assert Continue(ts, acc, i) == Additive(ts, a, k) by {
        AdditiveStep(ts, acc, i);
        ContinueAtSum(ts, acc, i);
      }
      ContinueAtSum(ts, a, k);
    }
  }

  lemma {:induction false} BuildUnboundedSumDeferred(ts: seq<Token>, i: nat, acc: real, pending: Option<Operator>)
    requires OperatorPosition(ts, i) && i < |ts| && Level(OperatorAt(ts, i)) == 1 && !ReducesNow(ts, i)
    requires pending == None || pending == Some(Assign)
    ensures Build(ts, i, acc, pending) == EndedAt(Continue(ts, acc, i), |ts|)
    decreases |ts| - i, 0
  {
    var e := SumDeferredStep(ts, i, acc, pending);
    if e.Ok? {
      BuildUnbounded(ts, e.value.1, e.value.0, pending);
    }
  }

  /** At the end of the tokens, the builder returns its running result. */
  lemma BuildAtEnd(ts: seq<Token>, acc: real, pending: Option<Operator>)
    requires IsSyntaxValid(ts)
    ensures Build(ts, |ts|, acc, pending) == Ok((acc, |ts|))
  {
  }

  /** An assignment takes the value of the whole expression on its right. */
  lemma AssignmentStep(ts: seq<Token>, acc: real, i: nat)
    requires OperatorPosition(ts, i) && i < |ts| && OperatorAt(ts, i) == Assign
    ensures i + 1 < |ts| && (i + 1) % 2 == 0 && OperatorPosition(ts, i + 2)
    ensures Continue(ts, acc, i) == Continue(ts, NumberAt(ts, i + 1), i + 2)
  {
    Operands(ts, i);
    assert Term(ts, acc, i) == Ok((acc, i));
    assert Sum(ts, acc, i) == Ok((acc, i));
    assert Continue(ts, acc, i) == Additive(ts, acc, i) == Assignment(ts, acc, i);
  }

  /** An assignment that is not the last operator resolves its right operand to the end. */
  lemma AssignDeferredStep(ts: seq<Token>, i: nat, acc: real, pending: Option<Operator>)
    requires OperatorPosition(ts, i) && i + 2 < |ts| && OperatorAt(ts, i) == Assign
    requires pending == None || pending == Some(Assign)
    requires Build(ts, i + 2, NumberAt(ts, i + 1), Some(Assign)) == EndedAt(Continue(ts, NumberAt(ts, i + 1), i + 2), |ts|)
    ensures Build(ts, i, acc, pending) == EndedAt(Continue(ts, NumberAt(ts, i + 1), i + 2), |ts|)
  {
    Operands(ts, i);
    var c := Continue(ts, NumberAt(ts, i + 1), i + 2);
    if c.Ok? {
      AssignResolved(ts, i, acc, pending, c.value);
    } else {
      assert !ReducesNow(ts, i);
      BuildDefers(ts, i, acc, pending);
    }
  }

  lemma AssignResolved(ts: seq<Token>, i: nat, acc: real, pending: Option<Operator>, v: real)
    requires OperatorPosition(ts, i) && i + 2 < |ts| && OperatorAt(ts, i) == Assign
    requires pending == None || pending == Some(Assign)
    requires Build(ts, i + 2, NumberAt(ts, i + 1), Some(Assign)) == Ok((v, |ts|))
    ensures Build(ts, i, acc, pending) == Ok((v, |ts|))
  {
    Operands(ts, i);
    assert !ReducesNow(ts, i);
    BuildStepsTo(ts, i, acc, pending, v, |ts|);
    BuildAtEnd(ts, v, pending);
  }

  lemma {:induction false} BuildUnboundedAssign(ts: seq<Token>, i: nat, acc: real, pending: Option<Operator>)
    requires OperatorPosition(ts, i) && i < |ts| && OperatorAt(ts, i) == Assign
    requires pending == None || pending == Some(Assign)
    ensures Build(ts, i, acc, pending) == EndedAt(Continue(ts, acc, i), |ts|)
    decreases |ts| - i, 1
  {
    AssignmentStep(ts, acc, i);
    var x := NumberAt(ts, i + 1);
    if i + 2 < |ts| {
      BuildUnbounded(ts, i + 2, x, Some(Assign));
      AssignDeferredStep(ts, i, acc, pending);
    } else {
      assert ReducesNow(ts, i);
      BuildReduces(ts, i, acc, pending);
      BuildAtEnd(ts, x, pending);
      ContinueAtEnd(ts, x);
    }
  }

  /** The corrected builder computes the reference value of every valid expression. */
  lemma BuildMatchesReference(ts: seq<Token>)
    requires IsSyntaxValid(ts)
    ensures BuildValue(ts) == Reference(ts)
  {
    BuildUnbounded(ts, 1, NumberAt(ts, 0), None);
  }
}
