/**
 * The demo's evaluate/correct loop (`DetailedEvaluatorOptimizer`): evaluate a
 * working copy of the message (validator errors, then business-rule errors),
 * stop as VALID when there are none, otherwise hand the copy and its errors
 * to the optimizer for a replacement, and on the last allowed round mark the
 * copy INVALID with that round's errors.
 *
 * The optimizer, the business rules and the iteration bound are inherited
 * from a base class whose code is not part of this model; they are
 * parameters here, and nothing is assumed about what they do.
 */
module Evaluator {
  import opened Wrappers
  import opened Calendar
  import opened SwiftModel
  import opened Validator
  import opened ValidatorProperties

  /** `_optimize_message(message, errors)`. The round number is passed so that
      the optimizer may answer differently each time it is asked. */
  type Optimizer = (nat, SwiftMessage, seq<Finding>) -> SwiftMessage

  /** `_validate_business_rules(message)`: the texts of the business-rule errors. */
  type BusinessRules = SwiftMessage -> seq<string>

  /** Validator errors as entries of a message's error list. */
  function Checks(es: seq<ValidationError>): (r: seq<Finding>)
    ensures |r| == |es| && forall i :: 0 <= i < |es| ==> r[i] == Check(es[i])
  {
    if es == [] then [] else [Check(es[0])] + Checks(es[1..])
  }

  /** Business-rule error texts as entries of a message's error list. */
  function Businesses(ts: seq<string>): (r: seq<Finding>)
    ensures |r| == |ts| && forall i :: 0 <= i < |ts| ==> r[i] == Business(ts[i])
  {
    if ts == [] then [] else [Business(ts[0])] + Businesses(ts[1..])
  }

  /** What one evaluation finds: the validator's errors, then the business-rule errors. */
  function EvaluationErrors(m: SwiftMessage, rules: BusinessRules): seq<Finding> {
    Checks(Errors(m)) + Businesses(rules(m))
  }

  /** `_evaluate_message_with_details`: the message is valid exactly when the
      combined error list is empty. */
  method EvaluateMessageWithDetails(m: SwiftMessage, now: Instant, rules: BusinessRules)
    returns (isValid: bool, errors: seq<Finding>)
    ensures errors == EvaluationErrors(m, rules)
    ensures isValid <==> errors == []
  {
    errors := [];
    var validation := ValidateSwiftMessage(m, now);
    if !validation.isValid {
      errors := errors + Checks(validation.errors);
    }
    assert errors == Checks(Errors(m));
    var businessErrors := Businesses(rules(m));
    errors := errors + businessErrors;
    isValid := |errors| == 0;
  }

  /** An evaluation is clean exactly when the validator accepts the message
      and the business rules find nothing. */
  lemma EvaluationClean(m: SwiftMessage, rules: BusinessRules)
    ensures EvaluationErrors(m, rules) == [] <==> Acceptable(m) && rules(m) == []
  {
    NoErrorsIff(m);
  }

  // ---------------------------------------------------------------------
  // The loop
  // ---------------------------------------------------------------------

  /** How the loop ends from some round on: the message it returns, the
      message as it was last evaluated, and how many evaluations and
      optimizer calls it makes. */
  datatype Outcome = Outcome(message: SwiftMessage, last: SwiftMessage, evaluations: nat, optimizations: nat)

  /** The rounds `iteration`, `iteration + 1`, ... of the loop, starting from
      the working copy `current`. */
  function Run(current: SwiftMessage, iteration: nat, maxIterations: int,
               optimize: Optimizer, rules: BusinessRules): Outcome
    decreases maxIterations - iteration
  {
    if iteration >= maxIterations then Outcome(current, current, 0, 0)
    else
      var errors := EvaluationErrors(current, rules);
      if errors == [] then
        Outcome(current.(validationStatus := Valid), current, 1, 0)
      else if iteration < maxIterations - 1 then
        var rest := Run(optimize(iteration, current, errors), iteration + 1, maxIterations, optimize, rules);
        rest.(evaluations := rest.evaluations + 1, optimizations := rest.optimizations + 1)
      else
        Outcome(current.(validationStatus := Invalid,
                         validationErrors := current.validationErrors + errors),
                current, 1, 0)
  }

  /** `process_message_with_details`. The message is a value, so the caller's
      message is never changed; the loop works on its own copy. The ghost
      outputs count the evaluations and the optimizer calls the loop makes:
      none without a round, otherwise at most one evaluation per round and an
      optimizer call after every evaluation but the last. */
  method ProcessMessageWithDetails(message: SwiftMessage, now: Instant, maxIterations: int,
                                   optimize: Optimizer, rules: BusinessRules)
    returns (result: SwiftMessage, ghost evaluations: nat, ghost optimizations: nat)
    ensures result == Run(message, 0, maxIterations, optimize, rules).message
    ensures evaluations == Run(message, 0, maxIterations, optimize, rules).evaluations
    ensures optimizations == Run(message, 0, maxIterations, optimize, rules).optimizations
    ensures evaluations == 0 <==> maxIterations <= 0
    ensures maxIterations > 0 ==> evaluations <= maxIterations && optimizations == evaluations - 1
  {
    var iteration: nat := 0;
    var current := message;
    evaluations, optimizations := 0, 0;
    ghost var total := Run(message, 0, maxIterations, optimize, rules);
    while iteration < maxIterations
      invariant var rest := Run(current, iteration, maxIterations, optimize, rules);
        && rest.message == total.message
        && evaluations + rest.evaluations == total.evaluations
        && optimizations + rest.optimizations == total.optimizations
      decreases maxIterations - iteration
    {
      var isValid, errors := EvaluateMessageWithDetails(current, now, rules);
      RunStep(current, iteration, maxIterations, optimize, rules, errors);
      evaluations := evaluations + 1;
      if isValid {
        current := current.(validationStatus := Valid);
        break;
      }
      if iteration < maxIterations - 1 {
        var original := current;
        current := optimize(iteration, current, errors);
        optimizations := optimizations + 1;
        var changes := ShowOptimizationChanges(original, current);
      } else {
        current := current.(validationStatus := Invalid,
                            validationErrors := current.validationErrors + errors);
      }
      iteration := iteration + 1;
    }
    result := current;
    RunLimits(total, message, maxIterations, optimize, rules);
  }

  /** `RunCounts` for the whole loop, stated on its outcome `total`. */
  lemma RunLimits(total: Outcome, message: SwiftMessage, maxIterations: int,
                  optimize: Optimizer, rules: BusinessRules)
    requires total == Run(message, 0, maxIterations, optimize, rules)
    ensures total.evaluations == 0 <==> maxIterations <= 0
    ensures maxIterations > 0 ==> total.evaluations <= maxIterations && total.optimizations == total.evaluations - 1
  {
    RunCounts(message, 0, maxIterations, optimize, rules);
  }

  /** One round of `Run`, with the round's errors already computed. */
  lemma RunStep(current: SwiftMessage, iteration: nat, maxIterations: int,
                optimize: Optimizer, rules: BusinessRules, errors: seq<Finding>)
    requires iteration < maxIterations && errors == EvaluationErrors(current, rules)
    ensures var r := Run(current, iteration, maxIterations, optimize, rules);
      if errors == [] then
        r.message == current.(validationStatus := Valid) && r.evaluations == 1 && r.optimizations == 0
      else if iteration < maxIterations - 1 then
        var rest := Run(optimize(iteration, current, errors), iteration + 1, maxIterations, optimize, rules);
        r.message == rest.message && r.evaluations == rest.evaluations + 1
        && r.optimizations == rest.optimizations + 1
      else
        r.message == current.(validationStatus := Invalid,
                              validationErrors := current.validationErrors + errors)
        && r.evaluations == 1 && r.optimizations == 0
  {
  }

  /** The loop stops: it evaluates at most once per allowed round, and calls
      the optimizer once after every evaluation but the last, so never in the
      final round. With no rounds left nothing is evaluated. */
  lemma {:induction false} RunCounts(current: SwiftMessage, iteration: nat, maxIterations: int,
                                     optimize: Optimizer, rules: BusinessRules)
    ensures var r := Run(current, iteration, maxIterations, optimize, rules);
      && (r.evaluations == 0 <==> iteration >= maxIterations)
      && (iteration < maxIterations ==> r.evaluations <= maxIterations - iteration)
      && (r.evaluations > 0 ==> r.optimizations == r.evaluations - 1)
    decreases maxIterations - iteration
  {
    if iteration < maxIterations {
      var errors := EvaluationErrors(current, rules);
      if errors != [] && iteration < maxIterations - 1 {
        RunCounts(optimize(iteration, current, errors), iteration + 1, maxIterations, optimize, rules);
      }
    }
  }

  /** With no round allowed (`max_iterations <= 0` from the start) the copy
      comes back as it was, status included. */
  lemma RunWithoutRounds(current: SwiftMessage, iteration: nat, maxIterations: int,
                         optimize: Optimizer, rules: BusinessRules)
    requires iteration >= maxIterations
    ensures Run(current, iteration, maxIterations, optimize, rules).message == current
  {
  }

  /** Every run with at least one round ends in exactly one of two ways.
      VALID: the last evaluation found no error, and only the status changes
      (earlier entries of the error list stay). INVALID: the last allowed
      round still found errors, and exactly those are appended, in order. */
  lemma {:induction false} RunExits(current: SwiftMessage, iteration: nat, maxIterations: int,
                                    optimize: Optimizer, rules: BusinessRules)
    requires iteration < maxIterations
    ensures var r := Run(current, iteration, maxIterations, optimize, rules);
      var errors := EvaluationErrors(r.last, rules);
      || (&& errors == []
          && r.message == r.last.(validationStatus := Valid))
      || (&& errors != []
          && r.evaluations == maxIterations - iteration
          && r.message == r.last.(validationStatus := Invalid,
                                  validationErrors := r.last.validationErrors + errors))
    decreases maxIterations - iteration
  {
    var errors := EvaluationErrors(current, rules);
    if errors != [] && iteration < maxIterations - 1 {
      var next := optimize(iteration, current, errors);
      RunExits(next, iteration + 1, maxIterations, optimize, rules);
    }
  }

  /** The returned status is VALID exactly when the last evaluation was clean. */
  lemma RunStatus(current: SwiftMessage, iteration: nat, maxIterations: int,
                  optimize: Optimizer, rules: BusinessRules)
    requires iteration < maxIterations
    ensures var r := Run(current, iteration, maxIterations, optimize, rules);
      && (r.message.validationStatus == Valid <==> EvaluationErrors(r.last, rules) == [])
      && (r.message.validationStatus == Invalid <==> EvaluationErrors(r.last, rules) != [])
  {
    RunExits(current, iteration, maxIterations, optimize, rules);
  }

  /** An optimizer whose every answer evaluates clean. */
  ghost predicate AlwaysRepairs(optimize: Optimizer, rules: BusinessRules) {
    forall k, m, e :: EvaluationErrors(optimize(k, m, e), rules) == []
  }

  /** With such an optimizer and two rounds or more the loop ends VALID,
      after one evaluation when the input is already clean and two otherwise. */
  lemma RunWithPerfectOptimizer(current: SwiftMessage, iteration: nat, maxIterations: int,
                                optimize: Optimizer, rules: BusinessRules)
    requires AlwaysRepairs(optimize, rules) && iteration + 2 <= maxIterations
    ensures var r := Run(current, iteration, maxIterations, optimize, rules);
      && r.message.validationStatus == Valid
      && r.evaluations == if EvaluationErrors(current, rules) == [] then 1 else 2
  {
    var errors := EvaluationErrors(current, rules);
    if errors != [] {
      var next := optimize(iteration, current, errors);
      assert EvaluationErrors(next, rules) == [];
    }
  }

  /** An optimizer that hands the message back unchanged. */
  ghost predicate NeverChanges(optimize: Optimizer) {
    forall k, m, e :: optimize(k, m, e) == m
  }

  /** If the optimizer changes nothing, a message with errors uses every
      allowed round and ends INVALID with one round's errors appended once. */
  lemma {:induction false} RunWithIdleOptimizer(current: SwiftMessage, iteration: nat, maxIterations: int,
                                                optimize: Optimizer, rules: BusinessRules)
    requires NeverChanges(optimize) && iteration < maxIterations
    requires EvaluationErrors(current, rules) != []
    ensures var r := Run(current, iteration, maxIterations, optimize, rules);
      && r.evaluations == maxIterations - iteration
      && r.message == current.(validationStatus := Invalid,
                               validationErrors := current.validationErrors + EvaluationErrors(current, rules))
    decreases maxIterations - iteration
  {
    var errors := EvaluationErrors(current, rules);
    if iteration < maxIterations - 1 {
      assert optimize(iteration, current, errors) == current;
      RunWithIdleOptimizer(current, iteration + 1, maxIterations, optimize, rules);
    }
  }

  /** A message that evaluates clean in the first round comes back VALID at
      once, without an optimizer call. */
  lemma RunCleanFirst(current: SwiftMessage, iteration: nat, maxIterations: int,
                      optimize: Optimizer, rules: BusinessRules)
    requires iteration < maxIterations && EvaluationErrors(current, rules) == []
    ensures Run(current, iteration, maxIterations, optimize, rules)
         == Outcome(current.(validationStatus := Valid), current, 1, 0)
  {
  }

  // ---------------------------------------------------------------------
  // The change list
  // ---------------------------------------------------------------------

  /** One changed field: its name and its value before and after optimization. */
  datatype Change = Change(field: Field, before: string, after: string)

  /** The fields compared, in the order they are reported. */
  const TrackedFields: seq<Field> := [Reference, Amount, Currency, SenderBic, ReceiverBic, ValueDate]

  /** The value of a compared field, as `original_values` records it. */
  function TrackedValue(m: SwiftMessage, f: Field): string
    requires f in TrackedFields
  {
    match f
    case Reference => m.reference
    case Amount => m.amount
    case Currency => m.currency
    case SenderBic => m.senderBic
    case ReceiverBic => m.receiverBic
    case ValueDate => m.valueDate
  }

  /** Position of a compared field in the report order. */
  function Rank(f: Field): nat
    requires f in TrackedFields
  {
    match f
    case Reference => 0
    case Amount => 1
    case Currency => 2
    case SenderBic => 3
    case ReceiverBic => 4
    case ValueDate => 5
  }

  /** The entry for one field: present exactly when its value differs. */
  function FieldChange(original: SwiftMessage, corrected: SwiftMessage, f: Field): seq<Change>
    requires f in TrackedFields
  {
    if TrackedValue(original, f) != TrackedValue(corrected, f)
    then [Change(f, TrackedValue(original, f), TrackedValue(corrected, f))] else []
  }

  /** The changes among `fields`, in list order. */
  function Diff(original: SwiftMessage, corrected: SwiftMessage, fields: seq<Field>): seq<Change>
    requires forall f :: f in fields ==> f in TrackedFields
  {
    if fields == [] then []
    else
      Diff(original, corrected, fields[..|fields| - 1])
        + FieldChange(original, corrected, fields[|fields| - 1])
  }

  function ChangedFields(changes: seq<Change>): set<Field> {
    set c | c in changes :: c.field
  }

  /** `_show_optimization_changes`: the change list it prints. */
  method ShowOptimizationChanges(original: SwiftMessage, corrected: SwiftMessage)
    returns (changes: seq<Change>)
    ensures changes == Diff(original, corrected, TrackedFields)
  {
    var fs := TrackedFields;
    changes := [];
    if original.reference != corrected.reference {
      changes := changes + [Change(Reference, original.reference, corrected.reference)];
    }
    assert changes == Diff(original, corrected, fs[..1]);
    if original.amount != corrected.amount {
      changes := changes + [Change(Amount, original.amount, corrected.amount)];
    }
    assert fs[..2][..1] == fs[..1];
    assert changes == Diff(original, corrected, fs[..2]);
    if original.currency != corrected.currency {
      changes := changes + [Change(Currency, original.currency, corrected.currency)];
    }
    assert fs[..3][..2] == fs[..2];
    assert changes == Diff(original, corrected, fs[..3]);
    if original.senderBic != corrected.senderBic {
      changes := changes + [Change(SenderBic, original.senderBic, corrected.senderBic)];
    }
    assert fs[..4][..3] == fs[..3];
    assert changes == Diff(original, corrected, fs[..4]);
    if original.receiverBic != corrected.receiverBic {
      changes := changes + [Change(ReceiverBic, original.receiverBic, corrected.receiverBic)];
    }
    assert fs[..5][..4] == fs[..4];
    assert changes == Diff(original, corrected, fs[..5]);
    if original.valueDate != corrected.valueDate {
      changes := changes + [Change(ValueDate, original.valueDate, corrected.valueDate)];
    }
    assert fs[..6][..5] == fs[..5] && fs[..6] == fs;
  }

  /** The change list has one entry per compared field whose value differs,
      carrying the two values, in report order (reference, amount, currency,
      sender BIC, receiver BIC, value date); it is empty, the "No automatic
      corrections could be applied" case, exactly when all six are equal. */
  lemma ChangeListSpec(original: SwiftMessage, corrected: SwiftMessage)
    ensures var changes := Diff(original, corrected, TrackedFields);
      && (forall c :: c in changes ==>
            && c.field in TrackedFields && c.before != c.after
            && c.before == TrackedValue(original, c.field)
            && c.after == TrackedValue(corrected, c.field))
      && (forall f :: f in TrackedFields ==>
            (f in ChangedFields(changes) <==> TrackedValue(original, f) != TrackedValue(corrected, f)))
      && (forall i, j :: 0 <= i < j < |changes| ==> Rank(changes[i].field) < Rank(changes[j].field))
      && (changes == [] <==> forall f :: f in TrackedFields ==> TrackedValue(original, f) == TrackedValue(corrected, f))
  {
    var fs := TrackedFields;
    assert forall i, j :: 0 <= i < j < |fs| ==> Rank(fs[i]) < Rank(fs[j]);
    DiffEntries(original, corrected, fs);
    DiffFields(original, corrected, fs);
    DiffOrder(original, corrected, fs);
    var changes := Diff(original, corrected, fs);
    if changes != [] {
      assert changes[0] in changes;
    }
  }

  /** Each entry is for a listed field whose value differs, with both values. */
  lemma {:induction false} DiffEntries(original: SwiftMessage, corrected: SwiftMessage, fields: seq<Field>)
    requires forall f :: f in fields ==> f in TrackedFields
    ensures forall c :: c in Diff(original, corrected, fields) ==>
      && c.field in fields && c.before != c.after
      && c.before == TrackedValue(original, c.field)
      && c.after == TrackedValue(corrected, c.field)
  {
    if fields != [] {
      var init := fields[..|fields| - 1];
      DiffEntries(original, corrected, init);
      assert forall g :: g in init ==> g in fields;
    }
  }

  /** A listed field has an entry exactly when its value differs. */
  lemma {:induction false} DiffFields(original: SwiftMessage, corrected: SwiftMessage, fields: seq<Field>)
    requires forall f :: f in fields ==> f in TrackedFields
    ensures forall f :: f in fields ==>
      (f in ChangedFields(Diff(original, corrected, fields)) <==> TrackedValue(original, f) != TrackedValue(corrected, f))
  {
    if fields != [] {
      var init, last := fields[..|fields| - 1], fields[|fields| - 1];
      assert fields == init + [last];
      DiffFields(original, corrected, init);
      DiffEntries(original, corrected, init);
      var changes := Diff(original, corrected, fields);
      assert ChangedFields(changes)
        == ChangedFields(Diff(original, corrected, init)) + ChangedFields(FieldChange(original, corrected, last));
    }
  }

  /** Entries follow the order of the list. */
  lemma {:induction false} DiffOrder(original: SwiftMessage, corrected: SwiftMessage, fields: seq<Field>)
    requires forall f :: f in fields ==> f in TrackedFields
    requires forall i, j :: 0 <= i < j < |fields| ==> Rank(fields[i]) < Rank(fields[j])
    ensures var changes := Diff(original, corrected, fields);
      && (forall c :: c in changes ==> c.field in fields)
      && (forall i, j :: 0 <= i < j < |changes| ==> Rank(changes[i].field) < Rank(changes[j].field))
  {
    DiffEntries(original, corrected, fields);
    if fields != [] {
      var init, last := fields[..|fields| - 1], fields[|fields| - 1];
      DiffOrder(original, corrected, init);
      forall g | g in init ensures Rank(g) < Rank(last) {
        var i :| 0 <= i < |init| && init[i] == g;
        assert fields[i] == g;
      }
      var prev := Diff(original, corrected, init);
      var changes := Diff(original, corrected, fields);
      assert changes == prev + FieldChange(original, corrected, last);
      forall i, j | 0 <= i < j < |changes| ensures Rank(changes[i].field) < Rank(changes[j].field) {
        if j >= |prev| {
          assert changes[j].field == last;
          assert changes[i] == prev[i] && prev[i] in prev;
        } else {
          assert changes[i] == prev[i] && changes[j] == prev[j];
        }
      }
    }
  }
}
