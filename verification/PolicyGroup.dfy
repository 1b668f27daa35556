/**
  Policy groups. A group is a boolean expression over its member policies. Evaluating it calls members
  as the expression is walked, short-circuiting, and each call leaves its result behind; the reasons
  given for a rejection are read off those leftovers afterwards.
 */
module PolicyGroup {
  import opened Wrappers

  datatype Expr =
    | Literal(value: bool)
    | Call(name: string)
    | Not(e: Expr)
    | And(left: Expr, right: Expr)
    | Or(left: Expr, right: Expr)

  /** What a member answers to the request at hand, or the error of not being able to ask it. */
  datatype Verdict = Failed(error: string) | Answered(allowed: bool, mutates: bool, message: Option<string>)

  datatype MemberResult = MemberResult(allowed: bool, message: Option<string>)

  datatype Outcome = Value(allowed: bool) | EvaluationError(message: string)

  type Members = map<string, Verdict>
  type Results = map<string, MemberResult>

  const MUTATION_MESSAGE := "mutation is not allowed inside of policy group"
  const EVALUATION_MESSAGE := "error evaluating policy group expression: "
  const FIELD_PREFIX := "spec.policies."

  /** The texts that users see. */
  lemma Texts(group: string)
    ensures MUTATION_MESSAGE == "mutation is not allowed inside of policy group"
    ensures EVALUATION_MESSAGE == "error evaluating policy group expression: "
    ensures FIELD_PREFIX + group == "spec.policies." + group
  {
  }

  /** What is kept of an answer. */
  function Summary(v: Verdict): MemberResult
    requires v.Answered?
  {
    if v.mutates then MemberResult(false, Some(MUTATION_MESSAGE)) else MemberResult(v.allowed, v.message)
  }

  /** What an answer counts as: a member that wants to change the request denies it. */
  predicate Allows(v: Verdict) {
    v.Answered? && v.allowed && !v.mutates
  }

  /** What a denial is put down to. */
  function Reason(v: Verdict): Option<string>
    requires v.Answered?
  {
    if v.mutates then Some(MUTATION_MESSAGE) else v.message
  }

  predicate Answers(members: Members, name: string) {
    name in members && members[name].Answered?
  }

  // ---------------------------------------------------------------- what an expression means

  /** The plain meaning of an expression: no order, no effects, no errors. */
  function Truth(e: Expr, v: string -> bool): bool {
    match e
    case Literal(b) => b
    case Call(n) => v(n)
    case Not(a) => !Truth(a, v)
    case And(a, b) => Truth(a, v) && Truth(b, v)
    case Or(a, b) => Truth(a, v) || Truth(b, v)
  }

  /** The members that short-circuiting leaves to be asked. */
  function Reached(e: Expr, v: string -> bool): set<string> {
    match e
    case Literal(_) => {}
    case Call(n) => {n}
    case Not(a) => Reached(a, v)
    case And(a, b) => Reached(a, v) + if Truth(a, v) then Reached(b, v) else {}
    case Or(a, b) => Reached(a, v) + if Truth(a, v) then {} else Reached(b, v)
  }

  predicate NegationFree(e: Expr) {
    match e
    case Literal(_) => true
    case Call(_) => true
    case Not(_) => false
    case And(a, b) => NegationFree(a) && NegationFree(b)
    case Or(a, b) => NegationFree(a) && NegationFree(b)
  }

  /** `v` says of every member that answers what its answer counts as. */
  ghost predicate Agrees(v: string -> bool, members: Members) {
    forall n :: Answers(members, n) ==> v(n) == Allows(members[n])
  }

  // ---------------------------------------------------------------- the run

  /** The run as a value: its outcome and the results it leaves behind. */
  function Run(e: Expr, members: Members, results: Results): (Outcome, Results) {
    match e
    case Literal(b) => (Value(b), results)
    case Call(n) =>
      if n !in members then (EvaluationError("function not found"), results)
      else if members[n].Failed? then (EvaluationError(members[n].error), results)
      else (Value(Summary(members[n]).allowed), results[n := Summary(members[n])])
    case Not(a) =>
      var (o, after) := Run(a, members, results);
      (if o.Value? then Value(!o.allowed) else o, after)
    case And(a, b) =>
      var (o, after) := Run(a, members, results);
      if o == Value(true) then Run(b, members, after) else (o, after)
    case Or(a, b) =>
      var (o, after) := Run(a, members, results);
      if o == Value(false) then Run(b, members, after) else (o, after)
  }

  /** The results hold, for a set of members, exactly what those members answered. */
  ghost predicate Records(results: Results, names: set<string>, members: Members) {
    && results.Keys == names
    && forall n :: n in names ==> Answers(members, n) && IsResultOf(results[n], members[n])
  }

  /** Allowed or not, and the reason of a denial. */
  predicate IsResultOf(result: MemberResult, v: Verdict)
    requires v.Answered?
  {
    result.allowed == Allows(v) && (!result.allowed ==> result.message == Reason(v))
  }

  /** A run that gets to an outcome gets to the plain meaning, whatever the members it did not ask would
      have said, and leaves behind exactly the results of the members it reached. */
  lemma {:induction false} RunMeansTruth(e: Expr, members: Members, results: Results, names: set<string>,
                                         v: string -> bool)
    requires Records(results, names, members) && Agrees(v, members)
    ensures var (o, after) := Run(e, members, results);
            o.Value? ==> o.allowed == Truth(e, v) && Records(after, names + Reached(e, v), members)
  {
    match e
    case Literal(_) => assert names + {} == names;
    case Call(n) =>
    case Not(a) => RunMeansTruth(a, members, results, names, v);
    case And(a, b) =>
      RunMeansTruth(a, members, results, names, v);
      var (o, after) := Run(a, members, results);
      if o == Value(true) {
        RunMeansTruth(b, members, after, names + Reached(a, v), v);
        assert names + Reached(a, v) + Reached(b, v) == names + Reached(e, v);
      }
    case Or(a, b) =>
      RunMeansTruth(a, members, results, names, v);
      var (o, after) := Run(a, members, results);
      if o == Value(false) {
        RunMeansTruth(b, members, after, names + Reached(a, v), v);
        assert names + Reached(a, v) + Reached(b, v) == names + Reached(e, v);
      }
  }

  /** A run fails if and only if it reaches a member that is not registered or cannot answer. */
  lemma {:induction false} RunFailsIffReachesFailure(e: Expr, members: Members, results: Results, v: string -> bool)
    requires Agrees(v, members)
    ensures Run(e, members, results).0.EvaluationError? <==> exists n :: n in Reached(e, v) && !Answers(members, n)
    ensures Run(e, members, results).0.Value? ==> Run(e, members, results).0.allowed == Truth(e, v)
  {
    match e
    case Literal(_) =>
    case Call(n) =>
      assert forall m :: m in Reached(e, v) <==> m == n;
      assert Run(e, members, results).0.EvaluationError? <==> !Answers(members, n);
    case Not(a) => RunFailsIffReachesFailure(a, members, results, v);
    case And(a, b) =>
      RunFailsIffReachesFailure(a, members, results, v);
      RunFailsIffReachesFailure(b, members, Run(a, members, results).1, v);
    case Or(a, b) =>
      RunFailsIffReachesFailure(a, members, results, v);
      RunFailsIffReachesFailure(b, members, Run(a, members, results).1, v);
  }

  /** A member that allows the request but wants to change it denies it, and says why. */
  lemma MutationDenies(e: Expr, name: string, note: Option<string>, results: Results)
    requires e == Call(name)
    ensures Run(e, map[name := Answered(true, true, note)], results) ==
            (Value(false), results[name := MemberResult(false, Some("mutation is not allowed inside of policy group"))])
  {
  }

  // ---------------------------------------------------------------- explanations

  /** Members whose answers alone force the value of `e` to be what it is under `v`. */
  function Decisive(e: Expr, v: string -> bool): set<string> {
    match e
    case Literal(_) => {}
    case Call(n) => {n}
    case Not(a) => Decisive(a, v)
    case And(a, b) =>
      if !Truth(a, v) then Decisive(a, v) else if !Truth(b, v) then Decisive(b, v) else Decisive(a, v) + Decisive(b, v)
    case Or(a, b) =>
      if Truth(a, v) then Decisive(a, v) else if Truth(b, v) then Decisive(b, v) else Decisive(a, v) + Decisive(b, v)
  }

  lemma {:induction false} DecisiveDecides(e: Expr, v: string -> bool, other: string -> bool)
    requires forall n :: n in Decisive(e, v) ==> other(n) == v(n)
    ensures Truth(e, other) == Truth(e, v)
    ensures Decisive(e, v) <= Reached(e, v)
  {
    match e
    case Literal(_) =>
    case Call(_) =>
    case Not(a) => DecisiveDecides(a, v, other);
    case And(a, b) =>
      if Decisive(a, v) <= Decisive(e, v) { DecisiveDecides(a, v, other); } else { DecisiveDecides(a, v, v); }
      if Decisive(b, v) <= Decisive(e, v) { DecisiveDecides(b, v, other); } else { DecisiveDecides(b, v, v); }
    case Or(a, b) =>
      if Decisive(a, v) <= Decisive(e, v) { DecisiveDecides(a, v, other); } else { DecisiveDecides(a, v, v); }
      if Decisive(b, v) <= Decisive(e, v) { DecisiveDecides(b, v, other); } else { DecisiveDecides(b, v, v); }
  }

  /** More allowances never turn the expression from true to false. */
  ghost predicate Monotone(e: Expr) {
    forall v: string -> bool, w: string -> bool :: (forall n :: v(n) ==> w(n)) && Truth(e, v) ==> Truth(e, w)
  }

  lemma {:induction false} NegationFreeRises(e: Expr, v: string -> bool, w: string -> bool)
    requires NegationFree(e) && (forall n :: v(n) ==> w(n)) && Truth(e, v)
    ensures Truth(e, w)
  {
    match e
    case Literal(_) =>
    case Call(_) =>
    case And(a, b) =>
      NegationFreeRises(a, v, w);
      NegationFreeRises(b, v, w);
    case Or(a, b) =>
      if Truth(a, v) {
        NegationFreeRises(a, v, w);
      } else {
        NegationFreeRises(b, v, w);
      }
  }

  lemma NegationFreeIsMonotone(e: Expr)
    requires NegationFree(e)
    ensures Monotone(e)
  {
    forall v: string -> bool, w: string -> bool | (forall n :: v(n) ==> w(n)) && Truth(e, v) ensures Truth(e, w) {
      NegationFreeRises(e, v, w);
    }
  }

  // ---------------------------------------------------------------- the response

  datatype Cause = Cause(field: string, message: Option<string>)

  datatype Status = Status(message: string, code: Option<int>, causes: seq<Cause>)

  datatype AdmissionResponse = AdmissionResponse(uid: string, allowed: bool, status: Option<Status>)

  /** What a rejection says of a member that denied. */
  function CauseOf(name: string, v: Verdict): Cause
    requires v.Answered?
  {
    Cause(FIELD_PREFIX + name, Reason(v))
  }

  lemma CausesDiffer(a: string, b: string)
    requires a != b
    ensures FIELD_PREFIX + a != FIELD_PREFIX + b
  {
    assert a == (FIELD_PREFIX + a)[|FIELD_PREFIX|..] && b == (FIELD_PREFIX + b)[|FIELD_PREFIX|..];
  }

  /** The members that were reached and counted as denials. */
  function Denials(e: Expr, v: string -> bool): set<string> {
    set n | n in Reached(e, v) && !v(n)
  }

  function DeniedIn(results: Results): set<string> {
    set n | n in results && !results[n].allowed
  }

  /** Each of the names exactly once, in some order, with the message its member gave. */
  ghost predicate ListsExactly(causes: seq<Cause>, names: set<string>, members: Members) {
    && |causes| == |names|
    && (forall i, j :: 0 <= i < j < |causes| ==> causes[i].field != causes[j].field)
    && (forall n :: n in names ==> Answers(members, n) && CauseOf(n, members[n]) in causes)
    && (forall c :: c in causes ==> exists n :: n in names && Answers(members, n) && c == CauseOf(n, members[n]))
  }

  lemma AddCause(causes: seq<Cause>, names: set<string>, members: Members, n: string)
    requires ListsExactly(causes, names, members) && n !in names && Answers(members, n)
    ensures ListsExactly(causes + [CauseOf(n, members[n])], names + {n}, members)
  {
    var c := CauseOf(n, members[n]);
    forall i | 0 <= i < |causes| ensures causes[i].field != c.field {
      assert causes[i] in causes;
      var m :| m in names && Answers(members, m) && causes[i] == CauseOf(m, members[m]);
      CausesDiffer(m, n);
    }
    assert |names + {n}| == |names| + 1;
  }

  class GroupEvaluator {
    const members: Members
    const expression: Expr
    const message: string

    constructor (members: Members, expression: Expr, message: string)
      ensures this.members == members && this.expression == expression && this.message == message
    {
      this.members, this.expression, this.message := members, expression, message;
    }

    /** Walks the expression, calling members and collecting their results. */
    method Evaluate(e: Expr, results: ResultsCell) returns (o: Outcome)
      modifies results
      ensures (o, results.entries) == Run(e, members, old(results.entries))
      decreases e
    {
      match e {
        case Literal(b) => o := Value(b);
        case Call(n) =>
          if n !in members {
            o := EvaluationError("function not found");
          } else {
            match members[n] {
              case Failed(error) => o := EvaluationError(error);
              case Answered(allowed, mutates, note) =>
                if mutates {
                  results.entries := results.entries[n := MemberResult(false, Some(MUTATION_MESSAGE))];
                  o := Value(false);
                } else {
                  results.entries := results.entries[n := MemberResult(allowed, note)];
                  o := Value(allowed);
                }
            }
          }
        case Not(a) =>
          o := Evaluate(a, results);
          if o.Value? {
            o := Value(!o.allowed);
          }
        case And(a, b) =>
          o := Evaluate(a, results);
          if o == Value(true) {
            o := Evaluate(b, results);
          }
        case Or(a, b) =>
          o := Evaluate(a, results);
          if o == Value(false) {
            o := Evaluate(b, results);
          }
      }
    }

    /** The causes, in whatever order the members are iterated in. */
    method CollectCauses(results: Results) returns (causes: seq<Cause>)
      requires results.Keys <= members.Keys
      requires forall n :: n in results ==> Answers(members, n) && IsResultOf(results[n], members[n])
      ensures ListsExactly(causes, DeniedIn(results), members)
    {
      causes := [];
      var left := members.Keys;
      ghost var listed: set<string> := {};
      while left != {}
        invariant left <= members.Keys
        invariant listed == set n | n in results && n !in left && !results[n].allowed
        invariant ListsExactly(causes, listed, members)
        decreases left
      {
        var n :| n in left;
        left := left - {n};
        if n in results && !results[n].allowed {
          var cause := Cause(FIELD_PREFIX + n, results[n].message);
          AddCause(causes, listed, members, n);
          causes := causes + [cause];
          listed := listed + {n};
        }
      }
      assert listed == DeniedIn(results);
    }

    /** The verdict of the group. With `v` any reading of the members that agrees with their answers:
        the request is rejected with code 500 exactly when a reached member is unknown or cannot answer;
        otherwise it is allowed exactly when the expression is true, and a rejection carries the group's
        message and lists every reached denial exactly once, and nothing else. */
    method Validate(uid: string, ghost v: string -> bool) returns (response: AdmissionResponse)
      requires Agrees(v, members)
      ensures response.uid == uid
      ensures (exists n :: n in Reached(expression, v) && !Answers(members, n)) <==>
                !response.allowed && response.status.Some? && response.status.value.code == Some(500)
      ensures var o := Run(expression, members, map[]).0;
              o.EvaluationError? ==>
                && response.status.Some?
                && response.status.value.message == EVALUATION_MESSAGE + o.message
      ensures (forall n :: n in Reached(expression, v) ==> Answers(members, n)) ==>
                && response.allowed == Truth(expression, v)
                && (response.allowed ==> response.status.None?)
                && (!response.allowed ==>
                      && response.status.Some? && response.status.value.message == message
                      && ListsExactly(response.status.value.causes, Denials(expression, v), members))
    {
      var results := new ResultsCell();
      var o := Evaluate(expression, results);
      RunFailsIffReachesFailure(expression, members, map[], v);
      match o {
        case EvaluationError(text) =>
          response := AdmissionResponse(uid, false,
            Some(Status(EVALUATION_MESSAGE + text, Some(500), [])));
        case Value(allowed) =>
          RunMeansTruth(expression, members, map[], {}, v);
          assert {} + Reached(expression, v) == Reached(expression, v);
          var causes := CollectCauses(results.entries);
          assert DeniedIn(results.entries) == Denials(expression, v);
          response := AdmissionResponse(uid, allowed, if allowed then None else Some(Status(message, None, causes)));
      }
    }
  }

  /** The settings check of a group: what it reports, under which key. `settings` holds, for each member,
      the error its own settings check came back with, if any. */
  method ValidateSettings(id: string, expression: Expr, settings: map<string, Option<string>>)
    returns (errors: map<string, string>)
    ensures errors == map[] <==>
            (forall n :: n in settings ==> settings[n].None?) && ExpressionAccepted(expression, settings.Keys)
    ensures forall n :: n in settings ==> (id + "/" + n in errors <==> settings[n].Some?)
    ensures forall n :: n in settings && settings[n].Some? ==> errors[id + "/" + n] == settings[n].value
    ensures id in errors <==> !ExpressionAccepted(expression, settings.Keys)
    ensures id in errors ==> errors[id] == Run(expression, AllYes(settings.Keys), map[]).0.message
  {
    errors := map[];
    var left := settings.Keys;
    while left != {}
      invariant left <= settings.Keys && id !in errors
      invariant forall k :: k in errors ==>
                  exists n :: n in settings && n !in left && settings[n] == Some(errors[k]) && k == id + "/" + n
      invariant forall n :: n in settings && n !in left && settings[n].Some? ==> id + "/" + n in errors
      decreases left
    {
      var n :| n in left;
      left := left - {n};
      if settings[n].Some? {
        errors := errors[id + "/" + n := settings[n].value];
      }
    }
    forall n | n in settings && id + "/" + n in errors
      ensures settings[n].Some? && errors[id + "/" + n] == settings[n].value
    {
      var m :| m in settings && settings[m] == Some(errors[id + "/" + n]) && id + "/" + n == id + "/" + m;
      assert n == (id + "/" + n)[|id| + 1..] && m == (id + "/" + m)[|id| + 1..];
    }
    var o := Run(expression, AllYes(settings.Keys), map[]).0;
    if o.EvaluationError? {
      errors := errors[id := o.message];
    }
  }

  class ResultsCell {
    var entries: Results

    constructor ()
      ensures entries == map[]
    {
      entries := map[];
    }
  }

  // ---------------------------------------------------------------- what a rejection tells

  /** The listed causes are reason enough for every rejection: as long as those members deny, nothing any
      other member could say would have let the request through. */
  ghost predicate CausesExplain(e: Expr) {
    forall v: string -> bool, other: string -> bool ::
      !Truth(e, v) && (forall n :: n in Denials(e, v) ==> !other(n)) ==> !Truth(e, other)
  }

  lemma MonotoneExplains(e: Expr, v: string -> bool, other: string -> bool)
    requires Monotone(e) && !Truth(e, v) && forall n :: n in Denials(e, v) ==> !other(n)
    ensures !Truth(e, other)
  {
    var denials := Denials(e, v);
    var most := (n: string) => n !in denials;
    DecisiveDecides(e, v, v);
    assert forall n :: n in Decisive(e, v) ==> most(n) == v(n);
    DecisiveDecides(e, v, most);
    assert forall n :: other(n) ==> most(n);
  }

  lemma ExplainingRises(e: Expr, v: string -> bool, w: string -> bool)
    requires CausesExplain(e) && (forall n :: v(n) ==> w(n)) && Truth(e, v)
    ensures Truth(e, w)
  {
    assert forall n :: n in Denials(e, w) ==> !v(n);
  }

  /** Causes explain all rejections of an expression if and only if it is monotone. */
  lemma CausesExplainIffMonotone(e: Expr)
    ensures CausesExplain(e) <==> Monotone(e)
  {
    if Monotone(e) {
      forall v: string -> bool, other: string -> bool
        | !Truth(e, v) && (forall n :: n in Denials(e, v) ==> !other(n))
        ensures !Truth(e, other)
      {
        MonotoneExplains(e, v, other);
      }
    }
    if CausesExplain(e) {
      forall v: string -> bool, w: string -> bool | (forall n :: v(n) ==> w(n)) && Truth(e, v) ensures Truth(e, w) {
        ExplainingRises(e, v, w);
      }
    }
  }

  /** In particular they do without negation. */
  lemma CausesExplainRejection(e: Expr, v: string -> bool, other: string -> bool)
    requires NegationFree(e) && !Truth(e, v)
    requires forall n :: n in Denials(e, v) ==> !other(n)
    ensures !Truth(e, other)
  {
    NegationFreeIsMonotone(e);
    CausesExplainIffMonotone(e);
  }

  /** With negation they need not: here nothing is listed, and yet another answer would pass. */
  lemma NegationEscapesExplanation(v: string -> bool, other: string -> bool)
    requires v("a") && !other("a")
    ensures var e := Not(Call("a")); !Truth(e, v) && Denials(e, v) == {} && Truth(e, other)
  {
  }

  // ---------------------------------------------------------------- checking the settings

  function Calls(e: Expr): set<string> {
    match e
    case Literal(_) => {}
    case Call(n) => {n}
    case Not(a) => Calls(a)
    case And(a, b) => Calls(a) + Calls(b)
    case Or(a, b) => Calls(a) + Calls(b)
  }

  function AllYes(names: set<string>): Members {
    map n | n in names :: Answered(true, false, None)
  }

  /** The settings check runs the expression once, with every member saying yes. */
  predicate ExpressionAccepted(e: Expr, names: set<string>) {
    Run(e, AllYes(names), map[]).0.Value?
  }

  /** So it accepts exactly the expressions that reach registered members only when all of them say yes. */
  lemma AcceptedIffReachedAreRegistered(e: Expr, names: set<string>)
    ensures ExpressionAccepted(e, names) <==> Reached(e, n => true) <= names
  {
    var happy := AllYes(names);
    RunFailsIffReachesFailure(e, happy, map[], n => true);
    assert forall n :: Answers(happy, n) <==> n in names;
  }

  /** An accepted expression can still fail at run time: the unknown member hides behind the first one. */
  lemma AcceptedCanFail()
    ensures var e := Or(Call("a"), Call("unknown"));
            && ExpressionAccepted(e, {"a"})
            && Run(e, map["a" := Answered(false, false, None)], map[]).0.EvaluationError?
  {
    AcceptedIffReachedAreRegistered(Or(Call("a"), Call("unknown")), {"a"});
  }

  lemma {:induction false} MentionedAreReached(e: Expr, v: string -> bool)
    ensures Reached(e, v) <= Calls(e)
  {
    match e
    case Literal(_) =>
    case Call(_) =>
    case Not(a) => MentionedAreReached(a, v);
    case And(a, b) =>
      MentionedAreReached(a, v);
      MentionedAreReached(b, v);
    case Or(a, b) =>
      MentionedAreReached(a, v);
      MentionedAreReached(b, v);
  }

  /** Registered members all of which answer. */
  ghost predicate Answering(members: Members, names: set<string>) {
    members.Keys == names && forall n :: n in names ==> members[n].Answered?
  }

  ghost predicate NeverFails(e: Expr, names: set<string>) {
    forall members :: Answering(members, names) ==> Run(e, members, map[]).0.Value?
  }

  /** Under no answers does the expression reach any other member. */
  ghost predicate ReachesOnly(e: Expr, names: set<string>) {
    forall v: string -> bool :: Reached(e, v) <= names
  }

  lemma AnsweringHasValue(e: Expr, names: set<string>, members: Members)
    requires Answering(members, names) && ReachesOnly(e, names)
    ensures Run(e, members, map[]).0.Value?
  {
    var v := (n: string) => n in members && Allows(members[n]);
    RunFailsIffReachesFailure(e, members, map[], v);
    assert Reached(e, v) <= names;
  }

  lemma NeverFailingReaches(e: Expr, names: set<string>, v: string -> bool)
    requires NeverFails(e, names)
    ensures Reached(e, v) <= names
  {
    var members := map n | n in names :: Answered(v(n), false, None);
    assert Answering(members, names);
    RunFailsIffReachesFailure(e, members, map[], v);
    assert forall n :: Answers(members, n) <==> n in names;
  }

  /** What a check would have to ask for: whatever the members answer the expression has a value, if and only
      if under no answers it reaches a member that is not registered. */
  lemma NeverFailsIffReachedAreRegistered(e: Expr, names: set<string>)
    ensures NeverFails(e, names) <==> ReachesOnly(e, names)
  {
    if NeverFails(e, names) {
      forall v: string -> bool ensures Reached(e, v) <= names { NeverFailingReaches(e, names, v); }
    }
    if ReachesOnly(e, names) {
      forall members | Answering(members, names) ensures Run(e, members, map[]).0.Value? {
        AnsweringHasValue(e, names, members);
      }
    }
  }

  /** Registering every member the expression mentions is enough. */
  lemma MentionedRegisteredNeverFails(e: Expr, names: set<string>)
    requires Calls(e) <= names
    ensures NeverFails(e, names)
  {
    forall v: string -> bool ensures Reached(e, v) <= names { MentionedAreReached(e, v); }
    NeverFailsIffReachedAreRegistered(e, names);
  }
}
