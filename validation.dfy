/** How Mongoose validates a document: the paths of the schema are
    validated in declaration order; on each path the validators run in
    order, `required` first, and the first one that fails is the path's
    only error. The errors of all failing paths form the
    `ValidationError`. */
module Validation {
  import opened Common
  import opened ErrorMiddleware

  /** One validator of a path on the document at hand: whether the value
      passes, and the message it reports otherwise. */
  datatype Validator = Validator(passes: bool, message: string)

  /** A schema path and its validators in the order they run. */
  datatype PathCheck = PathCheck(path: string, validators: seq<Validator>)

  predicate PathPasses(c: PathCheck) {
    forall j :: 0 <= j < |c.validators| ==> c.validators[j].passes
  }

  /** A path with at most three validators, spelled out. */
  lemma PathPassesSmall(c: PathCheck)
    requires 1 <= |c.validators| <= 3
    ensures PathPasses(c) <==>
      && c.validators[0].passes
      && (|c.validators| >= 2 ==> c.validators[1].passes)
      && (|c.validators| == 3 ==> c.validators[2].passes)
  {
  }

  predicate AllPass(checks: seq<PathCheck>) {
    forall i :: 0 <= i < |checks| ==> PathPasses(checks[i])
  }

  lemma AllPassAppend(a: seq<PathCheck>, b: seq<PathCheck>)
    ensures AllPass(a + b) <==> AllPass(a) && AllPass(b)
  {
    if AllPass(a) && AllPass(b) {
      forall i | 0 <= i < |a + b| ensures PathPasses((a + b)[i]) {
        if i >= |a| { assert (a + b)[i] == b[i - |a|]; }
      }
    }
    if AllPass(a + b) {
      forall i | 0 <= i < |a| ensures PathPasses(a[i]) {
        assert (a + b)[i] == a[i];
      }
      forall i | 0 <= i < |b| ensures PathPasses(b[i]) {
        assert (a + b)[|a| + i] == b[i];
      }
    }
  }

  /** The message of the first failing validator, if any. */
  function FirstFailure(vs: seq<Validator>): Option<string> {
    if vs == [] then None
    else if !vs[0].passes then Some(vs[0].message)
    else FirstFailure(vs[1..])
  }

  /** A path reports an error exactly when one of its validators fails,
      and the message is that of a failing validator. */
  lemma {:induction false} FirstFailureIff(vs: seq<Validator>)
    ensures FirstFailure(vs).None? <==> forall j :: 0 <= j < |vs| ==> vs[j].passes
    ensures FirstFailure(vs).Some? ==>
      exists j :: 0 <= j < |vs| && !vs[j].passes && vs[j].message == FirstFailure(vs).value
  {
    if vs != [] && vs[0].passes {
      FirstFailureIff(vs[1..]);
      assert forall j :: 1 <= j < |vs| ==> vs[j] == vs[1..][j - 1];
      if FirstFailure(vs).Some? {
        var j :| 0 <= j < |vs[1..]| && !vs[1..][j].passes && vs[1..][j].message == FirstFailure(vs).value;
        assert vs[j + 1] == vs[1..][j];
      }
    }
  }

  /** `doc.validate()`: one error per failing path, in schema order. */
  function Validate(checks: seq<PathCheck>): (r: seq<FieldError>)
    ensures |r| <= |checks|
  {
    if checks == [] then []
    else
      match FirstFailure(checks[0].validators)
      case None => Validate(checks[1..])
      case Some(m) => [FieldError(checks[0].path, m)] + Validate(checks[1..])
  }

  /** Validation reports nothing exactly when every path passes, and at
      most one error per path. */
  lemma {:induction false} ValidateIff(checks: seq<PathCheck>)
    ensures Validate(checks) == [] <==> AllPass(checks)
    ensures |Validate(checks)| <= |checks|
  {
    if checks != [] {
      ValidateIff(checks[1..]);
      FirstFailureIff(checks[0].validators);
      assert forall i :: 1 <= i < |checks| ==> checks[i] == checks[1..][i - 1];
    }
  }

  /** Every reported error names a failing path of the schema with the
      message of one of its failing validators. */
  lemma {:induction false} ValidateReportsFailingPaths(checks: seq<PathCheck>, e: FieldError)
    requires e in Validate(checks)
    ensures exists i :: 0 <= i < |checks| && checks[i].path == e.path && !PathPasses(checks[i])
  {
    var rest := Validate(checks[1..]);
    FirstFailureIff(checks[0].validators);
    match FirstFailure(checks[0].validators)
    case None =>
      ValidateReportsFailingPaths(checks[1..], e);
      var i :| 0 <= i < |checks[1..]| && checks[1..][i].path == e.path && !PathPasses(checks[1..][i]);
      assert checks[i + 1] == checks[1..][i];
    case Some(m) =>
      if e == FieldError(checks[0].path, m) {
        assert !PathPasses(checks[0]);
      } else {
        assert e in rest;
        ValidateReportsFailingPaths(checks[1..], e);
        var i :| 0 <= i < |checks[1..]| && checks[1..][i].path == e.path && !PathPasses(checks[1..][i]);
        assert checks[i + 1] == checks[1..][i];
      }
  }
}
