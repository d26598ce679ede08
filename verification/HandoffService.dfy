/** The handoff object. A call of `evaluate`, wherever it raises or dies, leaves the stores where a chain of
    handoff steps leaves them. */
module HandoffService {
  import opened EvaluationHandoff
  import opened Options
  import opened Sequences

  ghost predicate Reaches(scope: Scope, s: System, t: System) { exists steps :: Play(scope, s, steps) == t }

  /** One call under way. */
  function One(s: Store, place: Place): System { System(s, [place]) }

  lemma ReachesItself(scope: Scope, s: System)
    ensures Reaches(scope, s, s)
  {
    assert Play(scope, s, []) == s;
  }

  lemma Advance(scope: Scope, s: System, t: System, step: Step, u: System)
    requires Inv(scope, s) && Reaches(scope, s, t) && Next(scope, t, step) == u
    ensures Reaches(scope, s, u) && Inv(scope, u)
  {
    hide Inv, Next, Play;
    var steps :| Play(scope, s, steps) == t;
    PlayOne(scope, s, steps, step);
    PlayKeeps(scope, s, steps + [step]);
  }

  datatype Ending = Job(feedback: Feedback) | InProgress | Raised | Crashed

  /** Where the call ends. */
  function PlaceOf(r: Ending): Place { if r.Job? then Returned(r.feedback) else Gone }

  class Handoff {
    const scope: Scope
    var s: Store

    constructor (scope: Scope, s: Store)
      ensures this.scope == scope && this.s == s
    {
      this.scope, this.s := scope, s;
    }

    /** Anything that others do to the store between two of our calls; only the handoff releases. */
    method AwaitOthers(ghost first: System, place: Place)
      requires Inv(scope, first) && Reaches(scope, first, One(s, place))
      modifies this
      ensures Reaches(scope, first, One(s, place)) && Inv(scope, One(s, place))
      ensures s.released == old(s).released
    {
      hide Reaches, Inv;
      ghost var before := One(s, place);
      var t: Store := *;
      if Evolves(s, t) && t.released == s.released {
        Advance(scope, first, before, Elsewhere(t), One(t, place));
        s := t;
      } else {
        Advance(scope, first, before, Elsewhere(s), Next(scope, before, Elsewhere(s)));
      }
    }

    /** `evaluate`. */
    method Evaluate() returns (r: Ending)
      requires Inv(scope, One(s, Idle))
      modifies this
      ensures Inv(scope, One(s, PlaceOf(r))) && Reaches(scope, One(old(s), Idle), One(s, PlaceOf(r)))
      ensures r.Job? ==>
        && s.closed && AllReady(scope.roster, s) && (forall a :: a in scope.roster ==> a in s.released)
        && r.feedback == FeedbackOf(scope, s.candidates)
      ensures !Prepared(scope.roster, old(s).candidates) ==> r == Raised && s == old(s)
    {
      hide Reaches, Inv;
      ghost var first := One(s, Idle);
      ReachesItself(scope, first);
      if !Prepared(scope.roster, s.candidates) {
        Advance(scope, first, first, Begin(0), One(s, Gone));
        return Raised;
      }
      var prepared := s.candidates;
      Advance(scope, first, first, Begin(0), One(s, Evaluating(prepared)));
      for i := 0 to |prepared|
        invariant Inv(scope, One(s, Evaluating(prepared))) && Reaches(scope, first, One(s, Evaluating(prepared)))
      {
        AwaitOthers(first, Evaluating(prepared));
        if * {
          Advance(scope, first, One(s, Evaluating(prepared)), Leave(0), One(s, Gone));
          return Raised;
        }
      }
      if !Prepared(scope.roster, s.candidates)
        || exists i :: 0 <= i < |s.candidates| && s.candidates[i].status != Complete
      {
        Advance(scope, first, One(s, Evaluating(prepared)), Leave(0), One(s, Gone));
        return
          if Prepared(scope.roster, s.candidates)
            && exists i :: 0 <= i < |s.candidates| && s.candidates[i].status == Reserved
          then InProgress
          else Raised;
      }
      Advance(scope, first, One(s, Evaluating(prepared)), Recheck(0), One(s, Checked(prepared)));
      r := CloseAndRelease(first, prepared);
    }

    /** Closing, the checks on what was closed, and the releases one by one. */
    method CloseAndRelease(ghost first: System, prepared: seq<Candidate>) returns (r: Ending)
      requires Inv(scope, first) && Reaches(scope, first, One(s, Checked(prepared)))
      modifies this
      ensures Inv(scope, One(s, PlaceOf(r))) && Reaches(scope, first, One(s, PlaceOf(r)))
      ensures r.Job? ==>
        && s.closed && AllReady(scope.roster, s) && (forall a :: a in scope.roster ==> a in s.released)
        && r.feedback == FeedbackOf(scope, s.candidates)
    {
      hide Reaches, Inv;
      AwaitOthers(first, Checked(prepared));
      if * {
        Advance(scope, first, One(s, Checked(prepared)), Leave(0), One(s, Gone));
        return Raised;
      }
      ghost var checked := One(s, Checked(prepared));
      s := s.(closed := true);
      var closed := s.candidates;
      if ReceiptsOf(closed) != ReceiptsOf(prepared) || exists i :: 0 <= i < |closed| && closed[i].result.None? {
        Advance(scope, first, checked, Close(0), One(s, Gone));
        return Raised;
      }
      Advance(scope, first, checked, Close(0), One(s, Releasing(prepared, 0)));
      for i := 0 to |scope.roster|
        invariant Inv(scope, One(s, Releasing(prepared, i))) && Reaches(scope, first, One(s, Releasing(prepared, i)))
      {
        AwaitOthers(first, Releasing(prepared, i));
        ghost var before := One(s, Releasing(prepared, i));
        if * {
          Advance(scope, first, before, Leave(0), One(s, Gone));
          return Crashed;
        }
        s := s.(released := s.released + {scope.roster[i]});
        Advance(scope, first, before, Release(0), One(s, Releasing(prepared, i + 1)));
      }
      Advance(scope, first, One(s, Releasing(prepared, |scope.roster|)), Release(0),
          One(s, Returned(FeedbackOf(scope, prepared))));
      ReturnedAgrees(scope, s, FeedbackOf(scope, prepared));
      return Job(FeedbackOf(scope, prepared));
    }
  }

  lemma ReturnedAgrees(scope: Scope, s: Store, feedback: Feedback)
    requires Inv(scope, One(s, Returned(feedback)))
    ensures s.closed && AllReady(scope.roster, s) && (forall a :: a in scope.roster ==> a in s.released)
    ensures feedback == FeedbackOf(scope, s.candidates)
  {
    assert CallAgrees(scope, s, One(s, Returned(feedback)).calls[0]);
  }
}
