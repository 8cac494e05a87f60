/** Outbound requests sent one after another, where the first request that
    fails ends the run: the shape shared by the SMTP recipient loop and the
    WhatsApp gateway calls. */
module Trace {
  import opened Common

  /** `sent` is what a run of `plan` sends and `res` what it returns, when
      `verdict` says how each request fares (None: it succeeded). */
  ghost predicate IsRun<R>(plan: seq<R>, verdict: R -> Option<Error>, sent: seq<R>, res: Result<()>) {
    && |sent| <= |plan| && sent == plan[..|sent|]
    && (forall i :: 0 <= i < |sent| - 1 ==> verdict(sent[i]).None?)
    && (res.Ok? ==> sent == plan && forall i :: 0 <= i < |sent| ==> verdict(sent[i]).None?)
    && (res.Err? ==> |sent| > 0 && verdict(sent[|sent| - 1]) == Some(res.error))
  }

  datatype Run<R> = Run(sent: seq<R>, res: Result<()>)

  /** The reference run: send the head, stop if it failed, go on otherwise. */
  function Drive<R>(plan: seq<R>, verdict: R -> Option<Error>): (r: Run<R>)
    ensures |r.sent| <= |plan|
  {
    if plan == [] then Run([], Ok(()))
    else match verdict(plan[0])
      case Some(e) => Run([plan[0]], Err(e))
      case None =>
        var rest := Drive(plan[1..], verdict);
        Run([plan[0]] + rest.sent, rest.res)
  }

  lemma {:induction false} DriveIsRun<R>(plan: seq<R>, verdict: R -> Option<Error>)
    ensures IsRun(plan, verdict, Drive(plan, verdict).sent, Drive(plan, verdict).res)
  {
    if plan != [] && verdict(plan[0]).None? {
      DriveIsRun(plan[1..], verdict);
      var rest := Drive(plan[1..], verdict);
      var sent := [plan[0]] + rest.sent;
      assert sent == plan[..|sent|] by {
        assert rest.sent == plan[1..][..|rest.sent|];
      }
      forall i | 0 <= i < |sent| - 1 ensures verdict(sent[i]).None? {
        if i > 0 { assert sent[i] == rest.sent[i - 1]; }
      }
      if rest.res.Ok? {
        forall i | 0 <= i < |sent| ensures verdict(sent[i]).None? {
          if i > 0 { assert sent[i] == rest.sent[i - 1]; }
        }
        assert sent == [plan[0]] + plan[1..];
      }
    }
  }

  /** A run is determined by its plan and verdicts: there is only one. */
  lemma {:induction false} RunIsUnique<R>(plan: seq<R>, verdict: R -> Option<Error>,
                                          sent: seq<R>, res: Result<()>, sent': seq<R>, res': Result<()>)
    requires IsRun(plan, verdict, sent, res) && IsRun(plan, verdict, sent', res')
    ensures sent == sent' && res == res'
  {
    if |sent| == |sent'| {
      assert sent == sent';
      match res
      case Ok(u) =>
        if res'.Ok? { assert u == () == res'.value; }
      case Err(e) =>
        if res'.Err? { assert Some(e) == verdict(sent[|sent| - 1]) == Some(res'.error); }
    }
  }

  /** Every run is the reference run. */
  lemma RunIsDrive<R>(plan: seq<R>, verdict: R -> Option<Error>, sent: seq<R>, res: Result<()>)
    requires IsRun(plan, verdict, sent, res)
    ensures Drive(plan, verdict) == Run(sent, res)
  {
    DriveIsRun(plan, verdict);
    RunIsUnique(plan, verdict, sent, res, Drive(plan, verdict).sent, Drive(plan, verdict).res);
  }

  /** Running two plans back to back: the second starts only when the first
      went through entirely. */
  lemma {:induction false} DriveAppend<R>(first: seq<R>, second: seq<R>, verdict: R -> Option<Error>)
    ensures var a := Drive(first, verdict);
      Drive(first + second, verdict)
        == if a.res.Ok? then Run(first + Drive(second, verdict).sent, Drive(second, verdict).res) else a
  {
    if first == [] {
      assert first + second == second;
    } else {
      var both := first + second;
      assert both[0] == first[0] && both[1..] == first[1..] + second;
      if verdict(first[0]).None? {
        DriveAppend(first[1..], second, verdict);
        DriveIsRun(first[1..], verdict);
        if Drive(first[1..], verdict).res.Ok? {
          var rest := Drive(second, verdict).sent;
          assert [first[0]] + (first[1..] + rest) == first + rest;
        }
      }
    }
  }

  /** A run succeeds iff no request of the plan fails, and then it sends the
      whole plan; otherwise it stops right after the first failing request. */
  lemma {:induction false} RunSucceedsIffNoFailure<R>(plan: seq<R>, verdict: R -> Option<Error>, sent: seq<R>, res: Result<()>)
    requires IsRun(plan, verdict, sent, res)
    ensures res.Ok? <==> forall i :: 0 <= i < |plan| ==> verdict(plan[i]).None?
    ensures res.Err? ==> forall i :: 0 <= i < |sent| - 1 ==> verdict(plan[i]).None?
  {
    if res.Err? {
      assert plan[|sent| - 1] == sent[|sent| - 1];
    } else {
      forall i | 0 <= i < |plan| ensures verdict(plan[i]).None? {
        assert plan[i] == sent[i];
      }
    }
  }
}
