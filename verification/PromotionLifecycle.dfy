/** A promotion, seen from the task it promotes: the repository-side service takes exactly the lifecycle's steps. */
module PromotionLifecycle {
  import opened Wrappers
  import D = Delegation
  import P = Promotion

  function Seen(status: D.Status): P.Status {
    match status
    case Accepted => P.Accepted
    case Promoting => P.Promoting
    case Promoted => P.Promoted
    case PromotionFailed => P.PromotionFailed
    case Rejected | Cancelled | Failed => P.Later
    case _ => P.Earlier
  }

  /** The task as promotion sees it is the lifecycle's. */
  ghost predicate TaskAgrees(life: D.Life, task: P.Task) {
    && task.status == Seen(life.task.status) && task.accepted == life.task.accepted && task.latest == life.task.latest
    && (forall revision :: revision in task.results <==> revision in life.results)
    && task.unmet == D.Unmet(life)
  }

  /** So are its promotion records. */
  ghost predicate LogAgrees(life: D.Life, log: seq<P.Record>) {
    |log| == |life.promotions| && forall i :: 0 <= i < |log| ==> log[i].rollbackSucceeded == life.promotions[i]
  }

  /** The two views of task `t` agree. */
  ghost predicate Agrees(life: D.Life, s: P.Repo, t: P.TaskId) {
    t in s.tasks && TaskAgrees(life, s.tasks[t]) && LogAgrees(life, P.Log(s, t))
  }

  /** What the call on the repository amounts to for the task. */
  function AsOp(s: P.Repo, t: P.TaskId, world: P.World): D.Op {
    var error := P.Promote(s, t, world).1;
    D.Promote(P.Refusal(s, t, world).None?, error.None?, error == Some(P.Failed(true)))
  }

  lemma SameGates(life: D.Life, s: P.Repo, t: P.TaskId, world: P.World)
    requires Agrees(life, s, t)
    ensures D.Do(life, AsOp(s, t, world)).Success? <==> P.Refusal(s, t, world).None?
  {
  }

  /** The task's side of a promotion that was attempted. */
  function Settled(life: D.Life, op: D.Op): D.Life
    requires op.Promote?
  {
    life.(task := life.task.(status := if op.applied then D.Promoted else D.PromotionFailed),
          promotions := life.promotions + [if op.applied then None else Some(op.rolledBack)])
  }

  lemma AttemptSettles(life: D.Life, op: D.Op)
    requires op.Promote? && D.Do(life, op).Success?
    ensures D.Do(life, op).value == Settled(life, op)
  {
  }

  lemma SameLog(life: D.Life, s: P.Repo, t: P.TaskId, world: P.World)
    requires Agrees(life, s, t) && P.Refusal(s, t, world).None?
    ensures LogAgrees(Settled(life, AsOp(s, t, world)), P.Log(P.Promote(s, t, world).0, t))
  {
    var s' := P.Attempt(s, t, s.tasks[t], P.Candidate(s.tasks[t]).value, world).0;
    assert P.Log(s', t) == P.Log(s, t) + [P.Log(s', t)[|P.Log(s, t)|]];
  }

  lemma SameTask(life: D.Life, s: P.Repo, t: P.TaskId, world: P.World)
    requires Agrees(life, s, t) && P.Refusal(s, t, world).None?
    ensures t in P.Promote(s, t, world).0.tasks
    ensures TaskAgrees(Settled(life, AsOp(s, t, world)), P.Promote(s, t, world).0.tasks[t])
  {
  }

  lemma SameOutcome(life: D.Life, s: P.Repo, t: P.TaskId, world: P.World)
    requires Agrees(life, s, t) && P.Refusal(s, t, world).None?
    ensures Agrees(Settled(life, AsOp(s, t, world)), P.Promote(s, t, world).0, t)
  {
    SameTask(life, s, t, world);
    SameLog(life, s, t, world);
  }

  /** Both services accept or refuse together, and agree on the task afterwards. */
  lemma PromotionIsALifecycleStep(life: D.Life, s: P.Repo, t: P.TaskId, world: P.World)
    requires Agrees(life, s, t)
    ensures D.Do(life, AsOp(s, t, world)).Success? <==> P.Refusal(s, t, world).None?
    ensures Agrees(if D.Do(life, AsOp(s, t, world)).Success? then D.Do(life, AsOp(s, t, world)).value else life,
                   P.Promote(s, t, world).0, t)
  {
    SameGates(life, s, t, world);
    if P.Refusal(s, t, world).None? {
      AttemptSettles(life, AsOp(s, t, world));
      SameOutcome(life, s, t, world);
    }
  }

  /** Promoting another task leaves this one as it was. */
  lemma OthersAreUntouched(life: D.Life, s: P.Repo, t: P.TaskId, u: P.TaskId, world: P.World)
    requires Agrees(life, s, t) && u != t
    ensures Agrees(life, P.Promote(s, u, world).0, t)
  {
  }
}
