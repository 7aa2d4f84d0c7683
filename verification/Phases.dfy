/** The migration phases, the transitions between them, and what the runner does when a step
    of a phase fails. */
module Phases {
  import opened Prelude

  datatype Phase =
    | Preparing | Reserving | Prestaging | Probing | Precopying | Pausing | Snapshotting
    | Transferring | Loading | Resuming | Verifying | Cutover | Cleanup | Done
    | RollingBackSource | RolledBack | Failed | OrphanedAmbiguous

  datatype FailureAction = Orphan | Rollback | Fail

  predicate Terminal(p: Phase) {
    p.Done? || p.Failed? || p.RolledBack? || p.OrphanedAmbiguous?
  }

  predicate RollbackPhase(p: Phase) {
    p.Pausing? || p.Snapshotting? || p.Transferring? || p.Loading?
  }

  /** Phases that are entered only once the destination resume has been issued. */
  predicate AfterResume(p: Phase) {
    p.Resuming? || p.Verifying? || p.Cutover? || p.Cleanup? || p.Done? || p.OrphanedAmbiguous?
  }

  /** The transitions the state machine allows. */
  predicate CanMove(from: Phase, to: Phase) {
    match from
    case Preparing => to.Reserving? || to.Failed?
    case Reserving => to.Prestaging? || to.Failed?
    case Prestaging => to.Probing? || to.Failed?
    case Probing => to.Precopying? || to.Failed?
    case Precopying => to.Pausing? || to.Failed?
    case Pausing => to.Snapshotting? || to.RollingBackSource?
    case Snapshotting => to.Transferring? || to.RollingBackSource?
    case Transferring => to.Loading? || to.RollingBackSource?
    case Loading => to.Resuming? || to.RollingBackSource?
    case Resuming => to.Verifying? || to.OrphanedAmbiguous?
    case Verifying => to.Cutover? || to.OrphanedAmbiguous?
    case Cutover => to.Cleanup? || to.OrphanedAmbiguous?
    case Cleanup => to.Done? || to.OrphanedAmbiguous?
    case RollingBackSource => to.RolledBack? || to.Failed?
    case _ => false
  }

  /** A path of the state machine from creation on. */
  ghost predicate LegalPath(path: seq<Phase>) {
    && |path| > 0
    && path[0] == Preparing
    && forall i, j | 0 <= i < j < |path| && j == i + 1 :: CanMove(path[i], path[j])
  }

  function FailureActionFor(resumeIssued: bool, p: Phase): FailureAction {
    if resumeIssued then Orphan else if RollbackPhase(p) then Rollback else Fail
  }

  predicate RollbackAllowed(resumeIssued: bool, p: Phase) {
    !resumeIssued && RollbackPhase(p)
  }

  /** Distance to the end of the longest continuation; it drops with every transition. */
  function Remaining(p: Phase): nat {
    match p
    case Preparing => 13
    case Reserving => 12
    case Prestaging => 11
    case Probing => 10
    case Precopying => 9
    case Pausing => 8
    case Snapshotting => 7
    case Transferring => 6
    case Loading => 5
    case Resuming => 4
    case Verifying => 3
    case Cutover => 2
    case Cleanup => 1
    case RollingBackSource => 1
    case _ => 0
  }

  lemma {:induction false} RemainingDrops(path: seq<Phase>, i: nat, j: nat)
    requires LegalPath(path) && i <= j < |path|
    ensures Remaining(path[j]) + (j - i) <= Remaining(path[i])
  {
    if i < j {
      RemainingDrops(path, i, j - 1);
      assert CanMove(path[j - 1], path[j]);
    }
  }

  /** The way of a migration in which nothing fails. */
  const LongestPath: seq<Phase> :=
    [Preparing, Reserving, Prestaging, Probing, Precopying, Pausing, Snapshotting, Transferring, Loading,
     Resuming, Verifying, Cutover, Cleanup, Done]

  /** No migration passes through a phase twice, and none takes more than fourteen phases, which
      is the length of an undisturbed one. */
  lemma PathsAreSimpleAndShort(path: seq<Phase>)
    requires LegalPath(path)
    ensures |path| <= 14 == |LongestPath| && LegalPath(LongestPath)
    ensures forall i, j | 0 <= i < j < |path| :: path[i] != path[j]
  {
    RemainingDrops(path, 0, |path| - 1);
    forall i, j | 0 <= i < j < |path| ensures path[i] != path[j] {
      RemainingDrops(path, i, j);
    }
  }

  /** A step of a way. */
  ghost predicate GoesForward<T>(way: seq<T>, p: T, next: T) {
    exists i, j | 0 <= i < j < |way| && j == i + 1 :: way[i] == p && way[j] == next
  }

  function AfterAction(action: FailureAction): Phase {
    match action
    case Orphan => OrphanedAmbiguous
    case Rollback => RollingBackSource
    case Fail => Failed
  }

  /** The state machine has the steps of the undisturbed way, the one answer to a failure in each of its
      phases, and the two ends of a rollback, and nothing else. */
  lemma MovesAreStepsOrFailures(p: Phase, next: Phase)
    ensures CanMove(p, next)
       <==> GoesForward(LongestPath, p, next)
            || (!Terminal(p) && p != RollingBackSource && next == AfterAction(FailureActionFor(AfterResume(p), p)))
            || (p == RollingBackSource && (next == RolledBack || next == Failed))
  {
    PlaceOf(p);
    ForwardIsTheNextPlace(LongestPath, p, next, 13 - Remaining(p), !Terminal(p) && p != RollingBackSource);
    if !Terminal(p) && p != RollingBackSource {
      NextPlace(p);
    }
  }

  lemma NextPlace(p: Phase)
    requires !Terminal(p) && p != RollingBackSource
    ensures CanMove(p, LongestPath[14 - Remaining(p)])
    ensures forall next :: CanMove(p, next) ==>
              next == LongestPath[14 - Remaining(p)] || next == AfterAction(FailureActionFor(AfterResume(p), p))
    ensures CanMove(p, AfterAction(FailureActionFor(AfterResume(p), p)))
  {
  }

  lemma ForwardIsTheNextPlace<T>(way: seq<T>, p: T, next: T, place: int, isOnIt: bool)
    requires isOnIt ==> 0 <= place < |way| - 1 && way[place] == p
    requires forall i | 0 <= i < |way| - 1 :: way[i] == p ==> isOnIt && i == place
    ensures GoesForward(way, p, next) <==> isOnIt && next == way[place + 1]
  {
    if isOnIt && next == way[place + 1] {
      var j := place + 1;
      assert way[place] == p && way[j] == next;
    }
  }

  /** Every phase of the undisturbed way has one place on it. */
  lemma PlaceOf(p: Phase)
    ensures !Terminal(p) && p != RollingBackSource ==> 0 <= 13 - Remaining(p) < 13 && LongestPath[13 - Remaining(p)] == p
    ensures forall i | 0 <= i < 13 :: LongestPath[i] == p ==> !Terminal(p) && p != RollingBackSource && i == 13 - Remaining(p)
  {
  }

  /** The point of no return: once a resume was issued the path only goes forward or ends in
      ORPHANED_AMBIGUOUS; it never reaches a phase in which the source may be resumed, and an
      orphan is never declared unless a resume was issued first. */
  lemma {:induction false} PointOfNoReturn(path: seq<Phase>, i: nat, j: nat)
    requires LegalPath(path) && i <= j < |path|
    ensures path[i] == Resuming ==> AfterResume(path[j])
    ensures AfterResume(path[j]) ==> Resuming in path[..j + 1]
  {
    if i < j {
      PointOfNoReturn(path, i, j - 1);
      assert CanMove(path[j - 1], path[j]);
      assert path[..j + 1] == path[..j] + [path[j]];
    } else if 0 < j {
      PointOfNoReturn(path, j - 1, j - 1);
      assert CanMove(path[j - 1], path[j]);
      assert path[..j + 1] == path[..j] + [path[j]];
    }
  }

  /** Whatever phase fails, the action the runner picks is a legal transition of that phase. */
  lemma FailureActionIsLegal(path: seq<Phase>)
    requires LegalPath(path)
    requires !Terminal(path[|path| - 1]) && path[|path| - 1] != RollingBackSource
    ensures match FailureActionFor(Resuming in path, path[|path| - 1])
            case Orphan => CanMove(path[|path| - 1], OrphanedAmbiguous)
            case Rollback => CanMove(path[|path| - 1], RollingBackSource)
            case Fail => CanMove(path[|path| - 1], Failed)
  {
    var last := |path| - 1;
    PointOfNoReturn(path, last, last);
    assert path[..last + 1] == path;
    if Resuming in path {
      var i :| 0 <= i < |path| && path[i] == Resuming;
      PointOfNoReturn(path, i, last);
    }
  }
}
