/** The steps of one activity on one process keep the invariant, point by point. */
module ProtocolSteps {
  import opened Wrappers
  import opened PortLedger
  import opened Protocol
  import opened ProtocolInv

  lemma CreateNotifyFine(k: Spot)
    requires k.Known() && k.a.CreateNotify?
    ensures k.Fine()
  {
    hide Start, StopStep;
  }

  lemma CloseLogFine(k: Spot)
    requires k.Known() && k.a.CloseLog?
    ensures k.Fine()
  {
    hide Start, StopStep;
  }

  lemma DeleteUnregisterFine(k: Spot)
    requires k.Known() && k.a.DeleteUnregister?
    ensures k.Fine()
  {
    hide Start, StopStep;
  }

  lemma UnregPollFine(k: Spot)
    requires k.Known() && k.a.UnregPoll?
    ensures k.Fine()
  {
    hide Start, StopStep;
  }

  lemma UnregRecheckFine(k: Spot)
    requires k.Known() && k.a.UnregRecheck?
    ensures k.Fine()
  {
    hide Start, StopStep;
  }

  lemma ReplaceCompareFine(k: Spot)
    requires k.Known() && k.a.ReplaceCompare?
    ensures k.Fine()
  {
    hide Start, StopStep;
  }

  lemma ReplaceDropLogFine(k: Spot)
    requires k.Known() && k.a.ReplaceDropLog?
    ensures k.Fine()
  {
    hide Start, StopStep;
  }

  lemma ReplacePollFine(k: Spot)
    requires k.Known() && k.a.ReplacePoll?
    ensures k.Fine()
  {
    hide Start, StopStep;
  }

  lemma StopSendFine(k: Spot)
    requires k.Known() && k.a.StopSend?
    ensures k.Fine()
  {
    hide Start, StopStep;
  }

  lemma StopperCheckFine(k: Spot)
    requires k.Known() && k.a.StopperCheck?
    ensures k.Fine()
  {
    hide Start, StopStep;
  }

  lemma StopperLookFine(k: Spot)
    requires k.Known() && k.a.StopperLook?
    ensures k.Fine()
  {
    hide Start, StopStep;
  }

  lemma StopperWriteFine(k: Spot)
    requires k.Known() && k.a.StopperWrite?
    ensures k.Fine()
  {
    hide Start, StopStep;
  }

  lemma StopperPollFine(k: Spot)
    requires k.Known() && k.a.StopperPoll?
    ensures k.Fine()
  {
    hide Start, StopStep;
  }

  lemma StopperKillFine(k: Spot)
    requires k.Known() && k.a.StopperKill?
    ensures k.Fine()
  {
    hide Start, StopStep;
  }

  lemma StopperCloseFine(k: Spot)
    requires k.Known() && k.a.StopperClose?
    ensures k.Fine()
  {
    hide Start, StopStep;
  }

  lemma RunLaunchFine(k: Spot)
    requires k.Known() && k.a.RunLaunch?
    ensures k.Fine()
  {
    hide Start, StopStep;
  }

  lemma RunWaitFine(k: Spot)
    requires k.Known() && k.a.RunWait?
    ensures k.Fine()
  {
    hide Start, StopStep;
  }

  lemma RunSetFine(k: Spot)
    requires k.Known() && k.a.RunSet?
    ensures k.Fine()
  {
    hide Start, StopStep;
  }

  lemma ReadyWaitMoves(k: Spot)
    requires k.Known() && k.a.ReadyWait?
    ensures k.MovesFine()
  {
    hide Start, StopStep;
  }

  lemma ReadyWaitNext(k: Spot)
    requires k.Known() && k.a.ReadyWait?
    ensures k.NextFine()
  {
    hide Start, StopStep;
  }

  lemma ReadySetFine(k: Spot)
    requires k.Known() && k.a.ReadySet?
    ensures k.Fine()
  {
    hide Start, StopStep;
  }

  lemma ReadyCheckFine(k: Spot)
    requires k.Known() && k.a.ReadyCheck?
    ensures k.Fine()
  {
    hide Start, StopStep;
  }

  lemma CreateStartMoves(k: Spot)
    requires k.Known() && k.a.CreateStart?
    ensures k.MovesFine()
  {
    hide StopStep;
  }

  lemma CreateStartNext(k: Spot)
    requires k.Known() && k.a.CreateStart?
    ensures k.NextFine()
  {
    hide StopStep;
  }

  lemma ReplaceStartMoves(k: Spot)
    requires k.Known() && k.a.ReplaceStart?
    ensures k.MovesFine()
  {
    hide StopStep;
  }

  lemma ReplaceStartNext(k: Spot)
    requires k.Known() && k.a.ReplaceStart?
    ensures k.NextFine()
  {
    hide StopStep;
  }

  lemma StopCloseMoves(k: Spot)
    requires k.Known() && k.a.StopClose?
    ensures k.MovesFine()
  {
    hide Start, StopStep;
  }

  lemma StopCloseNext(k: Spot)
    requires k.Known() && k.a.StopClose?
    ensures k.NextFine()
  {
    hide Start, StopStep;
  }

  lemma StopLoadMoves(k: Spot)
    requires k.Known() && k.a.StopLoad?
    ensures k.MovesFine()
  {
    hide Start, StopStep;
  }

  lemma StopLoadNext(k: Spot)
    requires k.Known() && k.a.StopLoad?
    ensures k.NextFine()
  {
    hide Start, StopStep;
  }

  lemma GracefulMoves(k: Spot)
    requires k.Known() && k.a.StopClaim? && Claim(k.p.state, k.p.deletedAt, k.s.now) == Graceful
    ensures k.MovesFine()
  {
    hide Start;
  }

  lemma GracefulNext(k: Spot)
    requires k.Known() && k.a.StopClaim? && Claim(k.p.state, k.p.deletedAt, k.s.now) == Graceful
    ensures k.NextFine()
  {
    hide Start;
  }

  lemma TimeoutKillMoves(k: Spot)
    requires k.Known() && k.a.StopClaim? && Claim(k.p.state, k.p.deletedAt, k.s.now) == TimeoutKill
    ensures k.MovesFine()
  {
    hide Start;
  }

  lemma TimeoutKillNext(k: Spot)
    requires k.Known() && k.a.StopClaim? && Claim(k.p.state, k.p.deletedAt, k.s.now) == TimeoutKill
    ensures k.NextFine()
  {
    hide Start;
  }

  lemma CloseOnlyMoves(k: Spot)
    requires k.Known() && k.a.StopClaim? && Claim(k.p.state, k.p.deletedAt, k.s.now) == CloseOnly
    ensures k.MovesFine()
  {
    hide Start;
  }

  lemma CloseOnlyNext(k: Spot)
    requires k.Known() && k.a.StopClaim? && Claim(k.p.state, k.p.deletedAt, k.s.now) == CloseOnly
    ensures k.NextFine()
  {
    hide Start;
  }

  lemma NothingMoves(k: Spot)
    requires k.Known() && k.a.StopClaim? && Claim(k.p.state, k.p.deletedAt, k.s.now) == Nothing
    ensures k.MovesFine()
  {
    hide Start;
  }

  lemma NothingNext(k: Spot)
    requires k.Known() && k.a.StopClaim? && Claim(k.p.state, k.p.deletedAt, k.s.now) == Nothing
    ensures k.NextFine()
  {
    hide Start;
  }

  lemma StopClaimFine(k: Spot)
    requires k.Known() && k.a.StopClaim?
    ensures k.MovesFine() && k.NextFine()
  {
    match Claim(k.p.state, k.p.deletedAt, k.s.now)
    case Graceful => hide *; GracefulMoves(k); GracefulNext(k);
    case TimeoutKill => hide *; TimeoutKillMoves(k); TimeoutKillNext(k);
    case CloseOnly => hide *; CloseOnlyMoves(k); CloseOnlyNext(k);
    case Nothing => hide *; NothingMoves(k); NothingNext(k);
  }

  lemma LocalFine(k: Spot)
    requires k.Known() && !Touches(k.a)
    ensures k.Fine()
  {
    var a := k.a;
    assert !a.Notify? && !a.DeleteFind?;
    hide Spot.Known, Spot.MovesFine, Spot.NextFine;
    match a
    case CreateNotify(_) => CreateNotifyFine(k);
    case CloseLog(_) => CloseLogFine(k);
    case DeleteUnregister(_) => DeleteUnregisterFine(k);
    case UnregPoll(_, _) => UnregPollFine(k);
    case UnregRecheck(_) => UnregRecheckFine(k);
    case ReplaceCompare(_, _) => ReplaceCompareFine(k);
    case ReplaceDropLog(_) => ReplaceDropLogFine(k);
    case ReplacePoll(_, _, _) => ReplacePollFine(k);
    case StopSend(_, _, _) => StopSendFine(k);
    case StopperCheck(_, _, _) => StopperCheckFine(k);
    case StopperLook(_, _) => StopperLookFine(k);
    case StopperWrite(_) => StopperWriteFine(k);
    case StopperPoll(_, _) => StopperPollFine(k);
    case StopperKill(_) => StopperKillFine(k);
    case StopperClose(_) => StopperCloseFine(k);
    case RunLaunch(_) => RunLaunchFine(k);
    case RunWait(_) => RunWaitFine(k);
    case RunSet(_, _) => RunSetFine(k);
    case ReadyWait(_) => ReadyWaitMoves(k); ReadyWaitNext(k);
    case ReadySet(_) => ReadySetFine(k);
    case ReadyCheck(_) => ReadyCheckFine(k);
    case CreateStart(_) => CreateStartMoves(k); CreateStartNext(k);
    case ReplaceStart(_, _) => ReplaceStartMoves(k); ReplaceStartNext(k);
    case StopClose(_, _) => StopCloseMoves(k); StopCloseNext(k);
    case StopLoad(_, _, _) => StopLoadMoves(k); StopLoadNext(k);
    case StopClaim(_, _, _) => StopClaimFine(k);
    case _ =>
  }
}
