/** The diagnosis worker with its loss window, updated in place. */
module AutoWorker {
  import opened AutoLoss
  import opened AutoLossRing
  import opened AutoDiagnosis

  class Worker {
    /** Everything but the loss window, which is an object of its own. */
    var core: State
    const loss: LossWindow

    ghost predicate Valid()
      reads this, loss, loss.ring
    {
      loss.Valid() && AutoDiagnosis.Valid(View())
    }

    ghost function View(): State
      reads this, loss
    {
      core.(window := loss.window)
    }

    constructor (start: State)
      requires Initial(start)
      ensures Valid() && Initial(View()) && fresh(loss) && fresh(loss.ring)
    {
      core := start;
      loss := new LossWindow(start.recovery);
    }

    /** Takes the completion and looks for a changed home channel or enable generation. */
    method Notice(channel: nat) returns (result: Outcome, committed: bool)
      requires loss.Valid()
      modifies this, loss
      ensures loss.Valid() && View() == Noticed(old(View()), channel)
      ensures result == old(core.mailbox) && committed == Commits(old(View()), channel)
    {
      hide Holds, AutoLoss.Inv;
      result := core.mailbox;
      core := core.(mailbox := Outcome.Nothing, token := core.generation, home := channel, qualified := false);
      committed := result.Finished? && core.phase.WaitCommit? && result.token == core.token && core.token == core.observedGeneration
        && result.oldHome == core.requestedHome && result.newHome == core.requestedTarget && result.success && channel == result.newHome;
      if channel != core.observedHome || core.token != core.observedGeneration {
        loss.Invalidate();
        if !committed { core := core.(phase := Monitor); }
        core := core.(cooldown := 0, observedHome := channel, observedGeneration := core.token);
      }
    }

    /** A committed trial move starts the wait for recovery; any other answer ends the trial. */
    method Settle(result: Outcome, committed: bool, now: int, snapshot: Snapshot)
      requires loss.Valid() && Sized(snapshot)
      modifies this, loss
      ensures loss.Valid() && View() == Settled(old(View()), result, committed, now, snapshot)
    {
      hide Holds, AutoLoss.Inv;
      if Answers(result, core) {
        if committed {
          core := core.(phase := WaitRecovery, recovery := snapshot, cooldown := now + COOLDOWN);
          loss.Restart(snapshot, now, false);
        } else {
          loss.Invalidate();
          core := core.(phase := Monitor);
        }
      }
    }

    /** The first part of a wake. */
    method WakeUp(now: int, channel: nat, snapshot: Snapshot)
      requires Valid() && Sized(snapshot)
      modifies this, loss
      ensures Valid() && View() == Awake(old(View()), now, channel, snapshot)
    {
      AwakeValid(View(), now, channel, snapshot);
      hide AutoDiagnosis.Valid, Holds, AutoLoss.Inv, Noticed, Settled, Commits;
      var result, committed := Notice(channel);
      Settle(result, committed, now, snapshot);
    }

    /** Are all original participants back? */
    method RecoverySample(now: int, snapshot: Snapshot, rebased: Snapshot)
      requires loss.Valid() && Sized(snapshot) && Sized(rebased) && Sized(core.recovery) && loss.window.stamps != []
      modifies this, loss
      ensures loss.Valid() && View() == Recover(old(View()), now, snapshot, rebased)
    {
      hide Holds, AutoLoss.Inv, Broken;
      if core.mask == {} || !Present(snapshot, core.mask) || Broken(core.recovery, snapshot)
         || now - loss.previous.time > EVIDENCE_MS + JITTER {
        core := core.(recovery := snapshot);
        loss.Restart(snapshot, now, false);
        return;
      }
      loss.Restart(rebased, now, false);
      core := core.(recovery := rebased, phase := if Present(rebased, core.mask) then Postcheck else WaitRecovery);
    }

    method Conclude(evidence: Evidence, now: int)
      requires loss.Valid()
      modifies this, loss
      ensures loss.Valid() && View() == Concluded(old(View()), evidence, now)
    {
      hide Holds, AutoLoss.Inv;
      core := core.(qualified := false);
      if core.phase.Postcheck? && !evidence.Unknown? {
        if evidence.Lossy? {
          if core.enabled && !core.latched && !core.fault && core.generation == core.token { core := core.(latched := true); }
          loss.Invalidate();
        } else {
          core := core.(phase := Monitor);
        }
      } else if core.phase.Monitor? {
        core := core.(qualified := evidence.Lossy? && now >= core.cooldown);
      }
    }

    /** Adds a sample to the loss window and draws the conclusion of the phase. */
    method LookAt(now: int, snapshot: Snapshot, rebased: Snapshot)
      requires loss.Valid() && Sized(snapshot) && Sized(rebased)
      modifies this, loss, loss.ring
      ensures loss.Valid() && View() == Look(old(View()), now, snapshot, rebased)
    {
      SampleInv(loss.window, snapshot, now);
      hide Holds, AutoLoss.Inv, Sample, Sized, Concluded;
      var evidence := loss.Add(snapshot, now);
      loss.Refence(rebased, now);
      Conclude(evidence, now);
    }

    method Recheck(now: int, snapshot: Snapshot, rebased: Snapshot)
      requires loss.Valid() && Sized(snapshot) && Sized(rebased) && loss.window.stamps != []
      modifies this, loss, loss.ring
      ensures loss.Valid() && View() == Rechecked(old(View()), now, snapshot, rebased)
    {
      AgoSized(loss.window);
      hide Holds, AutoLoss.Inv, Look, Present, Sized, Broken;
      if !Present(snapshot, core.mask) || Broken(loss.previous.snapshot, snapshot) {
        core := core.(phase := WaitRecovery, recovery := snapshot);
        loss.Restart(snapshot, now, false);
      } else {
        LookAt(now, snapshot, rebased);
      }
    }

    /** A missed grid point makes the window worthless. */
    method Prepare(snapshot: Snapshot, missed: bool)
      requires loss.Valid()
      modifies this, loss
      ensures loss.Valid() && View() == Prepared(old(View()), snapshot, missed)
    {
      hide Holds, AutoLoss.Inv;
      if missed {
        loss.Invalidate();
        if core.phase.WaitRecovery? { core := core.(recovery := snapshot); }
      }
    }

    /** The evidence part of a wake. */
    method TakeSample(now: int, snapshot: Snapshot, rebased: Snapshot, missed: bool)
      requires Valid() && Sized(snapshot) && Sized(rebased)
      modifies this, loss, loss.ring
      ensures Valid() && View() == Sampled(old(View()), now, snapshot, rebased, missed)
    {
      SampledValid(View(), now, snapshot, rebased, missed);
      PreparedFrame(View(), snapshot, missed);
      hide Holds, AutoLoss.Inv, Look, Recover, Rechecked, Broken, Present, Prepared, Sized;
      Prepare(snapshot, missed);
      match core.phase {
        case WaitRecovery => RecoverySample(now, snapshot, rebased);
        case Scanning =>
          if !snapshot.eligible || snapshot.capPending || Broken(core.scanBaseline, snapshot) {
            core := core.(phase := Monitor);
            loss.Invalidate();
          }
        case Postcheck => Recheck(now, snapshot, rebased);
        case Monitor => LookAt(now, snapshot, rebased);
        case WaitCommit =>
      }
    }
  }
}
