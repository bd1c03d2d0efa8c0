/** The cache object itself: its critical sections written as the updates they make in place, each
    proved to be the corresponding step of the machine. */
module ClientCacheObject {
  import opened Options
  import opened ClientCache

  class Cache {
    var entries: map<string, Entry>
    var inflight: map<Target, nat>
    var epochs: map<string, nat>
    var active: Option<Lease>
    var activationSeq: nat
    var target: Option<Target>
    var generationSeq: nat
    var closed: bool
    /** The cache's context, and the objects it has handed out or shares with its callers. */
    var cancelled: bool
    var builds: seq<Build>
    var issued: seq<Lease>
    var revoked: set<nat>
    var drained: set<nat>
    var threads: seq<Thread>

    ghost function View(): State
      reads this
    {
      State(entries, inflight, epochs, active, activationSeq, target, generationSeq, closed, cancelled,
            builds, issued, revoked, drained, threads)
    }

    constructor ()
      ensures View() == INITIAL
    {
      entries, inflight, epochs, active := map[], map[], map[], None;
      activationSeq, target, generationSeq, closed, cancelled := 0, None, 0, false, false;
      builds, issued, revoked, drained, threads := [], [], {}, {}, [];
    }

    /** The active lease is for this key and fingerprint and its context has no error. */
    predicate Reusable(key: string, fingerprint: string)
      reads this
      ensures Reusable(key, fingerprint) <==> Serves(View(), key, fingerprint)
    {
      active.Some? && active.value.key == key && active.value.fingerprint == fingerprint
      && active.value.generation !in revoked && !cancelled
    }

    /** Cancel the active lease, if any. */
    method CancelActive()
      modifies `active, `revoked
      ensures View() == Revoke(old(View()))
    {
      if active.Some? {
        revoked := revoked + {active.value.generation};
        active := None;
      }
    }

    /** Delete a cached entry, if any, and close its idle connections. */
    method DeleteEntry(key: string)
      modifies `entries, `drained
      ensures View() == Evict(old(View()), key)
    {
      if key in entries {
        drained := drained + {entries[key].build};
      }
      entries := entries - {key};
    }

    method ActivateLocked(key: string, fingerprint: string, build: nat) returns (lease: Lease)
      modifies this
      ensures View() == Issue(old(View()), key, fingerprint, build) && active == Some(lease)
    {
      CancelActive();
      generationSeq := generationSeq + 1;
      lease := Lease(key, fingerprint, build, generationSeq);
      issued := issued + [lease];
      active := Some(lease);
    }

    /** Request the target and take what belongs to another one out of use. */
    method Request(key: string, fingerprint: string)
      modifies this
      ensures View() == Prepare(old(View()), key, fingerprint)
    {
      var t := Target(key, fingerprint, EpochOf(epochs, key));
      if target != Some(t) {
        activationSeq := activationSeq + 1;
        target := Some(t);
      }
      assert View() == Retarget(old(View()), t);
      if active.Some? && (active.value.key != key || active.value.fingerprint != fingerprint) {
        CancelActive();
      }
      assert View() == RevokeOther(Retarget(old(View()), t), key, fingerprint);
      if key in entries && entries[key].fingerprint != fingerprint {
        DeleteEntry(key);
      }
    }

    /** Wait for the build of the target, or start it. */
    method JoinBuild(key: string, fingerprint: string)
      modifies this
      ensures var t := Target(key, fingerprint, Epoch(old(View()), key));
        View() == if t in old(inflight)
                  then AddThread(old(View()), Waiting(key, fingerprint, old(activationSeq), old(inflight)[t]))
                  else StartBuild(old(View()), key, fingerprint)
    {
      var t := Target(key, fingerprint, EpochOf(epochs, key));
      if t in inflight {
        threads := threads + [Waiting(key, fingerprint, activationSeq, inflight[t])];
      } else {
        inflight := inflight[t := |builds|];
        threads := threads + [Building(key, fingerprint, activationSeq, |builds|)];
        builds := builds + [Build(t, activationSeq, |threads| - 1, Running, false)];
      }
    }

    /** The first section of `Activate`, up to releasing the mutex. */
    method EnterActivate(key: string, fingerprint: string)
      modifies this
      ensures View() == Enter(old(View()), key, fingerprint)
      ensures !old(closed) && !old(cancelled) && old(active).Some? && old(active).value.generation !in old(revoked)
              && old(active).value.key == key && old(active).value.fingerprint == fingerprint ==>
        && active == old(active) && issued == old(issued) && revoked == old(revoked) && builds == old(builds)
        && threads == old(threads) + [Granted(old(active).value)]
    {
      if closed {
        threads := threads + [Refused(Unavailable)];
      } else if Reusable(key, fingerprint) {
        threads := threads + [Granted(active.value)];
      } else {
        EnterAnew(key, fingerprint);
      }
    }

    method EnterAnew(key: string, fingerprint: string)
      requires !closed && !Serves(View(), key, fingerprint)
      modifies this
      ensures View() == Enter(old(View()), key, fingerprint)
    {
      Request(key, fingerprint);
      PrepareFrame(old(View()), key, fingerprint);
      if key in entries {
        var lease := ActivateLocked(key, fingerprint, entries[key].build);
        threads := threads + [Granted(lease)];
      } else {
        JoinBuild(key, fingerprint);
      }
    }

    /** The second section: the builder has returned to the caller that ran it. */
    method BuildDone(i: nat, built: bool)
      requires Enabled(View(), DoFinish(i, built))
      modifies this
      ensures View() == Finish(old(View()), i, built)
    {
      var thread := threads[i];
      var superseded := RecordBuild(i, built);
      if built && !closed && !superseded {
        Answer(i, thread.key, thread.fingerprint, thread.call);
      }
    }

    method RecordBuild(i: nat, built: bool) returns (superseded: bool)
      requires Enabled(View(), DoFinish(i, built))
      modifies `builds, `entries, `drained, `inflight, `threads
      ensures View() == Settle(old(View()), i, built) && superseded == Superseded(old(View()), old(threads)[i])
    {
      var thread := threads[i];
      var build := builds[thread.call];
      superseded := EpochOf(epochs, thread.key) != build.target.epoch || thread.activation != activationSeq
                    || target != Some(build.target);
      builds := builds[thread.call := build.(progress := if built then Built else BuildFailed, stale := superseded)];
      if built && !closed && !superseded {
        entries := entries[thread.key := Entry(thread.fingerprint, thread.call)];
      } else if built {
        drained := drained + {thread.call};
      }
      inflight := inflight - {build.target};
      var failure := if closed then Unavailable else if superseded then GenerationChanged else BuilderError;
      threads := threads[i := Refused(failure)];
    }

    /** A caller whose build is good gets the active lease if it serves, a new one otherwise. */
    method Answer(i: nat, key: string, fingerprint: string, build: nat)
      requires i < |threads|
      modifies this
      ensures View() == Grant(old(View()), i, key, fingerprint, build)
    {
      var lease;
      if Reusable(key, fingerprint) {
        lease := active.value;
      } else {
        lease := ActivateLocked(key, fingerprint, build);
      }
      threads := threads[i := Granted(lease)];
    }

    /** The third section: a waiter has seen its build end. */
    method WakeUp(i: nat)
      requires Enabled(View(), DoWake(i))
      modifies this
      ensures View() == Wake(old(View()), i)
    {
      var thread := threads[i];
      if thread.activation != activationSeq {
        threads := threads[i := Refused(GenerationChanged)];
      } else if builds[thread.call].progress == BuildFailed {
        threads := threads[i := Refused(BuilderError)];
      } else if closed {
        threads := threads[i := Refused(Unavailable)];
      } else {
        Answer(i, thread.key, thread.fingerprint, thread.call);
      }
    }

    method WithdrawKey(key: string)
      modifies `active, `revoked, `entries, `drained
      ensures View() == Withdraw(old(View()), key)
    {
      if active.Some? && active.value.key == key {
        CancelActive();
      }
      DeleteEntry(key);
    }

    method InvalidateKey(key: string)
      modifies this
      ensures View() == Invalidate(old(View()), key)
    {
      activationSeq := activationSeq + 1;
      target := None;
      WithdrawKey(key);
      epochs := epochs[key := EpochOf(epochs, key) + 1];
    }

    method Shutdown()
      modifies this
      ensures View() == Close(old(View()))
    {
      if !closed {
        CancelActive();
        closed, cancelled := true, true;
        drained := drained + Cached(entries);
        entries := map[];
      }
    }
  }
}
