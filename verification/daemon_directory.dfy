/**
 * The daemon's start and close as the program writes them, over the files of one version directory. Run without
 * interference they are runs of the ownership protocol, step for step.
 */
module DaemonDirectory {
  import opened Wrappers
  import opened DaemonOwnership

  /** What the outside answers during one start: a ping per attempt, the liveness test, the self-probe. */
  datatype Answers = Answers(pings: nat -> Option<Owner>, lockAlive: bool, ownerAlive: bool, probe: bool, inode: nat)

  class VersionDirectory {
    var lock: Option<Id>
    var owner: Option<Owner>
    var socket: Option<Socket>
    var pidFile: Option<Id>
    var endpointFile: Option<Id>
    /** The protocol's view: where the run began, the steps taken, and how far each process is. */
    ghost const start: World
    ghost var run: Run
    ghost var procs: map<Id, Phase>

    ghost function Now(): World
      reads this
    {
      World(lock, owner, socket, pidFile, endpointFile, procs)
    }

    /** The files are what the protocol's run says they are. */
    ghost predicate Valid()
      reads this
    {
      Possible(start, run) && After(start, run) == Now()
    }

    constructor (lock: Option<Id>, owner: Option<Owner>, socket: Option<Socket>, pidFile: Option<Id>,
        endpointFile: Option<Id>, ghost procs: map<Id, Phase>)
      ensures Valid() && Now() == World(lock, owner, socket, pidFile, endpointFile, procs) && start == Now() &&
        run == Begin
    {
      this.lock, this.owner, this.socket, this.pidFile, this.endpointFile := lock, owner, socket, pidFile, endpointFile;
      this.procs, start, run := procs, World(lock, owner, socket, pidFile, endpointFile, procs), Begin;
    }

    /** The program has just done what one step of the protocol does. */
    ghost method Record(w: World, p: Id, a: Action)
      requires Possible(start, run) && After(start, run) == w && Can(w, p, a)
      requires var v := Do(w, p, a);
        lock == v.lock && owner == v.owner && socket == v.socket && pidFile == v.pidFile &&
          endpointFile == v.endpointFile
      modifies `run, `procs
      ensures Valid() && Now() == Do(w, p, a)
    {
      run := Then(run, p, a);
      procs := Do(w, p, a).procs;
    }

    /**
     * Two attempts to create the lock file, with a stale one reaped in between; a lock whose process lives ends the
     * start. For the protocol all of it is one step.
     */
    method TryAcquireLock(p: Id, alive: bool) returns (acquired: bool)
      requires Valid() && p in procs && procs[p] == Trying
      requires lock.Some? && Live(Now(), lock.value) ==> alive
      modifies `lock, `run, `procs
      ensures Valid() && acquired == !(old(lock).Some? && alive)
      ensures lock == if acquired then Some(p) else old(lock)
      ensures procs == old(procs)[p := if acquired then Reading(0) else Dead]
    {
      hide Possible, After;
      ghost var w := Now();
      var attempt := 0;
      while attempt < 2
        invariant attempt <= 1 && Possible(start, run) && After(start, run) == w
        invariant procs == old(procs) && lock == (if attempt == 0 then old(lock) else None)
        invariant attempt > 0 ==> old(lock).Some? && !alive
      {
        if lock.None? {
          lock := Some(p);
          Record(w, p, TryLock(alive));
          return true;
        }
        if alive {
          Record(w, p, TryLock(alive));
          return false;
        }
        lock := None;
        attempt := attempt + 1;
      }
      assert false;
    }

    /** `unlinkQuietly` on the socket path, by a clean-up or a closing daemon. */
    method UnlinkSocket(p: Id)
      requires Valid() && p in procs && Removing(procs[p], 0)
      modifies `socket, `run, `procs
      ensures Valid() && socket == None && procs == old(procs)[p := Removed(old(procs)[p])]
    {
      hide Possible, After;
      ghost var w := Now();
      socket := None;
      Record(w, p, Remove);
    }

    method UnlinkPid(p: Id)
      requires Valid() && p in procs && Removing(procs[p], 1)
      modifies `pidFile, `run, `procs
      ensures Valid() && pidFile == None && procs == old(procs)[p := Removed(old(procs)[p])]
    {
      hide Possible, After;
      ghost var w := Now();
      pidFile := None;
      Record(w, p, Remove);
    }

    method UnlinkEndpoint(p: Id)
      requires Valid() && p in procs && Removing(procs[p], 2)
      modifies `endpointFile, `run, `procs
      ensures Valid() && endpointFile == None && procs == old(procs)[p := Removed(old(procs)[p])]
    {
      hide Possible, After;
      ghost var w := Now();
      endpointFile := None;
      Record(w, p, Remove);
    }

    method UnlinkOwner(p: Id)
      requires Valid() && p in procs && Removing(procs[p], 3)
      modifies `owner, `run, `procs
      ensures Valid() && owner == None && procs == old(procs)[p := Removed(old(procs)[p])]
    {
      hide Possible, After;
      ghost var w := Now();
      owner := None;
      Record(w, p, Remove);
    }

    /** Removes the dead owner's socket, pid file, endpoint file and owner file, in this order. */
    method CleanupDeadOwner(p: Id, seen: Owner)
      requires Valid() && p in procs && procs[p] == Cleaning(seen, 0)
      modifies `owner, `socket, `pidFile, `endpointFile, `run, `procs
      ensures Valid() && Now() == World(old(lock), None, None, None, None, old(procs)[p := Leased])
    {
      hide Valid;
      UnlinkSocket(p);
      UnlinkPid(p);
      UnlinkEndpoint(p);
      UnlinkOwner(p);
    }

    /** One quiet step of the protocol, one that changes only how far the process is. */
    ghost method Note(p: Id, a: Action, next: Phase)
      requires Valid() && Can(Now(), p, a) && Do(Now(), p, a) == At(Now(), p, next)
      modifies `run, `procs
      ensures Valid() && procs == old(procs)[p := next]
    {
      Record(Now(), p, a);
    }

    /** Nobody answered: the owner is cleaned away unless its pid lives or its record or endpoint changed meanwhile. */
    method RemoveIfDead(p: Id, seen: Owner, alive: bool) returns (leased: bool)
      requires Valid() && p in procs && procs[p] == Suspecting(seen) && owner == Some(seen)
      requires Live(Now(), seen.id) ==> alive
      modifies `owner, `socket, `pidFile, `endpointFile, `run, `procs
      ensures Valid() && procs == old(procs)[p := if leased then Leased else Failing(false, 0)]
      ensures leased == (!alive && Identity(old(socket)) == seen.endpoint)
      ensures leased ==> owner.None? && socket.None?
      ensures !leased ==> socket == old(socket) && owner == old(owner)
    {
      hide Valid;
      Note(p, TestAlive(alive), if alive then Failing(false, 0) else Rereading(seen));
      if alive { return false; }
      var reread := owner;
      var endpoint := Identity(socket);
      leased := reread.Some? && reread.value.id == seen.id && endpoint == seen.endpoint;
      Note(p, Reread, if leased then Cleaning(seen, 0) else Failing(false, 0));
      if leased {
        CleanupDeadOwner(p, seen);
      }
    }

    /**
     * Two attempts to tell the recorded owner dead: an answering owner, a live pid, a changed record or a changed
     * endpoint each give up.
     */
    method ValidateExistingOwner(p: Id, answers: Answers) returns (leased: bool)
      requires Valid() && p in procs && procs[p] == Reading(0)
      requires owner.Some? && Live(Now(), owner.value.id) ==> answers.ownerAlive
      modifies this
      ensures Valid() && p in procs && procs == old(procs)[p := if leased then Leased else Failing(false, 0)] &&
        lock == old(lock)
      ensures leased == MayLease(old(owner), old(socket), answers)
      ensures leased ==> owner.None? && (old(owner).Some? ==> socket.None?)
      ensures old(owner).None? || !leased ==> socket == old(socket) && owner == old(owner)
    {
      hide Valid;
      ghost var before := procs;
      var attempt: nat := 0;
      while attempt < 2
        invariant attempt <= 2 && Valid() &&
          procs == before[p := if attempt < 2 then Reading(attempt) else Failing(false, 0)]
        invariant lock == old(lock) && owner == old(owner) && socket == old(socket)
        invariant attempt > 0 ==> owner.Some? && answers.pings(0) != None && answers.pings(0) != owner
        invariant attempt > 1 ==> answers.pings(1) != None && answers.pings(1) != owner
      {
        Note(p, ReadOwner, if owner.None? then Leased else Pinging(owner.value, attempt));
        if owner.None? { return true; }
        var seen := owner.value;
        var ping := answers.pings(attempt);
        Note(p, Ping(ping), AfterPing(seen, attempt, ping));
        if ping == Some(seen) { return false; }
        if ping.Some? {
          attempt := attempt + 1;
          continue;
        }
        leased := RemoveIfDead(p, seen, answers.ownerAlive);
        return;
      }
      return false;
    }

    /** Writes the pid file, the endpoint file and the owner file. */
    method WriteDaemonOwner(p: Id, mine: Owner)
      requires Valid() && p in procs && mine.id == p && procs[p] == Writing(mine.endpoint, 0)
      modifies `owner, `pidFile, `endpointFile, `run, `procs
      ensures Valid() && procs == old(procs)[p := Announced(mine.endpoint)]
      ensures owner == Some(mine) && pidFile == Some(p) && endpointFile == Some(p)
    {
      hide Possible, After;
      ghost var w := Now();
      pidFile := Some(p);
      Record(w, p, Write);
      w := Now();
      endpointFile := Some(p);
      Record(w, p, Write);
      w := Now();
      owner := Some(mine);
      Record(w, p, Write);
    }

    /**
     * Binds the socket, stats it, writes the three files, probes itself; any failure leaves the lock to be released.
     */
    method ListenAndAnnounce(p: Id, answers: Answers) returns (announced: bool)
      requires Valid() && p in procs && procs[p] == Leased
      modifies `owner, `socket, `pidFile, `endpointFile, `run, `procs
      ensures Valid() && p in procs && announced == (old(socket).None? && answers.probe)
      ensures if announced then procs[p].Probed? else procs[p].Failing?
    {
      announced := Bind(p, answers.inode);
      hide Valid;
      if !announced { return; }
      var endpoint := Identity(socket);
      Note(p, Stat, Writing(endpoint, 0));
      WriteDaemonOwner(p, Owner(p, endpoint));
      Note(p, Probe(answers.probe), if answers.probe then Probed(endpoint) else Failing(true, 3));
      announced := answers.probe;
    }

    /** Binding fails when something is at the path already. */
    method Bind(p: Id, inode: nat) returns (bound: bool)
      requires Valid() && p in procs && procs[p] == Leased
      modifies `socket, `run, `procs
      ensures Valid() && bound == old(socket).None? &&
        procs == old(procs)[p := if bound then Bound else Failing(false, 0)]
    {
      hide Possible, After;
      ghost var w := Now();
      bound := socket.None?;
      if bound {
        socket := Some(Socket(inode, p));
      }
      Record(w, p, Listen(inode));
    }

    /** Unlinks the lock file, after the probe or after an error. */
    method ReleaseLock(p: Id)
      requires Valid() && p in procs && (procs[p].Probed? || procs[p].Failing?)
      modifies `lock, `run, `procs
      ensures Valid() && lock.None? && p in procs
      ensures if old(procs)[p].Probed? then procs[p].Serving? else procs[p].Leaving?
    {
      hide Possible, After;
      ghost var w := Now();
      lock := None;
      Record(w, p, Release);
    }

    /** A whole start: it serves exactly when the lock, the validation, the socket and the probe all allow it. */
    method StartDaemon(p: Id, answers: Answers) returns (serving: bool)
      requires Valid() && p !in procs
      requires lock.Some? && Live(Now(), lock.value) ==> answers.lockAlive
      requires owner.Some? && Live(Now(), owner.value.id) ==> answers.ownerAlive
      requires (lock.Some? ==> lock.value != p) && (owner.Some? ==> owner.value.id != p)
      modifies this
      ensures Valid() && p in procs && (serving <==> procs[p].Serving?)
      ensures serving == (!(old(lock).Some? && answers.lockAlive) && MayLease(old(owner), old(socket), answers) &&
        (old(owner).None? ==> old(socket).None?) && answers.probe)
      ensures answers.pings(0).None? && !answers.lockAlive && !answers.ownerAlive && answers.probe ==>
        (serving <==> Recoverable(old(Now())))
      ensures procs[p].Serving? || procs[p].Leaving? || procs[p] == Dead
      ensures lock == if old(lock).Some? && answers.lockAlive then old(lock) else None
    {
      hide Possible, After;
      Record(Now(), p, Launch);
      var acquired := TryAcquireLock(p, answers.lockAlive);
      if !acquired { return false; }
      var leased := ValidateExistingOwner(p, answers);
      serving := false;
      if leased {
        serving := ListenAndAnnounce(p, answers);
      }
      ReleaseLock(p);
    }

    /** Closes the server and, if the owner file is still its own, removes the files, the owner file last. */
    method CloseDaemon(p: Id, mine: Owner)
      requires Valid() && p in procs && mine.id == p && procs[p] == Serving(mine.endpoint)
      modifies this
      ensures Valid() && procs == old(procs)[p := Withdrawn] && lock == old(lock) && socket == None
      ensures if old(owner) == Some(mine) then owner.None? && pidFile.None? && endpointFile.None?
        else owner == old(owner) && pidFile == old(pidFile) && endpointFile == old(endpointFile)
    {
      hide Possible, After;
      Record(Now(), p, Close);
      ghost var w := Now();
      socket := None;
      Record(w, p, CloseServer(true));
      RemoveMetadataForOwner(p, mine);
    }

    method RemoveMetadataForOwner(p: Id, mine: Owner)
      requires Valid() && p in procs && mine.id == p && procs[p] == Withdrawing(mine.endpoint, 0)
      modifies this
      ensures Valid() && procs == old(procs)[p := Withdrawn]
      ensures Now() == if old(owner) == Some(mine) then World(old(lock), None, None, None, None, procs)
        else World(old(lock), old(owner), old(socket), old(pidFile), old(endpointFile), procs)
    {
      hide Valid;
      var current := owner;
      Note(p, Recheck, if current == Some(mine) then Withdrawing(mine.endpoint, 1) else Withdrawn);
      if current != Some(mine) { return; }
      UnlinkSocket(p);
      UnlinkPid(p);
      UnlinkEndpoint(p);
      UnlinkOwner(p);
    }
  }

  /** A process about to remove the next of socket, pid file, endpoint file and owner file. */
  predicate Removing(phase: Phase, removed: nat) {
    (phase.Cleaning? && phase.removed == removed < 4) || (phase.Withdrawing? && phase.removed == removed + 1 <= 4)
  }

  function Removed(phase: Phase): Phase
    requires phase.Cleaning? || phase.Withdrawing?
  {
    match phase
    case Cleaning(seen, removed) => if removed < 3 then Cleaning(seen, removed + 1) else Leased
    case Withdrawing(endpoint, removed) => if removed < 4 then Withdrawing(endpoint, removed + 1) else Withdrawn
  }

  /** When the two attempts end in a lease. */
  predicate MayLease(owner: Option<Owner>, socket: Option<Socket>, answers: Answers) {
    owner.None? ||
    ((answers.pings(0).None? || (answers.pings(0) != owner && answers.pings(1).None?)) &&
     !answers.ownerAlive && Identity(socket) == owner.value.endpoint)
  }
}
