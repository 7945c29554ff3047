/** Daemon processes racing to own one version directory through a lock, an owner file, a ping and a liveness test. */
module DaemonOwnership {
  import opened Wrappers

  /** One process: stands for its pid and for the nonce it writes. A reused pid shows up as a wrong liveness answer. */
  type Id = nat

  /** What a stat of the socket path yields. A file's inode may repeat an earlier one. */
  datatype Endpoint = Missing | Unix(inode: nat)

  datatype Owner = Owner(id: Id, endpoint: Endpoint)

  /** The socket file and the process that listens, or listened, on it. */
  datatype Socket = Socket(inode: nat, listener: Id)

  /** How far a process is; `written` counts the metadata files it wrote: pid, endpoint, owner. */
  datatype Phase =
    | Trying
    | Reading(attempt: nat)
    | Pinging(seen: Owner, attempt: nat)
    | Suspecting(seen: Owner)
    | Rereading(seen: Owner)
    | Cleaning(seen: Owner, removed: nat)
    | Leased
    | Bound
    | Writing(endpoint: Endpoint, written: nat)
    | Announced(endpoint: Endpoint)
    | Probed(endpoint: Endpoint)
    | Failing(bound: bool, written: nat)
    | Leaving(bound: bool, written: nat)
    | Serving(endpoint: Endpoint)
    | Closing(endpoint: Endpoint)
    | Withdrawing(endpoint: Endpoint, removed: nat)
    | Withdrawn
    | Dead

  /** The directory's files and every process started so far. */
  datatype World = World(
    lock: Option<Id>,
    owner: Option<Owner>,
    socket: Option<Socket>,
    pidFile: Option<Id>,
    endpointFile: Option<Id>,
    procs: map<Id, Phase>)

  const Fresh := World(None, None, None, None, None, map[])

  /** A step of one process; the arguments are what the outside world answers. */
  datatype Action =
    | Launch
    | TryLock(alive: bool)
    | ReadOwner
    | Ping(answer: Option<Owner>)
    | TestAlive(alive: bool)
    | Reread
    | Remove
    | Listen(inode: nat)
    | Stat
    | Write
    | Probe(ok: bool)
    | Throw
    | Release
    | Leave(unlinks: bool)
    | Close
    | CloseServer(unlinks: bool)
    | Recheck
    | Crash

  function Identity(socket: Option<Socket>): Endpoint {
    if socket.Some? then Unix(socket.value.inode) else Missing
  }

  predicate Live(w: World, p: Id) { p in w.procs && w.procs[p] != Dead }

  /** Phases in which a thrown error releases the lock: everything from holding it to the last probe. */
  predicate HoldsLock(phase: Phase) {
    phase.Reading? || phase.Pinging? || phase.Suspecting? || phase.Rereading? || phase.Cleaning? || phase.Leased? ||
    phase.Bound? || phase.Writing? || phase.Announced? || phase.Probed? || phase.Failing?
  }

  /** What a thrown error finds already done. */
  function Fail(phase: Phase): Phase {
    match phase
    case Bound => Failing(true, 0)
    case Writing(_, written) => Failing(true, written)
    case Announced(_) => Failing(true, 3)
    case Failing(bound, written) => Failing(bound, written)
    case _ => Failing(false, 0)
  }

  // ---- The steps -------------------------------------------------------------------------------

  /** Which steps a process can take; a liveness test never calls a live process dead. */
  predicate Allowed(w: World, phase: Phase, a: Action) {
    match a
    case Launch => false
    case TryLock(alive) => phase.Trying? && (w.lock.Some? && Live(w, w.lock.value) ==> alive)
    case ReadOwner => phase.Reading?
    case Ping(_) => phase.Pinging?
    case TestAlive(alive) => phase.Suspecting? && (Live(w, phase.seen.id) ==> alive)
    case Reread => phase.Rereading?
    case Remove => (phase.Cleaning? && phase.removed < 4) || (phase.Withdrawing? && 1 <= phase.removed < 5)
    case Listen(_) => phase.Leased?
    case Stat => phase.Bound?
    case Write => phase.Writing? && phase.written < 3
    case Probe(_) => phase.Announced?
    case Throw => HoldsLock(phase) && !phase.Probed?
    case Release => phase.Probed? || phase.Failing?
    case Leave(_) => phase.Leaving?
    case Close => phase.Serving?
    case CloseServer(_) => phase.Closing?
    case Recheck => phase.Withdrawing? && phase.removed == 0
    case Crash => phase != Dead
  }

  function At(w: World, p: Id, phase: Phase): World { w.(procs := w.procs[p := phase]) }

  /** After a ping: the owner answered, someone else answered, or nobody did. */
  function AfterPing(seen: Owner, attempt: nat, answer: Option<Owner>): Phase {
    if answer == Some(seen) then Failing(false, 0)
    else if answer.None? then Suspecting(seen)
    else if attempt + 1 < 2 then Reading(attempt + 1)
    else Failing(false, 0)
  }

  /**
   * The clean-up removes the socket at the dead owner's path, its pid file, its endpoint file and the owner file
   * last.
   */
  function AfterCleaning(w: World, p: Id, seen: Owner, removed: nat): World {
    match removed
    case 0 => At(w.(socket := None), p, Cleaning(seen, 1))
    case 1 => At(w.(pidFile := None), p, Cleaning(seen, 2))
    case 2 => At(w.(endpointFile := None), p, Cleaning(seen, 3))
    case _ => At(w.(owner := None), p, Leased)
  }

  /** A closing daemon removes the same files in the same order. */
  function AfterWithdrawing(w: World, p: Id, endpoint: Endpoint, removed: nat): World {
    match removed
    case 1 => At(w.(socket := None), p, Withdrawing(endpoint, 2))
    case 2 => At(w.(pidFile := None), p, Withdrawing(endpoint, 3))
    case 3 => At(w.(endpointFile := None), p, Withdrawing(endpoint, 4))
    case _ => At(w.(owner := None), p, Withdrawn)
  }

  function AfterWriting(w: World, p: Id, endpoint: Endpoint, written: nat): World {
    match written
    case 0 => At(w.(pidFile := Some(p)), p, Writing(endpoint, 1))
    case 1 => At(w.(endpointFile := Some(p)), p, Writing(endpoint, 2))
    case _ => At(w.(owner := Some(Owner(p, endpoint))), p, Announced(endpoint))
  }

  /** One step of a process that has been launched. */
  function Advance(w: World, p: Id, phase: Phase, a: Action): World
    requires Allowed(w, phase, a)
  {
    match a
    case TryLock(alive) =>
      if w.lock.Some? && alive then At(w, p, Dead) else At(w.(lock := Some(p)), p, Reading(0))
    case ReadOwner =>
      At(w, p,
        if w.owner.None? then Leased
        else if phase.attempt < 2 then Pinging(w.owner.value, phase.attempt)
        else Failing(false, 0))
    case Ping(answer) => At(w, p, AfterPing(phase.seen, phase.attempt, answer))
    case TestAlive(alive) => At(w, p, if alive then Failing(false, 0) else Rereading(phase.seen))
    case Reread =>
      var same := w.owner.Some? && w.owner.value.id == phase.seen.id && Identity(w.socket) == phase.seen.endpoint;
      At(w, p, if same then Cleaning(phase.seen, 0) else Failing(false, 0))
    case Remove =>
      if phase.Cleaning? then AfterCleaning(w, p, phase.seen, phase.removed)
      else AfterWithdrawing(w, p, phase.endpoint, phase.removed)
    case Listen(inode) =>
      if w.socket.Some? then At(w, p, Failing(false, 0)) else At(w.(socket := Some(Socket(inode, p))), p, Bound)
    case Stat => At(w, p, Writing(Identity(w.socket), 0))
    case Write => AfterWriting(w, p, phase.endpoint, phase.written)
    case Probe(ok) => At(w, p, if ok then Probed(phase.endpoint) else Failing(true, 3))
    case Throw => At(w, p, Fail(phase))
    case Release =>
      At(w.(lock := None), p, if phase.Probed? then Serving(phase.endpoint) else Leaving(phase.bound, phase.written))
    case Leave(unlinks) => At(if phase.bound && unlinks then w.(socket := None) else w, p, Dead)
    case Close => At(w, p, Closing(phase.endpoint))
    case CloseServer(unlinks) => At(if unlinks then w.(socket := None) else w, p, Withdrawing(phase.endpoint, 0))
    case Recheck => At(w, p,
      if w.owner == Some(Owner(p, phase.endpoint)) then Withdrawing(phase.endpoint, 1) else Withdrawn)
    case Crash => At(w, p, Dead)
  }

  predicate Can(w: World, p: Id, a: Action) {
    if p in w.procs then Allowed(w, w.procs[p], a) else a == Launch
  }

  function Do(w: World, p: Id, a: Action): World
    requires Can(w, p, a)
  {
    if p in w.procs then Advance(w, p, w.procs[p], a) else At(w, p, Trying)
  }

  // ---- Runs ------------------------------------------------------------------------------------

  /** Every step taken so far by any process, oldest innermost. */
  datatype Run = Begin | Then(before: Run, id: Id, action: Action)

  predicate Possible(start: World, run: Run)
    decreases run, 0
  {
    match run
    case Begin => true
    case Then(before, p, a) => Possible(start, before) && Can(After(start, before), p, a)
  }

  function After(start: World, run: Run): World
    requires Possible(start, run)
    decreases run, 1
  {
    match run
    case Begin => start
    case Then(before, p, a) => Do(After(start, before), p, a)
  }

  // ---- The invariant ---------------------------------------------------------------------------

  predicate Mine(w: World, p: Id) { w.socket.Some? && w.socket.value.listener == p }

  /** The files a process has written are there and name it. */
  predicate Filed(w: World, p: Id, written: nat) {
    (written >= 1 ==> w.pidFile == Some(p)) && (written >= 2 ==> w.endpointFile == Some(p)) &&
    (written >= 3 ==> w.owner.Some? && w.owner.value.id == p)
  }

  predicate Published(w: World, p: Id, endpoint: Endpoint) {
    w.owner == Some(Owner(p, endpoint)) && w.pidFile == Some(p) && w.endpointFile == Some(p)
  }

  /** A start that threw: its socket, if bound, is still in place, and no owner file is there unless it wrote one. */
  predicate Abandoned(w: World, p: Id, bound: bool, written: nat) {
    written <= 3 && (written > 0 ==> bound) &&
    (bound ==> Mine(w, p) && Filed(w, p, written)) &&
    (bound ==> w.owner == if written < 3 then None else Some(Owner(p, Identity(w.socket))))
  }

  /** The owner file is the one that was read, or its owner has withdrawn it since. */
  predicate StillSeen(w: World, seen: Owner) {
    (w.owner == Some(seen) || w.owner.None?) && seen.id in w.procs
  }

  /** The owner file is the one that was read, and its owner is gone; its socket goes first. */
  predicate Orphaned(w: World, seen: Owner, removed: nat) {
    w.owner == Some(seen) && seen.id in w.procs && w.procs[seen.id] == Dead &&
    Identity(w.socket) == if removed == 0 then seen.endpoint else Missing
  }

  /** What a process in some phase relies on. */
  predicate Fits(w: World, p: Id, phase: Phase) {
    match phase
    case Trying => true
    case Reading(_) => w.lock == Some(p)
    case Pinging(seen, attempt) => w.lock == Some(p) && StillSeen(w, seen)
    case Suspecting(seen) => w.lock == Some(p) && StillSeen(w, seen)
    case Rereading(seen) => w.lock == Some(p) && StillSeen(w, seen) && w.procs[seen.id] == Dead
    case Cleaning(seen, removed) => w.lock == Some(p) && Orphaned(w, seen, removed) && removed < 4
    case Leased => w.lock == Some(p) && w.owner.None?
    case Bound => w.lock == Some(p) && w.owner.None? && Mine(w, p)
    case Writing(endpoint, written) =>
      w.lock == Some(p) && w.owner.None? && Mine(w, p) && Identity(w.socket) == endpoint && written < 3 &&
        Filed(w, p, written)
    case Announced(endpoint) => w.lock == Some(p) && Mine(w, p) && Identity(w.socket) == endpoint &&
      Published(w, p, endpoint)
    case Probed(endpoint) => w.lock == Some(p) && Mine(w, p) && Identity(w.socket) == endpoint &&
      Published(w, p, endpoint)
    case Failing(bound, written) => w.lock == Some(p) && Abandoned(w, p, bound, written)
    case Leaving(bound, written) => Abandoned(w, p, bound, written)
    case Serving(endpoint) => Mine(w, p) && Identity(w.socket) == endpoint && Published(w, p, endpoint)
    case Closing(endpoint) => Mine(w, p) && Identity(w.socket) == endpoint && Published(w, p, endpoint)
    case Withdrawing(endpoint, removed) =>
      removed < 5 && w.owner == Some(Owner(p, endpoint)) && Identity(w.socket) in {endpoint, Missing} &&
        (removed <= 2 ==> w.pidFile == Some(p)) &&
      (removed <= 3 ==> w.endpointFile == Some(p))
    case Withdrawn => true
    case Dead => true
  }

  ghost predicate Sound(w: World) {
    && (w.owner.Some? ==> w.owner.value.id in w.procs && w.owner.value.endpoint != Missing)
    && (forall p :: p in w.procs ==> Fits(w, p, w.procs[p]))
  }

  /** A process changing its own phase disturbs nobody; the dead stay dead. */
  lemma {:induction false} PhaseChangeFits(w: World, p: Id, phase: Phase, q: Id)
    requires p in w.procs ==> w.procs[p] != Dead
    requires p != q && q in w.procs && Fits(w, q, w.procs[q])
    ensures Fits(At(w, p, phase), q, w.procs[q])
  {
  }

  lemma {:induction false} LockStepFits(w: World, p: Id, a: Action, q: Id)
    requires Can(w, p, a) && (a.TryLock? || a.Release?)
    requires p in w.procs && Fits(w, p, w.procs[p])
    requires p != q && q in w.procs && Fits(w, q, w.procs[q])
    ensures Fits(Do(w, p, a), q, w.procs[q])
  {
    PhaseChangeFits(w, p, Do(w, p, a).procs[p], q);
  }

  lemma {:induction false} SocketStepFits(w: World, p: Id, a: Action, q: Id)
    requires Can(w, p, a) && (a.Listen? || a.Leave? || a.CloseServer?)
    requires p in w.procs && Fits(w, p, w.procs[p])
    requires p != q && q in w.procs && Fits(w, q, w.procs[q])
    ensures Fits(Do(w, p, a), q, w.procs[q])
  {
    PhaseChangeFits(w, p, Do(w, p, a).procs[p], q);
  }

  lemma {:induction false} WriteFits(w: World, p: Id, q: Id)
    requires Can(w, p, Write)
    requires p in w.procs && Fits(w, p, w.procs[p])
    requires p != q && q in w.procs && Fits(w, q, w.procs[q])
    ensures Fits(Do(w, p, Write), q, w.procs[q])
  {
    PhaseChangeFits(w, p, Do(w, p, Write).procs[p], q);
  }

  lemma {:induction false} CleaningFits(w: World, p: Id, q: Id)
    requires Can(w, p, Remove) && w.procs[p].Cleaning?
    requires p in w.procs && Fits(w, p, w.procs[p])
    requires p != q && q in w.procs && Fits(w, q, w.procs[q])
    ensures Fits(Do(w, p, Remove), q, w.procs[q])
  {
    PhaseChangeFits(w, p, Do(w, p, Remove).procs[p], q);
  }

  lemma {:induction false} WithdrawingFits(w: World, p: Id, q: Id)
    requires Can(w, p, Remove) && w.procs[p].Withdrawing?
    requires p in w.procs && Fits(w, p, w.procs[p])
    requires p != q && q in w.procs && Fits(w, q, w.procs[q])
    ensures Fits(Do(w, p, Remove), q, w.procs[q])
  {
    PhaseChangeFits(w, p, Do(w, p, Remove).procs[p], q);
  }

  /** A step leaves every other process with what it relies on. */
  lemma {:induction false} OthersFit(w: World, p: Id, a: Action, q: Id)
    requires Can(w, p, a) && p != q && q in w.procs
    requires p in w.procs ==> Fits(w, p, w.procs[p])
    requires Fits(w, q, w.procs[q])
    ensures Fits(Do(w, p, a), q, w.procs[q])
  {
    hide Fits;
    if a.TryLock? || a.Release? {
      LockStepFits(w, p, a, q);
    } else if a.Listen? || a.Leave? || a.CloseServer? {
      SocketStepFits(w, p, a, q);
    } else if a.Write? {
      WriteFits(w, p, q);
    } else if a.Remove? && w.procs[p].Cleaning? {
      CleaningFits(w, p, q);
    } else if a.Remove? {
      WithdrawingFits(w, p, q);
    } else {
      PhaseChangeFits(w, p, Do(w, p, a).procs[p], q);
    }
  }

  lemma {:induction false} StartupMoverFits(w: World, p: Id, a: Action)
    requires Can(w, p, a) &&
      (a.Launch? || a.TryLock? || a.ReadOwner? || a.Ping? || a.TestAlive? || a.Reread? || a.Listen? || a.Stat?)
    requires p in w.procs ==> Fits(w, p, w.procs[p])
    requires w.owner.Some? ==> w.owner.value.id in w.procs
    ensures Fits(Do(w, p, a), p, Do(w, p, a).procs[p])
  {
  }

  lemma {:induction false} FileMoverFits(w: World, p: Id, a: Action)
    requires Can(w, p, a) && (a.Remove? || a.Write? || a.Probe?)
    requires p in w.procs ==> Fits(w, p, w.procs[p])
    ensures Fits(Do(w, p, a), p, Do(w, p, a).procs[p])
  {
  }

  lemma {:induction false} EndMoverFits(w: World, p: Id, a: Action)
    requires Can(w, p, a) &&
      (a.Throw? || a.Release? || a.Leave? || a.Close? || a.CloseServer? || a.Recheck? || a.Crash?)
    requires p in w.procs ==> Fits(w, p, w.procs[p])
    ensures Fits(Do(w, p, a), p, Do(w, p, a).procs[p])
  {
  }

  /** The owner file names a process that was launched and a socket that was there. */
  lemma {:induction false} OwnerIsKnown(w: World, p: Id, a: Action)
    requires Sound(w) && Can(w, p, a)
    ensures var v := Do(w, p, a); v.owner.Some? ==> v.owner.value.id in v.procs && v.owner.value.endpoint != Missing
  {
    if a.Write? {
      assert Fits(w, p, w.procs[p]);
    }
  }

  /** Every step keeps the invariant. */
  lemma {:induction false} StepIsSound(w: World, p: Id, a: Action)
    requires Sound(w) && Can(w, p, a)
    ensures Sound(Do(w, p, a))
  {
    OwnerIsKnown(w, p, a);
    hide Fits;
    var v := Do(w, p, a);
    forall q | q in v.procs ensures Fits(v, q, v.procs[q]) {
      if q != p {
        OthersFit(w, p, a, q);
      } else if a.Remove? || a.Write? || a.Probe? {
        FileMoverFits(w, p, a);
      } else if a.Throw? || a.Release? || a.Leave? || a.Close? || a.CloseServer? || a.Recheck? || a.Crash? {
        EndMoverFits(w, p, a);
      } else {
        StartupMoverFits(w, p, a);
      }
    }
  }

  lemma {:induction false} RunIsSound(start: World, run: Run)
    requires Sound(start) && Possible(start, run)
    ensures Sound(After(start, run))
  {
    hide Fits, Do, Can;
    match run
    case Begin =>
    case Then(before, p, a) =>
      RunIsSound(start, before);
      StepIsSound(After(start, before), p, a);
  }

  // ---- One owner per version directory -----------------------------------------------------------

  /** Past the validation of the previous owner and not yet done with its own owner file. */
  predicate Established(phase: Phase) {
    phase.Cleaning? || phase.Leased? || phase.Bound? || phase.Writing? || phase.Announced? || phase.Probed? ||
    phase.Serving? || phase.Closing? || phase.Withdrawing?
  }

  /** Its owner file is in the directory. */
  predicate Owning(phase: Phase) {
    phase.Announced? || phase.Probed? || phase.Serving? || phase.Closing? || phase.Withdrawing?
  }

  /** In every run, at most one process is between validating its predecessor and withdrawing its own owner file. */
  lemma {:induction false} AtMostOneEstablished(run: Run, p: Id, q: Id)
    requires Possible(Fresh, run)
    requires p in After(Fresh, run).procs && Established(After(Fresh, run).procs[p])
    requires q in After(Fresh, run).procs && Established(After(Fresh, run).procs[q])
    ensures p == q
  {
    hide Possible, After;
    RunIsSound(Fresh, run);
    var w := After(Fresh, run);
    assert Fits(w, p, w.procs[p]) && Fits(w, q, w.procs[q]);
  }

  /** While a daemon's owner file is there, nobody else changes any file of the directory except the lock. */
  lemma {:induction false} OwnersFilesAreSafe(run: Run, p: Id, q: Id, a: Action)
    requires Possible(Fresh, run)
    requires p in After(Fresh, run).procs && Owning(After(Fresh, run).procs[p])
    requires p != q && Can(After(Fresh, run), q, a)
    ensures var w, v := After(Fresh, run), Do(After(Fresh, run), q, a);
      v.owner == w.owner && v.socket == w.socket && v.pidFile == w.pidFile && v.endpointFile == w.endpointFile
  {
    hide Possible, After;
    RunIsSound(Fresh, run);
    var w := After(Fresh, run);
    assert Fits(w, p, w.procs[p]);
    assert q in w.procs ==> Fits(w, q, w.procs[q]);
  }

  /** A serving daemon is fully announced, and when it closes the owner file is still the one it wrote. */
  lemma {:induction false} ServingIsAnnounced(run: Run, p: Id)
    requires Possible(Fresh, run)
    requires p in After(Fresh, run).procs
    ensures var w := After(Fresh, run);
      match w.procs[p] {
        case Serving(endpoint) => Mine(w, p) && endpoint == Identity(w.socket) && Published(w, p, endpoint)
        case Withdrawing(endpoint, _) => w.owner == Some(Owner(p, endpoint))
        case _ => true
      }
  {
    hide Possible, After;
    RunIsSound(Fresh, run);
  }

  /** Only its holder touches the lock while the holder lives. */
  lemma {:induction false} LiveLockIsSafe(run: Run, p: Id, q: Id, a: Action)
    requires Possible(Fresh, run)
    requires p in After(Fresh, run).procs && HoldsLock(After(Fresh, run).procs[p])
    requires p != q && Can(After(Fresh, run), q, a)
    ensures After(Fresh, run).lock == Some(p) && Do(After(Fresh, run), q, a).lock == Some(p)
  {
    hide Possible, After;
    RunIsSound(Fresh, run);
    var w := After(Fresh, run);
    assert Fits(w, p, w.procs[p]);
    assert q in w.procs ==> Fits(w, q, w.procs[q]);
  }

  // ---- Directories that can and cannot be taken over ----------------------------------------------

  ghost predicate Deserted(w: World) {
    forall p :: p in w.procs ==> w.procs[p] == Dead
  }

  /** Nothing left behind, or an owner file whose endpoint is exactly what the socket path still holds. */
  predicate Recoverable(w: World) {
    if w.owner.None? then w.socket.None? else w.owner.value.endpoint == Identity(w.socket)
  }

  ghost predicate SomeoneServes(w: World) {
    exists p :: p in w.procs && w.procs[p].Serving?
  }

  /** Phases a start reaches before it changes anything but the lock. */
  predicate Early(w: World, phase: Phase) {
    match phase
    case Trying => true
    case Reading(_) => true
    case Pinging(seen, _) => w.owner == Some(seen)
    case Suspecting(seen) => w.owner == Some(seen)
    case Rereading(seen) => w.owner == Some(seen)
    case Leased => w.owner.None?
    case Failing(bound, _) => !bound
    case Leaving(bound, _) => !bound
    case Dead => true
    case _ => false
  }

  ghost predicate Wedged(w: World) {
    !Recoverable(w) && forall p :: p in w.procs ==> Early(w, w.procs[p])
  }

  /** In a directory that is not recoverable an early process touches neither owner file nor socket and stays early. */
  lemma {:induction false} EarlyStaysEarly(w: World, p: Id, a: Action)
    requires !Recoverable(w) && Can(w, p, a) && (p in w.procs ==> Early(w, w.procs[p]))
    ensures Do(w, p, a).owner == w.owner && Do(w, p, a).socket == w.socket && Early(w, Do(w, p, a).procs[p])
  {
    if a.Launch? || a.TryLock? || a.ReadOwner? || a.Ping? || a.TestAlive? {
      FirstStepsStayEarly(w, p, a);
    }
  }

  lemma {:induction false} FirstStepsStayEarly(w: World, p: Id, a: Action)
    requires a.Launch? || a.TryLock? || a.ReadOwner? || a.Ping? || a.TestAlive?
    requires Can(w, p, a) && (p in w.procs ==> Early(w, w.procs[p]))
    ensures Do(w, p, a).owner == w.owner && Do(w, p, a).socket == w.socket && Early(w, Do(w, p, a).procs[p])
  {
  }

  /** Being early depends on the owner file only. */
  lemma {:induction false} EarlyReadsOwner(w: World, v: World, phase: Phase)
    requires v.owner == w.owner
    ensures Early(v, phase) == Early(w, phase)
  {
  }

  lemma {:induction false} StepStaysWedged(w: World, p: Id, a: Action)
    requires Wedged(w) && Can(w, p, a)
    ensures Wedged(Do(w, p, a))
  {
    EarlyStaysEarly(w, p, a);
    hide Early;
    var v := Do(w, p, a);
    forall q | q in v.procs ensures Early(v, v.procs[q]) {
      assert q != p ==> q in w.procs && v.procs[q] == w.procs[q] && Early(w, w.procs[q]);
      EarlyReadsOwner(w, v, v.procs[q]);
    }
  }

  lemma {:induction false} RunStaysWedged(w: World, run: Run)
    requires Wedged(w) && Possible(w, run)
    ensures Wedged(After(w, run))
  {
    hide Wedged, Do, Can;
    match run
    case Begin =>
    case Then(before, p, a) =>
      RunStaysWedged(w, before);
      StepStaysWedged(After(w, before), p, a);
  }

  lemma {:induction false} UnusedId(used: set<Id>) returns (id: Id)
    ensures forall u :: u in used ==> u < id
  {
    if used == {} {
      id := 0;
    } else {
      var u :| u in used;
      var above := UnusedId(used - {u});
      id := if above > u then above else u + 1;
      forall v | v in used ensures v < id {
        assert v != u ==> v in used - {u};
      }
    }
  }

  /** The run with one more step of process p. */
  lemma {:induction false} More(w: World, run: Run, p: Id, a: Action) returns (longer: Run)
    requires Possible(w, run) && Can(After(w, run), p, a)
    ensures Possible(w, longer) && After(w, longer) == Do(After(w, run), p, a)
  {
    longer := Then(run, p, a);
  }

  /** A leased process with a free socket path and no failing call has announced itself five steps later. */
  lemma {:induction false} LeaseToAnnounced(w: World, run: Run, p: Id) returns (longer: Run)
    requires Possible(w, run) && p in After(w, run).procs && After(w, run).procs[p].Leased? &&
      After(w, run).socket.None?
    ensures Possible(w, longer) && After(w, longer).procs == After(w, run).procs[p := Announced(Unix(0))]
    ensures After(w, longer).owner == Some(Owner(p, Unix(0))) && After(w, longer).socket == Some(Socket(0, p))
  {
    hide Possible, After;
    longer := More(w, run, p, Listen(0));
    longer := More(w, longer, p, Stat);
    longer := More(w, longer, p, Write);
    longer := More(w, longer, p, Write);
    longer := More(w, longer, p, Write);
  }

  /** And serves two steps later, if its probe is answered. */
  lemma {:induction false} LeaseToService(w: World, run: Run, p: Id) returns (longer: Run)
    requires Possible(w, run) && p in After(w, run).procs && After(w, run).procs[p].Leased? &&
      After(w, run).socket.None?
    ensures Possible(w, longer) && After(w, longer).procs == After(w, run).procs[p := Serving(Unix(0))]
    ensures After(w, longer).owner == Some(Owner(p, Unix(0))) && After(w, longer).socket == Some(Socket(0, p))
  {
    hide Possible, After;
    longer := LeaseToAnnounced(w, run, p);
    longer := More(w, longer, p, Probe(true));
    longer := More(w, longer, p, Release);
  }

  /** A process that finds a deserted, recoverable directory gets its lease, and the socket path is free then. */
  lemma {:induction false} DesertedToLease(w: World, p: Id) returns (run: Run)
    requires Deserted(w) && Recoverable(w) && p !in w.procs
    requires w.lock != Some(p) && (w.owner.Some? ==> w.owner.value.id != p)
    ensures Possible(w, run) && p in After(w, run).procs && After(w, run).procs[p].Leased? && After(w, run).socket.None?
  {
    run := More(w, Begin, p, Launch);
    hide Possible, After;
    run := More(w, run, p, TryLock(false));
    run := More(w, run, p, ReadOwner);
    if w.owner.Some? {
      run := More(w, run, p, Ping(None));
      run := More(w, run, p, TestAlive(false));
      run := More(w, run, p, Reread);
      run := More(w, run, p, Remove);
      run := More(w, run, p, Remove);
      run := More(w, run, p, Remove);
      run := More(w, run, p, Remove);
    }
  }

  /**
   * From a deserted directory a daemon can come to serve exactly when the directory is recoverable. So a crash between
   * binding the socket and writing the owner file, or one after the socket went away and before the owner file did,
   * shuts every later daemon out for good.
   */
  lemma {:induction false} ServiceIffRecoverable(w: World)
    requires Deserted(w)
    ensures Recoverable(w) <==> exists run :: Possible(w, run) && SomeoneServes(After(w, run))
  {
    hide Possible, After;
    if Recoverable(w) {
      var p := UnusedId(w.procs.Keys + (if w.lock.Some? then {w.lock.value} else {}) +
        (if w.owner.Some? then {w.owner.value.id} else {}));
      var run := DesertedToLease(w, p);
      run := LeaseToService(w, run, p);
      assert p in After(w, run).procs && After(w, run).procs[p].Serving?;
    } else {
      forall run | Possible(w, run) ensures !SomeoneServes(After(w, run)) {
        RunStaysWedged(w, run);
      }
    }
  }

  /** What a crash of the one established process leaves behind, phase by phase. */
  lemma {:induction false} CrashPoints(run: Run, p: Id)
    requires Possible(Fresh, run)
    requires p in After(Fresh, run).procs && Established(After(Fresh, run).procs[p])
    ensures var w := After(Fresh, run);
      Recoverable(Do(w, p, Crash)) <==>
        match w.procs[p] {
          case Cleaning(_, removed) => removed == 0
          case Leased => w.socket.None?
          case Bound => false
          case Writing(_, _) => false
          case Withdrawing(_, _) => w.socket.Some?
          case _ => true
        }
  {
    hide Possible, After;
    RunIsSound(Fresh, run);
    var w := After(Fresh, run);
    assert Fits(w, p, w.procs[p]);
  }

  /**
   * What a start that threw leaves behind when its process ends, or crashes on the way. Before it binds the socket it
   * changes nothing. After that, the directory can be taken over exactly when the process leaves both the socket and
   * the owner file, or neither.
   */
  lemma {:induction false} FailedStarts(run: Run, p: Id, unlinks: bool)
    requires Possible(Fresh, run) && p in After(Fresh, run).procs
    requires var phase := After(Fresh, run).procs[p]; phase.Failing? || phase.Leaving?
    ensures var w := After(Fresh, run);
      var phase := w.procs[p];
      && (phase.Leaving? ==> (Recoverable(Do(w, p, Leave(unlinks))) <==>
          if phase.bound then unlinks == (phase.written < 3) else Recoverable(w)))
      && (Recoverable(Do(w, p, Crash)) <==> if phase.bound then phase.written == 3 else Recoverable(w))
  {
    hide Possible, After;
    RunIsSound(Fresh, run);
    var w := After(Fresh, run);
    assert Fits(w, p, w.procs[p]);
  }

  /**
   * The failing case in full: a daemon that binds its socket and crashes before writing the owner file leaves a
   * directory in which no daemon ever serves again.
   */
  lemma {:induction false} CrashCanWedge() returns (run: Run)
    ensures Possible(Fresh, run) && Deserted(After(Fresh, run)) && !Recoverable(After(Fresh, run))
    ensures forall more :: Possible(After(Fresh, run), more) ==> !SomeoneServes(After(After(Fresh, run), more))
  {
    run := More(Fresh, Begin, 0, Launch);
    assert After(Fresh, Begin) == Fresh;
    hide Possible, After;
    run := More(Fresh, run, 0, TryLock(false));
    run := More(Fresh, run, 0, ReadOwner);
    run := More(Fresh, run, 0, Listen(7));
    run := More(Fresh, run, 0, Crash);
    ServiceIffRecoverable(After(Fresh, run));
  }

  /** And another: one that closes, and crashes once its socket is gone but its owner file is not. */
  lemma {:induction false} CrashWhileClosingCanWedge() returns (run: Run)
    ensures Possible(Fresh, run) && Deserted(After(Fresh, run)) && !Recoverable(After(Fresh, run))
    ensures forall more :: Possible(After(Fresh, run), more) ==> !SomeoneServes(After(After(Fresh, run), more))
  {
    run := More(Fresh, Begin, 0, Launch);
    assert After(Fresh, Begin) == Fresh;
    hide Possible, After;
    run := More(Fresh, run, 0, TryLock(false));
    run := More(Fresh, run, 0, ReadOwner);
    run := LeaseToService(Fresh, run, 0);
    run := More(Fresh, run, 0, Close);
    run := More(Fresh, run, 0, CloseServer(true));
    run := More(Fresh, run, 0, Crash);
    ServiceIffRecoverable(After(Fresh, run));
  }

  /** And one without a crash: a start whose self-probe fails and whose socket goes away with its process. */
  lemma {:induction false} FailedProbeCanWedge() returns (run: Run)
    ensures Possible(Fresh, run) && Deserted(After(Fresh, run)) && !Recoverable(After(Fresh, run))
    ensures forall more :: Possible(After(Fresh, run), more) ==> !SomeoneServes(After(After(Fresh, run), more))
  {
    run := More(Fresh, Begin, 0, Launch);
    assert After(Fresh, Begin) == Fresh;
    hide Possible, After;
    run := More(Fresh, run, 0, TryLock(false));
    run := More(Fresh, run, 0, ReadOwner);
    run := LeaseToAnnounced(Fresh, run, 0);
    run := More(Fresh, run, 0, Probe(false));
    run := More(Fresh, run, 0, Release);
    run := More(Fresh, run, 0, Leave(true));
    ServiceIffRecoverable(After(Fresh, run));
  }
}
