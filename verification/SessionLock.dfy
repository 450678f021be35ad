/** The session lock (internal/session/session.go): a file created exclusively, removed on release.
    The machine below interleaves the file operations of any number of clients. */
module SessionLock {

  // ----- The lock object

  /** The lock path: the identity of the file that stands there, if any. */
  class LockPath {
    var file: nat   // 0: no file
    var created: nat

    constructor ()
      ensures file == 0 && created == 0
    {
      file, created := 0, 0;
    }

    /** `os.OpenFile` with O_CREATE|O_EXCL: fails if a file is there. */
    method CreateExclusive() returns (id: nat)
      modifies this
      ensures if old(file) != 0 then id == 0 && file == old(file) && created == old(created)
              else id == old(created) + 1 && file == id && created == id
    {
      if file != 0 {
        return 0;
      }
      created := created + 1;
      file := created;
      id := created;
    }

    /** `os.Remove`; a missing file is no error. */
    method Remove()
      modifies this
      ensures file == 0 && created == old(created)
    {
      file := 0;
    }
  }

  datatype ReleaseOutcome = Released | NothingToRelease | CloseFailed | RemoveFailed

  class Lock {
    const path: LockPath
    const id: nat
    var open: bool

    constructor (path: LockPath, id: nat)
      ensures this.path == path && this.id == id && open
    {
      this.path, this.id, open := path, id, true;
    }

    /** `AcquireLock`. */
    static method Acquire(path: LockPath) returns (lock: Lock?)
      modifies path
      ensures lock == null <==> old(path.file) != 0
      ensures lock == null ==> path.file == old(path.file) && path.created == old(path.created)
      ensures lock != null ==> fresh(lock) && lock.open && lock.path == path
      ensures lock != null ==> lock.id == path.file == path.created == old(path.created) + 1
    {
      var id := path.CreateExclusive();
      if id == 0 {
        return null;
      }
      lock := new Lock(path, id);
    }

    /** `Release`. A closed lock touches nothing, so a second release cannot remove the file of a later holder. */
    method Release(closeFails: bool, removeFails: bool) returns (outcome: ReleaseOutcome)
      modifies this, path
      ensures !old(open) ==> outcome == NothingToRelease && !open && path.file == old(path.file)
      ensures old(open) && closeFails ==> outcome == CloseFailed && open && path.file == old(path.file)
      ensures old(open) && !closeFails && removeFails ==>
        outcome == RemoveFailed && !open && path.file == old(path.file)
      ensures old(open) && !closeFails && !removeFails ==> outcome == Released && !open && path.file == 0
      ensures path.created == old(path.created)
    {
      if !open {
        return NothingToRelease;
      }
      if closeFails {
        return CloseFailed;
      }
      open := false;
      if removeFails {
        return RemoveFailed;
      }
      path.Remove();
      outcome := Released;
    }
  }

  // ----- All interleavings

  /** A lock as its client sees it: held, between the close and the removal of a release, or released. */
  datatype Phase = Held | Removing | Gone

  /** The file at the path belongs to the lock that created it. Locks are numbered in the order they are acquired. */
  datatype World = World(locks: seq<Phase>, file: int)

  const NO_FILE := -1
  const START := World([], NO_FILE)

  /** Close and remove are separate moves; each of them can fail. A client moves its own lock only. */
  datatype Move = Acquire | Close(lock: nat, ok: bool) | Remove(lock: nat, ok: bool)

  function Step(w: World, move: Move): World {
    match move
    case Acquire => if w.file == NO_FILE then World(w.locks + [Held], |w.locks|) else w
    case Close(i, ok) => if i < |w.locks| && w.locks[i] == Held && ok then w.(locks := w.locks[i := Removing]) else w
    case Remove(i, ok) =>
      if i < |w.locks| && w.locks[i] == Removing then World(w.locks[i := Gone], if ok then NO_FILE else w.file) else w
  }

  function Run(moves: seq<Move>): World {
    if moves == [] then START else Step(Run(moves[..|moves| - 1]), moves[|moves| - 1])
  }

  /** A lock that is not gone owns the file, so there is one such lock at most. */
  predicate Kept(w: World) {
    && (w.file == NO_FILE || 0 <= w.file < |w.locks|)
    && forall i :: 0 <= i < |w.locks| && w.locks[i] != Gone ==> w.file == i
  }

  lemma {:induction false} RunKeeps(moves: seq<Move>)
    ensures Kept(Run(moves))
    decreases |moves|
  {
    if moves != [] {
      RunKeeps(moves[..|moves| - 1]);
      StepKeeps(Run(moves[..|moves| - 1]), moves[|moves| - 1]);
    }
  }

  lemma StepKeeps(w: World, move: Move)
    requires Kept(w)
    ensures Kept(Step(w, move))
  {
  }

  // ----- The lock objects move as the machine does

  /** The path and the lock objects, in the order they were acquired, are as the machine has them, and no release is
      under way. */
  ghost predicate Shows(w: World, path: LockPath, locks: seq<Lock>)
    reads path, locks
  {
    && |locks| == |w.locks| == path.created && path.file == w.file + 1
    && (forall i :: 0 <= i < |locks| ==> locks[i].path == path && locks[i].id == i + 1)
    && (forall i :: 0 <= i < |locks| ==> w.locks[i] == if locks[i].open then Held else Gone)
  }

  /** `Lock.Acquire` is one move. */
  method AcquireAsMove(path: LockPath, ghost w: World, ghost locks: seq<Lock>) returns (lock: Lock?)
    requires Shows(w, path, locks)
    modifies path
    ensures Shows(Step(w, Acquire), path, if lock == null then locks else locks + [lock])
    ensures lock == null <==> Step(w, Acquire) == w
  {
    lock := Lock.Acquire(path);
  }

  /** `Lock.Release`, when nobody interrupts it, is the close and the removal in a row; the other locks stay as they
      are. */
  method ReleaseAsMoves(lock: Lock, closeFails: bool, removeFails: bool, ghost w: World, ghost locks: seq<Lock>)
    returns (outcome: ReleaseOutcome)
    requires Shows(w, lock.path, locks) && lock in locks
    modifies lock, lock.path
    ensures Shows(Step(Step(w, Close(lock.id - 1, !closeFails)), Remove(lock.id - 1, !removeFails)), lock.path, locks)
  {
    ghost var i :| 0 <= i < |locks| && locks[i] == lock;
    assert w.locks[i := Removing][i := Gone] == w.locks[i := Gone];
    outcome := lock.Release(closeFails, removeFails);
  }

  /** In every interleaving at most one lock is not released. */
  lemma MutualExclusion(moves: seq<Move>, i: nat, j: nat)
    requires i < |Run(moves).locks| && j < |Run(moves).locks|
    requires Run(moves).locks[i] != Gone && Run(moves).locks[j] != Gone
    ensures i == j
  {
    hide Run;
    RunKeeps(moves);
  }

  /** In every interleaving a move changes the file only for the lock that owns it: a file vanishes only in the release
      of its own lock, and a client that moves a lock already gone changes nothing. */
  lemma OnlyOwnerRemoves(moves: seq<Move>, move: Move)
    ensures var before, after := Run(moves), Step(Run(moves), move);
      && (before.file != NO_FILE && after.file != before.file
          ==> move.Remove? && move.ok && move.lock == before.file && before.locks[move.lock] == Removing)
      && (!move.Acquire? && move.lock < |before.locks| && before.locks[move.lock] == Gone ==> after == before)
  {
    hide Run;
    RunKeeps(moves);
  }

  /** If no removal failed, a new lock can be acquired exactly when every lock is gone. */
  lemma AcquirableIff(moves: seq<Move>)
    requires forall move :: move in moves ==> move.Remove? ==> move.ok
    ensures Step(Run(moves), Acquire) != Run(moves) <==> forall phase :: phase in Run(moves).locks ==> phase == Gone
  {
    hide Run;
    FileHasOwner(moves);
    RunKeeps(moves);
    var w := Run(moves);
    if w.file == NO_FILE {
      assert Step(w, Acquire).file != w.file;
      forall i | 0 <= i < |w.locks| ensures w.locks[i] == Gone {
      }
    } else {
      assert w.locks[w.file] in w.locks;
    }
  }

  lemma {:induction false} FileHasOwner(moves: seq<Move>)
    requires forall move :: move in moves ==> move.Remove? ==> move.ok
    ensures var w := Run(moves);
      w.file != NO_FILE ==> 0 <= w.file < |w.locks| && w.locks[w.file] != Gone
    decreases |moves|
  {
    if moves != [] {
      FileHasOwner(moves[..|moves| - 1]);
      RunKeeps(moves[..|moves| - 1]);
    }
  }
}
