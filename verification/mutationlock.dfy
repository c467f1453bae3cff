/**
 * internal/mutationlock/mutationlock.go: the exclusive lock file, as processes whose steps
 * interleave arbitrarily. One actor is one call of Acquire with the release closure it
 * returns; its line is unique because its token is.
 */
module MutationLock {
  import opened Wrappers

  type Actor = nat

  /** What the lock file says: nothing yet, part of a line after a failed write, or a line. */
  datatype Text = Empty | Partial | LineOf(actor: Actor)

  /** The file behind the path remembers which actor's exclusive create made it. */
  datatype Lock = Lock(creator: Actor, text: Text)

  datatype Phase =
    | Trying    // in the retry loop
    | Created   // the exclusive create succeeded
    | Written   // the line is written, the handle still open
    | Failing   // token, write or close failed: about to remove the file
    | Holding   // Acquire has returned, release has not been called
    | Checking  // release entered its once: about to read the file
    | Matched   // release read its own line: about to remove the file
    | Released  // the once is done
    | Refused   // Acquire returned an error
    | Dead      // the process ended without finishing its call

  datatype Action =
    | Create            // exclusive create
    | GiveUp            // timeout or another open error
    | DrawToken(ok: bool)
    | WriteLine(ok: bool)
    | Close(ok: bool)
    | Withdraw(ok: bool) // remove after a failure
    | Release           // call the closure
    | Compare           // read the file and compare
    | Remove(ok: bool)
    | Die

  datatype Removal = Removal(actor: Actor, text: Text, after: Phase)

  datatype State = State(file: Option<Lock>, phases: map<Actor, Phase>, removals: seq<Removal>)

  const Start: State := State(None, map[], [])

  function PhaseOf(s: State, a: Actor): Phase {
    if a in s.phases then s.phases[a] else Trying
  }

  function Move(s: State, a: Actor, p: Phase): State {
    s.(phases := s.phases[a := p])
  }

  /** Write through the handle: it reaches the path only while the path still is that file. */
  function WriteThrough(s: State, a: Actor, text: Text): State {
    match s.file
    case Some(lock) => if lock.creator == a then s.(file := Some(Lock(a, text))) else s
    case None => s
  }

  /** Delete whatever file the path names. */
  function Delete(s: State, a: Actor): State {
    match s.file
    case Some(lock) => s.(file := None, removals := s.removals + [Removal(a, lock.text, PhaseOf(s, a))])
    case None => s
  }

  /** One step of one actor; an action its phase does not allow does nothing. */
  function Act(s: State, a: Actor, action: Action): State {
    match (PhaseOf(s, a), action)
    case (Trying, Create) =>
      if s.file.None? then Move(s.(file := Some(Lock(a, Empty))), a, Created) else s
    case (Trying, GiveUp) => Move(s, a, Refused)
    case (Created, DrawToken(ok)) => if ok then s else Move(s, a, Failing)
    case (Created, WriteLine(ok)) =>
      if ok then Move(WriteThrough(s, a, LineOf(a)), a, Written)
      else Move(WriteThrough(s, a, Partial), a, Failing)
    case (Written, Close(ok)) => Move(s, a, if ok then Holding else Failing)
    case (Failing, Withdraw(ok)) => Move(if ok then Delete(s, a) else s, a, Refused)
    case (Holding, Release) => Move(s, a, Checking)
    case (Checking, Compare) =>
      if s.file.Some? && s.file.value.text == LineOf(a) then Move(s, a, Matched) else Move(s, a, Released)
    case (Matched, Remove(ok)) => Move(if ok then Delete(s, a) else s, a, Released)
    case (p, Die) => if p.Released? || p.Refused? then s else Move(s, a, Dead)
    case _ => s
  }

  function Exec(s: State, run: seq<(Actor, Action)>): State {
    if run == [] then s else Act(Exec(s, run[..|run| - 1]), run[|run| - 1].0, run[|run| - 1].1)
  }

  /** Between the exclusive create and the last step of the release or of the clean-up. */
  predicate Inside(p: Phase) {
    p.Created? || p.Written? || p.Failing? || p.Holding? || p.Checking? || p.Matched?
  }

  predicate HasLine(p: Phase) {
    p.Written? || p.Holding? || p.Checking? || p.Matched?
  }

  /** Between Acquire's return and the end of release. */
  predicate InCriticalSection(p: Phase) {
    p.Holding? || p.Checking? || p.Matched?
  }

  predicate Inv(s: State) {
    && (forall a :: a in s.phases && Inside(s.phases[a]) ==> s.file.Some? && s.file.value.creator == a)
    && (forall a :: a in s.phases && HasLine(s.phases[a]) ==> s.file.Some? && s.file.value.text == LineOf(a))
    && (s.file.Some? && s.file.value.text.LineOf? ==> s.file.value.text.actor == s.file.value.creator)
    && (s.file.Some? ==> s.file.value.creator in s.phases && !s.phases[s.file.value.creator].Trying?)
    && (forall i :: 0 <= i < |s.removals| ==>
          && s.removals[i].actor in s.phases
          && (s.phases[s.removals[i].actor].Released? || s.phases[s.removals[i].actor].Refused?)
          && (s.removals[i].after.Matched? ==> s.removals[i].text == LineOf(s.removals[i].actor))
          && (s.removals[i].after.Matched? || s.removals[i].after.Failing?))
    && (forall i, j :: 0 <= i < j < |s.removals| ==> s.removals[i].actor != s.removals[j].actor)
    && (s.file.Some? ==> forall i :: 0 <= i < |s.removals| ==> s.removals[i].actor != s.file.value.creator)
  }

  lemma ActKeepsInv(s: State, a: Actor, action: Action)
    requires Inv(s)
    ensures Inv(Act(s, a, action))
  {
    var p := PhaseOf(s, a);
    match (p, action) {
      case (Failing, Withdraw(ok)) => if ok { DeleteKeepsInv(s, a, Refused); } else { LeaveKeepsInv(s, a, Refused); }
      case (Matched, Remove(ok)) => if ok { DeleteKeepsInv(s, a, Released); } else { LeaveKeepsInv(s, a, Released); }
      case (Created, WriteLine(ok)) => WriteKeepsInv(s, a, ok);
      case (Trying, Create) => CreateKeepsInv(s, a);
      case (p, Die) => if !p.Released? && !p.Refused? { LeaveKeepsInv(s, a, Dead); }
      case _ =>
    }
  }

  /** Giving up the file's care without touching the file. */
  lemma LeaveKeepsInv(s: State, a: Actor, next: Phase)
    requires Inv(s) && !PhaseOf(s, a).Released? && !PhaseOf(s, a).Refused?
    requires next.Released? || next.Refused? || next.Dead?
    ensures Inv(Move(s, a, next))
  {
  }

  lemma WriteKeepsInv(s: State, a: Actor, ok: bool)
    requires Inv(s) && PhaseOf(s, a).Created?
    ensures Inv(Act(s, a, WriteLine(ok)))
  {
  }

  lemma CreateKeepsInv(s: State, a: Actor)
    requires Inv(s) && PhaseOf(s, a).Trying?
    ensures Inv(Act(s, a, Create))
  {
  }

  /** The two removals: the remover is the file's creator, and has not removed before. */
  lemma DeleteKeepsInv(s: State, a: Actor, next: Phase)
    requires Inv(s) && (PhaseOf(s, a).Failing? || PhaseOf(s, a).Matched?)
    requires next.Released? || next.Refused?
    ensures Inv(Move(Delete(s, a), a, next))
  {
    var s' := Move(Delete(s, a), a, next);
    forall i, j | 0 <= i < j < |s'.removals| ensures s'.removals[i].actor != s'.removals[j].actor {
      if j == |s.removals| { assert s.removals[i].actor != s.file.value.creator; }
    }
  }

  /** Mutual exclusion over every interleaving: two actors are never both between Acquire's
      return and the end of their release, and throughout that time the file holds the
      owner's line. */
  lemma {:induction false} MutualExclusion(run: seq<(Actor, Action)>)
    ensures var s := Exec(Start, run);
            && Inv(s)
            && (forall a, b :: InCriticalSection(PhaseOf(s, a)) && InCriticalSection(PhaseOf(s, b)) ==> a == b)
            && (forall a :: InCriticalSection(PhaseOf(s, a)) ==> s.file == Some(Lock(a, LineOf(a))))
  {
    if run != [] {
      MutualExclusion(run[..|run| - 1]);
      ActKeepsInv(Exec(Start, run[..|run| - 1]), run[|run| - 1].0, run[|run| - 1].1);
    }
  }

  /** An actor removes the file at most once over a whole run, and a release removes it only
      while the file holds its own line. */
  lemma RemovalsAreOwn(run: seq<(Actor, Action)>)
    ensures var removals := Exec(Start, run).removals;
            && (forall i, j :: 0 <= i < j < |removals| ==> removals[i].actor != removals[j].actor)
            && (forall i :: 0 <= i < |removals| && removals[i].after.Matched? ==>
                  removals[i].text == LineOf(removals[i].actor))
  {
    MutualExclusion(run);
  }

  /** While an actor is inside, no other actor's step changes the file or lets it in. */
  lemma OthersCannotInterfere(run: seq<(Actor, Action)>, owner: Actor, other: Actor, action: Action)
    requires Inside(PhaseOf(Exec(Start, run), owner)) && other != owner
    ensures var s := Exec(Start, run);
            Act(s, other, action).file == s.file && !Inside(PhaseOf(Act(s, other, action), other))
  {
    MutualExclusion(run);
    var s := Exec(Start, run);
    assert !Inside(PhaseOf(s, other));
  }

  /** Calling the closure again after it has run does nothing, whoever holds the lock now. */
  lemma ReleaseIsOnce(s: State, a: Actor, action: Action)
    requires PhaseOf(s, a).Released?
    ensures Act(s, a, action) == s
  {
  }

  /** The lock is usable: from any reachable state with no lock file an actor that has not
      started can acquire, and its release frees the file again. */
  lemma AcquireThenRelease(run: seq<(Actor, Action)>, a: Actor)
    requires Exec(Start, run).file.None? && PhaseOf(Exec(Start, run), a).Trying?
    ensures var held := Exec(Exec(Start, run), [(a, Create), (a, DrawToken(true)), (a, WriteLine(true)), (a, Close(true))]);
            && InCriticalSection(PhaseOf(held, a))
            && var freed := Exec(held, [(a, Release), (a, Compare), (a, Remove(true))]);
               freed.file.None? && PhaseOf(freed, a).Released?
  {
    var s := Exec(Start, run);
    var s1 := Act(s, a, Create);
    var s2 := Act(s1, a, DrawToken(true));
    var s3 := Act(s2, a, WriteLine(true));
    var held := Act(s3, a, Close(true));
    Exec4(s, (a, Create), (a, DrawToken(true)), (a, WriteLine(true)), (a, Close(true)));
    var h1 := Act(held, a, Release);
    var h2 := Act(h1, a, Compare);
    Exec3(held, (a, Release), (a, Compare), (a, Remove(true)));
  }

  lemma Exec3(s: State, x: (Actor, Action), y: (Actor, Action), z: (Actor, Action))
    ensures Exec(s, [x, y, z]) == Act(Act(Act(s, x.0, x.1), y.0, y.1), z.0, z.1)
  {
    assert [x, y, z][..2] == [x, y] && [x, y][..1] == [x] && [x][..0] == [];
    assert Exec(s, [x]) == Act(s, x.0, x.1);
    assert Exec(s, [x, y]) == Act(Exec(s, [x]), y.0, y.1);
  }

  lemma Exec4(s: State, w: (Actor, Action), x: (Actor, Action), y: (Actor, Action), z: (Actor, Action))
    ensures Exec(s, [w, x, y, z]) == Act(Act(Act(Act(s, w.0, w.1), x.0, x.1), y.0, y.1), z.0, z.1)
  {
    assert [w, x, y, z][..3] == [w, x, y];
    Exec3(s, w, x, y);
  }
}
