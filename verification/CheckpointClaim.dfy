/**
 Consuming a checkpoint file. Any number of resumers run concurrently over one
 saved file; every existence test, read and rename is a step of its own, and a
 resumer may crash between any two steps.
 */
module CheckpointClaim {

  /** Where a resumer stands. */
  datatype Pc =
    | Start               // about to test whether the path exists
    | PathMissing         // the path was missing: about to test the consumed path
    | Reading             // about to read the path
    | Loaded              // validated, full decisions: about to test the consumed path
    | NotConsumed         // about to rename path to consumed path
    | Running             // holds the claim and runs the loop
    | Failing             // the loop raised: about to test the consumed path
    | StillClaimed        // about to test the path
    | Restoring           // about to rename back
    | Returned            // returned normally with full decisions
    | PartlyDecided       // partial decisions: handed to the loop without a claim
    | Raised
    | Crashed(held: bool) // stopped for good, possibly while holding the claim

  /** The two directory entries and every resumer. */
  datatype Files = Files(atPath: bool, atConsumed: bool)
  datatype State = State(files: Files, pcs: seq<Pc>)

  /** What may happen at a step besides the file system: validation, decisions and the loop's outcome. */
  datatype Choice = Fine | Bad | Partial | Crash

  predicate Holds(pc: Pc) {
    pc == Running || pc == Failing || pc == StillClaimed || pc == Restoring
  }

  /** The claim is held, was used up by a normal return, or died with its holder. */
  predicate Owns(pc: Pc) {
    Holds(pc) || pc == Returned || pc == Crashed(true)
  }

  /** One step of one resumer. */
  function Advance(f: Files, pc: Pc, c: Choice): (Files, Pc) {
    if c == Crash && !pc.Returned? && !pc.Raised? && !pc.Crashed? && !pc.PartlyDecided? then (f, Crashed(Holds(pc)))
    else
      match pc
      case Start => (f, if f.atPath then Reading else PathMissing)
      case PathMissing => (f, if f.atConsumed then Raised else Reading)
      case Reading =>
        if !f.atPath || c == Bad then (f, Raised)
        else if c == Partial then (f, PartlyDecided)
        else (f, Loaded)
      case Loaded => (f, if f.atConsumed then Raised else NotConsumed)
      case NotConsumed => if f.atPath then (Files(false, true), Running) else (f, Raised)
      case Running => (f, if c == Bad then Failing else Returned)
      case Failing => (f, if f.atConsumed then StillClaimed else Raised)
      case StillClaimed => (f, if f.atPath then Raised else Restoring)
      case Restoring => if f.atConsumed then (Files(true, false), Raised) else (f, Raised)
      case _ => (f, pc)
  }

  datatype Move = Move(who: nat, choice: Choice)

  function Step(s: State, m: Move): State {
    if m.who >= |s.pcs| then s
    else
      var (f, pc) := Advance(s.files, s.pcs[m.who], m.choice);
      State(f, s.pcs[m.who := pc])
  }

  function Run(s: State, ms: seq<Move>): (t: State)
    ensures |t.pcs| == |s.pcs|
    decreases |ms|
  {
    if ms == [] then s else Run(Step(s, ms[0]), ms[1..])
  }

  /** One saved file and `n` resumers about to start. */
  function Saved(n: nat): State {
    State(Files(true, false), seq(n, _ => Start))
  }

  /** The file is at exactly one of the two places, and at the consumed one exactly when one resumer owns it. */
  predicate Consistent(s: State) {
    && s.files.atPath != s.files.atConsumed
    && (forall i, j | 0 <= i < |s.pcs| && 0 <= j < |s.pcs| && Owns(s.pcs[i]) && Owns(s.pcs[j]) :: i == j)
    && (s.files.atConsumed <==> exists i :: 0 <= i < |s.pcs| && Owns(s.pcs[i]))
  }

  /** In a consistent state a step changes ownership only by the two renames, and they move the file. */
  lemma AdvanceOwns(f: Files, pc: Pc, c: Choice)
    requires f.atPath != f.atConsumed && (Owns(pc) ==> f.atConsumed)
    ensures var (f', pc') := Advance(f, pc, c);
            && f'.atPath != f'.atConsumed
            && (Owns(pc) == Owns(pc') ==> f' == f)
            && (!Owns(pc) && Owns(pc') ==> f.atPath && f'.atConsumed)
            && (Owns(pc) && !Owns(pc') ==> f'.atPath && pc' == Raised)
  {
  }

  lemma StepConsistent(s: State, m: Move)
    requires Consistent(s)
    ensures Consistent(Step(s, m))
  {
    if m.who < |s.pcs| {
      AdvanceOwns(s.files, s.pcs[m.who], m.choice);
      var t := Step(s, m);
      hide Advance, Owns;
      assert forall i | 0 <= i < |s.pcs| && i != m.who :: t.pcs[i] == s.pcs[i];
      if Owns(t.pcs[m.who]) { assert 0 <= m.who < |t.pcs|; }
      if i :| 0 <= i < |s.pcs| && i != m.who && Owns(s.pcs[i]) { assert t.pcs[i] == s.pcs[i]; }
    }
  }

  lemma {:induction false} RunConsistent(s: State, ms: seq<Move>)
    requires Consistent(s)
    ensures Consistent(Run(s, ms))
    decreases |ms|
  {
    if ms != [] {
      StepConsistent(s, ms[0]);
      RunConsistent(Step(s, ms[0]), ms[1..]);
    }
  }

  lemma SavedConsistent(n: nat)
    ensures Consistent(Saved(n))
  {
  }

  /**
   Checkpoint consumption. In every interleaving of any number of resumers and
   crashes, at most one of them holds the claim, has returned normally or died
   holding it; the file is never in two places and never gone, and it is away
   from its path exactly while there is such a resumer.
   */
  lemma AtMostOneConsumer(n: nat, ms: seq<Move>, i: nat, j: nat)
    requires i < n && j < n
    ensures var s := Run(Saved(n), ms);
            && s.files.atPath != s.files.atConsumed
            && (Owns(s.pcs[i]) && Owns(s.pcs[j]) ==> i == j)
            && (Owns(s.pcs[i]) ==> !s.files.atPath)
            && (s.files.atPath <==> forall k | 0 <= k < n :: !Owns(s.pcs[k]))
  {
    SavedConsistent(n);
    RunConsistent(Saved(n), ms);
  }

  /** A resumer whose loop raised puts the file back: its exception leaves it at its path, whatever the others do. */
  lemma ExceptionRestores(n: nat, ms: seq<Move>, m: Move)
    requires m.who < n && Holds(Run(Saved(n), ms).pcs[m.who])
    ensures Step(Run(Saved(n), ms), m).pcs[m.who] == Raised ==> Step(Run(Saved(n), ms), m).files == Files(true, false)
    ensures m.choice != Crash && Run(Saved(n), ms).pcs[m.who] == Restoring ==> Step(Run(Saved(n), ms), m).files == Files(true, false)
  {
    SavedConsistent(n);
    RunConsistent(Saved(n), ms);
    var s := Run(Saved(n), ms);
    assert s.files == Files(false, true);
  }

  /** A normal return is final: the file stays consumed and nobody else ever owns the claim. */
  lemma {:induction false} ReturnIsFinal(s: State, ms: seq<Move>, i: nat)
    requires Consistent(s) && i < |s.pcs| && s.pcs[i] == Returned
    ensures var t := Run(s, ms);
            && t.pcs[i] == Returned && t.files == Files(false, true)
            && forall j | 0 <= j < |t.pcs| && j != i :: !Owns(t.pcs[j])
    decreases |ms|
  {
    if ms != [] {
      StepConsistent(s, ms[0]);
      ReturnIsFinal(Step(s, ms[0]), ms[1..], i);
    }
  }
}
