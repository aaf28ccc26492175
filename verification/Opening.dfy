/**
 Opening a layout (oci/dir.go:36-82, 308-323): a check for the layout file, and otherwise four
 steps that make it, taken by any number of callers at once, any of which may die.
 */
module Opening {
  import opened Wrappers

  /** What exists of a layout; `marker` is the "oci-layout" file. */
  datatype Tree = Tree(root: bool, blobs: bool, sha256: bool, refs: bool, marker: bool)

  datatype OpenError = RootFailed | BlobsFailed | AlgorithmFailed | RefsFailed | MarkerFailed | WriteFailed

  /** Where a caller is in `initialize`. */
  datatype Stage = AtRoot | AtStat | AtBlobs | AtAlgorithm | AtRefs | AtMarker | AtWrite

  datatype State = State(tree: Tree, openers: map<nat, Stage>, outcomes: map<nat, Outcome<OpenError>>)

  datatype Event =
    | Begin(i: nat)
    | Step(i: nat, ok: bool)  // `ok` is false when the operating system refuses for a reason of its own
    | Crash(i: nat)

  datatype Progress = Next(stage: Stage) | Return(outcome: Outcome<OpenError>)

  /** One system call of `initialize`; plain mkdir refuses a directory that exists. */
  function Call(t: Tree, stage: Stage, ok: bool): (Tree, Progress) {
    match stage
    case AtRoot => if ok then (t.(root := true), Next(AtStat)) else (t, Return(Err(RootFailed)))
    case AtStat => if ok && t.marker then (t, Return(Nil)) else (t, Next(AtBlobs))
    case AtBlobs => if ok && !t.blobs then (t.(blobs := true), Next(AtAlgorithm)) else (t, Return(Err(BlobsFailed)))
    case AtAlgorithm => if ok && !t.sha256 then (t.(sha256 := true), Next(AtRefs)) else (t, Return(Err(AlgorithmFailed)))
    case AtRefs => if ok && !t.refs then (t.(refs := true), Next(AtMarker)) else (t, Return(Err(RefsFailed)))
    case AtMarker => if ok then (t.(marker := true), Next(AtWrite)) else (t, Return(Err(MarkerFailed)))
    case AtWrite => (t, Return(if ok then Nil else Err(WriteFailed)))
  }

  function Do(s: State, e: Event): State {
    match e
    case Begin(i) =>
      if i in s.openers || i in s.outcomes then s else s.(openers := s.openers[i := AtRoot])
    case Step(i, ok) =>
      if i !in s.openers then s
      else
        var (t, progress) := Call(s.tree, s.openers[i], ok);
        (match progress
         case Next(stage) => s.(tree := t, openers := s.openers[i := stage])
         case Return(outcome) =>
           s.(tree := t, openers := s.openers - {i}, outcomes := s.outcomes[i := outcome]))
    case Crash(i) => s.(openers := s.openers - {i})
  }

  function Run(s: State, es: seq<Event>): State
    decreases |es|
  {
    if es == [] then s else Run(Do(s, es[0]), es[1..])
  }

  const NOTHING := State(Tree(false, false, false, false, false), map[], map[])

  /** Between its first inner mkdir and the layout file. */
  predicate Building(s: State, i: nat) {
    i in s.openers && (s.openers[i].AtAlgorithm? || s.openers[i].AtRefs? || s.openers[i].AtMarker?)
  }

  /** The directories come in order, and the layout file comes last. */
  predicate Ordered(t: Tree) {
    (t.marker ==> t.refs) && (t.refs ==> t.sha256) && (t.sha256 ==> t.blobs)
  }

  predicate Matches(t: Tree, stage: Stage) {
    match stage
    case AtAlgorithm => t.blobs && !t.sha256
    case AtRefs => t.sha256 && !t.refs
    case AtMarker => t.refs && !t.marker
    case AtWrite => t.marker
    case _ => true
  }

  ghost predicate Inv(s: State) {
    && Ordered(s.tree)
    && (forall i :: i in s.openers ==> Matches(s.tree, s.openers[i]))
    && (forall i, j :: Building(s, i) && Building(s, j) ==> i == j)
    && (forall i :: Building(s, i) ==> !s.tree.marker)
  }

  lemma StepInv(s: State, e: Event)
    requires Inv(s)
    ensures Inv(Do(s, e))
  {
    OthersStay(s, e);
    var s' := Do(s, e);
    forall j | j in s'.openers
      ensures Matches(s'.tree, s'.openers[j])
    {
      if j != e.i && Building(s, j) {
        assert Building(s, e.i) ==> j == e.i;
      }
    }
    forall j, k | Building(s', j) && Building(s', k)
      ensures j == k
    {
      assert j != e.i ==> Building(s, j);
      assert k != e.i ==> Building(s, k);
    }
    forall j | Building(s', j)
      ensures !s'.tree.marker
    {
      assert j != e.i ==> Building(s, j);
    }
  }

  /** A step is of one caller. */
  lemma OthersStay(s: State, e: Event)
    ensures forall j :: j != e.i ==> (Building(Do(s, e), j) <==> Building(s, j))
    ensures forall j :: j != e.i ==> (j in Do(s, e).openers <==> j in s.openers)
    ensures forall j :: j != e.i && j in s.openers ==> Do(s, e).openers[j] == s.openers[j]
  {
  }

  lemma {:induction false} RunInv(s: State, es: seq<Event>)
    requires Inv(s)
    ensures Inv(Run(s, es))
    decreases |es|
  {
    hide Do, Inv;
    if es == [] {
    } else {
      StepInv(s, es[0]);
      RunInv(Do(s, es[0]), es[1..]);
    }
  }

  /** Whatever callers do and wherever they die, a layout file means that the directories are there. */
  lemma MarkerMeansComplete(es: seq<Event>)
    ensures var t := Run(NOTHING, es).tree; t.marker ==> t.blobs && t.sha256 && t.refs
  {
    RunInv(NOTHING, es);
  }

  /** Begun, not finished, and nobody left to finish it. */
  ghost predicate Dead(s: State) {
    s.tree.blobs && !s.tree.marker && forall i :: !Building(s, i)
  }

  /** The caller that is building the layout dies, or a system call of its is refused. */
  predicate Breaks(s: State, e: Event) {
    Building(s, e.i) && (e.Crash? || (e.Step? && !e.ok))
  }

  /** A layout is lost exactly when the caller that builds it dies or returns with an error. */
  lemma StepDeadIff(s: State, e: Event)
    requires Inv(s)
    ensures Dead(Do(s, e)) <==> Dead(s) || Breaks(s, e)
  {
    OthersStay(s, e);
    assert e.i in s.openers ==> Matches(s.tree, s.openers[e.i]);
    if Dead(s) {
      StepDead(s, e, 0);
    } else if Breaks(s, e) {
      forall j
        ensures !Building(Do(s, e), j)
      {
        assert Building(s, j) ==> j == e.i;
      }
    } else if Building(s, e.i) {
      assert Building(Do(s, e), e.i) || Do(s, e).tree.marker;
    } else if j :| Building(s, j) {
      assert Building(Do(s, e), j);
    } else if !s.tree.blobs && Do(s, e).tree.blobs {
      assert Building(Do(s, e), e.i);
    }
  }

  lemma StepDead(s: State, e: Event, j: nat)
    requires Inv(s) && Dead(s)
    ensures Dead(Do(s, e))
    ensures j in Do(s, e).outcomes && Do(s, e).outcomes[j].Nil? ==> j in s.outcomes && s.outcomes[j].Nil?
  {
    OthersStay(s, e);
    assert !Building(s, e.i);
    assert e.i in s.openers ==> Matches(s.tree, s.openers[e.i]);
    forall k
      ensures !Building(Do(s, e), k)
    {
      assert k != e.i ==> (Building(Do(s, e), k) <==> Building(s, k));
    }
  }

  predicate SomeBreaks(s: State, es: seq<Event>)
    decreases |es|
  {
    es != [] && (Breaks(s, es[0]) || SomeBreaks(Do(s, es[0]), es[1..]))
  }

  /** Over whole runs: a layout is lost exactly if at some step the caller building it died or failed. */
  lemma {:induction false} LostIff(s: State, es: seq<Event>)
    requires Inv(s)
    ensures Dead(Run(s, es)) <==> Dead(s) || SomeBreaks(s, es)
    decreases |es|
  {
    hide Do, Inv, Dead, Breaks;
    if es == [] {
    } else {
      StepInv(s, es[0]);
      StepDeadIff(s, es[0]);
      LostIff(Do(s, es[0]), es[1..]);
    }
  }

  /** Once lost, no Open ever succeeds again, in any interleaving. */
  lemma {:induction false} DeadForever(s: State, es: seq<Event>, j: nat)
    requires Inv(s) && Dead(s)
    ensures Dead(Run(s, es))
    ensures j in Run(s, es).outcomes && Run(s, es).outcomes[j].Nil? ==> j in s.outcomes && s.outcomes[j].Nil?
    decreases |es|
  {
    hide Do, Inv, Dead;
    if es == [] {
    } else {
      StepInv(s, es[0]);
      StepDead(s, es[0], j);
      DeadForever(Do(s, es[0]), es[1..], j);
    }
  }

  function Remaining(stage: Stage): nat {
    match stage
    case AtRoot => 6
    case AtStat => 5
    case AtBlobs => 4
    case AtAlgorithm => 3
    case AtRefs => 2
    case AtMarker => 1
    case AtWrite => 0
  }

  /** The calls of one caller from `stage` on, with nobody in between. */
  function Alone(t: Tree, stage: Stage, fails: Option<Stage>): (Tree, Outcome<OpenError>)
    decreases Remaining(stage)
  {
    var (t1, progress) := Call(t, stage, fails != Some(stage));
    match progress
    case Return(outcome) => (t1, outcome)
    case Next(next) => Alone(t1, next, fails)
  }

  /** `initialize` as it is written, by one caller, over the tree it works on. */
  class Layout {
    var tree: Tree

    constructor (tree: Tree)
      ensures this.tree == tree
    {
      this.tree := tree;
    }

    /** `fails` is the stage at which the operating system refuses, if it does. */
    method Initialize(fails: Option<Stage>) returns (err: Outcome<OpenError>)
      requires Ordered(tree)
      modifies this
      ensures Ordered(tree) && (tree, err) == Alone(old(tree), AtRoot, fails)
      ensures fails.None? ==> (err.Nil? <==> old(tree).marker || !old(tree).blobs)
      ensures err.Nil? ==> tree.root && tree.blobs && tree.sha256 && tree.refs && tree.marker
      ensures old(tree).marker && old(tree).root ==> tree == old(tree)
      ensures err.Err? && fails.None? ==> tree == old(tree).(root := true) && err == Err(BlobsFailed)
    {
      if fails == Some(AtRoot) {
        return Err(RootFailed);
      }
      tree := tree.(root := true);
      if tree.marker && fails != Some(AtStat) {
        return Nil;
      }
      if tree.blobs || fails == Some(AtBlobs) {
        return Err(BlobsFailed);
      }
      tree := tree.(blobs := true);
      if tree.sha256 || fails == Some(AtAlgorithm) {
        return Err(AlgorithmFailed);
      }
      tree := tree.(sha256 := true);
      if tree.refs || fails == Some(AtRefs) {
        return Err(RefsFailed);
      }
      tree := tree.(refs := true);
      if fails == Some(AtMarker) {
        return Err(MarkerFailed);
      }
      tree := tree.(marker := true);
      if fails == Some(AtWrite) {
        return Err(WriteFailed);
      }
      err := Nil;
    }
  }
}
