/** What can go wrong in a run: crashes, and database writes that do not commit.
    Theorems name the least of it that they rule out. */
module Faults {
  import opened Protocol

  /** A step without a crash whose database writes commit. */
  predicate Calm(l: Label) {
    match l
    case Skip(_, commits) => commits
    case Increment(_, commits) => commits
    case Judge(_, commits) => commits
    case Mark(_, commits, _) => commits
    case Crash(_) => false
    case _ => true
  }

  ghost predicate AllCalm(ls: seq<Label>) {
    forall k :: 0 <= k < |ls| ==> Calm(ls[k])
  }

  datatype Promise =
    | WritesCommit      // every write that is attempted commits; workers may crash
    | FailuresRecorded  // a failed round is counted and, beyond the limit, marked FAILED
    | MarksRecorded     // an acknowledged send is marked PUBLISHED

  /** The write that ends a failed round beyond the limit is due. */
  ghost predicate Condemning(c: Config, s: State, w: WorkerId) {
    At(s, w, Judging) && Exhausted(c, CurrentOf(s, w))
  }

  ghost predicate Keeps(p: Promise, c: Config, s: State, l: Label)
    requires Enabled(c, s, l)
  {
    match l
    case Increment(_, commits) => p.MarksRecorded? || commits
    case Judge(w, commits) => p.MarksRecorded? || commits || !Condemning(c, s, w)
    case Mark(_, commits, _) => p.FailuresRecorded? || commits
    case Crash(w) =>
      && (p.FailuresRecorded? ==> !At(s, w, Errored) && !Condemning(c, s, w))
      && (p.MarksRecorded? ==> !At(s, w, Sent))
    case _ => true
  }

  /** Every step of the run keeps the promise. */
  ghost predicate AllKeep(p: Promise, c: Config, s0: State, ls: seq<Label>)
    requires Legal(c, s0, ls)
    decreases |ls|
  {
    ls == [] ||
    (AllKeep(p, c, s0, ls[..|ls| - 1]) && Keeps(p, c, Exec(c, s0, ls[..|ls| - 1]), ls[|ls| - 1]))
  }

  lemma {:induction false} CalmKeeps(p: Promise, c: Config, s0: State, ls: seq<Label>, s: State)
    requires Run(c, s0, ls, s) && AllCalm(ls)
    ensures AllKeep(p, c, s0, ls)
    decreases |ls|
  {
    if ls != [] {
      var mid := LastStep(c, s0, ls, s);
      CalmKeeps(p, c, s0, ls[..|ls| - 1], mid);
      assert Calm(ls[|ls| - 1]);
    }
  }

  /** What ends failed rounds and marks properly also commits every write. */
  lemma {:induction false} RecordedMeansCommitted(c: Config, s0: State, ls: seq<Label>)
    requires Legal(c, s0, ls) && AllKeep(FailuresRecorded, c, s0, ls) && AllKeep(MarksRecorded, c, s0, ls)
    ensures AllKeep(WritesCommit, c, s0, ls)
    decreases |ls|
  {
    if ls != [] { RecordedMeansCommitted(c, s0, ls[..|ls| - 1]); }
  }

  lemma {:induction false} KeepChain(
    p: Promise, c: Config, s: State, xs: seq<Label>, mid: State, ys: seq<Label>, s': State)
    requires Run(c, s, xs, mid) && Run(c, mid, ys, s') && AllKeep(p, c, s, xs) && AllKeep(p, c, mid, ys)
    ensures Run(c, s, xs + ys, s') && AllKeep(p, c, s, xs + ys)
    decreases |ys|
  {
    Chain(c, s, xs, mid, ys, s');
    if ys == [] {
      assert xs + ys == xs;
    } else {
      var front := ys[..|ys| - 1];
      var last := LastStep(c, mid, ys, s');
      KeepChain(p, c, s, xs, mid, front, last);
      assert (xs + ys)[..|xs + ys| - 1] == xs + front;
    }
  }
}
