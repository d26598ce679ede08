/** The write-once evidence file: any number of writers, any interleaving, crashes anywhere. */
module WriteOnce {
  import opened Options

  // --- The register -------------------------------------------------------------------------------------

  /** The atomic operation that a writer performs on the whole: the first content stays, and a writer
      succeeds when the content that stays is its own. */
  function Put(file: Option<string>, content: string): Option<string> {
    if file.None? then Some(content) else file
  }

  predicate Succeeds(file: Option<string>, content: string) { Put(file, content) == Some(content) }

  /** A directory as one writer sees it: the destination, and how many temporary files lie beside it. */
  class Directory {
    var file: Option<string>
    var temporaries: nat

    constructor ()
      ensures file == None && temporaries == 0
    {
      file, temporaries := None, 0;
    }

    /** `retain_bytes`, undisturbed. */
    method RetainBytes(content: string) returns (ok: bool)
      modifies this
      ensures file == Put(old(file), content) && ok == Succeeds(old(file), content)
      ensures temporaries == old(temporaries)
    {
      temporaries := temporaries + 1;
      ok := true;
      if file.None? { file := Some(content); } else { ok := file.value == content; }
      temporaries := temporaries - 1;
    }
  }

  // --- Writers interleaved --------------------------------------------------------------------------------

  /** Where a writer is: writing its temporary file, about to link it, holding the link, having found the
      name taken, and its ends. `temporary` tells whether its temporary file is on disk. */
  datatype Place = Idle | Writing | Ready | Linked | Taken | Passed | Returned | Raised | Dead

  datatype Writer = Writer(content: string, place: Place, temporary: bool)

  datatype World = World(file: Option<string>, writers: seq<Writer>)

  datatype Act = Create | Write | Link | Compare | Sync | Unlink | Crash

  function Move(w: World, p: nat, place: Place, temporary: bool): World
    requires p < |w.writers|
  {
    w.(writers := w.writers[p := Writer(w.writers[p].content, place, temporary)])
  }

  /** One action of writer `p`; an action out of turn does nothing. */
  function Step(w: World, p: nat, act: Act): World
    requires p < |w.writers|
  {
    var me := w.writers[p];
    match act
    case Create => if me.place == Idle then Move(w, p, Writing, true) else w
    case Write => if me.place == Writing then Move(w, p, Ready, true) else w
    case Link =>
      if me.place != Ready then w
      else if w.file.None? then Move(w.(file := Some(me.content)), p, Linked, true)
      else Move(w, p, Taken, true)
    case Compare =>
      if me.place != Taken then w
      else if w.file == Some(me.content) then Move(w, p, Linked, true)
      else Move(w, p, Raised, false)
    case Sync => if me.place == Linked then Move(w, p, Passed, true) else w
    case Unlink => if me.place == Passed then Move(w, p, Returned, false) else w
    case Crash => if me.place in {Returned, Raised} then w else Move(w, p, Dead, me.temporary)
  }

  datatype Turn = Turn(p: nat, act: Act)

  predicate Run(turns: seq<Turn>, worlds: seq<World>) {
    && |worlds| == |turns| + 1
    && worlds[0].file == None
    && (forall p :: 0 <= p < |worlds[0].writers| ==>
          worlds[0].writers[p].place == Idle && !worlds[0].writers[p].temporary)
    && forall i :: 0 <= i < |turns| ==>
         turns[i].p < |worlds[i].writers| && worlds[i + 1] == Step(worlds[i], turns[i].p, turns[i].act)
  }

  predicate WriterAgrees(w: World, me: Writer) {
    && (me.place in {Linked, Passed, Returned} ==> w.file == Some(me.content))
    && (me.place == Taken ==> w.file.Some?)
    && (me.place == Raised ==> w.file.Some? && w.file != Some(me.content))
    && (me.temporary <==> me.place in {Writing, Ready, Linked, Taken, Passed} || (me.place == Dead && me.temporary))
  }

  predicate HeldContent(w: World, c: string) { exists p :: 0 <= p < |w.writers| && w.writers[p].content == c }

  ghost predicate Inv(w: World) {
    && (forall p :: 0 <= p < |w.writers| ==> WriterAgrees(w, w.writers[p]))
    && (w.file.Some? ==> HeldContent(w, w.file.value))
  }

  /** A present file keeps its content, and writers keep theirs. */
  predicate Keeps(w: World, u: World) {
    && (w.file.Some? ==> u.file == w.file)
    && |u.writers| == |w.writers|
    && forall p :: 0 <= p < |w.writers| ==> u.writers[p].content == w.writers[p].content
  }

  lemma StepKeeps(w: World, p: nat, act: Act)
    requires Inv(w) && p < |w.writers|
    ensures Inv(Step(w, p, act)) && Keeps(w, Step(w, p, act))
  {
    var u := Step(w, p, act);
    forall q | 0 <= q < |u.writers| ensures WriterAgrees(u, u.writers[q]) {
      assert WriterAgrees(w, w.writers[q]);
    }
    if u.file.Some? {
      if w.file.Some? {
        var q :| 0 <= q < |w.writers| && w.writers[q].content == w.file.value;
        assert u.writers[q].content == u.file.value;
      } else {
        assert u.writers[p].content == u.file.value;
      }
    }
  }

  /** At every moment the destination is absent or holds the whole content of one of the writers. */
  lemma {:induction false} RunSafe(turns: seq<Turn>, worlds: seq<World>, i: nat)
    requires Run(turns, worlds) && i < |worlds|
    ensures Inv(worlds[i])
    decreases i
  {
    if i > 0 {
      RunSafe(turns, worlds, i - 1);
      StepKeeps(worlds[i - 1], turns[i - 1].p, turns[i - 1].act);
    }
  }

  lemma KeepsItself(w: World)
    ensures Keeps(w, w)
  {}

  lemma KeepsTransitive(a: World, b: World, c: World)
    requires Keeps(a, b) && Keeps(b, c)
    ensures Keeps(a, c)
  {}

  /** And once it holds something it never changes. */
  lemma {:induction false} WrittenOnce(turns: seq<Turn>, worlds: seq<World>, i: nat, j: nat)
    requires Run(turns, worlds) && i <= j < |worlds|
    ensures Keeps(worlds[i], worlds[j])
    decreases j
  {
    KeepsItself(worlds[i]);
    hide Inv, Step, Keeps;
    if i < j {
      WrittenOnce(turns, worlds, i, j - 1);
      assert worlds[j - 1 + 1] == Step(worlds[j - 1], turns[j - 1].p, turns[j - 1].act);
      RunSafe(turns, worlds, j - 1);
      StepKeeps(worlds[j - 1], turns[j - 1].p, turns[j - 1].act);
      KeepsTransitive(worlds[i], worlds[j - 1], worlds[j]);
    }
  }

  /** A writer returns normally only over its own content, and raises only over another's. */
  lemma ReturnsOverOwnContent(turns: seq<Turn>, worlds: seq<World>, i: nat, p: nat)
    requires Run(turns, worlds) && i < |worlds| && p < |worlds[i].writers|
    ensures worlds[i].writers[p].place == Returned ==> worlds[i].file == Some(worlds[i].writers[p].content)
    ensures worlds[i].writers[p].place == Raised ==>
              worlds[i].file.Some? && worlds[i].file.value != worlds[i].writers[p].content
  {
    RunSafe(turns, worlds, i);
    assert WriterAgrees(worlds[i], worlds[i].writers[p]);
  }

  /** Each writer takes effect at its link: the file changes there as the atomic operation would change it,
      no other action changes it, and what the writer reports later is what the operation answers there. */
  lemma LinkIsThePoint(turns: seq<Turn>, worlds: seq<World>, i: nat, j: nat)
    requires Run(turns, worlds) && i < |turns| && i < j < |worlds|
    ensures
      var t, me := turns[i], worlds[i].writers[turns[i].p];
      worlds[i + 1].file == (if t.act == Link && me.place == Ready then Put(worlds[i].file, me.content)
          else worlds[i].file)
    ensures
      var t, me := turns[i], worlds[i].writers[turns[i].p];
      t.act == Link && me.place == Ready ==>
        |worlds[j].writers| == |worlds[i].writers|
        && (worlds[j].writers[t.p].place == Returned ==> Succeeds(worlds[i].file, me.content))
        && (worlds[j].writers[t.p].place == Raised ==> !Succeeds(worlds[i].file, me.content))
  {
    var t := turns[i];
    assert worlds[i + 1] == Step(worlds[i], t.p, t.act);
    WrittenOnce(turns, worlds, i, i + 1);
    WrittenOnce(turns, worlds, i + 1, j);
    WrittenOnce(turns, worlds, i, j);
    ReturnsOverOwnContent(turns, worlds, j, t.p);
  }

  // --- A writer alone ---------------------------------------------------------------------------------------------

  /** A writer that nobody disturbs returns if the name is free or holds its own content, and raises otherwise. */
  lemma {:induction false} AloneReturnsExactly(w: World, p: nat)
    requires p < |w.writers| && w.writers[p].place == Idle
    ensures
      var me := w.writers[p];
      var linked := Step(Step(Step(w, p, Create), p, Write), p, Link);
      var compared := Step(linked, p, Compare);
      var t := Step(Step(compared, p, Sync), p, Unlink);
      && |t.writers| == |w.writers|
      && (w.file.None? || w.file == Some(me.content) ==>
            t.writers[p].place == Returned && !t.writers[p].temporary && t.file == Some(me.content))
      && (w.file.Some? && w.file != Some(me.content) ==>
            t.writers[p].place == Raised && !t.writers[p].temporary && t.file == w.file)
  {}
}
