/** The native admission ledger, and the abstract fleet that it refines. */
module NativeAdmission {
  import opened Options
  import opened Outcomes
  import opened Sequences

  /** One row of `native_calls`; the call identifier is its primary key. */
  datatype Row = Row(call: string, permit: string, slot: string, child: Option<string>, active: bool)

  type Table = set<Row>

  function Slots(rows: Table): set<string> { set r | r in rows :: r.slot }
  function Calls(rows: Table): set<string> { set r | r in rows :: r.call }
  function Permits(rows: Table): set<string> { set r | r in rows :: r.permit }
  function Known(rows: Table, child: string): Table { set r | r in rows && r.child == Some(child) }
  function Active(rows: Table): Table { set r | r in rows && r.active }
  predicate Busy(rows: Table, slot: string) { exists r :: r in Active(rows) && r.slot == slot }

  /** `reserve` by the registered primary: `permit` and `drawn` are the random identifiers drawn. The
      slot of a known child is that of any of its rows. */
  ghost function Reserve(n: nat, rows: Table, call: string, task: Option<string>, permit: string,
      drawn: string): Outcome<Table> {
    if call == "" || task == Some("") || call in Calls(rows) || permit in Permits(rows) then Refused
    else match task
    case None =>
      if |Slots(rows)| >= n - 1 then Refused else Done(rows + {Row(call, permit, drawn, None, true)})
    case Some(child) =>
      if Known(rows, child) == {} then Refused
      else
        var known :| known in Known(rows, child);
        if Busy(rows, known.slot) then Refused else Done(rows + {Row(call, permit, known.slot, task, true)})
  }

  function Bound(r: Row, permit: string, child: string): Row {
    if r.permit == permit then r.(child := Some(child), active := false) else r
  }

  function Bind(rows: Table, permit: string, child: string): Table { set r | r in rows :: Bound(r, permit, child) }

  predicate Collides(rows: Table, child: string, slot: string) { exists r :: r in Known(rows, child) && r.slot != slot }

  ghost function Complete(rows: Table, primary: string, permit: string, child: string): Outcome<Table> {
    if child == "" || child == primary || permit !in Permits(rows) then Refused
    else
      var row :| row in rows && row.permit == permit;
      if row.child.Some? && row.child != Some(child) then Refused
      else if Collides(rows, child, row.slot) then Refused
      else Done(Bind(rows, permit, child))
  }

  function Children(rows: Table): set<string> { set r | r in rows && r.child.Some? :: r.child.value }

  predicate Reconciled(n: nat, rows: Table, observed: seq<string>) {
    && Active(rows) == {} && NoRepeats(observed)
    && Children(rows) == Elements(observed)
    && |Slots(rows)| < n
  }

  // --- The invariant ------------------------------------------------------------------------------------

  /** What any two rows have to do with each other. */
  predicate Related(a: Row, b: Row) {
    && (a.call == b.call || a.permit == b.permit ==> a == b)
    && (a.slot == b.slot ==> a.child == b.child)
    && (a.slot == b.slot && a.child == None ==> a == b)
    && (a.child == b.child && a.child.Some? ==> a.slot == b.slot)
    && (a.slot == b.slot && a.active && b.active ==> a == b)
    && (a.child == None ==> a.active)
  }

  ghost predicate Inv(n: nat, rows: Table) {
    (forall a, b :: a in rows && b in rows ==> Related(a, b)) && |Slots(rows)| <= n - 1
  }

  lemma ReserveNewKeeps(n: nat, rows: Table, row: Row)
    requires Inv(n, rows) && |Slots(rows)| < n - 1
    requires row.call !in Calls(rows) && row.permit !in Permits(rows) && row.slot !in Slots(rows)
    requires row.child == None && row.active
    ensures Inv(n, rows + {row})
  {
    assert Slots(rows + {row}) == Slots(rows) + {row.slot};
    forall a | a in rows ensures Related(a, row) && Related(row, a) {
      assert a.call in Calls(rows) && a.permit in Permits(rows) && a.slot in Slots(rows);
      assert Related(a, a);
    }
  }

  lemma ReserveKnownKeeps(n: nat, rows: Table, row: Row, known: Row)
    requires Inv(n, rows) && known in rows && known.child.Some? && !Busy(rows, known.slot)
    requires row.call !in Calls(rows) && row.permit !in Permits(rows)
    requires row.slot == known.slot && row.child == known.child && row.active
    ensures Inv(n, rows + {row})
  {
    assert known.slot in Slots(rows);
    assert Slots(rows + {row}) == Slots(rows);
    forall a | a in rows ensures Related(a, row) && Related(row, a) {
      assert a.call in Calls(rows) && a.permit in Permits(rows);
      assert Related(a, known) && Related(known, a) && Related(a, a);
      if a.active { assert a in Active(rows); }
    }
  }

  lemma BindKeeps(n: nat, rows: Table, row: Row, child: string)
    requires Inv(n, rows) && row in rows
    requires row.child == None || row.child == Some(child)
    requires !Collides(rows, child, row.slot)
    ensures Inv(n, Bind(rows, row.permit, child))
  {
    var after := Bind(rows, row.permit, child);
    forall r | r in rows ensures Bound(r, row.permit, child).slot == r.slot {}
    assert forall s :: s in Slots(after) ==> s in Slots(rows);
    assert Slots(after) == Slots(rows) by {
      forall r | r in rows ensures r.slot in Slots(after) { assert Bound(r, row.permit, child) in after; }
    }
    forall x, y | x in after && y in after ensures Related(x, y) {
      var a :| a in rows && x == Bound(a, row.permit, child);
      var b :| b in rows && y == Bound(b, row.permit, child);
      BoundRelated(rows, a, b, row, child);
    }
  }

  lemma BoundRelated(rows: Table, a: Row, b: Row, row: Row, child: string)
    requires forall x, y :: x in rows && y in rows ==> Related(x, y)
    requires a in rows && b in rows && row in rows
    requires row.child == None || row.child == Some(child)
    requires !Collides(rows, child, row.slot)
    ensures Related(Bound(a, row.permit, child), Bound(b, row.permit, child))
  {
    assert Related(a, b) && Related(a, row) && Related(b, row) && Related(row, a) && Related(row, b);
    if a.child == Some(child) { assert a in Known(rows, child); }
    if b.child == Some(child) { assert b in Known(rows, child); }
  }

  /** Every admission keeps the invariant, provided that a new slot identifier really is new. */
  lemma ReserveKeeps(n: nat, rows: Table, call: string, task: Option<string>, permit: string, drawn: string)
    requires Inv(n, rows) && drawn !in Slots(rows) && Reserve(n, rows, call, task, permit, drawn).Done?
    ensures Inv(n, Reserve(n, rows, call, task, permit, drawn).value)
  {
    match task
    case None => ReserveNewKeeps(n, rows, Row(call, permit, drawn, None, true));
    case Some(child) =>
      var known :| known in Known(rows, child)
        && Reserve(n, rows, call, task, permit, drawn).value == rows + {Row(call, permit, known.slot, task, true)}
        && !Busy(rows, known.slot);
      ReserveKnownKeeps(n, rows, Row(call, permit, known.slot, task, true), known);
  }

  lemma CompleteKeeps(n: nat, rows: Table, primary: string, permit: string, child: string)
    requires Inv(n, rows) && Complete(rows, primary, permit, child).Done?
    ensures Inv(n, Complete(rows, primary, permit, child).value)
  {
    var row :| row in rows && row.permit == permit && (row.child == None || row.child == Some(child))
      && !Collides(rows, child, row.slot);
    BindKeeps(n, rows, row, child);
  }

  // --- The abstract fleet -----------------------------------------------------------------------------------

  /** At most one child for each slot, none of them shared, and the slots with a call under way. */
  datatype Fleet = Fleet(children: map<string, Option<string>>, busy: set<string>)

  ghost function ChildOf(rows: Table, slot: string): Option<string>
    requires slot in Slots(rows)
  {
    var r :| r in rows && r.slot == slot; r.child
  }

  ghost function FleetOf(rows: Table): Fleet {
    Fleet(map slot | slot in Slots(rows) :: ChildOf(rows, slot), set r | r in Active(rows) :: r.slot)
  }

  ghost predicate Lawful(n: nat, f: Fleet) {
    && |f.children| <= n - 1
    && f.busy <= f.children.Keys
    && (forall s :: s in f.children && f.children[s] == None ==> s in f.busy)
    && (forall s, t :: s in f.children && t in f.children && f.children[s] == f.children[t] && f.children[s].Some? ==>
        s == t)
  }

  predicate Owns(f: Fleet, slot: string, child: string) { slot in f.children && f.children[slot] == Some(child) }

  lemma ChildOfRow(n: nat, rows: Table, r: Row)
    requires Inv(n, rows) && r in rows
    ensures r.slot in Slots(rows) && FleetOf(rows).children[r.slot] == r.child
  {
    assert r.slot in Slots(rows);
    var q :| q in rows && q.slot == r.slot && ChildOf(rows, r.slot) == q.child;
    assert Related(q, r);
  }

  /** A ledger that keeps the invariant is a lawful fleet. */
  lemma FleetIsLawful(n: nat, rows: Table)
    requires Inv(n, rows)
    ensures Lawful(n, FleetOf(rows))
  {
    var f := FleetOf(rows);
    assert f.children.Keys == Slots(rows);
    forall s | s in f.children && f.children[s] == None ensures s in f.busy {
      var r :| r in rows && r.slot == s;
      ChildOfRow(n, rows, r);
      assert Related(r, r) && r in Active(rows);
    }
    forall s, t | s in f.children && t in f.children && f.children[s] == f.children[t] && f.children[s].Some?
      ensures s == t
    {
      var a :| a in rows && a.slot == s;
      var b :| b in rows && b.slot == t;
      ChildOfRow(n, rows, a);
      ChildOfRow(n, rows, b);
      assert Related(a, b);
    }
  }

  /** A new child is admitted exactly when the fleet has a slot to spare, and then takes a new slot. */
  lemma ReserveNewRefines(n: nat, rows: Table, call: string, permit: string, drawn: string)
    requires Inv(n, rows) && drawn !in Slots(rows)
    requires call != "" && call !in Calls(rows) && permit !in Permits(rows)
    ensures
      var (f, r) := (FleetOf(rows), Reserve(n, rows, call, None, permit, drawn));
      && (r.Done? <==> |f.children| < n - 1)
      && (r.Done? ==> FleetOf(r.value) == Fleet(f.children[drawn := None], f.busy + {drawn}))
  {
    var f, r := FleetOf(rows), Reserve(n, rows, call, None, permit, drawn);
    assert f.children.Keys == Slots(rows);
    if r.Done? {
      var row := Row(call, permit, drawn, None, true);
      ReserveNewKeeps(n, rows, row);
      AddRow(n, rows, row);
    }
  }

  lemma AddRow(n: nat, rows: Table, row: Row)
    requires Inv(n, rows) && Inv(n, rows + {row}) && row.active
    ensures FleetOf(rows + {row}) == Fleet(FleetOf(rows).children[row.slot := row.child],
        FleetOf(rows).busy + {row.slot})
  {
    hide Inv;
    var after := rows + {row};
    assert Slots(after) == Slots(rows) + {row.slot};
    assert Active(after) == Active(rows) + {row};
    forall s | s in Slots(after)
      ensures FleetOf(after).children[s] == FleetOf(rows).children[row.slot := row.child][s]
    {
      var r :| r in after && r.slot == s;
      ChildOfRow(n, after, r);
      ChildOfRow(n, after, row);
      if r in rows { ChildOfRow(n, rows, r); }
    }
  }

  /** A known child is admitted again exactly when it owns a slot and that slot is not busy. */
  lemma ReserveKnownRefines(n: nat, rows: Table, call: string, child: string, permit: string, drawn: string)
    requires Inv(n, rows) && child != ""
    requires call != "" && call !in Calls(rows) && permit !in Permits(rows)
    ensures
      var (f, r) := (FleetOf(rows), Reserve(n, rows, call, Some(child), permit, drawn));
      && (r.Done? <==> exists slot :: Owns(f, slot, child) && slot !in f.busy)
      && (r.Done? ==> forall slot :: Owns(f, slot, child) ==> FleetOf(r.value) == f.(busy := f.busy + {slot}))
  {
    var f, r := FleetOf(rows), Reserve(n, rows, call, Some(child), permit, drawn);
    FleetIsLawful(n, rows);
    forall slot | Owns(f, slot, child) ensures exists k :: k in Known(rows, child) && k.slot == slot {
      var k :| k in rows && k.slot == slot;
      ChildOfRow(n, rows, k);
      assert k in Known(rows, child);
    }
    if Known(rows, child) != {} {
      var known :| known in Known(rows, child)
        && (Busy(rows, known.slot) ==> r == Refused)
        && (!Busy(rows, known.slot) ==> r == Done(rows + {Row(call, permit, known.slot, Some(child), true)}));
      ChildOfRow(n, rows, known);
      assert Owns(f, known.slot, child);
      assert Busy(rows, known.slot) <==> known.slot in f.busy;
      if !Busy(rows, known.slot) {
        var row := Row(call, permit, known.slot, Some(child), true);
        ReserveKnownKeeps(n, rows, row, known);
        AddRow(n, rows, row);
        assert f.children[row.slot := row.child] == f.children;
      }
    }
  }

  /** A completion binds its slot to the child, and frees the slot if it was this permit that held it. It
      is admitted exactly when the slot has no other child and the child no other slot. */
  lemma CompleteRefines(n: nat, rows: Table, primary: string, row: Row, child: string)
    requires Inv(n, rows) && row in rows && child != "" && child != primary
    ensures
      var (f, r) := (FleetOf(rows), Complete(rows, primary, row.permit, child));
      && (r.Done? <==>
            && (f.children[row.slot] == None || f.children[row.slot] == Some(child))
            && forall slot :: Owns(f, slot, child) ==> slot == row.slot)
      && (r.Done? ==>
            FleetOf(r.value)
            == Fleet(f.children[row.slot := Some(child)], if row.active then f.busy - {row.slot} else f.busy))
  {
    var f, r := FleetOf(rows), Complete(rows, primary, row.permit, child);
    ChildOfRow(n, rows, row);
    assert row.permit in Permits(rows);
    assert forall q :: q in rows && q.permit == row.permit ==> Related(q, row);
    CollidesIffOwned(n, rows, child, row.slot);
    if r.Done? {
      BindKeeps(n, rows, row, child);
      BindFleet(n, rows, row, child);
    }
  }

  lemma CollidesIffOwned(n: nat, rows: Table, child: string, slot: string)
    requires Inv(n, rows)
    ensures Collides(rows, child, slot) <==> exists s :: Owns(FleetOf(rows), s, child) && s != slot
  {
    var f := FleetOf(rows);
    if s :| Owns(f, s, child) && s != slot {
      var k :| k in rows && k.slot == s;
      ChildOfRow(n, rows, k);
      assert k in Known(rows, child);
    }
    if k :| k in Known(rows, child) && k.slot != slot {
      ChildOfRow(n, rows, k);
      assert Owns(f, k.slot, child);
    }
  }

  lemma BindFleet(n: nat, rows: Table, row: Row, child: string)
    requires Inv(n, rows) && row in rows && Inv(n, Bind(rows, row.permit, child))
    requires row.child == None || row.child == Some(child)
    ensures FleetOf(Bind(rows, row.permit, child)) ==
      Fleet(FleetOf(rows).children[row.slot := Some(child)],
            if row.active then FleetOf(rows).busy - {row.slot} else FleetOf(rows).busy)
  {
    var after := Bind(rows, row.permit, child);
    BindChildren(n, rows, row, child);
    BindBusy(n, rows, row, child);
  }

  lemma BindChildren(n: nat, rows: Table, row: Row, child: string)
    requires Inv(n, rows) && row in rows && Inv(n, Bind(rows, row.permit, child))
    requires row.child == None || row.child == Some(child)
    ensures FleetOf(Bind(rows, row.permit, child)).children == FleetOf(rows).children[row.slot := Some(child)]
  {
    var after := Bind(rows, row.permit, child);
    var bound := Bound(row, row.permit, child);
    assert bound in after;
    ChildOfRow(n, after, bound);
    ChildOfRow(n, rows, row);
    forall s | s in Slots(rows)
      ensures s in Slots(after) && FleetOf(after).children[s] == FleetOf(rows).children[row.slot := Some(child)][s]
    {
      var r :| r in rows && r.slot == s;
      assert Bound(r, row.permit, child) in after;
      ChildOfRow(n, after, Bound(r, row.permit, child));
      ChildOfRow(n, rows, r);
      assert Related(r, row);
    }
    forall s | s in Slots(after) ensures s in Slots(rows) {}
  }

  lemma BindBusy(n: nat, rows: Table, row: Row, child: string)
    requires Inv(n, rows) && row in rows
    ensures FleetOf(Bind(rows, row.permit, child)).busy ==
      if row.active then FleetOf(rows).busy - {row.slot} else FleetOf(rows).busy
  {
    var after := Bind(rows, row.permit, child);
    var was := FleetOf(rows).busy;
    var now := FleetOf(after).busy;
    forall s | s in now ensures s in was && (row.active ==> s != row.slot) {
      var x :| x in Active(after) && x.slot == s;
      var r :| r in rows && x == Bound(r, row.permit, child);
      assert r in Active(rows) && Related(r, row);
    }
    forall s | s in was && (row.active ==> s != row.slot) ensures s in now {
      var r :| r in Active(rows) && r.slot == s;
      assert Related(r, row);
      assert Bound(r, row.permit, child) in after;
      assert r in Active(after);
    }
  }

  // --- Runs and reconciliation ---------------------------------------------------------------------------------

  datatype Event =
    | Dispatch(call: string, task: Option<string>, permit: string, drawn: string)
    | Finish(permit: string, child: string)

  ghost function After(n: nat, primary: string, rows: Table, e: Event): Table {
    var r := match e
      case Dispatch(call, task, permit, drawn) => Reserve(n, rows, call, task, permit, drawn)
      case Finish(permit, child) => Complete(rows, primary, permit, child);
    if r.Done? then r.value else rows
  }

  /** The table after a run of calls, refused ones included. */
  ghost function Run(n: nat, primary: string, events: seq<Event>): Table {
    if events == [] then {} else After(n, primary, Run(n, primary, events[..|events| - 1]), events[|events| - 1])
  }

  /** Random slot identifiers: none is drawn that the table already holds. */
  ghost predicate FreshSlots(n: nat, primary: string, events: seq<Event>) {
    forall i :: 0 <= i < |events| && events[i].Dispatch? ==> events[i].drawn !in Slots(Run(n, primary, events[..i]))
  }

  /** In every reachable table at most N-1 children were ever given a slot, every slot has at most one
      call under way, its calls name one child, and no two slots share a child. */
  lemma {:induction false} RunIsLawful(n: nat, primary: string, events: seq<Event>)
    requires n >= 1 && FreshSlots(n, primary, events)
    ensures Inv(n, Run(n, primary, events)) && Lawful(n, FleetOf(Run(n, primary, events)))
    decreases |events|
  {
    if events == [] {
      assert Slots({}) == {};
    } else {
      var k := |events| - 1;
      var init := events[..k];
      assert forall i :: 0 <= i < k ==> init[..i] == events[..i];
      RunIsLawful(n, primary, init);
      var rows := Run(n, primary, init);
      match events[k] {
        case Dispatch(call, task, permit, drawn) =>
          if Reserve(n, rows, call, task, permit, drawn).Done? { ReserveKeeps(n, rows, call, task, permit, drawn); }
        case Finish(permit, child) =>
          if Complete(rows, primary, permit, child).Done? { CompleteKeeps(n, rows, primary, permit, child); }
      }
    }
    FleetIsLawful(n, Run(n, primary, events));
  }

  /** A reconciliation is valid exactly when no slot is busy and the observed children, each listed once,
      are the children of the slots, one for each. */
  lemma ReconciledIffFleet(n: nat, rows: Table, observed: seq<string>)
    requires n >= 1 && Inv(n, rows)
    ensures Reconciled(n, rows, observed) <==>
      var f := FleetOf(rows);
      && f.busy == {} && NoRepeats(observed)
      && (forall slot :: slot in f.children ==> f.children[slot].Some? && f.children[slot].value in observed)
      && (forall child :: child in observed ==> exists slot :: Owns(f, slot, child))
  {
    var f := FleetOf(rows);
    assert Active(rows) == {} <==> f.busy == {} by {
      if r :| r in Active(rows) { assert r.slot in f.busy; }
    }
    if Active(rows) == {} {
      FleetIsLawful(n, rows);
      ChildrenAreOwned(n, rows);
      forall slot | slot in f.children ensures f.children[slot].Some? && f.children[slot].value in Children(rows) {
        assert Owns(f, slot, f.children[slot].value);
      }
      var all := Elements(observed);
      if Children(rows) == all {
        forall child | child in observed ensures exists slot :: Owns(f, slot, child) { assert child in Children(rows); }
      }
    }
  }

  lemma ChildrenAreOwned(n: nat, rows: Table)
    requires Inv(n, rows)
    ensures forall child :: child in Children(rows) <==> exists slot :: Owns(FleetOf(rows), slot, child)
  {
    var f := FleetOf(rows);
    forall child | child in Children(rows) ensures exists slot :: Owns(f, slot, child) {
      var r :| r in rows && r.child == Some(child);
      ChildOfRow(n, rows, r);
      assert Owns(f, r.slot, child);
    }
    forall child, slot | Owns(f, slot, child) ensures child in Children(rows) {
      var r :| r in rows && r.slot == slot;
      ChildOfRow(n, rows, r);
    }
  }

  // --- The ledger object ----------------------------------------------------------------------------------------

  class Ledger {
    const n: nat
    const primary: string
    var rows: Table

    ghost predicate Valid() reads this { n >= 1 && Inv(n, rows) }

    constructor (n: nat, primary: string)
      requires n >= 1
      ensures Valid() && rows == {} && this.n == n && this.primary == primary
    {
      this.n, this.primary, rows := n, primary, {};
      new;
      assert Slots(rows) == {};
    }

    method ReserveCall(caller: string, call: string, task: Option<string>, permit: string,
        drawn: string) returns (ok: bool)
      requires Valid() && drawn !in Slots(rows)
      modifies this
      ensures Valid()
      ensures ok <==> caller == primary && Reserve(n, old(rows), call, task, permit, drawn).Done?
      ensures rows == if ok then Reserve(n, old(rows), call, task, permit, drawn).value else old(rows)
    {
      if caller != primary || call == "" || task == Some("") { return false; }
      if call in Calls(rows) || permit in Permits(rows) { return false; }
      var slot := drawn;
      ghost var spec := Reserve(n, rows, call, task, permit, drawn);
      if task.None? {
        if |Slots(rows)| >= n - 1 { return false; }
      } else {
        if Known(rows, task.value) == {} { return false; }
        var known :| known in Known(rows, task.value);
        assert forall k :: k in Known(rows, task.value) ==> Related(k, known);
        slot := known.slot;
        if Busy(rows, slot) { return false; }
      }
      assert spec == Done(rows + {Row(call, permit, slot, task, true)});
      ReserveKeeps(n, rows, call, task, permit, drawn);
      rows := rows + {Row(call, permit, slot, task, true)};
      return true;
    }

    method CompleteCall(permit: string, child: string) returns (ok: bool)
      requires Valid()
      modifies this
      ensures Valid()
      ensures ok <==> Complete(old(rows), primary, permit, child).Done?
      ensures rows == if ok then Complete(old(rows), primary, permit, child).value else old(rows)
    {
      if child == "" || child == primary || permit !in Permits(rows) { return false; }
      var row :| row in rows && row.permit == permit;
      assert forall q :: q in rows && q.permit == permit ==> Related(q, row);
      if row.child.Some? && row.child != Some(child) { return false; }
      if Collides(rows, child, row.slot) { return false; }
      CompleteKeeps(n, rows, primary, permit, child);
      rows := Bind(rows, permit, child);
      return true;
    }

    method Reconcile(observed: seq<string>) returns (valid: bool, unresolved: set<string>)
      requires Valid()
      ensures valid <==> Reconciled(n, rows, observed)
      ensures unresolved == set r | r in rows && r.active :: r.permit
    {
      unresolved := set r | r in rows && r.active :: r.permit;
      var seen := Elements(observed);
      assert unresolved == {} <==> Active(rows) == {} by {
        if r :| r in Active(rows) { assert r.permit in unresolved; }
        if p :| p in unresolved {
          var r :| r in rows && r.active && r.permit == p;
          assert r in Active(rows);
        }
      }
      DistinctBySize(observed);
      valid := unresolved == {} && |seen| == |observed| && Children(rows) == seen && |Slots(rows)| < n;
    }
  }

  // --- Calls that are refused outright ---------------------------------------------------------------------------

  /** An empty or repeated call, an empty task, and a repeated permit are refused, whatever the fleet. */
  lemma {:induction false} RepeatedCallIsRefused(n: nat, rows: Table, call: string, task: Option<string>,
      permit: string,
      drawn: string)
    requires call == "" || task == Some("") || exists r :: r in rows && (r.call == call || r.permit == permit)
    ensures Reserve(n, rows, call, task, permit, drawn) == Refused
  {
    if r :| r in rows && (r.call == call || r.permit == permit) {}
  }

  /** And no reconciliation is valid over a table with as many slots as the fleet has members. */
  lemma {:induction false} TooManySlotsAreInvalid(n: nat, rows: Table, observed: seq<string>)
    requires |Slots(rows)| >= n
    ensures !Reconciled(n, rows, observed)
  {}

  /** So is the completion of an unknown permit, and one that names no child or the primary itself. */
  lemma {:induction false} UnknownPermitIsRefused(rows: Table, primary: string, permit: string, child: string)
    requires child == "" || child == primary || forall r :: r in rows ==> r.permit != permit
    ensures Complete(rows, primary, permit, child) == Refused
  {}
}
