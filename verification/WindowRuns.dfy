/** A window over a whole run on one branch: what stays of it, and what later rows can't be. */
module WindowRuns {
  import opened Options
  import opened Audience
  import opened Windows

  datatype WindowStep =
    | Store(body: seq<Row>)
    | Touch
    | WriteDown
    | Present(ids: seq<nat>)
    | Retract(gone: set<nat>, undone: bool, grow: nat)
    | Remove(gone: set<nat>)

  ghost predicate CanStep(w: Window, s: WindowStep) {
    match s
    case Store(body) => Storable(w, body)
    case WriteDown => !w.presented
    case Present(ids) => Presentable(w, ids)
    case Retract(_, _, _) => w.presented
    case _ => true
  }

  ghost function Step(w: Window, s: WindowStep): (v: Window)
    requires Ok(w) && CanStep(w, s)
    ensures Ok(v)
  {
    match s
    case Store(body) => (StoredOk(w, body); Stored(w, body))
    case Touch => Touched(w)
    case WriteDown => (WrittenDownOk(w); WrittenDown(w))
    case Present(ids) => (PresentedOk(w, ids); Presented(w, ids))
    case Retract(gone, undone, grow) => (RetractedOk(w, gone, undone, grow); Retracted(w, gone, undone, grow))
    case Remove(gone) => (RemovedOk(w, gone); Removed(w, gone))
  }

  ghost predicate CanRun(w: Window, steps: seq<WindowStep>)
    requires Ok(w)
    decreases |steps|
  {
    steps == [] || (CanStep(w, steps[0]) && CanRun(Step(w, steps[0]), steps[1..]))
  }

  ghost function Run(w: Window, steps: seq<WindowStep>): (v: Window)
    requires Ok(w) && CanRun(w, steps)
    ensures Ok(v)
    decreases |steps|
  {
    if steps == [] then w else Run(Step(w, steps[0]), steps[1..])
  }

  /**
   What holds of a window and a later one on its branch: the head and the index only grow, a row stored by the head
   was there, a row stored later is of a later body, and a place is either one the earlier window held, with the same
   row, or a new one past its index, presented after its head.
   */
  ghost predicate Grew(a: Window, b: Window) {
    && a.head <= b.head && a.ids <= b.ids && a.bodies <= b.bodies && a.length <= b.length
      && (a.presented ==> b.presented)
    && (forall r | r in b.rows :: r.sequence <= a.head ==> r in a.rows)
    && (forall r | r in b.rows :: r.sequence <= a.head <==> r.body < a.bodies)
    && (forall r | r in b.rows :: r.sequence <= a.head <==> r.id < a.ids)
    && (a.presented ==> forall e | e in b.entries :: e in a.entries || (e.since > a.head && e.ordinal >= a.length))
  }

  lemma StepGrew(a: Window, s: WindowStep)
    requires Ok(a) && CanStep(a, s)
    ensures Grew(a, Step(a, s))
  {
    match s
    case Store(body) =>
      forall r | r in body ensures r.sequence > a.head && r.body == a.bodies && r.id >= a.ids { }
      forall r | r in a.rows ensures r.sequence <= a.head && r.body < a.bodies && r.id < a.ids { }
    case _ =>
      forall r | r in a.rows ensures r.sequence <= a.head && r.body < a.bodies && r.id < a.ids { }
  }

  lemma GrewOn(a: Window, b: Window, c: Window)
    requires Grew(a, b) && Grew(b, c)
    ensures Grew(a, c)
  {
    forall r | r in c.rows
      ensures (r.sequence <= a.head <==> r.body < a.bodies) && (r.sequence <= a.head <==> r.id < a.ids)
    {
      if r.sequence <= b.head { assert r in b.rows; }
    }
  }

  lemma {:induction false} RunGrew(a: Window, steps: seq<WindowStep>)
    requires Ok(a) && CanRun(a, steps)
    ensures Grew(a, Run(a, steps))
    decreases |steps|
  {
    if steps == [] {
      forall r | r in a.rows ensures r.sequence <= a.head && r.body < a.bodies && r.id < a.ids { }
    } else {
      StepGrew(a, steps[0]);
      RunGrew(Step(a, steps[0]), steps[1..]);
      GrewOn(a, Step(a, steps[0]), Run(a, steps));
    }
  }
}
