/** A run that ends with a ready row and no event for it. */
module MediaExample {
  import opened Wrappers
  import opened Media
  import opened MediaEvents

  const DEST := Dest("https://s3.example", "eu", "files", false)
  const TIMING := Timing(5000, 600_000)
  const SLOT := Slot(1, 1, 1, 0)
  const ROW := Row(SLOT, 1, Pending, None, true, None, 0, 0, None)
  const ID: Id := 7

  /** The world while the one asset is under work, before or after its upload. */
  function During(uploaded: bool, k: Work): World {
    World(0, TIMING, map[ID := ROW], map[1 := Bucket(1, DEST, None)], map[1 := Binding(1, 1)],
          if uploaded then map[Address(DEST, ID) := None] else map[],
          map[ID := k],
          map[ID := Trail(DEST, if uploaded then 1 else 0, multiset{}, multiset{}, {})])
  }

  function CellOf(uploaded: bool, k: Work): Cell {
    Cell(ROW, if uploaded then Some(None) else None, k,
         Trail(DEST, if uploaded then 1 else 0, multiset{}, multiset{}, {}))
  }

  lemma Snoc(steps: seq<Step>, s: Step)
    ensures Exec(Init(0, TIMING), steps + [s]) == Apply(Exec(Init(0, TIMING), steps), s)
  {
    ExecSnoc(Init(0, TIMING), steps, s);
  }

  lemma Acts(steps: seq<Step>, uploaded: bool, k: Work, act: Act, uploaded': bool, k': Work) returns (longer: seq<Step>)
    requires Exec(Init(0, TIMING), steps) == During(uploaded, k)
    requires k.dest in {None, Some(DEST)} && k.row.bucket == 1 && k.row.slot == SLOT
    requires uploaded ==> uploaded'
    requires Perform(0, TIMING, Some(DEST), CellOf(uploaded, k), act) == CellOf(uploaded', k')
    ensures longer == steps + [Step.Act(ID, act)] && Exec(Init(0, TIMING), longer) == During(uploaded', k')
  {
    hide Perform, Exec;
    longer := steps + [Step.Act(ID, act)];
    Snoc(steps, Step.Act(ID, act));
    assert View(During(uploaded, k), ID) == CellOf(uploaded, k);
    assert Performed(During(uploaded, k), ID, act) == During(uploaded', k');
  }

  lemma Setup() returns (steps: seq<Step>)
    ensures Exec(Init(0, TIMING), steps) == During(false, Picked(ROW, 0))
  {
    hide Exec;
    var bucket, bound := map[1 := Bucket(1, DEST, None)], map[1 := Binding(1, 1)];
    Snoc([], CreateBucket(1, 1, DEST, None));
    assert Exec(Init(0, TIMING), []) == Init(0, TIMING) by { ExecNil(Init(0, TIMING)); }
    var one := World(0, TIMING, map[], bucket, map[], map[], map[], map[]);
    steps := [] + [CreateBucket(1, 1, DEST, None)];
    assert Exec(Init(0, TIMING), steps) == one;
    Snoc(steps, Link(1, 1, Some(1)));
    steps := steps + [Link(1, 1, Some(1))];
    var two := one.(bindings := bound);
    assert Exec(Init(0, TIMING), steps) == two;
    Snoc(steps, Capture(ID, SLOT));
    steps := steps + [Capture(ID, SLOT)];
    var three := two.(rows := map[ID := ROW], trails := map[ID := Trail(DEST, 0, multiset{}, multiset{}, {})]);
    assert Bound(two, SLOT) && !Taken(two, SLOT);
    assert Exec(Init(0, TIMING), steps) == three;
    Snoc(steps, Pick(ID));
    steps := steps + [Pick(ID)];
  }

  lemma ExecNil(w: World)
    ensures Exec(w, []) == w
  {
  }

  /** The insert of the event fails, the worker retries later, and the change is committed all the same. */
  lemma EventMissingExample() returns (steps: seq<Step>)
    ensures var w := Exec(Init(0, TIMING), steps);
            && ID in w.rows && w.rows[ID].status == Ready && w.rows[ID].note == Some(ReadyNote)
            && ID in w.trails && w.trails[ID].logged == multiset{} && !AllLogged(w.trails[ID])
  {
    hide Exec;
    steps := Setup();
    var k0 := Picked(ROW, 0);
    var k1 := k0.(rounds := 1, dest := Some(DEST), stage := Probing);
    steps := Acts(steps, false, k0, Connect(true), false, k1);
    steps := Acts(steps, false, k1, Head(true), false, k1.(stage := Fetching));
    steps := Acts(steps, false, k1.(stage := Fetching), Fetch(Bytes), false, k1.(stage := Storing));
    var k2 := k1.(row := Uploaded(ROW, None), stage := Checking);
    steps := Acts(steps, false, k1.(stage := Storing), Put(Done, None), true, k2);
    steps := Acts(steps, true, k2, Check, true, k2.(stage := Saving));
    var staged := ROW.(status := Ready, source := false, note := Some(ReadyNote));
    var k3 := k2.(staged := staged, stage := Logging, change := Some(ReadyNote));
    steps := Acts(steps, true, k2.(stage := Saving), Save(true), true, k3);
    steps := Acts(steps, true, k3, Log(false), true, k3.(stage := Retrying));
    var k4 := k3.(staged := staged.(attempts := 1, next := 5000), stage := Committing);
    assert Delay(TIMING, 0) == 5000;
    steps := Acts(steps, true, k3.(stage := Retrying), Retry, true, k4);
    Snoc(steps, Commit(ID));
    steps := steps + [Commit(ID)];
    assert Exec(Init(0, TIMING), steps).trails[ID].missed[ReadyNote] == 1;
  }
}
