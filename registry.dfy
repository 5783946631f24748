/** The route registry written by `setupView` and `registerViews`: the
    `configs` table (view to config) and the `ids` table (route id to config),
    and the flattening of nested view lists into integer orders. These
    functions are the specification the router's registration methods are
    proved against. */
module Registry {
  import opened Wrappers
  import opened Routes

  /** An entry of a view list: a view, or a nested list. */
  datatype ViewTree = Leaf(view: View) | Group(children: seq<ViewTree>)

  datatype Tables = Tables(configs: map<View, Config>, ids: map<Template, Config>)

  /** What `setupView` maintains: each config is a well-formed config of its
      own view, and each id maps to a registered config carrying that id. */
  ghost predicate TablesValid(t: Tables)
  {
    && (forall v :: v in t.configs ==> t.configs[v].view == v && WellFormed(t.configs[v]))
    && (forall id :: id in t.ids ==> t.ids[id].id == id && t.ids[id].view in t.configs
                                     && t.configs[t.ids[id].view] == t.ids[id])
  }

  /** `setupView(View, order)` on the tables `t`: the config and the tables after. */
  function SetupStep(t: Tables, view: View, order: int): (r: (Config, Tables))
    requires TablesValid(t)
    ensures TablesValid(r.1)
    ensures view in r.1.configs && r.1.configs[view] == r.0
    ensures view in t.configs ==> r == (t.configs[view], t)
    ensures view !in t.configs ==> r.0.order == order && r.1.ids == t.ids[r.0.id := r.0]
    ensures forall v :: v in t.configs ==> v in r.1.configs && r.1.configs[v] == t.configs[v]
  {
    if view in t.configs then (t.configs[view], t)
    else
      var c := MakeConfig(view, order);
      (c, Tables(t.configs[view := c], t.ids[c.id := c]))
  }

  /** The views of a (nested) list with the order `registerViews` gives each:
      entry `i` gets `base + i`, and a nested list at entry `i` is flattened
      with base `base + i`. Registration order is left to right. */
  function Leaves(views: seq<ViewTree>, base: int): seq<(View, int)>
    decreases views
  {
    if views == [] then []
    else
      (match views[0]
       case Leaf(v) => [(v, base)]
       case Group(ch) => Leaves(ch, base))
      + Leaves(views[1..], base + 1)
  }

  /** The leftmost, deepest view reached through index 0 at every level, if any. */
  function FirstLeaf(views: seq<ViewTree>): Option<View>
    decreases views
  {
    if views == [] then None
    else match views[0]
      case Leaf(v) => Some(v)
      case Group(ch) => FirstLeaf(ch)
  }

  /** `setupView` applied to each view in turn. */
  function SetupAll(leaves: seq<(View, int)>, t: Tables): (r: Tables)
    requires TablesValid(t)
    ensures TablesValid(r)
  {
    if leaves == [] then t else SetupAll(leaves[1..], SetupStep(t, leaves[0].0, leaves[0].1).1)
  }

  /** `registerViews(views, base)`: the tables after, and the returned config. */
  function Register(views: seq<ViewTree>, base: int, t: Tables): (r: (Option<Config>, Tables))
    requires TablesValid(t)
    ensures TablesValid(r.1) && (r.0.Some? ==> WellFormed(r.0.value))
  {
    var t' := SetupAll(Leaves(views, base), t);
    match FirstLeaf(views)
    case None => (None, t')
    case Some(v) => (if v in t'.configs then Some(t'.configs[v]) else None, t')
  }

  // ---------------------------------------------------------------------
  // Properties

  lemma {:induction false} SetupAllAppend(a: seq<(View, int)>, b: seq<(View, int)>, t: Tables)
    requires TablesValid(t)
    ensures SetupAll(a + b, t) == SetupAll(b, SetupAll(a, t))
  {
    if a != [] {
      assert (a + b)[1..] == a[1..] + b;
      SetupAllAppend(a[1..], b, SetupStep(t, a[0].0, a[0].1).1);
    } else {
      assert a + b == b;
    }
  }

  /** Registration only adds: configs already present are kept as they are. */
  lemma {:induction false} SetupAllKeeps(leaves: seq<(View, int)>, t: Tables, v: View)
    requires TablesValid(t) && v in t.configs
    ensures v in SetupAll(leaves, t).configs && SetupAll(leaves, t).configs[v] == t.configs[v]
  {
    if leaves != [] {
      SetupAllKeeps(leaves[1..], SetupStep(t, leaves[0].0, leaves[0].1).1, v);
    }
  }

  /** The position of the first occurrence of `v` among `leaves`. */
  function FirstIndex(leaves: seq<(View, int)>, v: View): (i: nat)
    ensures i <= |leaves|
    ensures i < |leaves| ==> leaves[i].0 == v
    ensures forall j :: 0 <= j < i ==> leaves[j].0 != v
  {
    if leaves == [] then 0 else if leaves[0].0 == v then 0 else 1 + FirstIndex(leaves[1..], v)
  }

  /** Every listed view ends up registered; a view registered before keeps its
      config (and so its first order), and a new one gets the config built at
      the order of its first occurrence. */
  lemma {:induction false} SetupAllOrder(leaves: seq<(View, int)>, t: Tables, i: nat)
    requires TablesValid(t) && i < |leaves|
    ensures var r := SetupAll(leaves, t); var v := leaves[i].0;
      v in r.configs &&
      r.configs[v] == (if v in t.configs then t.configs[v]
                       else MakeConfig(v, leaves[FirstIndex(leaves, v)].1))
  {
    var v := leaves[i].0;
    var t1 := SetupStep(t, leaves[0].0, leaves[0].1).1;
    if leaves[0].0 == v {
      SetupAllKeeps(leaves[1..], t1, v);
    } else {
      SetupAllOrder(leaves[1..], t1, i - 1);
      assert leaves[1..][i - 1].0 == v;
      assert v in t1.configs <==> v in t.configs;
      assert FirstIndex(leaves, v) == 1 + FirstIndex(leaves[1..], v);
    }
  }

  /** The views entry `e` of a list contributes at order `base`. */
  function Part(e: ViewTree, base: int): seq<(View, int)>
  {
    match e
    case Leaf(v) => [(v, base)]
    case Group(ch) => Leaves(ch, base)
  }

  /** `registerViews`' loop from entry `i` on, which gets order `at`, with
      the tables `t` left by the entries before it: a view is set up at its
      order, a nested list is registered with its order as base. */
  function RegisterFrom(views: seq<ViewTree>, i: nat, at: int, t: Tables): (r: Tables)
    requires TablesValid(t) && i <= |views|
    ensures TablesValid(r)
    decreases views, |views| - i
  {
    if i == |views| then t
    else match views[i]
      case Leaf(v) => RegisterFrom(views, i + 1, at + 1, SetupStep(t, v, at).1)
      case Group(ch) => RegisterFrom(views, i + 1, at + 1, RegisterFrom(ch, 0, at, t))
  }

  lemma LeavesAt(views: seq<ViewTree>, i: nat, at: int)
    requires i < |views|
    ensures Leaves(views[i..], at) == Part(views[i], at) + Leaves(views[i + 1..], at + 1)
  {
    var rest := views[i..];
    assert rest[0] == views[i] && rest[1..] == views[i + 1..];
  }

  lemma PartSetup(e: ViewTree, at: int, t: Tables)
    requires TablesValid(t)
    ensures e.Leaf? ==> SetupAll(Part(e, at), t) == SetupStep(t, e.view, at).1
    ensures e.Group? ==> SetupAll(Part(e, at), t) == SetupAll(Leaves(e.children, at), t)
  {
    if e.Leaf? {
      assert [(e.view, at)][1..] == [];
    }
  }

  /** The loop computes the flattening's registration. */
  lemma {:induction false} RegisterFromLeaves(views: seq<ViewTree>, i: nat, at: int, t: Tables)
    requires TablesValid(t) && i <= |views|
    ensures RegisterFrom(views, i, at, t) == SetupAll(Leaves(views[i..], at), t)
    decreases views, |views| - i, 1
  {
    if i == |views| {
      assert views[i..] == [];
    } else {
      var t1 := SetupAll(Part(views[i], at), t);
      RegisterFromStep(views, i, at, t);
      RegisterFromLeaves(views, i + 1, at + 1, t1);
      LeavesAt(views, i, at);
      SetupAllAppend(Part(views[i], at), Leaves(views[i + 1..], at + 1), t);
    }
  }

  /** One pass of the loop registers entry `i`'s flattening. */
  lemma {:induction false} RegisterFromStep(views: seq<ViewTree>, i: nat, at: int, t: Tables)
    requires TablesValid(t) && i < |views|
    ensures RegisterFrom(views, i, at, t) == RegisterFrom(views, i + 1, at + 1, SetupAll(Part(views[i], at), t))
    decreases views, |views| - i, 0
  {
    PartSetup(views[i], at, t);
    if views[i].Group? {
      var ch := views[i].children;
      RegisterFromLeaves(ch, 0, at, t);
      assert ch[0..] == ch;
    }
  }

  /** The flattening gives entry `i` of a list order `base + i` when it is a
      view, and flattens a nested list at `i` with base `base + i`. */
  lemma {:induction false} LeavesSplit(views: seq<ViewTree>, base: int, i: nat)
    requires i < |views|
    ensures Leaves(views[..i + 1], base) == Leaves(views[..i], base) + Part(views[i], base + i)
    decreases i
  {
    if i > 0 {
      assert views[..i + 1][1..] == views[1..][..i];
      assert views[..i][1..] == views[1..][..i - 1];
      LeavesSplit(views[1..], base + 1, i - 1);
    }
  }

  /** Registering a list returns the config of its leftmost, deepest view,
      or nothing when the first entry is (or starts with) an empty list. */
  lemma RegisterResult(views: seq<ViewTree>, base: int, t: Tables)
    requires TablesValid(t)
    ensures var r := Register(views, base, t);
      (FirstLeaf(views).None? <==> r.0.None?) &&
      (r.0.Some? ==> r.1.configs[FirstLeaf(views).value] == r.0.value)
  {
    var leaves := Leaves(views, base);
    if FirstLeaf(views).Some? {
      FirstLeafIsLeaf(views, base);
      SetupAllOrder(leaves, t, 0);
    }
  }

  /** The first leaf is the first of the flattened views. */
  lemma {:induction false} FirstLeafIsLeaf(views: seq<ViewTree>, base: int)
    requires FirstLeaf(views).Some?
    ensures |Leaves(views, base)| > 0 && Leaves(views, base)[0].0 == FirstLeaf(views).value
    decreases views
  {
    match views[0]
    case Leaf(v) =>
    case Group(ch) =>
      FirstLeafIsLeaf(ch, base);
  }

  /** Registering the same lists again changes nothing and returns the same
      config: setupView is memoised per view, including the first order. */
  lemma RegisterAgain(views: seq<ViewTree>, base: int, base': int, t: Tables)
    requires TablesValid(t)
    ensures var r := Register(views, base, t);
      Register(views, base', r.1) == r
  {
    var r := Register(views, base, t);
    var leaves := Leaves(views, base);
    forall j | 0 <= j < |leaves| ensures leaves[j].0 in r.1.configs {
      SetupAllOrder(leaves, t, j);
    }
    LeavesSameViews(views, base, base');
    SetupAllRegistered(Leaves(views, base'), r.1);
  }

  /** Flattening with another base lists the same views. */
  lemma {:induction false} LeavesSameViews(views: seq<ViewTree>, base: int, base': int)
    ensures |Leaves(views, base)| == |Leaves(views, base')|
    ensures forall j :: 0 <= j < |Leaves(views, base)| ==> Leaves(views, base)[j].0 == Leaves(views, base')[j].0
    decreases views
  {
    if views != [] {
      LeavesSameViews(views[1..], base + 1, base' + 1);
      match views[0]
      case Leaf(v) =>
      case Group(ch) => LeavesSameViews(ch, base, base');
    }
  }

  /** Setting up views that are all registered already is the identity. */
  lemma {:induction false} SetupAllRegistered(leaves: seq<(View, int)>, t: Tables)
    requires TablesValid(t)
    requires forall j :: 0 <= j < |leaves| ==> leaves[j].0 in t.configs
    ensures SetupAll(leaves, t) == t
  {
    if leaves != [] {
      SetupAllRegistered(leaves[1..], t);
    }
  }
}
