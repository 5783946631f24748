/** View instances and the positional diff `updateStack` performs between
    the previous instance stack of a host and the new history state.

    An instance is a handle into an instance table. The `configs` and
    `disconnects` weak maps keyed by instance become the `config` and
    `cleanups` fields of its table entry; `cleanups == None` is a deleted
    disconnect list. Running a cleanup callback appends (instance, cleanup)
    to a log, so the model can say which callbacks ran and how often. */
module Stack {
  import opened Wrappers
  import opened Routes

  datatype Inst = Inst(config: Config, cleanups: Option<seq<nat>>, fields: Params)

  datatype World = World(insts: seq<Inst>, log: seq<(nat, nat)>)

  predicate Handles(w: World, hs: seq<nat>) { forall j :: 0 <= j < |hs| ==> hs[j] < |w.insts| }

  predicate Connected(w: World, h: nat) { h < |w.insts| && w.insts[h].cleanups.Some? }

  predicate Distinct(hs: seq<nat>) { forall a, b :: 0 <= a < b < |hs| ==> hs[a] != hs[b] }

  /** `callbacks.map(cb => cb(instance)).filter(cb => cb)`: the cleanups the
      setup callbacks return, in order, skipping falsy ones. */
  function CleanupsOf(setups: seq<Setup>): (r: seq<nat>)
    ensures |r| <= |setups|
    ensures forall k :: k in r <==> exists j :: 0 <= j < |setups| && setups[j].cleanup == Some(k)
  {
    if setups == [] then []
    else
      var rest := CleanupsOf(setups[1..]);
      assert forall j :: 0 < j < |setups| ==> setups[j] == setups[1..][j - 1];
      (if setups[0].cleanup.Some? then [setups[0].cleanup.value] else []) + rest
  }

  /** One setup contributes its cleanup, if it returns one. */
  lemma CleanupsOfOne(x: Setup)
    ensures CleanupsOf([x]) == (if x.cleanup.Some? then [x.cleanup.value] else [])
  {
    assert [x][1..] == [];
  }

  /** The cleanups keep the order of the setups that return them: the list
      for a concatenation is the concatenation of the lists. */
  lemma {:induction false} CleanupsOfAppend(a: seq<Setup>, b: seq<Setup>)
    ensures CleanupsOf(a + b) == CleanupsOf(a) + CleanupsOf(b)
    decreases |a|
  {
    if a == [] {
      assert a + b == b;
    } else {
      var h := if a[0].cleanup.Some? then [a[0].cleanup.value] else [];
      assert (a + b)[0] == a[0] && (a + b)[1..] == a[1..] + b;
      CleanupsOfAppend(a[1..], b);
      assert CleanupsOf(a + b) == h + CleanupsOf(a[1..] + b);
      assert CleanupsOf(a) == h + CleanupsOf(a[1..]);
    }
  }

  /** `config.connect(instance)`: runs the setups on an existing instance,
      which keeps its properties. */
  function ConnectExisting(w: World, c: Config, h: nat): (r: World)
    requires h < |w.insts|
    ensures |r.insts| == |w.insts| && r.log == w.log
    ensures r.insts[h] == Inst(c, Some(CleanupsOf(c.view.setups)), w.insts[h].fields)
    ensures forall g :: 0 <= g < |w.insts| && g != h ==> r.insts[g] == w.insts[g]
  {
    w.(insts := w.insts[h := Inst(c, Some(CleanupsOf(c.view.setups)), w.insts[h].fields)])
  }

  /** `config.connect()`: a fresh instance, connected. */
  function ConnectFresh(w: World, c: Config): (r: (nat, World))
    ensures r.0 == |w.insts| && r.1.insts == w.insts + [Inst(c, Some(CleanupsOf(c.view.setups)), map[])]
    ensures r.1.log == w.log
  {
    (|w.insts|, w.(insts := w.insts + [Inst(c, Some(CleanupsOf(c.view.setups)), map[])]))
  }

  function Pairs(h: nat, list: seq<nat>): (r: seq<(nat, nat)>)
    ensures |r| == |list| && forall j :: 0 <= j < |list| ==> r[j] == (h, list[j])
  {
    seq(|list|, j requires 0 <= j < |list| => (h, list[j]))
  }

  /** `disconnectInstance(h)`: runs each cleanup of the list once, in order,
      and deletes the list; `None` when there is no list (`undefined.forEach`
      throws). */
  function Disconnect(w: World, h: nat): (r: Option<World>)
    requires h < |w.insts|
    ensures r.Some? <==> w.insts[h].cleanups.Some?
    ensures r.Some? ==>
      && r.value.log == w.log + Pairs(h, w.insts[h].cleanups.value)
      && r.value.insts == w.insts[h := w.insts[h].(cleanups := None)]
  {
    match w.insts[h].cleanups
    case None => None
    case Some(list) => Some(World(w.insts[h := w.insts[h].(cleanups := None)], w.log + Pairs(h, list)))
  }

  /** A second disconnection without a reconnection in between runs nothing
      and throws instead: each list of cleanups runs at most once. */
  lemma DisconnectOnce(w: World, h: nat)
    requires h < |w.insts| && w.insts[h].cleanups.Some?
    ensures Disconnect(Disconnect(w, h).value, h) == None
  {
  }

  /** `Object.assign(instance, params)` */
  function Assign(w: World, h: nat, params: Params): (r: World)
    requires h < |w.insts|
    ensures |r.insts| == |w.insts| && r.log == w.log
    ensures r.insts[h].config == w.insts[h].config && r.insts[h].cleanups == w.insts[h].cleanups
    ensures forall k :: k in params ==> k in r.insts[h].fields && r.insts[h].fields[k] == params[k]
    ensures forall k :: k in w.insts[h].fields && k !in params ==> k in r.insts[h].fields && r.insts[h].fields[k] == w.insts[h].fields[k]
    ensures forall k :: k in r.insts[h].fields ==> k in params || k in w.insts[h].fields
    ensures forall g :: 0 <= g < |w.insts| && g != h ==> r.insts[g] == w.insts[g]
  {
    w.(insts := w.insts[h := w.insts[h].(fields := w.insts[h].fields + params)])
  }

  function Resolve(ids: map<Template, Config>, id: Template): Option<Config>
  {
    if id in ids then Some(ids[id]) else None
  }

  /** The outcome at one index: the world after, and the instance placed
      there (`None` when `config.connect()` is reached with no config). */
  datatype Slot = Slot(w: World, inst: Option<nat>)

  /** Whether the previous instance `h` is reused for config `cfg`. */
  predicate Reusable(w: World, h: nat, cfg: Option<Config>)
    requires h < |w.insts|
  {
    cfg == Some(w.insts[h].config)
  }

  /** The body of the `state.map` callback of `updateStack` at one index. */
  function Place(w: World, d: Desc, prev: Option<nat>, cfg: Option<Config>, isTop: bool): (s: Slot)
    requires prev.Some? ==> prev.value < |w.insts|
    ensures |s.w.insts| >= |w.insts|
    ensures s.inst.Some? ==> s.inst.value < |s.w.insts|
    ensures forall g :: 0 <= g < |w.insts| ==> s.w.insts[g].config == w.insts[g].config
  {
    var w1 :=
      if prev.Some? && !Reusable(w, prev.value, cfg) && w.insts[prev.value].cleanups.Some?
      then Disconnect(w, prev.value).value
      else if prev.Some? && Reusable(w, prev.value, cfg) && w.insts[prev.value].cleanups.None?
      then ConnectExisting(w, cfg.value, prev.value)
      else w;
    if prev.Some? && Reusable(w, prev.value, cfg) then
      Slot(if isTop then Assign(w1, prev.value, d.params) else w1, prev)
    else if cfg.None? then Slot(w1, None)
    else
      var (h, w2) := ConnectFresh(w1, cfg.value);
      Slot(if isTop then Assign(w2, h, d.params) else w2, Some(h))
  }

  datatype Pass = Pass(w: World, stack: Option<seq<nat>>)

  /** `state.map(...)` from index `i` on, with the instances of indices below
      `i` already in `acc`. */
  function MapFrom(w: World, state: seq<Desc>, last: seq<nat>, ids: map<Template, Config>, i: nat, acc: seq<nat>): (p: Pass)
    requires i <= |state| && Handles(w, last)
    ensures |p.w.insts| >= |w.insts|
    ensures forall g :: 0 <= g < |w.insts| ==> p.w.insts[g].config == w.insts[g].config
    decreases |state| - i
  {
    if i == |state| then Pass(w, Some(acc))
    else
      var s := Place(w, state[i], if i < |last| then Some(last[i]) else None,
                     Resolve(ids, state[i].id), i == |state| - 1);
      if s.inst.None? then Pass(s.w, None)
      else MapFrom(s.w, state, last, ids, i + 1, acc + [s.inst.value])
  }

  datatype Tail = Tail(w: World, ok: bool)

  /** The trailing loop: `disconnectInstance(lastStack[j])` for `j` from
      `from` on; stops at the first instance without a list (it throws). */
  function DisconnectFrom(w: World, last: seq<nat>, from: nat): (t: Tail)
    requires Handles(w, last)
    ensures |t.w.insts| == |w.insts|
    ensures forall g :: 0 <= g < |w.insts| && (forall j :: from <= j < |last| ==> last[j] != g) ==>
      t.w.insts[g] == w.insts[g]
    decreases |last| - from
  {
    if from >= |last| then Tail(w, true)
    else match Disconnect(w, last[from])
      case None => Tail(w, false)
      case Some(w') => DisconnectFrom(w', last, from + 1)
  }

  /** What `updateStack` does: the world after, the stack stored for the
      host (`None` if none is stored) and whether it returned normally. */
  datatype Update = Update(w: World, stack: Option<seq<nat>>, ok: bool)

  function UpdateSpec(w: World, state: Option<seq<Desc>>, last: seq<nat>, ids: map<Template, Config>): Update
    requires Handles(w, last)
  {
    if state.None? then Update(w, None, false)
    else
      var p := MapFrom(w, state.value, last, ids, 0, []);
      if p.stack.None? then Update(p.w, None, false)
      else
        var t := DisconnectFrom(p.w, last, |state.value|);
        Update(t.w, p.stack, t.ok)
  }

  // ---------------------------------------------------------------------
  // Properties of the reconciliation

  /** What index `j` of the new stack holds: the previous instance at `j` when
      its config is the one `ids` gives for the entry's id, otherwise a fresh
      instance (a handle beyond the table the pass started from). */
  ghost predicate PlacedAt(w0: World, state: seq<Desc>, last: seq<nat>, ids: map<Template, Config>, stack: seq<nat>, j: nat)
    requires Handles(w0, last) && j < |stack| && j < |state|
  {
    if j < |last| && Reusable(w0, last[j], Resolve(ids, state[j].id)) then stack[j] == last[j]
    else stack[j] >= |w0.insts| && Resolve(ids, state[j].id).Some?
  }

  /** The instance one index gets: the previous one when reusable (judged on
      the table `w0` the pass started from), otherwise a fresh handle beyond
      `w0`'s table, and then the entry has a config. */
  lemma PlacePlaces(w0: World, w: World, d: Desc, prev: Option<nat>, cfg: Option<Config>, isTop: bool)
    requires prev.Some? ==> prev.value < |w0.insts|
    requires |w.insts| >= |w0.insts|
    requires forall g :: 0 <= g < |w0.insts| ==> w.insts[g].config == w0.insts[g].config
    ensures var s := Place(w, d, prev, cfg, isTop);
      s.inst.Some? ==>
        if prev.Some? && Reusable(w0, prev.value, cfg) then s.inst == prev
        else s.inst.value >= |w0.insts| && cfg.Some?
  {
  }

  lemma {:induction false} MapFromPlaces(w0: World, w: World, state: seq<Desc>, last: seq<nat>, ids: map<Template, Config>, i: nat, acc: seq<nat>)
    requires i <= |state| && Handles(w0, last) && |w.insts| >= |w0.insts|
    requires forall g :: 0 <= g < |w0.insts| ==> w.insts[g].config == w0.insts[g].config
    requires |acc| == i
    ensures var p := MapFrom(w, state, last, ids, i, acc);
      p.stack.Some? ==>
        |p.stack.value| == |state| && p.stack.value[..i] == acc &&
        forall j :: i <= j < |state| ==> PlacedAt(w0, state, last, ids, p.stack.value, j)
    decreases |state| - i
  {
    if i < |state| {
      var prev := if i < |last| then Some(last[i]) else None;
      var cfg := Resolve(ids, state[i].id);
      var s := Place(w, state[i], prev, cfg, i == |state| - 1);
      if s.inst.Some? {
        var acc' := acc + [s.inst.value];
        MapFromPlaces(w0, s.w, state, last, ids, i + 1, acc');
        PlacePlaces(w0, w, state[i], prev, cfg, i == |state| - 1);
        var p := MapFrom(s.w, state, last, ids, i + 1, acc');
        if p.stack.Some? {
          PlacedExtend(w0, state, last, ids, i, acc, s.inst.value, p.stack.value);
        }
      }
    }
  }

  /** Index `i` placed with `x` extends the placement of the indices above. */
  lemma PlacedExtend(w0: World, state: seq<Desc>, last: seq<nat>, ids: map<Template, Config>,
                     i: nat, acc: seq<nat>, x: nat, st: seq<nat>)
    requires Handles(w0, last) && i < |state| && |st| == |state| && |acc| == i
    requires st[..i + 1] == acc + [x]
    requires forall j :: i + 1 <= j < |state| ==> PlacedAt(w0, state, last, ids, st, j)
    requires i < |last| && Reusable(w0, last[i], Resolve(ids, state[i].id)) ==> x == last[i]
    requires !(i < |last| && Reusable(w0, last[i], Resolve(ids, state[i].id))) ==>
      x >= |w0.insts| && Resolve(ids, state[i].id).Some?
    ensures st[..i] == acc
    ensures forall j :: i <= j < |state| ==> PlacedAt(w0, state, last, ids, st, j)
  {
    assert st[i] == x by {
      assert st[..i + 1][i] == (acc + [x])[i];
    }
    assert st[..i] == st[..i + 1][..i];
    assert PlacedAt(w0, state, last, ids, st, i);
  }

  /** The new stack is as long as the state list, and each index holds the
      previous instance there when the configs agree, a fresh one otherwise. */
  lemma UpdatePlaces(w: World, state: seq<Desc>, last: seq<nat>, ids: map<Template, Config>)
    requires Handles(w, last)
    ensures var u := UpdateSpec(w, Some(state), last, ids);
      u.stack.Some? ==> (|u.stack.value| == |state| &&
        forall j :: 0 <= j < |state| ==> PlacedAt(w, state, last, ids, u.stack.value, j))
  {
    MapFromPlaces(w, w, state, last, ids, 0, []);
  }

  /** The previous instance at index `j`, if the last stack reaches that far. */
  function PrevAt(last: seq<nat>, j: nat): Option<nat>
  {
    if j < |last| then Some(last[j]) else None
  }

  /** The instance an index ends up with, judged from the table `w` before:
      config `c`; the previous instance's own list when it is reused and still
      connected, otherwise the list the setups of `c` return; the previous
      instance's properties when reused, none otherwise; and, at the top of
      the stack only, the entry's params over them. */
  function Expected(w: World, d: Desc, prev: Option<nat>, c: Config, isTop: bool): (r: Inst)
    requires prev.Some? ==> prev.value < |w.insts|
    ensures r.config == c && r.cleanups.Some?
  {
    var reused := prev.Some? && Reusable(w, prev.value, Some(c));
    var base := if reused then w.insts[prev.value].fields else map[];
    Inst(c,
         if reused && w.insts[prev.value].cleanups.Some? then w.insts[prev.value].cleanups
         else Some(CleanupsOf(c.view.setups)),
         if isTop then base + d.params else base)
  }

  /** The cleanup calls one index makes: those of a previous instance that
      is replaced while it still has a list. */
  function DropLog(w: World, prev: Option<nat>, cfg: Option<Config>): seq<(nat, nat)>
    requires prev.Some? ==> prev.value < |w.insts|
  {
    if prev.Some? && !Reusable(w, prev.value, cfg) && w.insts[prev.value].cleanups.Some?
    then Pairs(prev.value, w.insts[prev.value].cleanups.value)
    else []
  }

  /** The cleanup calls of indices below `i` of the map, in index order. */
  function MapLog(w: World, state: seq<Desc>, last: seq<nat>, ids: map<Template, Config>, i: nat): seq<(nat, nat)>
    requires i <= |state| && Handles(w, last)
    decreases i
  {
    if i == 0 then []
    else MapLog(w, state, last, ids, i - 1) + DropLog(w, PrevAt(last, i - 1), Resolve(ids, state[i - 1].id))
  }

  /** Everything one index does. Without a config nothing is placed. A fresh
      instance gets the next handle. Only the previous instance and the
      placed one change: a replaced previous instance loses its list (after
      its cleanups run, which the log records), and the placed one ends as
      `Expected` says: reconnected when it had no list, and with the params
      only at the top. */
  lemma PlaceEffect(w: World, d: Desc, prev: Option<nat>, cfg: Option<Config>, isTop: bool)
    requires prev.Some? ==> prev.value < |w.insts|
    ensures var s := Place(w, d, prev, cfg, isTop);
      var reused := prev.Some? && Reusable(w, prev.value, cfg);
      && (s.inst.None? <==> cfg.None?)
      && |s.w.insts| == |w.insts| + (if s.inst.Some? && !reused then 1 else 0)
      && (s.inst.Some? && !reused ==> s.inst.value == |w.insts|)
      && (reused ==> s.inst == prev)
      && (forall g :: 0 <= g < |w.insts| && Some(g) != prev ==> s.w.insts[g] == w.insts[g])
      && (prev.Some? && !reused ==> s.w.insts[prev.value] == w.insts[prev.value].(cleanups := None))
      && s.w.log == w.log + DropLog(w, prev, cfg)
      && (s.inst.Some? ==> s.w.insts[s.inst.value] == Expected(w, d, prev, cfg.value, isTop))
  {
    var s := Place(w, d, prev, cfg, isTop);
    if prev.Some? && Reusable(w, prev.value, cfg) {
      var h := prev.value;
      var w1 := if w.insts[h].cleanups.None? then ConnectExisting(w, cfg.value, h) else w;
      assert w1.insts[h].fields == w.insts[h].fields && w1.insts[h].config == cfg.value;
      assert s.w == (if isTop then Assign(w1, h, d.params) else w1);
    } else if prev.Some? {
      var h := prev.value;
      var w1 := if w.insts[h].cleanups.Some? then Disconnect(w, h).value else w;
      assert w1.insts == w.insts[h := w.insts[h].(cleanups := None)];
      assert w1.log == w.log + DropLog(w, prev, cfg);
    }
  }

  /** The instances `acc` placed for indices below `i` of the map, which
      ran from the table `w0` to `w`: distinct, each previous or fresh as
      `PlacedAt` says and each as `Expected` says. */
  ghost predicate PlacedBelow(w0: World, w: World, state: seq<Desc>, last: seq<nat>, ids: map<Template, Config>, i: nat, acc: seq<nat>)
    requires Handles(w0, last) && i <= |state|
  {
    && |acc| == i && |w.insts| >= |w0.insts| && Handles(w, acc) && Distinct(acc)
    && (forall j :: 0 <= j < i ==> PlacedAt(w0, state, last, ids, acc, j))
    && (forall j :: 0 <= j < i ==>
          Resolve(ids, state[j].id).Some? &&
          w.insts[acc[j]] == Expected(w0, state[j], PrevAt(last, j), Resolve(ids, state[j].id).value, j == |state| - 1))
  }

  /** The previous instances after indices below `i`: the replaced ones have
      lost their list and nothing else, those of later indices are as they
      were. */
  ghost predicate PrevBelow(w0: World, w: World, state: seq<Desc>, last: seq<nat>, ids: map<Template, Config>, i: nat)
    requires Handles(w0, last) && Handles(w, last) && i <= |state|
  {
    && (forall j :: 0 <= j < i && j < |last| && !Reusable(w0, last[j], Resolve(ids, state[j].id)) ==>
          w.insts[last[j]] == w0.insts[last[j]].(cleanups := None))
    && (forall j :: i <= j < |last| ==> w.insts[last[j]] == w0.insts[last[j]])
  }

  /** What holds after indices below `i` of the map: the placed instances,
      the previous ones, and the log grown by the cleanups of the replaced
      ones. */
  ghost predicate Mapped(w0: World, w: World, state: seq<Desc>, last: seq<nat>, ids: map<Template, Config>, i: nat, acc: seq<nat>)
    requires Handles(w0, last) && i <= |state|
  {
    && PlacedBelow(w0, w, state, last, ids, i, acc)
    && |w.insts| >= |w0.insts|
    && PrevBelow(w0, w, state, last, ids, i)
    && w.log == w0.log + MapLog(w0, state, last, ids, i)
  }

  /** Index `i` judged on `w` is judged as on `w0` when its previous
      instance is untouched. */
  lemma SameJudgement(w0: World, w: World, state: seq<Desc>, last: seq<nat>, ids: map<Template, Config>, i: nat)
    requires Handles(w0, last) && Handles(w, last) && i < |state|
    requires i < |last| ==> w.insts[last[i]] == w0.insts[last[i]]
    ensures var prev := PrevAt(last, i);
      var cfg := Resolve(ids, state[i].id);
      && (prev.Some? ==> Reusable(w, prev.value, cfg) == Reusable(w0, prev.value, cfg))
      && DropLog(w, prev, cfg) == DropLog(w0, prev, cfg)
      && (cfg.Some? ==> forall top :: Expected(w, state[i], prev, cfg.value, top) == Expected(w0, state[i], prev, cfg.value, top))
  {
  }

  /** The instances placed below `i` are neither the previous instance at
      `i` nor a handle at or beyond the current table's end. */
  lemma EarlierApart(w0: World, w: World, state: seq<Desc>, last: seq<nat>, ids: map<Template, Config>, i: nat, acc: seq<nat>)
    requires Handles(w0, last) && Distinct(last) && i < |state|
    requires PlacedBelow(w0, w, state, last, ids, i, acc)
    ensures forall j :: 0 <= j < i ==> acc[j] < |w.insts| && (i < |last| ==> acc[j] != last[i])
  {
    forall j | 0 <= j < i ensures i < |last| ==> acc[j] != last[i] {
      assert PlacedAt(w0, state, last, ids, acc, j);
      if i < |last| && j < |last| { assert last[j] != last[i]; }
    }
  }

  /** Placing `x` at `i` keeps `PlacedAt` for the indices below and adds it
      at `i`. */
  lemma PlacedAtExtend(w0: World, state: seq<Desc>, last: seq<nat>, ids: map<Template, Config>, i: nat, acc: seq<nat>, x: nat)
    requires Handles(w0, last) && i < |state| && |acc| == i
    requires forall j :: 0 <= j < i ==> PlacedAt(w0, state, last, ids, acc, j)
    requires i < |last| && Reusable(w0, last[i], Resolve(ids, state[i].id)) ==> x == last[i]
    requires !(i < |last| && Reusable(w0, last[i], Resolve(ids, state[i].id))) ==>
      x >= |w0.insts| && Resolve(ids, state[i].id).Some?
    ensures forall j :: 0 <= j <= i ==> PlacedAt(w0, state, last, ids, acc + [x], j)
  {
    var acc' := acc + [x];
    assert acc'[i] == x && forall j :: 0 <= j < i ==> acc'[j] == acc[j];
    forall j | 0 <= j < i ensures PlacedAt(w0, state, last, ids, acc', j) {
      assert PlacedAt(w0, state, last, ids, acc, j);
    }
  }

  lemma DistinctSnoc(acc: seq<nat>, x: nat)
    requires Distinct(acc) && forall j :: 0 <= j < |acc| ==> acc[j] != x
    ensures Distinct(acc + [x])
  {
    var acc' := acc + [x];
    assert forall j :: 0 <= j < |acc| ==> acc'[j] == acc[j];
  }

  /** The instances below `i`, untouched by index `i`, stay as `Expected`
      says, and the one placed at `i` joins them. */
  lemma ExpectedExtend(w0: World, w: World, w': World, state: seq<Desc>, last: seq<nat>, ids: map<Template, Config>,
                       i: nat, acc: seq<nat>, x: nat)
    requires Handles(w0, last) && i < |state| && |acc| == i
    requires Handles(w, acc) && |w'.insts| >= |w.insts| && x < |w'.insts|
    requires forall j :: 0 <= j < i ==> w'.insts[acc[j]] == w.insts[acc[j]]
    requires forall j :: 0 <= j < i ==>
      Resolve(ids, state[j].id).Some? &&
      w.insts[acc[j]] == Expected(w0, state[j], PrevAt(last, j), Resolve(ids, state[j].id).value, j == |state| - 1)
    requires Resolve(ids, state[i].id).Some?
    requires w'.insts[x] == Expected(w0, state[i], PrevAt(last, i), Resolve(ids, state[i].id).value, i == |state| - 1)
    ensures var acc' := acc + [x];
      forall j :: 0 <= j < i + 1 ==>
        Resolve(ids, state[j].id).Some? &&
        w'.insts[acc'[j]] == Expected(w0, state[j], PrevAt(last, j), Resolve(ids, state[j].id).value, j == |state| - 1)
  {
    var acc' := acc + [x];
    assert acc'[i] == x && forall j :: 0 <= j < i ==> acc'[j] == acc[j];
  }

  /** One index of the map extends `PlacedBelow`. */
  lemma PlacedStep(w0: World, w: World, state: seq<Desc>, last: seq<nat>, ids: map<Template, Config>, i: nat, acc: seq<nat>)
    requires Handles(w0, last) && Distinct(last) && i < |state|
    requires PlacedBelow(w0, w, state, last, ids, i, acc) && Handles(w, last)
    requires i < |last| ==> w.insts[last[i]] == w0.insts[last[i]]
    ensures var s := Place(w, state[i], PrevAt(last, i), Resolve(ids, state[i].id), i == |state| - 1);
      s.inst.Some? ==> PlacedBelow(w0, s.w, state, last, ids, i + 1, acc + [s.inst.value])
  {
    var prev := PrevAt(last, i);
    var cfg := Resolve(ids, state[i].id);
    var top := i == |state| - 1;
    var s := Place(w, state[i], prev, cfg, top);
    PlaceEffect(w, state[i], prev, cfg, top);
    SameJudgement(w0, w, state, last, ids, i);
    if s.inst.Some? {
      var x := s.inst.value;
      EarlierApart(w0, w, state, last, ids, i, acc);
      PlacedAtExtend(w0, state, last, ids, i, acc, x);
      DistinctSnoc(acc, x);
      ExpectedExtend(w0, w, s.w, state, last, ids, i, acc, x);
      var acc' := acc + [x];
      assert Handles(s.w, acc') by {
        assert acc'[i] == x && forall j :: 0 <= j < i ==> acc'[j] == acc[j];
      }
    }
  }

  /** One index of the map extends `PrevBelow`. */
  lemma PrevStep(w0: World, w: World, state: seq<Desc>, last: seq<nat>, ids: map<Template, Config>, i: nat)
    requires Handles(w0, last) && Distinct(last) && i < |state|
    requires Handles(w, last) && PrevBelow(w0, w, state, last, ids, i) && |w.insts| >= |w0.insts|
    ensures var s := Place(w, state[i], PrevAt(last, i), Resolve(ids, state[i].id), i == |state| - 1);
      Handles(s.w, last) && PrevBelow(w0, s.w, state, last, ids, i + 1)
  {
    var prev := PrevAt(last, i);
    var cfg := Resolve(ids, state[i].id);
    var s := Place(w, state[i], prev, cfg, i == |state| - 1);
    PlaceEffect(w, state[i], prev, cfg, i == |state| - 1);
    SameJudgement(w0, w, state, last, ids, i);
    forall j | 0 <= j < i && j < |last| && !Reusable(w0, last[j], Resolve(ids, state[j].id))
      ensures s.w.insts[last[j]] == w0.insts[last[j]].(cleanups := None)
    {
      if i < |last| { assert last[j] != last[i]; }
    }
    forall j | i + 1 <= j < |last| ensures s.w.insts[last[j]] == w0.insts[last[j]] {
      assert last[j] != last[i];
    }
  }

  /** One index of the map keeps `Mapped`. */
  lemma MappedStep(w0: World, w: World, state: seq<Desc>, last: seq<nat>, ids: map<Template, Config>, i: nat, acc: seq<nat>)
    requires Handles(w0, last) && Distinct(last) && i < |state|
    requires Mapped(w0, w, state, last, ids, i, acc)
    ensures var s := Place(w, state[i], PrevAt(last, i), Resolve(ids, state[i].id), i == |state| - 1);
      s.inst.Some? ==> Mapped(w0, s.w, state, last, ids, i + 1, acc + [s.inst.value])
  {
    var prev := PrevAt(last, i);
    var cfg := Resolve(ids, state[i].id);
    var s := Place(w, state[i], prev, cfg, i == |state| - 1);
    if s.inst.Some? {
      var acc' := acc + [s.inst.value];
      assert PlacedBelow(w0, s.w, state, last, ids, i + 1, acc') by {
        PlacedStep(w0, w, state, last, ids, i, acc);
      }
      assert Handles(s.w, last) && PrevBelow(w0, s.w, state, last, ids, i + 1) by {
        PrevStep(w0, w, state, last, ids, i);
      }
      assert |s.w.insts| >= |w0.insts| && s.w.log == w0.log + MapLog(w0, state, last, ids, i + 1) by {
        assert i < |last| ==> w.insts[last[i]] == w0.insts[last[i]];
        LogStep(w0, w, state, last, ids, i);
      }
    }
  }

  /** One index of the map adds its drop to the log of the map. */
  lemma LogStep(w0: World, w: World, state: seq<Desc>, last: seq<nat>, ids: map<Template, Config>, i: nat)
    requires Handles(w0, last) && Handles(w, last) && i < |state|
    requires i < |last| ==> w.insts[last[i]] == w0.insts[last[i]]
    requires w.log == w0.log + MapLog(w0, state, last, ids, i)
    ensures var s := Place(w, state[i], PrevAt(last, i), Resolve(ids, state[i].id), i == |state| - 1);
      |s.w.insts| >= |w.insts| && s.w.log == w0.log + MapLog(w0, state, last, ids, i + 1)
  {
    var prev := PrevAt(last, i);
    var cfg := Resolve(ids, state[i].id);
    var s := Place(w, state[i], prev, cfg, i == |state| - 1);
    assert |s.w.insts| >= |w.insts| && s.w.log == w.log + DropLog(w, prev, cfg) by {
      PlaceEffect(w, state[i], prev, cfg, i == |state| - 1);
    }
    assert DropLog(w, prev, cfg) == DropLog(w0, prev, cfg) by {
      SameJudgement(w0, w, state, last, ids, i);
    }
    assert MapLog(w0, state, last, ids, i + 1) == MapLog(w0, state, last, ids, i) + DropLog(w0, prev, cfg);
  }

  /** One step of the map: it stops when index `i` places nothing and
      otherwise goes on from the world index `i` leaves. */
  lemma MapFromStep(w: World, state: seq<Desc>, last: seq<nat>, ids: map<Template, Config>, i: nat, acc: seq<nat>)
    requires i < |state| && Handles(w, last)
    ensures var s := Place(w, state[i], PrevAt(last, i), Resolve(ids, state[i].id), i == |state| - 1);
      && Handles(s.w, last)
      && (s.inst.None? ==> MapFrom(w, state, last, ids, i, acc).stack.None?)
      && (s.inst.Some? ==> MapFrom(w, state, last, ids, i, acc) == MapFrom(s.w, state, last, ids, i + 1, acc + [s.inst.value]))
  {
  }

  /** The map from a table to itself starts `Mapped`, and a stored stack
      ends it. */
  lemma MapFromMapped(w: World, state: seq<Desc>, last: seq<nat>, ids: map<Template, Config>)
    requires Handles(w, last) && Distinct(last)
    ensures var p := MapFrom(w, state, last, ids, 0, []);
      p.stack.Some? ==> Mapped(w, p.w, state, last, ids, |state|, p.stack.value)
  {
    var p := MapFrom(w, state, last, ids, 0, []);
    assert MapLog(w, state, last, ids, 0) == [];
    assert w.log + [] == w.log;
    var i, cur, acc := 0, w, [];
    while i < |state|
      invariant i <= |state| && Handles(cur, last)
      invariant Mapped(w, cur, state, last, ids, i, acc)
      invariant p == MapFrom(cur, state, last, ids, i, acc)
      decreases |state| - i
    {
      var s := Place(cur, state[i], PrevAt(last, i), Resolve(ids, state[i].id), i == |state| - 1);
      MapFromStep(cur, state, last, ids, i, acc);
      if s.inst.None? {
        return;
      }
      MappedStep(w, cur, state, last, ids, i, acc);
      i, cur, acc := i + 1, s.w, acc + [s.inst.value];
    }
  }

  /** The outcome of `updateStack` for the instances it keeps or creates,
      when the previous stack holds no instance twice: the stored stack is
      one instance per entry, all distinct; index `j` holds the previous
      instance when its config matches, a fresh one otherwise, and that
      instance has the entry's config, is connected, keeps the previous
      instance's properties when reused and gets the params only at the top
      (`Expected`); a replaced previous instance loses its list and nothing
      else. This holds even when the trailing loop throws afterwards. */
  lemma UpdateSettles(w: World, state: seq<Desc>, last: seq<nat>, ids: map<Template, Config>)
    requires Handles(w, last) && Distinct(last)
    ensures var u := UpdateSpec(w, Some(state), last, ids);
      u.stack.Some? ==>
        && |u.stack.value| == |state| && Distinct(u.stack.value) && Handles(u.w, u.stack.value)
        && (forall j :: 0 <= j < |state| ==> PlacedAt(w, state, last, ids, u.stack.value, j))
        && (forall j :: 0 <= j < |state| ==>
              Resolve(ids, state[j].id).Some? &&
              u.w.insts[u.stack.value[j]] ==
                Expected(w, state[j], PrevAt(last, j), Resolve(ids, state[j].id).value, j == |state| - 1))
        && (forall j :: 0 <= j < |state| && j < |last| && !Reusable(w, last[j], Resolve(ids, state[j].id)) ==>
              u.w.insts[last[j]] == w.insts[last[j]].(cleanups := None))
  {
    var p := MapFrom(w, state, last, ids, 0, []);
    MapFromMapped(w, state, last, ids);
    if p.stack.Some? {
      var st := p.stack.value;
      var t := DisconnectFrom(p.w, last, |state|);
      forall j | 0 <= j < |state| ensures t.w.insts[st[j]] == p.w.insts[st[j]] {
        assert PlacedAt(w, state, last, ids, st, j);
        forall k | |state| <= k < |last| ensures last[k] != st[j] {}
      }
      forall j | 0 <= j < |state| && j < |last| && !Reusable(w, last[j], Resolve(ids, state[j].id))
        ensures t.w.insts[last[j]] == p.w.insts[last[j]]
      {
        forall k | |state| <= k < |last| ensures last[k] != last[j] {}
      }
    }
  }

  /** The trailing loop of `updateStack` over a previous stack with no
      instance twice: it returns normally exactly when every previous
      instance beyond the new state still has its list, and then each of
      them has lost it and the log holds, after what was there, the cleanups
      of the replaced instances in index order followed by those of the
      trailing ones in stack order. */
  lemma UpdateTrailing(w: World, state: seq<Desc>, last: seq<nat>, ids: map<Template, Config>)
    requires Handles(w, last) && Distinct(last)
    ensures var u := UpdateSpec(w, Some(state), last, ids);
      u.stack.Some? ==>
        && (u.ok <==> forall j :: |state| <= j < |last| ==> Connected(w, last[j]))
        && (u.ok ==> forall j :: |state| <= j < |last| ==> u.w.insts[last[j]] == w.insts[last[j]].(cleanups := None))
        && (u.ok ==> u.w.log == w.log + MapLog(w, state, last, ids, |state|) + CleanupLog(w, last, |state|))
  {
    var p := MapFrom(w, state, last, ids, 0, []);
    MapFromMapped(w, state, last, ids);
    if p.stack.Some? {
      assert forall j :: |state| <= j < |last| ==> p.w.insts[last[j]] == w.insts[last[j]];
      DisconnectFromOk(p.w, last, |state|);
      if forall j :: |state| <= j < |last| ==> Connected(w, last[j]) {
        DisconnectFromAll(p.w, last, |state|);
        CleanupLogFrame(w, p.w, last, |state|);
      }
    }
  }

  /** After a stored stack, reconciling the same state again is the stable
      case: the stack stays, nothing connects or disconnects, the log is
      unchanged, and only the top instance has the params assigned again. */
  lemma ReconcileTwice(w: World, state: seq<Desc>, last: seq<nat>, ids: map<Template, Config>)
    requires Handles(w, last) && Distinct(last) && state != []
    ensures var u := UpdateSpec(w, Some(state), last, ids);
      u.stack.Some? ==>
        && Distinct(u.stack.value) && |u.stack.value| == |state| && Handles(u.w, u.stack.value)
        && UpdateSpec(u.w, Some(state), u.stack.value, ids) ==
             Update(Assign(u.w, u.stack.value[|state| - 1], state[|state| - 1].params), u.stack, true)
  {
    var u := UpdateSpec(w, Some(state), last, ids);
    UpdateSettles(w, state, last, ids);
    if u.stack.Some? {
      var st := u.stack.value;
      forall j | 0 <= j < |state|
        ensures Reusable(u.w, st[j], Resolve(ids, state[j].id)) && Connected(u.w, st[j])
      {
        var c := Resolve(ids, state[j].id).value;
        assert u.w.insts[st[j]] == Expected(w, state[j], PrevAt(last, j), c, j == |state| - 1);
      }
      UpdateStable(u.w, state, st, ids);
    }
  }

  /** The map fails (no stack is stored) exactly when some entry has no
      config and no previous instance to reuse at its index. */
  lemma {:induction false} MapFromFails(w: World, state: seq<Desc>, last: seq<nat>, ids: map<Template, Config>, i: nat, acc: seq<nat>)
    requires i <= |state| && Handles(w, last)
    ensures MapFrom(w, state, last, ids, i, acc).stack.None? <==>
      exists j :: i <= j < |state| && Resolve(ids, state[j].id).None?
    decreases |state| - i
  {
    if i < |state| {
      var prev := PrevAt(last, i);
      var cfg := Resolve(ids, state[i].id);
      var s := Place(w, state[i], prev, cfg, i == |state| - 1);
      PlaceEffect(w, state[i], prev, cfg, i == |state| - 1);
      if s.inst.Some? {
        MapFromFails(s.w, state, last, ids, i + 1, acc + [s.inst.value]);
        assert (exists j :: i <= j < |state| && Resolve(ids, state[j].id).None?) <==>
               (exists j :: i + 1 <= j < |state| && Resolve(ids, state[j].id).None?);
      } else {
        assert Resolve(ids, state[i].id).None?;
      }
    }
  }

  /** Reconciling a state whose every entry already has its live instance at
      the same index (as right after a reconciliation) keeps the stack as it
      is: nothing is disconnected, connected or created, and only the top
      instance receives the top entry's params. */
  lemma {:induction false} MapFromStable(w: World, state: seq<Desc>, last: seq<nat>, ids: map<Template, Config>, i: nat)
    requires i <= |state| == |last| && Handles(w, last)
    requires forall j :: 0 <= j < |state| ==> Reusable(w, last[j], Resolve(ids, state[j].id)) && Connected(w, last[j])
    ensures var p := MapFrom(w, state, last, ids, i, last[..i]);
      && p.stack == Some(last)
      && p.w == (if i < |state| then Assign(w, last[|state| - 1], state[|state| - 1].params) else w)
    decreases |state| - i
  {
    if i < |state| {
      var s := Place(w, state[i], Some(last[i]), Resolve(ids, state[i].id), i == |state| - 1);
      assert s.inst == Some(last[i]);
      assert last[..i] + [last[i]] == last[..i + 1];
      if i == |state| - 1 {
        assert last[..i + 1] == last;
      } else {
        assert s.w == w;
        MapFromStable(w, state, last, ids, i + 1);
      }
    } else {
      assert last[..i] == last;
    }
  }

  lemma UpdateStable(w: World, state: seq<Desc>, last: seq<nat>, ids: map<Template, Config>)
    requires |state| == |last| > 0 && Handles(w, last)
    requires forall j :: 0 <= j < |state| ==> Reusable(w, last[j], Resolve(ids, state[j].id)) && Connected(w, last[j])
    ensures var u := UpdateSpec(w, Some(state), last, ids);
      && u == Update(Assign(w, last[|state| - 1], state[|state| - 1].params), Some(last), true)
      && u.w.log == w.log
  {
    MapFromStable(w, state, last, ids, 0);
  }

  /** The trailing loop over instances that are distinct and all connected
      succeeds, runs exactly their cleanups (each list once, in stack order),
      and leaves each of them without a list. */
  lemma {:induction false} DisconnectFromAll(w: World, last: seq<nat>, from: nat)
    requires Handles(w, last) && Distinct(last)
    requires forall j :: from <= j < |last| ==> Connected(w, last[j])
    ensures var t := DisconnectFrom(w, last, from);
      && t.ok
      && (forall j :: from <= j < |last| ==> t.w.insts[last[j]] == w.insts[last[j]].(cleanups := None))
      && t.w.log == w.log + CleanupLog(w, last, from)
    decreases |last| - from
  {
    if from < |last| {
      var w' := Disconnect(w, last[from]).value;
      forall j | from + 1 <= j < |last| ensures w'.insts[last[j]] == w.insts[last[j]] {
        assert last[j] != last[from];
      }
      DisconnectFromAll(w', last, from + 1);
      CleanupLogFrame(w, w', last, from + 1);
    }
  }

  /** Over distinct instances the trailing loop returns normally exactly
      when every one of them still has its list. */
  lemma {:induction false} DisconnectFromOk(w: World, last: seq<nat>, from: nat)
    requires Handles(w, last) && Distinct(last)
    ensures DisconnectFrom(w, last, from).ok <==> forall j :: from <= j < |last| ==> Connected(w, last[j])
    decreases |last| - from
  {
    if from < |last| && Connected(w, last[from]) {
      var w' := Disconnect(w, last[from]).value;
      forall j | from + 1 <= j < |last| ensures w'.insts[last[j]] == w.insts[last[j]] {
        assert last[j] != last[from];
      }
      DisconnectFromOk(w', last, from + 1);
    }
  }

  /** The cleanup calls of the instances `last[from..]`, in order. */
  function CleanupLog(w: World, last: seq<nat>, from: nat): seq<(nat, nat)>
    requires Handles(w, last)
    decreases |last| - from
  {
    if from >= |last| then []
    else Pairs(last[from], w.insts[last[from]].cleanups.GetOr([])) + CleanupLog(w, last, from + 1)
  }

  lemma {:induction false} CleanupLogFrame(w: World, w': World, last: seq<nat>, from: nat)
    requires Handles(w, last) && Handles(w', last)
    requires forall j :: from <= j < |last| ==> w'.insts[last[j]].cleanups == w.insts[last[j]].cleanups
    ensures CleanupLog(w', last, from) == CleanupLog(w, last, from)
    decreases |last| - from
  {
    if from < |last| {
      CleanupLogFrame(w, w', last, from + 1);
    }
  }

  /** The trailing loop throws when it meets an instance that has already
      been disconnected (a host re-attached after its teardown, for one). */
  lemma DisconnectFromStale(w: World, last: seq<nat>, from: nat)
    requires Handles(w, last) && from < |last| && !Connected(w, last[from])
    ensures !DisconnectFrom(w, last, from).ok
  {
  }

  /** The instances a pass places are all in the table it leaves. */
  lemma {:induction false} MapFromHandles(w: World, state: seq<Desc>, last: seq<nat>, ids: map<Template, Config>, i: nat, acc: seq<nat>)
    requires i <= |state| && Handles(w, last) && Handles(w, acc)
    ensures var p := MapFrom(w, state, last, ids, i, acc); p.stack.Some? ==> Handles(p.w, p.stack.value)
    decreases |state| - i
  {
    if i < |state| {
      var s := Place(w, state[i], if i < |last| then Some(last[i]) else None,
                     Resolve(ids, state[i].id), i == |state| - 1);
      if s.inst.Some? {
        MapFromHandles(s.w, state, last, ids, i + 1, acc + [s.inst.value]);
      }
    }
  }

  /** `updateStack` only adds instances, and the stack it stores refers to
      instances of the table it leaves, none twice if the previous stack had
      none twice. */
  lemma UpdateHandles(w: World, state: Option<seq<Desc>>, last: seq<nat>, ids: map<Template, Config>)
    requires Handles(w, last)
    ensures var u := UpdateSpec(w, state, last, ids);
      && |u.w.insts| >= |w.insts| && (u.stack.Some? ==> Handles(u.w, u.stack.value))
      && (Distinct(last) && u.stack.Some? ==> Distinct(u.stack.value))
  {
    if state.Some? {
      MapFromHandles(w, state.value, last, ids, 0, []);
      if Distinct(last) {
        UpdateSettles(w, state.value, last, ids);
      }
    }
  }
}
