/** The navigation engine: the registry tables, the URL cache, the instance
    stacks of router hosts, the popstate listeners, the guarded-navigation
    slot, and the operations of the router module working on them. */
module RouterCore {
  import opened Wrappers
  import opened Utils
  import opened Routes
  import opened Registry
  import opened Navigation
  import opened Stack
  import opened Browser
  import Guard
  import opened Intercept

  /** How the router's operations throw. */
  datatype RouterError =
    | /** "Provided view must be connected to the router view list" */
      ConfigNotRegistered
    | /** `config.url(params)` threw */
      UrlFailed(cause: UrlError)
    | /** `fallback.url()` with `fallback` undefined */
      FallbackUndefined
    | /** `history.state` is null where a list is read */
      StateMissing
    | /** `history.state` is an empty list: the current state is undefined */
      StateEmpty
    | /** `updateStack` threw (no config for an entry, or a disconnected
          instance met by the trailing loop) */
      ReconcileFailed
    | /** "Duplicated router in '<key>' property of the <tag>..." */
      DuplicatedRouter(key: string, element: string)
    | /** "You must have only one <tag> element connected to the DOM." */
      MultipleRouters(element: string)
    | /** `stacks.get(host)` is undefined when the router is disconnected */
      StackMissing
    | /** `disconnectInstance` of an instance whose list is already deleted */
      CleanupsMissing

  /** An element (or other object) a router factory is defined on. */
  datatype Host = Host(ident: nat, tagName: string, isElement: bool)

  /** A `popstate` listener on the window, in registration order:
      a host's `updateStack`, or the one-shot `replace` of a collapse. */
  datatype Listener = Reconciler(host: Host) | Collapser(next: Desc, host: Host)

  /** Promises: those passed to `resolve(event, promise)`, and the fresh
      `Promise.resolve()` made for an event without one. */
  datatype PromiseRef = UserPromise(n: nat) | Resolved(n: nat)

  /** A `.then` continuation registered by `resolveEvent`. */
  datatype Continuation = Continuation(promise: PromiseRef, url: Location, host: Host)

  /** The result `config.url(params)` gives, in the router's error terms. */
  function UrlResult(c: Config, params: Option<Params>): Result<string, RouterError>
    requires WellFormed(c)
  {
    match BuildUrl(c, params)
    case Ok(u) => Ok(u)
    case Err(e) => Err(UrlFailed(e))
  }

  /** The `urls` table after `config.url(params)`. */
  function UrlsAfter(urls: map<string, Desc>, c: Config, params: Option<Params>): map<string, Desc>
    requires WellFormed(c)
  {
    match BuildUrl(c, params)
    case Ok(u) => if params.Some? then urls[u := Desc(c.id, c.order, params.value, u)] else urls
    case Err(_) => urls
  }

  /** `getUrl(View, params)` */
  function UrlFor(t: Tables, view: View, params: Params): Result<string, RouterError>
    requires TablesValid(t)
  {
    if view !in t.configs then Err(ConfigNotRegistered) else UrlResult(t.configs[view], Some(params))
  }

  function UrlsAfterGetUrl(urls: map<string, Desc>, t: Tables, view: View, params: Params): map<string, Desc>
    requires TablesValid(t)
  {
    if view !in t.configs then urls else UrlsAfter(urls, t.configs[view], Some(params))
  }

  /** `getStateFromURL(url, fallback)`: the descriptor (or error) and the
      `urls` table after. The last case is the path where `fallback.url()`
      succeeds, which `UrlWithoutParamsFails` shows cannot happen. */
  function Resolution(urls: map<string, Desc>, ids: map<Template, Config>, u: Location, fallback: Option<Config>)
    : (r: (Result<Desc, RouterError>, map<string, Desc>))
    requires fallback.Some? ==> WellFormed(fallback.value)
  {
    var full := FullUrl(u);
    if full in urls then (Ok(urls[full]), urls)
    else if Lift(u.pathname) in ids then
      var c := ids[Lift(u.pathname)];
      var d := Desc(c.id, c.order, map[], full);
      (Ok(d), urls[full := d])
    else if fallback.None? then (Err(FallbackUndefined), urls)
    else
      var fb := fallback.value;
      match BuildUrl(fb, None)
      case Err(e) => (Err(UrlFailed(e)), urls)
      case Ok(s) => (Ok(Desc(fb.id, fb.order, map[], s)), urls[s := Desc(fb.id, fb.order, map[], s)])
  }

  /** Each cached descriptor is stored under its own URL. */
  predicate UrlsKeyed(urls: map<string, Desc>)
  {
    forall k :: k in urls ==> urls[k].url == k
  }

  /** A URL built by `config.url(params)` resolves, from any location whose
      pathname and search spell it, to the descriptor cached for it: the
      config's id and order and the same params. */
  lemma UrlThenResolve(urls: map<string, Desc>, c: Config, params: Params, ids: map<Template, Config>,
                       u: Location, fallback: Option<Config>)
    requires WellFormed(c) && (fallback.Some? ==> WellFormed(fallback.value))
    requires UrlResult(c, Some(params)) == Ok(FullUrl(u))
    ensures var cached := UrlsAfter(urls, c, Some(params));
      Resolution(cached, ids, u, fallback) == (Ok(Desc(c.id, c.order, params, FullUrl(u))), cached)
  {
  }

  /** With no cached descriptor and no config for the path, the fallback is
      no help: `fallback.url()` throws, and nothing is cached. */
  lemma FallbackFails(urls: map<string, Desc>, ids: map<Template, Config>, u: Location, fallback: Config)
    requires WellFormed(fallback)
    requires FullUrl(u) !in urls && Lift(u.pathname) !in ids
    ensures Resolution(urls, ids, u, Some(fallback)) == (Err(UrlFailed(ParamsNotObject)), urls)
  {
    UrlWithoutParamsFails(fallback);
  }

  /** A resolved descriptor is cached under its own URL, which is the full
      URL looked up; resolving the same location again returns it from the
      cache and changes nothing. A miss on an exact path gets empty params. */
  lemma ResolveCaches(urls: map<string, Desc>, ids: map<Template, Config>, u: Location, fallback: Option<Config>)
    requires UrlsKeyed(urls) && (forall id :: id in ids ==> ids[id].id == id)
    requires fallback.Some? ==> WellFormed(fallback.value)
    ensures var r := Resolution(urls, ids, u, fallback);
      r.0.Ok? ==>
        && r.0.value.url == FullUrl(u) && r.1 == urls[FullUrl(u) := r.0.value]
        && (FullUrl(u) !in urls ==> r.0.value.params == map[] && r.0.value.id == Lift(u.pathname))
        && Resolution(r.1, ids, u, fallback) == r
  {
    if fallback.Some? {
      UrlWithoutParamsFails(fallback.value);
    }
    var r := Resolution(urls, ids, u, fallback);
    if r.0.Ok? && FullUrl(u) !in urls {
      assert Lift(u.pathname) in ids;
    }
  }

  /** `stacks.get(host) || []` */
  function LastStack(stacks: map<Host, seq<nat>>, host: Host): seq<nat>
  {
    if host in stacks then stacks[host] else []
  }

  /** Every stored stack refers to instances of the table, none twice. */
  predicate StacksIn(w: World, stacks: map<Host, seq<nat>>)
  {
    forall h :: h in stacks ==> Handles(w, stacks[h]) && Distinct(stacks[h])
  }

  // ---------------------------------------------------------------------
  // Popstate listeners

  /** `removeEventListener("popstate", l)`: the first registration of `l` goes. */
  function RemoveFirst(ls: seq<Listener>, l: Listener): (r: seq<Listener>)
    ensures l !in ls ==> r == ls
    ensures l in ls ==> |r| == |ls| - 1
  {
    if ls == [] then []
    else if ls[0] == l then ls[1..]
    else [ls[0]] + RemoveFirst(ls[1..], l)
  }

  /** The `updateStack` listeners of a list, in order. */
  function Reconcilers(ls: seq<Listener>): (r: seq<Listener>)
    ensures forall j :: 0 <= j < |r| ==> r[j].Reconciler?
    ensures |r| <= |ls|
  {
    if ls == [] then []
    else (if ls[0].Reconciler? then [ls[0]] else []) + Reconcilers(ls[1..])
  }

  /** The target of the last collapse listener of a list, if any. */
  function LastCollapse(ls: seq<Listener>): (r: Option<Desc>)
    ensures r.None? <==> forall j :: 0 <= j < |ls| ==> ls[j].Reconciler?
  {
    if ls == [] then None
    else if ls[|ls| - 1].Collapser? then Some(ls[|ls| - 1].next)
    else LastCollapse(ls[..|ls| - 1])
  }

  /** What a popstate event changes, listener by listener: the instances,
      the stacks, and the state and URL of the current entry. */
  datatype Walk = Walk(w: World, stacks: map<Host, seq<nat>>, state: Option<seq<Desc>>, url: Location)

  /** One listener runs on `k`: a collapse listener first replaces the
      current entry with `[next]` at `next.url`; then the listener runs
      `updateStack` of its host. */
  function StepWalk(l: Listener, k: Walk, ids: map<Template, Config>): (r: Walk)
    requires StacksIn(k.w, k.stacks)
    ensures StacksIn(r.w, r.stacks) && |r.w.insts| >= |k.w.insts|
  {
    var state := if l.Collapser? then Some([l.next]) else k.state;
    var url := if l.Collapser? then ParseRelative(k.url.origin, l.next.url) else k.url;
    var u := UpdateSpec(k.w, state, LastStack(k.stacks, l.host), ids);
    UpdateHandles(k.w, state, LastStack(k.stacks, l.host), ids);
    Walk(u.w, if u.stack.Some? then k.stacks[l.host := u.stack.value] else k.stacks, state, url)
  }

  /** Listeners `i..` of `ls` run in order on `k`. A listener that throws
      does not stop the ones after it. */
  function DispatchFrom(ls: seq<Listener>, i: nat, k: Walk, ids: map<Template, Config>): (r: Walk)
    requires i <= |ls| && StacksIn(k.w, k.stacks)
    ensures StacksIn(r.w, r.stacks) && |r.w.insts| >= |k.w.insts|
    decreases |ls| - i
  {
    if i == |ls| then k else DispatchFrom(ls, i + 1, StepWalk(ls[i], k, ids), ids)
  }

  /** What the initial-state step of `connect` yields: the error it throws,
      the `urls` table and the current entry after. */
  datatype Init = Init(error: Option<RouterError>, urls: map<string, Desc>, entry: Entry)

  function InitialEntry(urls: map<string, Desc>, ids: map<Template, Config>, at: Entry, fallback: Option<Config>): (r: Init)
    requires fallback.Some? ==> WellFormed(fallback.value)
    ensures at.state.Some? ==> r == Init(None, urls, at)
    ensures r.error.None? ==> r.entry.state.Some? && r.entry.url.origin == at.url.origin
    ensures at.state.None? ==> var res := Resolution(urls, ids, at.url, fallback);
      && r.urls == res.1
      && (res.0.Err? ==> r.error == Some(res.0.error) && r.entry == at)
      && (res.0.Ok? ==>
            r.error == None && r.entry == Entry(Some([res.0.value]), ParseRelative(at.url.origin, res.0.value.url)))
  {
    if at.state.Some? then Init(None, urls, at)
    else
      var res := Resolution(urls, ids, at.url, fallback);
      match res.0
      case Err(e) => Init(Some(e), res.1, at)
      case Ok(d) => Init(None, res.1, Entry(Some([d]), ParseRelative(at.url.origin, d.url)))
  }

  /** A stateless first entry that resolves is replaced by one holding the
      single resolved descriptor, at the same path and query on the same
      origin, with the descriptor cached under that URL; running the step
      again on the new entry changes nothing. */
  lemma InitialEntryLands(urls: map<string, Desc>, ids: map<Template, Config>, at: Entry, fallback: Option<Config>)
    requires UrlsKeyed(urls) && (forall id :: id in ids ==> ids[id].id == id)
    requires fallback.Some? ==> WellFormed(fallback.value)
    requires at.state.None?
    ensures var r := InitialEntry(urls, ids, at, fallback);
      r.error.None? ==>
        && r.entry.state.Some? && |r.entry.state.value| == 1
        && FullUrl(r.entry.url) == FullUrl(at.url) && r.entry.url.origin == at.url.origin
        && FullUrl(at.url) in r.urls && r.urls[FullUrl(at.url)] == r.entry.state.value[0]
        && InitialEntry(r.urls, ids, r.entry, fallback) == Init(None, r.urls, r.entry)
  {
    ResolveCaches(urls, ids, at.url, fallback);
  }

  lemma {:induction false} RemoveFirstAfter(a: seq<Listener>, l: Listener, rest: seq<Listener>)
    requires l !in a
    ensures RemoveFirst(a + [l] + rest, l) == a + rest
    decreases |a|
  {
    var whole := a + [l] + rest;
    if a == [] {
      assert whole[0] == l && whole[1..] == rest;
    } else {
      assert whole[0] == a[0] && a[0] != l;
      assert whole[1..] == a[1..] + [l] + rest;
      RemoveFirstAfter(a[1..], l, rest);
      assert a + rest == [a[0]] + (a[1..] + rest);
    }
  }

  lemma {:induction false} ReconcilersSnoc(ls: seq<Listener>, i: nat)
    requires i < |ls|
    ensures Reconcilers(ls[..i + 1]) == Reconcilers(ls[..i]) + (if ls[i].Reconciler? then [ls[i]] else [])
    decreases i
  {
    if i > 0 {
      assert ls[..i + 1][1..] == ls[1..][..i];
      assert ls[..i][1..] == ls[1..][..i - 1];
      ReconcilersSnoc(ls[1..], i - 1);
    } else {
      assert ls[..1] == [ls[0]] && ls[..1][1..] == [];
    }
  }

  /** Two lists that differ at most at index `i`. */
  lemma SameBut(a: seq<Entry>, b: seq<Entry>, i: nat)
    requires |a| == |b| && i < |a|
    requires forall j :: 0 <= j < |b| && j != i ==> a[j] == b[j]
    ensures a == b[i := a[i]]
  {
  }

  lemma DispatchFromStep(ls: seq<Listener>, i: nat, k: Walk, ids: map<Template, Config>)
    requires i < |ls| && StacksIn(k.w, k.stacks)
    ensures DispatchFrom(ls, i, k, ids) == DispatchFrom(ls, i + 1, StepWalk(ls[i], k, ids), ids)
  {
  }

  /** The listeners while a dispatch over `ls` is at `i`: the collapse
      listeners already run have removed themselves. */
  lemma ListenersStep(ls: seq<Listener>, i: nat)
    requires i < |ls|
    ensures var before := Reconcilers(ls[..i]) + ls[i..];
      Reconcilers(ls[..i + 1]) + ls[i + 1..] == if ls[i].Collapser? then RemoveFirst(before, ls[i]) else before
  {
    ReconcilersSnoc(ls, i);
    assert ls[i..] == [ls[i]] + ls[i + 1..];
    if ls[i].Collapser? {
      var r := Reconcilers(ls[..i]);
      assert ls[i] !in r;
      assert r + ls[i..] == r + [ls[i]] + ls[i + 1..];
      RemoveFirstAfter(r, ls[i], ls[i + 1..]);
    }
  }

  /** After a popstate event, the current entry holds the target of the last
      collapse listener alone, at its URL; with no collapse listener the
      entry is as it was. Reconciliation never touches the history. */
  lemma {:induction false} DispatchState(ls: seq<Listener>, i: nat, k: Walk, ids: map<Template, Config>)
    requires i <= |ls| && StacksIn(k.w, k.stacks)
    ensures var r := DispatchFrom(ls, i, k, ids);
      match LastCollapse(ls[i..])
      case None => r.state == k.state && r.url == k.url
      case Some(next) => r.state == Some([next]) && FullUrl(r.url) == next.url && r.url.origin == k.url.origin
    decreases |ls| - i
  {
    if i < |ls| {
      DispatchState(ls, i + 1, StepWalk(ls[i], k, ids), ids);
      LastCollapseCons(ls[i..]);
      assert ls[i..][1..] == ls[i + 1..];
    } else {
      assert ls[i..] == [];
    }
  }

  /** The last collapse listener of `[l] + rest`: that of `rest`, or `l`. */
  lemma {:induction false} LastCollapseCons(ls: seq<Listener>)
    requires ls != []
    ensures LastCollapse(ls) == if LastCollapse(ls[1..]).Some? then LastCollapse(ls[1..])
                                else if ls[0].Collapser? then Some(ls[0].next) else None
    decreases |ls|
  {
    if |ls| > 1 {
      var init := ls[..|ls| - 1];
      assert init[1..] == ls[1..][..|ls[1..]| - 1];
      if ls[|ls| - 1].Reconciler? {
        LastCollapseCons(init);
      }
    }
  }

  /** The router's state that navigation and popstate handling change, as
      one value, so contracts can relate a state to the one before. */
  datatype Snap = Snap(entries: seq<Entry>, cursor: nat, pending: seq<int>, w: World,
                       stacks: map<Host, seq<nat>>, listeners: seq<Listener>)

  /** The state of the `resolveEvent` machinery. */
  datatype Pending = Pending(resolvers: map<nat, PromiseRef>, resolvedCount: nat, prevented: set<nat>,
                             active: Option<PromiseRef>, continuations: seq<Continuation>)

  class Router {
    const history: History
    /** `configs` (per view) and `ids` */
    var tables: Tables
    /** `urls`: descriptors by full URL */
    var urls: map<string, Desc>
    /** instances, with their `configs` and `disconnects` entries */
    var insts: seq<Inst>
    /** cleanup callbacks run so far, as (instance, cleanup) */
    var log: seq<(nat, nat)>
    /** `stacks` */
    var stacks: map<Host, seq<nat>>
    /** `routers` */
    var routers: set<Host>
    /** the window's popstate listeners */
    var listeners: seq<Listener>
    /** `resolvers`: promise associated with an event */
    var resolvers: map<nat, PromiseRef>
    var activePromise: Option<PromiseRef>
    var continuations: seq<Continuation>
    /** events whose default action was prevented */
    var prevented: set<nat>
    /** count of fresh `Promise.resolve()` values made */
    var resolvedCount: nat

    ghost predicate Valid()
      reads history, this`tables, this`urls, this`insts, this`log, this`stacks
    {
      && history.Valid()
      && TablesValid(tables)
      && UrlsKeyed(urls)
      && StacksIn(World(insts, log), stacks)
    }

    constructor (h: History)
      requires h.Valid()
      ensures Valid() && history == h
      ensures tables == Tables(map[], map[]) && urls == map[] && insts == [] && log == []
      ensures stacks == map[] && routers == {} && listeners == [] && resolvers == map[]
      ensures activePromise == None && continuations == [] && prevented == {} && resolvedCount == 0
    {
      history := h;
      tables := Tables(map[], map[]);
      urls := map[];
      insts := [];
      log := [];
      stacks := map[];
      routers := {};
      listeners := [];
      resolvers := map[];
      activePromise := None;
      continuations := [];
      prevented := {};
      resolvedCount := 0;
    }

    // -------------------------------------------------------------------
    // Registration

    /** `setupView(View, order)`: memoised per view. */
    method SetupView(view: View, order: int) returns (config: Config)
      requires Valid()
      modifies this`tables
      ensures Valid()
      ensures (config, tables) == SetupStep(old(tables), view, order)
    {
      ghost var r := SetupStep(tables, view, order);
      if view in tables.configs {
        config := tables.configs[view];
      } else {
        config := MakeConfig(view, order);
        tables := Tables(tables.configs[view := config], tables.ids[config.id := config]);
      }
      assert (config, tables) == r;
    }

    /** `registerViews(views, order)` */
    method RegisterViews(views: seq<ViewTree>, order: int) returns (result: Option<Config>)
      requires Valid()
      modifies this`tables
      ensures Valid()
      ensures (result, tables) == Register(views, order, old(tables))
      ensures forall v :: v in old(tables.configs) ==> v in tables.configs && tables.configs[v] == old(tables.configs[v])
      decreases views, 1
    {
      ghost var t0 := tables;
      result := None;
      var i, at := 0, order;
      while i < |views|
        invariant 0 <= i <= |views|
        invariant Valid()
        invariant RegisterFrom(views, i, at, tables) == RegisterFrom(views, 0, order, t0)
        invariant forall v :: v in t0.configs ==> v in tables.configs && tables.configs[v] == t0.configs[v]
        invariant i == 0 ==> result == None
        invariant i > 0 ==> var f := FirstLeaf(views);
          (f.None? <==> result.None?) && (result.Some? ==> f.value in tables.configs && tables.configs[f.value] == result.value)
      {
        var config := RegisterEntry(views, i, at);
        if i == 0 {
          assert views[0..] == views;
          result := config;
        }
        i, at := i + 1, at + 1;
      }
      RegisterFromLeaves(views, 0, order, t0);
      assert views[0..] == views;
      RegisterResult(views, order, t0);
    }

    /** One pass of `registerViews`' loop: entry `i` at order `at`. */
    method RegisterEntry(views: seq<ViewTree>, i: nat, at: int) returns (config: Option<Config>)
      requires Valid() && i < |views|
      modifies this`tables
      ensures Valid()
      ensures RegisterFrom(views, i, at, old(tables)) == RegisterFrom(views, i + 1, at + 1, tables)
      ensures forall v :: v in old(tables.configs) ==> v in tables.configs && tables.configs[v] == old(tables.configs[v])
      ensures var f := FirstLeaf(views[i..]);
        (f.None? <==> config.None?) && (config.Some? ==> f.value in tables.configs && tables.configs[f.value] == config.value)
      decreases views, 0
    {
      assert views[i..][0] == views[i];
      match views[i] {
        case Leaf(v) =>
          var c := SetupView(v, at);
          config := Some(c);
        case Group(ch) =>
          ghost var before := tables;
          config := RegisterViews(ch, at);
          RegisterResult(ch, at, before);
          RegisterFromLeaves(ch, 0, at, before);
          assert ch[0..] == ch;
      }
    }

    // -------------------------------------------------------------------
    // URLs

    /** `config.url(params)`: the URL string, and the descriptor
        `{id, params, url, order}` cached under it. */
    method Url(c: Config, params: Option<Params>) returns (r: Result<string, RouterError>)
      requires WellFormed(c)
      modifies this`urls
      ensures r == UrlResult(c, params)
      ensures urls == UrlsAfter(old(urls), c, params)
    {
      var built := BuildUrl(c, params);
      match built
      case Err(e) =>
        r := Err(UrlFailed(e));
      case Ok(u) =>
        if params.Some? {
          urls := urls[u := Desc(c.id, c.order, params.value, u)];
        }
        r := Ok(u);
    }

    /** `getUrl(View, params)` */
    method GetUrl(view: View, params: Params) returns (r: Result<string, RouterError>)
      requires Valid()
      modifies this`urls
      ensures Valid()
      ensures r == UrlFor(tables, view, params)
      ensures urls == UrlsAfterGetUrl(old(urls), tables, view, params)
    {
      if view !in tables.configs {
        r := Err(ConfigNotRegistered);
      } else {
        r := Url(tables.configs[view], Some(params));
      }
    }

    /** `getBackUrl(View, params)`: the URL of the entry below the top when
        the state list has more than one entry, `getUrl` otherwise. */
    method GetBackUrl(view: View, params: Params) returns (r: Result<string, RouterError>)
      requires Valid()
      modifies this`urls
      ensures Valid()
      ensures history.State().None? ==> r == Err(StateMissing) && urls == old(urls)
      ensures history.State().Some? && |history.State().value| > 1 ==>
        var s := history.State().value; r == Ok(s[|s| - 2].url) && urls == old(urls)
      ensures history.State().Some? && |history.State().value| <= 1 ==>
        r == UrlFor(tables, view, params) && urls == UrlsAfterGetUrl(old(urls), tables, view, params)
    {
      var state := history.State();
      if state.None? {
        r := Err(StateMissing);
      } else if |state.value| > 1 {
        r := Ok(state.value[|state.value| - 2].url);
      } else {
        r := GetUrl(view, params);
      }
    }

    /** `getStateFromURL(url, fallback)` */
    method GetStateFromURL(u: Location, fallback: Option<Config>) returns (r: Result<Desc, RouterError>)
      requires Valid()
      requires fallback.Some? ==> WellFormed(fallback.value)
      modifies this`urls
      ensures Valid()
      ensures (r, urls) == Resolution(old(urls), tables.ids, u, fallback)
    {
      var full := FullUrl(u);
      if full in urls {
        r := Ok(urls[full]);
      } else if Lift(u.pathname) in tables.ids {
        var c := tables.ids[Lift(u.pathname)];
        var d := Desc(c.id, c.order, map[], full);
        urls := urls[full := d];
        r := Ok(d);
      } else if fallback.None? {
        r := Err(FallbackUndefined);
      } else {
        var fb := fallback.value;
        var built := Url(fb, None);
        match built
        case Err(e) =>
          r := Err(e);
        case Ok(s) =>
          var d := Desc(fb.id, fb.order, map[], s);
          urls := urls[s := d];
          r := Ok(d);
      }
    }

    // -------------------------------------------------------------------
    // Instances

    /** The instance table and cleanup log as one value. */
    function Instances(): World
      reads this`insts, this`log
    {
      World(insts, log)
    }

    /** `disconnectInstance(instance)`: each cleanup of the instance's list
        is called once, in order, and the list is deleted; without a list the
        call throws and nothing changes. */
    method DisconnectInstance(h: nat) returns (ok: bool)
      requires h < |insts|
      modifies this`insts, this`log
      ensures |insts| == old(|insts|)
      ensures ok == Disconnect(old(Instances()), h).Some?
      ensures ok ==> Instances() == Disconnect(old(Instances()), h).value
      ensures !ok ==> Instances() == old(Instances())
    {
      if insts[h].cleanups.None? {
        return false;
      }
      var list := insts[h].cleanups.value;
      var k := 0;
      while k < |list|
        invariant 0 <= k <= |list|
        invariant insts == old(insts)
        invariant log == old(log) + Pairs(h, list[..k])
      {
        log := log + [(h, list[k])];
        assert Pairs(h, list[..k + 1]) == Pairs(h, list[..k]) + [(h, list[k])];
        k := k + 1;
      }
      assert list[..k] == list;
      insts := insts[h := insts[h].(cleanups := None)];
      ok := true;
    }

    /** `config.connect(instance)`: runs the view's setups on the instance
        (a fresh one when none is given) and records the cleanups they
        return and the config. */
    method Connect(c: Config, instance: Option<nat>) returns (h: nat)
      requires instance.Some? ==> instance.value < |insts|
      modifies this`insts
      ensures |insts| >= old(|insts|) && h < |insts|
      ensures instance.None? ==> (h, Instances()) == ConnectFresh(old(Instances()), c)
      ensures instance.Some? ==> h == instance.value && Instances() == ConnectExisting(old(Instances()), c, h)
    {
      var list := CleanupsOf(c.view.setups);
      if instance.None? {
        h := |insts|;
        insts := insts + [Inst(c, Some(list), map[])];
      } else {
        h := instance.value;
        insts := insts[h := Inst(c, Some(list), insts[h].fields)];
      }
    }

    /** `Object.assign(instance, params)` */
    method AssignParams(h: nat, params: Params)
      requires h < |insts|
      modifies this`insts
      ensures |insts| == old(|insts|)
      ensures Instances() == Assign(old(Instances()), h, params)
    {
      insts := insts[h := insts[h].(fields := insts[h].fields + params)];
    }

    /** The `state.map` callback at one index: the previous instance `prev`
        at that index is reused when its config is `cfg` (reconnected first
        if it was disconnected), and disconnected otherwise; without reuse a
        fresh instance is connected (with no config, `config.connect()`
        throws: `None`). The top entry's params are assigned to the result. */
    method PlaceEntry(d: Desc, prev: Option<nat>, cfg: Option<Config>, isTop: bool) returns (inst: Option<nat>)
      requires prev.Some? ==> prev.value < |insts|
      modifies this`insts, this`log
      ensures |insts| >= old(|insts|)
      ensures Slot(Instances(), inst) == Place(old(Instances()), d, prev, cfg, isTop)
    {
      inst := None;
      if prev.Some? {
        if cfg != Some(insts[prev.value].config) {
          if insts[prev.value].cleanups.Some? {
            var _ := DisconnectInstance(prev.value);
          }
        } else if insts[prev.value].cleanups.Some? {
          inst := prev;
        } else {
          var h := Connect(cfg.value, prev);
          inst := Some(h);
        }
      }
      if inst.None? {
        if cfg.None? {
          return;
        }
        var h := Connect(cfg.value, None);
        inst := Some(h);
      }
      if isTop {
        AssignParams(inst.value, d.params);
      }
    }

    /** The `state.map` callback at index `i`, with the instances of the
        indices before it in `acc`. */
    method MapEntry(list: seq<Desc>, last: seq<nat>, i: nat, acc: seq<nat>) returns (inst: Option<nat>)
      requires i < |list| && Handles(Instances(), last)
      modifies this`insts, this`log
      ensures |insts| >= old(|insts|) && (inst.Some? ==> inst.value < |insts|)
      ensures MapFrom(old(Instances()), list, last, tables.ids, i, acc) ==
        if inst.None? then Pass(Instances(), None) else MapFrom(Instances(), list, last, tables.ids, i + 1, acc + [inst.value])
    {
      var prev := if i < |last| then Some(last[i]) else None;
      inst := PlaceEntry(list[i], prev, Resolve(tables.ids, list[i].id), i == |list| - 1);
    }

    /** `state.map(...)` of `updateStack`; `None` when it throws. */
    method MapState(list: seq<Desc>, last: seq<nat>) returns (next: Option<seq<nat>>)
      requires Handles(Instances(), last)
      modifies this`insts, this`log
      ensures |insts| >= old(|insts|) && Handles(Instances(), last)
      ensures next.Some? ==> Handles(Instances(), next.value)
      ensures Pass(Instances(), next) == MapFrom(old(Instances()), list, last, tables.ids, 0, [])
    {
      ghost var w0 := Instances();
      var acc: seq<nat> := [];
      var i := 0;
      while i < |list|
        invariant 0 <= i <= |list| && |acc| == i
        invariant |insts| >= |w0.insts| && Handles(Instances(), last) && Handles(Instances(), acc)
        invariant MapFrom(Instances(), list, last, tables.ids, i, acc) == MapFrom(w0, list, last, tables.ids, 0, [])
      {
        var inst := MapEntry(list, last, i, acc);
        if inst.None? {
          return None;
        }
        acc := acc + [inst.value];
        i := i + 1;
      }
      next := Some(acc);
    }

    /** The trailing loop of `updateStack`: `disconnectInstance(last[j])` for
        each `j` from `from` on; false when one of them throws. */
    method DisconnectRest(last: seq<nat>, from: nat) returns (ok: bool)
      requires Handles(Instances(), last)
      modifies this`insts, this`log
      ensures |insts| == old(|insts|)
      ensures Tail(Instances(), ok) == DisconnectFrom(old(Instances()), last, from)
    {
      ghost var w0 := Instances();
      var j := from;
      while j < |last|
        invariant from <= j
        invariant |insts| == |w0.insts| && Handles(Instances(), last)
        invariant DisconnectFrom(Instances(), last, j) == DisconnectFrom(w0, last, from)
      {
        ok := DisconnectInstance(last[j]);
        if !ok {
          return;
        }
        j := j + 1;
      }
      ok := true;
    }

    /** The instances and stacks are those `updateStack` of `host` leaves
        from `w0` and `stacks0` for the current history state; `ok` tells
        whether it returned normally. */
    ghost predicate Reconciled(w0: World, stacks0: map<Host, seq<nat>>, host: Host, ok: bool)
      reads history, this`tables, this`insts, this`log, this`stacks
      requires history.Valid() && StacksIn(w0, stacks0)
    {
      var u := UpdateSpec(w0, history.State(), LastStack(stacks0, host), tables.ids);
      && Instances() == u.w && ok == u.ok
      && stacks == (if u.stack.Some? then stacks0[host := u.stack.value] else stacks0)
    }

    /** `updateStack()` of the router on `host`: the state list is mapped to
        instances and stored as the host's stack, and the instances of the
        previous stack beyond its length are disconnected. `ok` is false when
        it throws (no state, no config for an entry, an instance without a
        list in the trailing loop). */
    method UpdateStack(host: Host) returns (ok: bool)
      requires Valid()
      modifies this`insts, this`log, this`stacks
      ensures Valid()
      ensures Reconciled(old(Instances()), old(stacks), host, ok)
    {
      var last := LastStack(stacks, host);
      var state := history.State();
      if state.None? {
        return false;
      }
      UpdateHandles(Instances(), state, last, tables.ids);
      var next := MapState(state.value, last);
      if next.None? {
        return false;
      }
      stacks := stacks[host := next.value];
      ok := DisconnectRest(last, |state.value|);
    }

    // -------------------------------------------------------------------
    // Navigation

    ghost function Snapshot(): Snap
      reads history, this`insts, this`log, this`stacks, this`listeners
    {
      Snap(history.entries, history.cursor, history.traversals, Instances(), stacks, listeners)
    }

    /** The history, the instances, the stacks and the listeners are those of `s0`. */
    ghost predicate Kept(s0: Snap)
      reads history, this`insts, this`log, this`stacks, this`listeners
    {
      && history.entries == s0.entries && history.cursor == s0.cursor && history.traversals == s0.pending
      && Instances() == s0.w && stacks == s0.stacks && listeners == s0.listeners
    }

    /** `cb()`, that is `updateStack` of `host`, ran from the instances `w0`
        and stacks `stacks0` on the current history state; it threw iff
        `thrown` is set. */
    ghost predicate Called(w0: World, stacks0: map<Host, seq<nat>>, host: Host, thrown: Option<RouterError>)
      reads history, this`tables, this`insts, this`log, this`stacks
      requires history.Valid() && StacksIn(w0, stacks0)
    {
      Reconciled(w0, stacks0, host, thrown == None) && (thrown == None || thrown == Some(ReconcileFailed))
    }

    /** `go(delta)` from `s0`: a non-zero delta is queued as a traversal,
        and nothing else changes; the cursor moves only when it runs. */
    ghost predicate Went(s0: Snap, delta: int)
      reads history, this`insts, this`log, this`stacks
    {
      && history.entries == s0.entries && history.cursor == s0.cursor
      && history.traversals == (if delta != 0 then s0.pending + [delta] else s0.pending)
      && Instances() == s0.w && stacks == s0.stacks
    }

    /** `replaceState(state, "", url)` then `cb()`, from `s0`. */
    ghost predicate Replaced(s0: Snap, state: seq<Desc>, url: Option<string>, host: Host, thrown: Option<RouterError>)
      reads history, this`tables, this`insts, this`log, this`stacks, this`listeners
      requires history.Valid() && s0.cursor < |s0.entries| && StacksIn(s0.w, s0.stacks)
    {
      var at := s0.entries[s0.cursor].url;
      && history.entries == s0.entries[s0.cursor := Entry(Some(state), if url.Some? then ParseRelative(at.origin, url.value) else at)]
      && history.cursor == s0.cursor && history.traversals == s0.pending
      && listeners == s0.listeners && Called(s0.w, s0.stacks, host, thrown)
    }

    /** `pushState(state, "", url)` then `cb()`, from `s0`. */
    ghost predicate Pushed(s0: Snap, state: seq<Desc>, url: string, host: Host, thrown: Option<RouterError>)
      reads history, this`tables, this`insts, this`log, this`stacks, this`listeners
      requires history.Valid() && s0.cursor < |s0.entries| && StacksIn(s0.w, s0.stacks)
    {
      var at := s0.entries[s0.cursor].url;
      && history.entries == s0.entries[..s0.cursor + 1] + [Entry(Some(state), ParseRelative(at.origin, url))]
      && history.cursor == s0.cursor + 1 && history.traversals == s0.pending
      && listeners == s0.listeners && Called(s0.w, s0.stacks, host, thrown)
    }

    /** The effect of `navigate`'s branch `a` for target `next`, from `s0`. */
    ghost predicate Applied(s0: Snap, next: Desc, a: Action, host: Host, thrown: Option<RouterError>)
      reads history, this`tables, this`insts, this`log, this`stacks, this`listeners
      requires history.Valid() && s0.cursor < |s0.entries| && StacksIn(s0.w, s0.stacks)
    {
      match a
      case Seek(offset) =>
        thrown == None && Went(s0, offset) && listeners == s0.listeners
      case ReplaceTop(state) =>
        Replaced(s0, state, None, host, thrown)
      case Push(state) =>
        Pushed(s0, state, next.url, host, thrown)
      case Collapse(back, _) =>
        if back > 0 then
          thrown == None && Went(s0, -(back as int)) && listeners == s0.listeners + [Collapser(next, host)]
        else
          Replaced(s0, [next], Some(next.url), host, thrown)
      case NoTop =>
        thrown == Some(StateEmpty) && Kept(s0)
    }

    /** The effect of `navigate(u, cb)` with `cb` the `updateStack` of `host`. */
    ghost predicate Navigated(s0: Snap, urls0: map<string, Desc>, u: Location, host: Host, thrown: Option<RouterError>)
      reads history, this`tables, this`insts, this`log, this`stacks, this`listeners, this`urls
      requires history.Valid() && s0.cursor < |s0.entries| && StacksIn(s0.w, s0.stacks)
    {
      var res := Resolution(urls0, tables.ids, u, None);
      var list := s0.entries[s0.cursor].state;
      && urls == res.1
      && if res.0.Err? then thrown == Some(res.0.error) && Kept(s0)
         else if list.None? then thrown == Some(StateMissing) && Kept(s0)
         else Applied(s0, res.0.value, Decide(list.value, res.0.value), host, thrown)
    }

    /** `cb()` of `navigate`: `updateStack` of `host`. */
    method Callback(host: Host) returns (thrown: Option<RouterError>)
      requires Valid()
      modifies this`insts, this`log, this`stacks
      ensures Valid()
      ensures Called(old(Instances()), old(stacks), host, thrown)
    {
      var ok := UpdateStack(host);
      thrown := if ok then None else Some(ReconcileFailed);
    }

    /** `go(offset)` when `offset` is non-zero. */
    method SeekBy(offset: int)
      requires Valid()
      modifies history
      ensures Valid() && Went(old(Snapshot()), offset)
    {
      if offset != 0 {
        history.Go(offset);
      }
    }

    method ReplaceAndCall(state: seq<Desc>, url: Option<string>, host: Host) returns (thrown: Option<RouterError>)
      requires Valid()
      modifies history, this`insts, this`log, this`stacks
      ensures Valid() && Replaced(old(Snapshot()), state, url, host, thrown)
    {
      history.ReplaceState(state, url);
      thrown := Callback(host);
    }

    method PushAndCall(state: seq<Desc>, url: string, host: Host) returns (thrown: Option<RouterError>)
      requires Valid()
      modifies history, this`insts, this`log, this`stacks
      ensures Valid() && Pushed(old(Snapshot()), state, url, host, thrown)
    {
      history.PushState(state, url);
      thrown := Callback(host);
    }

    /** The collapse with `back > 0`: the `replace` listener is added, then
        `go(-back)`. */
    method CollapseLater(next: Desc, back: nat, host: Host)
      requires Valid() && back > 0
      modifies history, this`listeners
      ensures Valid() && Went(old(Snapshot()), -(back as int))
      ensures listeners == old(listeners) + [Collapser(next, host)]
    {
      listeners := listeners + [Collapser(next, host)];
      history.Go(-(back as int));
    }

    /** The branch of `navigate` for target `next`, once chosen. */
    method Apply(next: Desc, a: Action, host: Host) returns (thrown: Option<RouterError>)
      requires Valid()
      modifies history, this`insts, this`log, this`stacks, this`listeners
      ensures Valid()
      ensures Applied(old(Snapshot()), next, a, host, thrown)
    {
      thrown := None;
      match a {
        case Seek(offset) =>
          SeekBy(offset);
        case ReplaceTop(state) =>
          thrown := ReplaceAndCall(state, None, host);
        case Push(state) =>
          thrown := PushAndCall(state, next.url, host);
        case Collapse(back, _) =>
          if back > 0 {
            CollapseLater(next, back, host);
          } else {
            thrown := ReplaceAndCall([next], Some(next.url), host);
          }
        case NoTop =>
          thrown := Some(StateEmpty);
      }
    }

    /** `navigate(u, cb)`: resolve the target (with no fallback), read the
        state list and take the branch `Decide` chooses. */
    method Navigate(u: Location, host: Host) returns (thrown: Option<RouterError>)
      requires Valid()
      modifies this`urls, history, this`insts, this`log, this`stacks, this`listeners
      ensures Valid()
      ensures Navigated(old(Snapshot()), old(urls), u, host, thrown)
    {
      var next := GetStateFromURL(u, None);
      if next.Err? {
        return Some(next.error);
      }
      var list := history.State();
      if list.None? {
        return Some(StateMissing);
      }
      thrown := Apply(next.value, Decide(list.value, next.value), host);
    }

    /** The part of the state a popstate listener changes. */
    ghost function WalkNow(): Walk
      reads history, this`insts, this`log, this`stacks
      requires history.Valid()
    {
      Walk(Instances(), stacks, history.State(), history.Current())
    }

    /** One popstate listener runs. */
    method RunListener(l: Listener)
      requires Valid()
      modifies history, this`insts, this`log, this`stacks, this`listeners
      ensures Valid()
      ensures WalkNow() == StepWalk(l, old(WalkNow()), tables.ids)
      ensures history.cursor == old(history.cursor) && history.traversals == old(history.traversals)
      ensures |history.entries| == old(|history.entries|)
      ensures forall j :: 0 <= j < |history.entries| && j != history.cursor ==> history.entries[j] == old(history.entries[j])
      ensures listeners == if l.Collapser? then RemoveFirst(old(listeners), l) else old(listeners)
    {
      match l {
        case Reconciler(h) =>
          var _ := UpdateStack(h);
        case Collapser(next, h) =>
          listeners := RemoveFirst(listeners, l);
          history.ReplaceState([next], Some(next.url));
          var _ := UpdateStack(h);
      }
    }

    /** A popstate event reaches the window's listeners, in the order they
        were added: a collapse listener removes itself, replaces the current
        entry with its target and calls `updateStack`; a host's listener calls
        its `updateStack`. What a listener throws is reported, not propagated. */
    method DispatchPopstate()
      requires Valid()
      modifies history, this`insts, this`log, this`stacks, this`listeners
      ensures Valid()
      ensures var r := DispatchFrom(old(listeners), 0, Walk(old(Instances()), old(stacks), old(history.State()), old(history.Current())), tables.ids);
        && Instances() == r.w && stacks == r.stacks
        && history.cursor == old(history.cursor) && history.entries == old(history.entries)[history.cursor := Entry(r.state, r.url)]
      ensures history.traversals == old(history.traversals)
      ensures listeners == Reconcilers(old(listeners))
    {
      ghost var e0 := history.entries;
      ghost var k0 := WalkNow();
      var ls := listeners;
      var i := 0;
      while i < |ls|
        invariant i <= |ls| && Valid()
        invariant history.cursor == old(history.cursor) && |history.entries| == |e0|
        invariant forall j :: 0 <= j < |e0| && j != history.cursor ==> history.entries[j] == e0[j]
        invariant history.traversals == old(history.traversals)
        invariant DispatchFrom(ls, i, WalkNow(), tables.ids) == DispatchFrom(ls, 0, k0, tables.ids)
        invariant listeners == Reconcilers(ls[..i]) + ls[i..]
      {
        ListenersStep(ls, i);
        DispatchFromStep(ls, i, WalkNow(), tables.ids);
        RunListener(ls[i]);
        i := i + 1;
      }
      assert ls[..i] == ls;
      SameBut(history.entries, e0, history.cursor);
    }

    /** The environment runs the oldest traversal queued by `go`: when its
        target entry exists the cursor moves there and the popstate event is
        dispatched on the entry arrived at; otherwise nothing changes. */
    method TraverseHistory() returns (moved: bool)
      requires Valid() && history.traversals != []
      modifies history, this`insts, this`log, this`stacks, this`listeners
      ensures Valid() && history.traversals == old(history.traversals[1..])
      ensures moved <==> 0 <= old(history.cursor) + old(history.traversals[0]) < |old(history.entries)|
      ensures |history.entries| == old(|history.entries|)
      ensures !moved ==>
        && history.cursor == old(history.cursor) && history.entries == old(history.entries)
        && Instances() == old(Instances()) && stacks == old(stacks) && listeners == old(listeners)
      ensures moved ==> var at := old(history.entries)[history.cursor];
        var r := DispatchFrom(old(listeners), 0, Walk(old(Instances()), old(stacks), at.state, at.url), tables.ids);
        && history.cursor == old(history.cursor) + old(history.traversals[0])
        && Instances() == r.w && stacks == r.stacks
        && history.entries == old(history.entries)[history.cursor := Entry(r.state, r.url)]
        && listeners == Reconcilers(old(listeners))
    {
      moved := history.Traverse();
      if moved {
        DispatchPopstate();
      }
    }

    // -------------------------------------------------------------------
    // Host connection

    /** What `connect` leaves once `updateStack` of `host` is reached from
        the instances `w0`, stacks `stacks0` and listeners `listeners0`: the
        host's listener is added only when it returned normally. */
    ghost predicate Started(w0: World, stacks0: map<Host, seq<nat>>, listeners0: seq<Listener>, host: Host,
                            thrown: Option<RouterError>)
      reads history, this`tables, this`insts, this`log, this`stacks, this`listeners
      requires history.Valid() && StacksIn(w0, stacks0)
    {
      Called(w0, stacks0, host, thrown) && listeners == (if thrown == None then listeners0 + [Reconciler(host)] else listeners0)
    }

    /** `if (!window.history.state)`: the initial entry is written from the
        location with `fallback` as the fallback config. */
    method InitialState(fallback: Option<Config>) returns (thrown: Option<RouterError>)
      requires Valid() && (fallback.Some? ==> WellFormed(fallback.value))
      modifies this`urls, history
      ensures Valid()
      ensures var init := InitialEntry(old(urls), tables.ids, old(history.entries[history.cursor]), fallback);
        && thrown == init.error && urls == init.urls
        && history.cursor == old(history.cursor) && history.traversals == old(history.traversals)
        && history.entries == old(history.entries)[history.cursor := init.entry]
    {
      if history.State().None? {
        var next := GetStateFromURL(history.Current(), fallback);
        if next.Err? {
          return Some(next.error);
        }
        history.ReplaceState([next.value], Some(next.value.url));
      }
      thrown := None;
    }

    /** `registerViews(views)`, `routers.add(host)` and the initial state. */
    method Prepare(host: Host, views: seq<ViewTree>) returns (thrown: Option<RouterError>)
      requires Valid()
      modifies this`tables, this`urls, this`routers, history
      ensures Valid()
      ensures var reg := Register(views, 0, old(tables));
        var init := InitialEntry(old(urls), reg.1.ids, old(history.entries[history.cursor]), reg.0);
        && tables == reg.1 && routers == old(routers) + {host} && urls == init.urls && thrown == init.error
        && history.cursor == old(history.cursor) && history.traversals == old(history.traversals)
        && history.entries == old(history.entries)[history.cursor := init.entry]
    {
      ghost var reg := Register(views, 0, tables);
      var defaultConfig := RegisterViews(views, 0);
      assert defaultConfig == reg.0 && tables == reg.1;
      routers := routers + {host};
      thrown := InitialState(defaultConfig);
    }

    /** The part of `connect` after the checks. */
    method Mount(host: Host, views: seq<ViewTree>) returns (thrown: Option<RouterError>)
      requires Valid()
      modifies this`tables, this`urls, this`routers, history, this`insts, this`log, this`stacks, this`listeners
      ensures Valid()
      ensures var reg := Register(views, 0, old(tables));
        var init := InitialEntry(old(urls), reg.1.ids, old(history.entries[history.cursor]), reg.0);
        && tables == reg.1 && routers == old(routers) + {host} && urls == init.urls
        && history.cursor == old(history.cursor) && history.traversals == old(history.traversals)
        && history.entries == old(history.entries)[history.cursor := init.entry]
        && (init.error.Some? ==> thrown == init.error && Instances() == old(Instances())
                                 && stacks == old(stacks) && listeners == old(listeners))
        && (init.error.None? ==> Started(old(Instances()), old(stacks), old(listeners), host, thrown))
    {
      thrown := Prepare(host, views);
      if thrown != None {
        return;
      }
      thrown := Callback(host);
      if thrown == None {
        listeners := listeners + [Reconciler(host)];
      }
    }

    /** `connect(host, key, invalidate)` of `router(views)`: refuses a host
        already routed and a second element host; otherwise registers the
        views, adds the host to `routers`, writes an initial state when there
        is none, reconciles and starts listening for popstate. */
    method ConnectHost(host: Host, key: string, views: seq<ViewTree>) returns (thrown: Option<RouterError>)
      requires Valid()
      modifies this`tables, this`urls, this`routers, history, this`insts, this`log, this`stacks, this`listeners
      ensures Valid()
      ensures host in old(routers) ==>
        thrown == Some(DuplicatedRouter(key, StringifyElement(host.tagName)))
      ensures host !in old(routers) && old(routers) != {} && host.isElement ==>
        thrown == Some(MultipleRouters(StringifyElement(host.tagName)))
      ensures host in old(routers) || (old(routers) != {} && host.isElement) ==>
        tables == old(tables) && urls == old(urls) && routers == old(routers) && Kept(old(Snapshot()))
      ensures host !in old(routers) && !(old(routers) != {} && host.isElement) ==>
        var reg := Register(views, 0, old(tables));
        var init := InitialEntry(old(urls), reg.1.ids, old(history.entries[history.cursor]), reg.0);
        && tables == reg.1 && routers == old(routers) + {host} && urls == init.urls
        && history.cursor == old(history.cursor) && history.traversals == old(history.traversals)
        && history.entries == old(history.entries)[history.cursor := init.entry]
        && (init.error.Some? ==> thrown == init.error && Instances() == old(Instances())
                                 && stacks == old(stacks) && listeners == old(listeners))
        && (init.error.None? ==> Started(old(Instances()), old(stacks), old(listeners), host, thrown))
    {
      if host in routers {
        return Some(DuplicatedRouter(key, StringifyElement(host.tagName)));
      }
      if routers != {} && host.isElement {
        return Some(MultipleRouters(StringifyElement(host.tagName)));
      }
      thrown := Mount(host, views);
    }

    /** The function `connect` returns: stop listening, disconnect every
        instance of the host's stack in order, and drop the host from
        `routers`; the first instance without a list throws. */
    method DisconnectHost(host: Host) returns (thrown: Option<RouterError>)
      requires Valid()
      modifies this`listeners, this`insts, this`log, this`routers
      ensures Valid()
      ensures listeners == RemoveFirst(old(listeners), Reconciler(host))
      ensures host !in stacks ==> thrown == Some(StackMissing) && Instances() == old(Instances()) && routers == old(routers)
      ensures host in stacks ==>
        && Tail(Instances(), thrown == None) == DisconnectFrom(old(Instances()), stacks[host], 0)
        && (thrown == None || thrown == Some(CleanupsMissing))
        && routers == (if thrown == None then old(routers) - {host} else old(routers))
    {
      listeners := RemoveFirst(listeners, Reconciler(host));
      if host !in stacks {
        return Some(StackMissing);
      }
      var ok := DisconnectRest(stacks[host], 0);
      if !ok {
        return Some(CleanupsMissing);
      }
      routers := routers - {host};
      thrown := None;
    }

    // -------------------------------------------------------------------
    // Guarded navigation

    ghost function PendingState(): Pending
      reads this`resolvers, this`resolvedCount, this`prevented, this`activePromise, this`continuations
    {
      Pending(resolvers, resolvedCount, prevented, activePromise, continuations)
    }

    /** `resolve(event, promise)`: associates a promise with an event. */
    method Associate(event: nat, promise: nat)
      modifies this`resolvers
      ensures resolvers == old(resolvers)[event := UserPromise(promise)]
    {
      resolvers := resolvers[event := UserPromise(promise)];
    }

    /** `resolveEvent(event, u, cb)` of the router on `host`, from `p0`: the
        default action is prevented at once, the event's promise (or a fresh
        resolved one) becomes the active one, and a continuation waits on it. */
    ghost predicate Resolving(p0: Pending, event: nat, u: Location, host: Host)
      reads this`resolvers, this`resolvedCount, this`prevented, this`activePromise, this`continuations
    {
      var promise := if event in p0.resolvers then p0.resolvers[event] else Resolved(p0.resolvedCount);
      && resolvers == p0.resolvers
      && resolvedCount == (if event in p0.resolvers then p0.resolvedCount else p0.resolvedCount + 1)
      && prevented == p0.prevented + {event}
      && activePromise == Guard.Step(p0.active, Guard.Start(promise)).0
      && continuations == p0.continuations + [Continuation(promise, u, host)]
    }

    method ResolveEvent(event: nat, u: Location, host: Host)
      modifies this`resolvedCount, this`prevented, this`activePromise, this`continuations
      ensures Resolving(old(PendingState()), event, u, host)
    {
      var promise: PromiseRef;
      if event in resolvers {
        promise := resolvers[event];
      } else {
        promise := Resolved(resolvedCount);
        resolvedCount := resolvedCount + 1;
      }
      prevented := prevented + {event};
      activePromise := Some(promise);
      continuations := continuations + [Continuation(promise, u, host)];
    }

    /** The continuation `k` runs once its promise settles, and is used up. */
    method Settle(k: nat) returns (thrown: Option<RouterError>)
      requires Valid() && k < |continuations|
      modifies this`continuations, this`activePromise
      modifies this`urls, history, this`insts, this`log, this`stacks, this`listeners
      ensures Valid()
      ensures continuations == old(continuations[..k] + continuations[k + 1..])
      ensures Continued(old(activePromise), old(Snapshot()), old(urls), old(continuations[k]), thrown)
    {
      var c := continuations[k];
      continuations := continuations[..k] + continuations[k + 1..];
      thrown := RunContinuation(c);
    }

    /** What the continuation `c` does from the active promise `active0`,
        the state `s0` and the `urls` table `urls0`: it navigates only when
        its promise is still the active one, and then clears the slot, stale
        or not, unless `navigate` threw. */
    ghost predicate Continued(active0: Option<PromiseRef>, s0: Snap, urls0: map<string, Desc>, c: Continuation,
                              thrown: Option<RouterError>)
      reads history, this`tables, this`urls, this`insts, this`log, this`stacks, this`listeners, this`activePromise
      requires history.Valid() && s0.cursor < |s0.entries| && StacksIn(s0.w, s0.stacks)
    {
      var g := Guard.Step(active0, Guard.Settle(c.promise, thrown.Some?));
      && (!g.1 ==> thrown == None && activePromise == g.0 && urls == urls0 && Kept(s0))
      && (g.1 ==> Navigated(s0, urls0, c.url, c.host, thrown) && activePromise == g.0)
    }

    /** The body of the `.then` callback of `resolveEvent`. */
    method RunContinuation(c: Continuation) returns (thrown: Option<RouterError>)
      requires Valid()
      modifies this`activePromise, this`urls, history, this`insts, this`log, this`stacks, this`listeners
      ensures Valid()
      ensures Continued(old(activePromise), old(Snapshot()), old(urls), c, thrown)
    {
      ghost var active0, s0, urls0 := activePromise, Snapshot(), urls;
      thrown := None;
      if activePromise == Some(c.promise) {
        thrown := Navigate(c.url, c.host);
        if thrown == None {
          activePromise := None;
        }
        assert Guard.Step(active0, Guard.Settle(c.promise, thrown.Some?)) == (activePromise, true);
      } else {
        activePromise := None;
        assert Guard.Step(active0, Guard.Settle(c.promise, false)) == (None, false);
        assert Kept(s0);
      }
    }

    // -------------------------------------------------------------------
    // Interception

    /** The click listener of the host: `handleAnchorClick(event, updateStack)`. */
    method OnClick(event: nat, e: ClickEvent, host: Host) returns (taken: bool)
      requires history.Valid()
      modifies this`resolvedCount, this`prevented, this`activePromise, this`continuations
      ensures taken == AnchorIntercepts(e, history.Current(), urls.Keys)
      ensures taken ==> Resolving(old(PendingState()), event, e.anchor.value, host)
      ensures !taken ==> PendingState() == old(PendingState())
    {
      taken := AnchorIntercepts(e, history.Current(), urls.Keys);
      if taken {
        ResolveEvent(event, e.anchor.value, host);
      }
    }

    /** The submit listener of the host: `handleFormSubmit(event, updateStack)`. */
    method OnSubmit(event: nat, e: SubmitEvent, host: Host) returns (taken: bool)
      requires history.Valid()
      modifies this`resolvedCount, this`prevented, this`activePromise, this`continuations
      ensures taken == FormIntercepts(e, history.Current(), urls.Keys)
      ensures taken ==> Resolving(old(PendingState()), event, e.action, host)
      ensures !taken ==> PendingState() == old(PendingState())
    {
      taken := FormIntercepts(e, history.Current(), urls.Keys);
      if taken {
        ResolveEvent(event, e.action, host);
      }
    }
  }
}
