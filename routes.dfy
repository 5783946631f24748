/** Route definitions compiled into configs (`setupView` without its registry
    writes) and the string building of `config.url(params)`.

    A route is written `path/with/:placeholders?key1,key2`. The source replaces
    every `:name` segment of the path by a process-wide token (`Date.now()`)
    and later splits the template at that token; here the token is the abstract
    piece `Hole`, so a template is a sequence of characters and holes. */
module Routes {
  import opened Wrappers

  datatype Piece = Ch(c: char) | Hole

  type Template = seq<Piece>

  /** A JavaScript params object: own property name to its string value. */
  type Params = map<string, string>

  /** A template made of plain characters only: how a pathname compares with
      route ids in the `ids` table. */
  function Lift(s: string): (t: Template)
    ensures |t| == |s| && forall i :: 0 <= i < |s| ==> t[i] == Ch(s[i])
  {
    seq(|s|, i requires 0 <= i < |s| => Ch(s[i]))
  }

  function Holes(t: Template): nat
  {
    if t == [] then 0 else (if t[0] == Hole then 1 else 0) + Holes(t[1..])
  }

  lemma {:induction false} LiftHasNoHoles(s: string)
    ensures Holes(Lift(s)) == 0
  {
    if s != [] {
      assert Lift(s)[1..] == Lift(s[1..]);
      LiftHasNoHoles(s[1..]);
    }
  }

  /** Fills the holes of `t` with `vals`, left to right. */
  function Render(t: Template, vals: seq<string>): string
    requires Holes(t) == |vals|
  {
    if t == [] then ""
    else if t[0] == Hole then vals[0] + Render(t[1..], vals[1..])
    else [t[0].c] + Render(t[1..], vals)
  }

  // ---------------------------------------------------------------------
  // Splitting (`String.prototype.split` on one character, and `join`)

  /** `s.split(c)` for a one-character separator: never empty, `[""]` for "". */
  function SplitOn(s: string, c: char): (parts: seq<string>)
    ensures |parts| >= 1
    ensures forall j :: 0 <= j < |parts| ==> c !in parts[j]
  {
    if s == [] then [""]
    else
      var rest := SplitOn(s[1..], c);
      if s[0] == c then [""] + rest else [[s[0]] + rest[0]] + rest[1..]
  }

  /** `parts.join(sep)` */
  function Join(parts: seq<string>, sep: string): string
  {
    if parts == [] then "" else if |parts| == 1 then parts[0] else parts[0] + sep + Join(parts[1..], sep)
  }

  /** Joining the pieces of a split with the separator gives the string back. */
  lemma {:induction false} SplitJoin(s: string, c: char)
    ensures Join(SplitOn(s, c), [c]) == s
  {
    if s != [] {
      SplitJoin(s[1..], c);
      var rest := SplitOn(s[1..], c);
      if s[0] == c {
        assert s == [c] + s[1..];
      } else if |rest| == 1 {
        assert s == [s[0]] + s[1..];
      } else {
        assert Join(SplitOn(s, c), [c]) == [s[0]] + rest[0] + [c] + Join(rest[1..], [c]);
        assert s == [s[0]] + s[1..];
      }
    }
  }

  // ---------------------------------------------------------------------
  // Path templates: `id.replace(/:([^/]+)/g, ...)`

  /** The longest prefix of `s` without a `/`: what `[^/]+` consumes greedily. */
  function SegmentName(s: string): (k: string)
    ensures k <= s && '/' !in k
    ensures |k| == |s| || s[|k|] == '/'
  {
    if s == [] || s[0] == '/' then "" else [s[0]] + SegmentName(s[1..])
  }

  datatype ParsedPath = ParsedPath(id: Template, keys: seq<string>)

  /** Every `:` followed by at least one character other than `/` starts a
      placeholder whose name runs to the next `/`; it becomes a hole and its
      name is recorded in `keys`. Any other character stays as it is. */
  function ParsePath(s: string): (p: ParsedPath)
    ensures Holes(p.id) == |p.keys|
    ensures forall j :: 0 <= j < |p.keys| ==> p.keys[j] != "" && '/' !in p.keys[j]
    ensures s == [] <==> p.id == []
    ensures s != [] && s[0] != ':' ==> p.id[0] == Ch(s[0])
    ensures forall j :: 0 <= j < |p.id| && (p.id[j] == Hole || p.id[j] == Ch(':')) ==>
      j + 1 == |p.id| || p.id[j + 1] == Ch('/')
    decreases |s|
  {
    if s == [] then ParsedPath([], [])
    else if s[0] == ':' && |s| > 1 && s[1] != '/' then
      var k := SegmentName(s[1..]);
      var rest := ParsePath(s[1 + |k|..]);
      ParsedPath([Hole] + rest.id, [k] + rest.keys)
    else
      var rest := ParsePath(s[1..]);
      ParsedPath([Ch(s[0])] + rest.id, rest.keys)
  }

  /** Each key written back as the `:name` it was parsed from. */
  function Spelled(keys: seq<string>): (r: seq<string>)
    ensures |r| == |keys| && forall j :: 0 <= j < |keys| ==> r[j] == ":" + keys[j]
  {
    seq(|keys|, j requires 0 <= j < |keys| => ":" + keys[j])
  }

  /** What the path part of `setupView` produces for `s`: holes counted by
      the keys, keys that are non-empty and `/`-free, a hole or a literal `:`
      only before a `/` or at the end, and the route spelled back exactly. */
  ghost predicate ParsesAs(s: string, q: ParsedPath)
  {
    && Holes(q.id) == |q.keys|
    && (forall j :: 0 <= j < |q.keys| ==> q.keys[j] != "" && '/' !in q.keys[j])
    && (forall j :: 0 <= j < |q.id| && (q.id[j] == Hole || q.id[j] == Ch(':')) ==>
          j + 1 == |q.id| || q.id[j + 1] == Ch('/'))
    && Render(q.id, Spelled(q.keys)) == s
  }

  lemma RenderHoleCons(t: Template, k: string, keys: seq<string>)
    requires Holes(t) == |keys|
    ensures Holes([Hole] + t) == |[k] + keys|
    ensures Render([Hole] + t, Spelled([k] + keys)) == ":" + k + Render(t, Spelled(keys))
  {
    assert ([Hole] + t)[1..] == t;
    assert Spelled([k] + keys)[1..] == Spelled(keys);
  }

  lemma RenderCharCons(c: char, t: Template, keys: seq<string>)
    requires Holes(t) == |keys|
    ensures Holes([Ch(c)] + t) == |keys|
    ensures Render([Ch(c)] + t, Spelled(keys)) == [c] + Render(t, Spelled(keys))
  {
    assert ([Ch(c)] + t)[1..] == t;
  }

  /** The placeholder case of `ParsePath`, one unfolding. */
  lemma ParsePathHoleCase(s: string)
    requires |s| > 1 && s[0] == ':' && s[1] != '/'
    ensures var k := SegmentName(s[1..]); var rest := ParsePath(s[1 + |k|..]);
      ParsePath(s) == ParsedPath([Hole] + rest.id, [k] + rest.keys)
  {
  }

  /** The literal case of `ParsePath`, one unfolding. */
  lemma ParsePathCharCase(s: string)
    requires s != [] && !(s[0] == ':' && |s| > 1 && s[1] != '/')
    ensures var rest := ParsePath(s[1..]); ParsePath(s) == ParsedPath([Ch(s[0])] + rest.id, rest.keys)
  {
  }

  /** Writing every placeholder back as `:name` restores the route path, so
      parsing loses nothing. */
  lemma {:induction false} ParsePathRender(s: string)
    ensures var p := ParsePath(s); Render(p.id, Spelled(p.keys)) == s
    decreases |s|
  {
    if s != [] && s[0] == ':' && |s| > 1 && s[1] != '/' {
      var k := SegmentName(s[1..]);
      var tail := s[1 + |k|..];
      var rest := ParsePath(tail);
      ParsePathRender(tail);
      assert Render([Hole] + rest.id, Spelled([k] + rest.keys)) == s by {
        RenderHoleCons(rest.id, k, rest.keys);
        assert s == ":" + k + tail;
      }
      ParsePathHoleCase(s);
    } else if s != [] {
      var rest := ParsePath(s[1..]);
      ParsePathRender(s[1..]);
      assert Render([Ch(s[0])] + rest.id, Spelled(rest.keys)) == s by {
        RenderCharCons(s[0], rest.id, rest.keys);
        assert s == [s[0]] + s[1..];
      }
      ParsePathCharCase(s);
    }
  }


  /** A rendered template starting with a character starts with that character. */
  lemma RenderHead(t: Template, vals: seq<string>)
    requires Holes(t) == |vals| && t != [] && t[0].Ch?
    ensures Render(t, vals) != [] && Render(t, vals)[0] == t[0].c
  {
  }

  /** The greedy name after `:` stops exactly where a `/` or the end follows. */
  lemma {:induction false} SegmentNameOf(k: string, rest: string)
    requires '/' !in k && (rest == [] || rest[0] == '/')
    ensures SegmentName(k + rest) == k
    decreases |k|
  {
    if k == [] {
      assert k + rest == rest;
    } else {
      assert (k + rest)[0] == k[0] && (k + rest)[1..] == k[1..] + rest;
      SegmentNameOf(k[1..], rest);
    }
  }

  /** The parse with its first piece taken off. */
  function RestOf(q: ParsedPath): ParsedPath
    requires q.id != [] && Holes(q.id) == |q.keys|
  {
    ParsedPath(q.id[1..], if q.id[0] == Hole then q.keys[1..] else q.keys)
  }

  /** Taking the first piece off a parse of `s` leaves a parse of the rest. */
  lemma ParsesAsStep(s: string, q: ParsedPath)
    requires ParsesAs(s, q) && q.id != []
    ensures var q' := RestOf(q); var tail := Render(q'.id, Spelled(q'.keys));
      && ParsesAs(tail, q')
      && (q.id[0] == Hole ==> s == ":" + q.keys[0] + tail)
      && (q.id[0].Ch? ==> s == [q.id[0].c] + tail)
      && ((q.id[0] == Hole || q.id[0] == Ch(':')) ==> tail == [] || tail[0] == '/')
  {
    var q' := RestOf(q);
    var vals := Spelled(q.keys);
    assert Spelled(q'.keys) == (if q.id[0] == Hole then vals[1..] else vals);
    var tail := Render(q'.id, Spelled(q'.keys));
    forall j | 0 <= j < |q'.id| && (q'.id[j] == Hole || q'.id[j] == Ch(':'))
      ensures j + 1 == |q'.id| || q'.id[j + 1] == Ch('/')
    {
      assert q.id[j + 1] == q'.id[j];
    }
    if q.id[0] == Hole {
      assert forall j :: 0 <= j < |q'.keys| ==> q'.keys[j] == q.keys[j + 1];
    }
    if q'.id != [] && (q.id[0] == Hole || q.id[0] == Ch(':')) {
      assert q.id[1] == Ch('/');
      RenderHead(q'.id, Spelled(q'.keys));
    }
  }

  /** A placeholder first: `:k` up to a `/` or the end becomes a hole. */
  lemma ParseHoleHead(s: string, k: string, tail: string)
    requires k != "" && '/' !in k && (tail == [] || tail[0] == '/') && s == ":" + k + tail
    ensures ParsePath(s) == ParsedPath([Hole] + ParsePath(tail).id, [k] + ParsePath(tail).keys)
  {
    assert s[1..] == k + tail;
    SegmentNameOf(k, tail);
    assert s[1 + |k|..] == tail;
    assert s[1] == k[0];
  }

  /** A character first that does not start a placeholder stays literal. */
  lemma ParseCharHead(s: string, c: char, tail: string)
    requires s == [c] + tail && (c == ':' ==> tail == [] || tail[0] == '/')
    ensures ParsePath(s) == ParsedPath([Ch(c)] + ParsePath(tail).id, ParsePath(tail).keys)
  {
    assert s[1..] == tail;
  }

  /** A parse whose rest is the parse of the rest of the route is the parse
      of the route. */
  lemma UniqueStep(s: string, q: ParsedPath)
    requires ParsesAs(s, q) && q.id != []
    requires RestOf(q) == ParsePath(Render(RestOf(q).id, Spelled(RestOf(q).keys)))
    ensures q == ParsePath(s)
  {
    var q' := RestOf(q);
    var tail := Render(q'.id, Spelled(q'.keys));
    ParsesAsStep(s, q);
    if q.id[0] == Hole {
      ParseHoleHead(s, q.keys[0], tail);
      assert q == ParsedPath([Hole] + q'.id, [q.keys[0]] + q'.keys);
    } else {
      ParseCharHead(s, q.id[0].c, tail);
      assert q == ParsedPath([q.id[0]] + q'.id, q'.keys);
    }
  }

  /** The parse is the only one with the properties `ParsePath` promises:
      any template and keys that meet them and spell `s` back are its parse.
      So `:name` is a hole exactly where `/:([^/]+)/g` matches. */
  lemma {:induction false} ParsePathUnique(s: string, q: ParsedPath)
    requires ParsesAs(s, q)
    ensures q == ParsePath(s)
    decreases |q.id|
  {
    if q.id == [] {
      assert s == [];
    } else {
      var q' := RestOf(q);
      ParsesAsStep(s, q);
      ParsePathUnique(Render(q'.id, Spelled(q'.keys)), q');
      UniqueStep(s, q);
    }
  }

  /** `ParsePath` meets its own characterisation. */
  lemma ParsePathParses(s: string)
    ensures ParsesAs(s, ParsePath(s))
  {
    ParsePathRender(s);
  }

  // ---------------------------------------------------------------------
  // Views and their configs

  /** A setup callback of the view's compiled definition, reduced to the
      cleanup it returns (`None` for a falsy return value). */
  datatype Setup = Setup(cleanup: Option<nat>)

  /** A view: its object identity, the route string of its router options and
      its setup callbacks. */
  datatype View = View(ident: nat, route: string, setups: seq<Setup>)

  /** A compiled config. `view` stands for the config's identity: each view is
      compiled once. */
  datatype Config = Config(view: View, id: Template, order: int, paramsKeys: seq<string>, searchKeys: seq<string>)

  /** A config as `setupView` builds it: the holes of `id` are exactly the
      placeholders named by `paramsKeys`, and `searchKeys` is never empty. */
  ghost predicate WellFormed(c: Config)
  {
    Holes(c.id) == |c.paramsKeys| && |c.searchKeys| >= 1
  }

  /** The config `setupView` builds for `view` at `order`: the route is split
      at `?`; the first part is the path template, the second (or "") the
      comma-separated search keys. */
  function MakeConfig(view: View, order: int): (c: Config)
    ensures WellFormed(c) && c.view == view && c.order == order
  {
    var parts := SplitOn(view.route, '?');
    var search := if |parts| > 1 then parts[1] else "";
    var p := ParsePath(parts[0]);
    Config(view, p.id, order, p.keys, SplitOn(search, ','))
  }

  /** A route without `?` still declares one search key, the empty one,
      because `"".split(",")` is `[""]`. */
  lemma MakeConfigNoQuery(view: View, order: int)
    requires '?' !in view.route
    ensures MakeConfig(view, order).searchKeys == [""]
    ensures MakeConfig(view, order).id == ParsePath(view.route).id
  {
    SplitJoin(view.route, '?');
  }

  // ---------------------------------------------------------------------
  // config.url(params)

  datatype UrlError =
    | /** `hasOwnProperty.call(undefined, key)`: params is not an object */
      ParamsNotObject
    | /** "The 'name' parameter must be defined" */
      MissingParameter(name: string)

  /** The path part of `url(params)`: each hole takes `params[key]` of the
      next placeholder key; the first missing key is an error. */
  function FillPath(id: Template, keys: seq<string>, params: Option<Params>): Result<string, UrlError>
    requires Holes(id) == |keys|
  {
    if id == [] then Ok("")
    else if id[0] == Hole then
      if params.None? then Err(ParamsNotObject)
      else if keys[0] !in params.value then Err(MissingParameter(keys[0]))
      else match FillPath(id[1..], keys[1..], params)
        case Ok(rest) => Ok(params.value[keys[0]] + rest)
        case Err(e) => Err(e)
    else match FillPath(id[1..], keys, params)
      case Ok(rest) => Ok([id[0].c] + rest)
      case Err(e) => Err(e)
  }

  /** The declared search keys present in `params`, in declared order. */
  function PresentKeys(keys: seq<string>, params: Params): (r: seq<string>)
    ensures forall k :: k in r <==> k in keys && k in params
  {
    if keys == [] then []
    else (if keys[0] in params then [keys[0]] else []) + PresentKeys(keys[1..], params)
  }

  /** `key=value` for each present search key. */
  function QueryPairs(keys: seq<string>, params: Params): (r: seq<string>)
    ensures |r| == |PresentKeys(keys, params)|
    ensures forall j :: 0 <= j < |r| ==>
      var k := PresentKeys(keys, params)[j]; k in params && r[j] == k + "=" + params[k]
  {
    var present := PresentKeys(keys, params);
    seq(|present|, j requires 0 <= j < |present| => present[j] + "=" + params[present[j]])
  }

  /** The string `config.url(params)` returns, or the error it throws. */
  function BuildUrl(c: Config, params: Option<Params>): Result<string, UrlError>
    requires WellFormed(c)
  {
    match FillPath(c.id, c.paramsKeys, params)
    case Err(e) => Err(e)
    case Ok(path) =>
      if |c.searchKeys| == 0 then Ok(path)
      else if params.None? then Err(ParamsNotObject)
      else
        var pairs := QueryPairs(c.searchKeys, params.value);
        Ok(if pairs == [] then path else path + "?" + Join(pairs, "&"))
  }

  /** The values of `keys` in `params`. */
  function Values(keys: seq<string>, params: Params): seq<string>
    requires forall j :: 0 <= j < |keys| ==> keys[j] in params
  {
    seq(|keys|, j requires 0 <= j < |keys| => params[keys[j]])
  }

  /** Filling placeholders succeeds exactly when every placeholder key is
      present, and then fills each hole with its key's value in order. */
  lemma {:induction false} FillPathOk(id: Template, keys: seq<string>, params: Params)
    requires Holes(id) == |keys|
    ensures FillPath(id, keys, Some(params)).Ok? <==> forall j :: 0 <= j < |keys| ==> keys[j] in params
    ensures (forall j :: 0 <= j < |keys| ==> keys[j] in params) ==>
      FillPath(id, keys, Some(params)) == Ok(Render(id, Values(keys, params)))
  {
    if id != [] {
      if id[0] == Hole {
        FillPathOk(id[1..], keys[1..], params);
        if forall j :: 0 <= j < |keys| ==> keys[j] in params {
          assert Values(keys, params)[1..] == Values(keys[1..], params);
        } else if keys[0] in params {
          var j :| 0 <= j < |keys| && keys[j] !in params;
          assert keys[1..][j - 1] !in params;
        }
      } else {
        FillPathOk(id[1..], keys, params);
      }
    }
  }

  /** The first key (in order of appearance) that is absent is the one named
      by the error. */
  lemma {:induction false} FillPathMissing(id: Template, keys: seq<string>, params: Params, i: nat)
    requires Holes(id) == |keys|
    requires i < |keys| && keys[i] !in params
    requires forall j :: 0 <= j < i ==> keys[j] in params
    ensures FillPath(id, keys, Some(params)) == Err(MissingParameter(keys[i]))
  {
    if id[0] == Hole {
      if i > 0 {
        FillPathMissing(id[1..], keys[1..], params, i - 1);
      }
    } else {
      FillPathMissing(id[1..], keys, params, i);
    }
  }

  /** `url(params)` succeeds exactly when every placeholder key is present in
      `params`; the result is the filled path followed by `?` and the
      `key=value` pairs of the present search keys joined by `&`, with no `?`
      when none is present. */
  lemma UrlShape(c: Config, params: Params)
    requires WellFormed(c)
    ensures BuildUrl(c, Some(params)).Ok? <==> forall j :: 0 <= j < |c.paramsKeys| ==> c.paramsKeys[j] in params
    ensures BuildUrl(c, Some(params)).Ok? ==>
      var path := Render(c.id, Values(c.paramsKeys, params));
      var present := PresentKeys(c.searchKeys, params);
      BuildUrl(c, Some(params)).value ==
        (if present == [] then path else path + "?" + Join(QueryPairs(c.searchKeys, params), "&"))
  {
    FillPathOk(c.id, c.paramsKeys, params);
  }

  /** `url()` called without params always throws: the search keys are never
      empty, so `hasOwnProperty` is reached with `undefined`. */
  lemma UrlWithoutParamsFails(c: Config)
    requires WellFormed(c)
    ensures BuildUrl(c, None) == Err(ParamsNotObject)
  {
    if Holes(c.id) > 0 {
      FillPathNoParams(c.id, c.paramsKeys);
    } else {
      FillPathNoHoles(c.id, None);
    }
  }

  lemma {:induction false} FillPathNoHoles(id: Template, params: Option<Params>)
    requires Holes(id) == 0
    ensures FillPath(id, [], params).Ok?
  {
    if id != [] {
      FillPathNoHoles(id[1..], params);
    }
  }

  lemma {:induction false} FillPathNoParams(id: Template, keys: seq<string>)
    requires Holes(id) == |keys| && |keys| > 0
    ensures FillPath(id, keys, None) == Err(ParamsNotObject)
  {
    if id[0] != Hole {
      FillPathNoParams(id[1..], keys);
    }
  }

  // ---------------------------------------------------------------------
  // URLs and state descriptors

  /** The parts of a URL the router reads. `search` is "" or starts with `?`,
      `hash` is "" or starts with `#`. */
  datatype Location = Location(origin: string, pathname: string, search: string, hash: string)

  /** `getFullUrl(url)` */
  function FullUrl(u: Location): string { u.pathname + u.search }

  /** `url.href`, which unlike `getFullUrl` includes the fragment. */
  function Href(u: Location): string { u.origin + u.pathname + u.search + u.hash }

  /** A same-origin URL for the string `s` written by `pushState`/`replaceState`:
      the path up to the first `?`, the rest as the search part, no fragment. */
  function ParseRelative(origin: string, s: string): (u: Location)
    ensures FullUrl(u) == s && u.origin == origin
    ensures '?' !in u.pathname && u.hash == ""
  {
    var parts := SplitOn(s, '?');
    SplitJoin(s, '?');
    if |parts| == 1 then Location(origin, s, "", "")
    else Location(origin, parts[0], s[|parts[0]|..], "")
  }

  /** A history entry's state descriptor. */
  datatype Desc = Desc(id: Template, order: int, params: Params, url: string)
}
