/** The session history the router drives (`window.history`): a list of
    entries, each with the state object stored by `pushState`/`replaceState`
    and its URL, and a cursor on the current entry. `go` is asynchronous:
    it only queues a traversal, and the cursor moves (and popstate fires)
    when the environment runs it later. */
module Browser {
  import opened Wrappers
  import opened Routes

  datatype Entry = Entry(state: Option<seq<Desc>>, url: Location)

  class History {
    var entries: seq<Entry>
    var cursor: nat
    /** the deltas of `go` calls whose traversal has not run yet, oldest first */
    var traversals: seq<int>

    ghost predicate Valid()
      reads this
    {
      cursor < |entries|
    }

    /** `history.state` (`None` is `null`) */
    function State(): Option<seq<Desc>>
      reads this
      requires Valid()
    {
      entries[cursor].state
    }

    /** `window.location` */
    function Current(): Location
      reads this
      requires Valid()
    {
      entries[cursor].url
    }

    /** A page loaded at `initial`, with no state yet. */
    constructor (initial: Location)
      ensures Valid() && entries == [Entry(None, initial)] && cursor == 0 && traversals == []
    {
      entries := [Entry(None, initial)];
      cursor := 0;
      traversals := [];
    }

    /** `pushState(state, "", url)`: the forward entries are dropped and a new
        entry becomes current. */
    method PushState(state: seq<Desc>, url: string)
      requires Valid()
      modifies this
      ensures Valid() && traversals == old(traversals)
      ensures entries == old(entries[..cursor + 1]) + [Entry(Some(state), ParseRelative(old(Current()).origin, url))]
      ensures cursor == old(cursor) + 1
      ensures State() == Some(state)
    {
      entries := entries[..cursor + 1] + [Entry(Some(state), ParseRelative(entries[cursor].url.origin, url))];
      cursor := cursor + 1;
    }

    /** `replaceState(state, "", url)`; without a URL the current one stays. */
    method ReplaceState(state: seq<Desc>, url: Option<string>)
      requires Valid()
      modifies this
      ensures Valid() && cursor == old(cursor) && traversals == old(traversals)
      ensures entries == old(entries)[cursor := Entry(Some(state),
        if url.Some? then ParseRelative(old(Current()).origin, url.value) else old(Current()))]
      ensures State() == Some(state)
    {
      var u := if url.Some? then ParseRelative(entries[cursor].url.origin, url.value) else entries[cursor].url;
      entries := entries[cursor := Entry(Some(state), u)];
    }

    /** `go(delta)` for a non-zero `delta` (`go(0)` reloads the page, which
        the router never asks for): the traversal is queued; the entries and
        the cursor do not change yet. */
    method Go(delta: int)
      requires Valid() && delta != 0
      modifies this`traversals
      ensures traversals == old(traversals) + [delta]
    {
      traversals := traversals + [delta];
    }

    /** The environment runs the oldest queued traversal, relative to the
        entry current at that time: when the target entry exists the cursor
        moves there and a popstate event fires; otherwise nothing happens. */
    method Traverse() returns (moved: bool)
      requires Valid() && traversals != []
      modifies this`cursor, this`traversals
      ensures Valid() && traversals == old(traversals[1..])
      ensures moved <==> 0 <= old(cursor) + old(traversals[0]) < |entries|
      ensures cursor == if moved then old(cursor) + old(traversals[0]) else old(cursor)
    {
      var delta := traversals[0];
      traversals := traversals[1..];
      moved := 0 <= cursor + delta < |entries|;
      if moved {
        cursor := cursor + delta;
      }
    }
  }
}
