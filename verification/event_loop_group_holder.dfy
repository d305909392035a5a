/**
 * vproxyapp.app.EventLoopGroupHolder: the registry of event loop groups by
 * alias. A group's own construction and `close` are outside this model;
 * a group records only its alias and whether it was closed.
 */
module EventLoopGroups {
  import opened Wrappers

  class EventLoopGroup {
    const alias: string
    var closed: bool

    constructor(alias: string)
      ensures this.alias == alias && !closed
    {
      this.alias := alias;
      closed := false;
    }

    method Close()
      modifies this
      ensures closed
    {
      closed := true;
    }
  }

  datatype HolderError = AlreadyExist(alias: string) | NotFound(alias: string)

  class EventLoopGroupHolder {
    var groups: map<string, EventLoopGroup>

    /** Each group is filed under its own alias. */
    predicate Valid()
      reads this, groups.Values
    {
      forall a :: a in groups ==> groups[a].alias == a
    }

    constructor()
      ensures Valid() && groups == map[]
    {
      groups := map[];
    }

    /** `names`: every alias exactly once. */
    method Names() returns (names: seq<string>)
      ensures forall a :: a in names <==> a in groups
      ensures forall i, j :: 0 <= i < j < |names| ==> names[i] != names[j]
      ensures |names| == |groups|
    {
      names := [];
      var rest := groups.Keys;
      while rest != {}
        invariant rest <= groups.Keys
        invariant forall a :: a in names <==> a in groups && a !in rest
        invariant forall i, j :: 0 <= i < j < |names| ==> names[i] != names[j]
        invariant |names| + |rest| == |groups.Keys|
        decreases |rest|
      {
        var a :| a in rest;
        names := names + [a];
        rest := rest - {a};
      }
    }

    /** `add`: fails on a present alias and changes nothing; otherwise adds a new group under exactly that alias. */
    method Add(alias: string) returns (err: Option<HolderError>)
      requires Valid()
      modifies this
      ensures Valid()
      ensures err.Some? <==> alias in old(groups)
      ensures err.Some? ==> err.value == AlreadyExist(alias) && groups == old(groups)
      ensures err.None? ==>
                alias in groups && fresh(groups[alias]) && !groups[alias].closed
                && groups == old(groups)[alias := groups[alias]]
    {
      if alias in groups {
        return Some(AlreadyExist(alias));
      }
      var group := new EventLoopGroup(alias);
      groups := groups[alias := group];
      err := None;
    }

    /** `get`: the alias's group, or `NotFound`. */
    method Get(alias: string) returns (r: Result<EventLoopGroup, HolderError>)
      ensures r.Ok? <==> alias in groups
      ensures r.Ok? ==> r.value == groups[alias]
      ensures r.Err? ==> r.error == NotFound(alias)
    {
      if alias !in groups {
        return Err(NotFound(alias));
      }
      r := Ok(groups[alias]);
    }

    /** `removeAndClose`: removes and closes the alias's group, or fails with `NotFound` and changes nothing. */
    method RemoveAndClose(alias: string) returns (err: Option<HolderError>)
      requires Valid()
      modifies this, groups.Values
      ensures Valid()
      ensures err.Some? <==> alias !in old(groups)
      ensures err.Some? ==> err.value == NotFound(alias) && groups == old(groups)
      ensures err.None? ==> groups == old(groups) - {alias} && old(groups)[alias].closed
      ensures forall a :: a in old(groups) && a != alias ==> old(groups)[a].closed == old(groups[a].closed)
    {
      if alias !in groups {
        return Some(NotFound(alias));
      }
      var g := groups[alias];
      groups := groups - {alias};
      g.Close();
      err := None;
    }
  }
}
