/** The adapter registry, and `Server.Shutdown` as a loop over its names. Times are in milliseconds. */
module Server {
  import opened Collections
  import Protocol = Shutdown

  /** What the server needs to know of an adapter: whether it can be drained. */
  datatype Adapter = Adapter(name: string, drains: bool)

  class Registry {
    var adapters: map<string, Adapter>

    ghost predicate Valid()
      reads this
    {
      forall n :: n in adapters ==> adapters[n].name == n
    }

    constructor ()
      ensures Valid() && adapters == map[]
    {
      adapters := map[];
    }

    /** Registers an adapter under its own name; a duplicate panics, which leaves everything as it was. */
    method Register(a: Adapter) returns (panicked: bool)
      requires Valid()
      modifies this
      ensures Valid()
      ensures panicked <==> a.name in old(adapters)
      ensures adapters == if panicked then old(adapters) else old(adapters)[a.name := a]
    {
      panicked := a.name in adapters;
      if !panicked {
        adapters := adapters[a.name := a];
      }
    }

    method Get(name: string) returns (r: Result<Adapter>)
      requires Valid()
      ensures r.Ok? <==> name in adapters
      ensures r.Ok? ==> r.value == adapters[name] && r.value.name == name
    {
      r := if name in adapters then Ok(adapters[name]) else Err("no adapter registered for provider");
    }

    /** The registered names, in the arbitrary order of a map iteration. */
    method Names() returns (names: seq<string>)
      ensures Enumerates(names, adapters.Keys)
    {
      names := [];
      var rest := adapters.Keys;
      while rest != {}
        invariant rest <= adapters.Keys
        invariant Enumerates(names, adapters.Keys - rest)
        decreases rest
      {
        var n :| n in rest;
        names := names + [n];
        rest := rest - {n};
      }
    }
  }

  function Max(x: int, y: int): (m: int)
    ensures x <= m && y <= m && (m == x || m == y)
  {
    if x < y then y else x
  }

  /**
   * Drain called at `now` on an adapter whose wait group reaches zero for good at `idleAt`. When the
   * context has expired as well, the select may take either branch; `luck` says which.
   */
  method Drain(now: int, idleAt: int, deadline: int, luck: bool) returns (ok: bool, at: int)
    ensures Max(now, idleAt) < deadline ==> ok && at == Max(now, idleAt)
    ensures deadline < idleAt ==> !ok
    ensures deadline <= Max(now, idleAt) ==> at == Max(now, deadline)
    ensures if ok then idleAt <= at else deadline <= at
    ensures now <= at
  {
    if Max(now, idleAt) < deadline {
      return true, Max(now, idleAt);
    }
    ok := idleAt <= deadline && luck;
    at := Max(now, deadline);
  }

  /** Some drainable adapter is still busy at the deadline. */
  ghost predicate BusyAtDeadline(adapters: map<string, Adapter>, idleAt: map<string, int>, deadline: int)
    requires forall n :: n in adapters && adapters[n].drains ==> n in idleAt
  {
    exists n :: n in adapters && adapters[n].drains && deadline <= idleAt[n]
  }

  /** Some drainable adapter becomes idle at this moment. */
  ghost predicate IdleAtSome(adapters: map<string, Adapter>, idleAt: map<string, int>, at: int)
    requires forall n :: n in adapters && adapters[n].drains ==> n in idleAt
  {
    exists n :: n in adapters && adapters[n].drains && idleAt[n] == at
  }

  class HttpServer {
    const registry: Registry

    constructor (registry: Registry)
      ensures this.registry == registry
    {
      this.registry := registry;
    }

    /** The loop over the registered adapters, from `httpAt` on. */
    method DrainAll(httpAt: int, deadline: int, idleAt: map<string, int>, luck: map<string, bool>)
      returns (warned: seq<string>, at: int)
      requires registry.Valid()
      requires forall n :: n in registry.adapters && registry.adapters[n].drains ==> n in idleAt && n in luck
      ensures forall n :: n in warned ==> n in registry.adapters && registry.adapters[n].drains
      ensures forall n :: n in registry.adapters && registry.adapters[n].drains && deadline < idleAt[n] ==> n in warned
      ensures forall n :: n in registry.adapters && registry.adapters[n].drains && n !in warned ==> idleAt[n] <= at
      ensures warned != [] ==> deadline <= at
      ensures httpAt <= at <= Max(httpAt, deadline)
      ensures httpAt < at < deadline ==> IdleAtSome(registry.adapters, idleAt, at)
      ensures httpAt < deadline && !BusyAtDeadline(registry.adapters, idleAt, deadline) ==>
                warned == [] && at < deadline
    {
      warned, at := [], httpAt;
      var names := registry.Names();
      ghost var calm := httpAt < deadline && !BusyAtDeadline(registry.adapters, idleAt, deadline);
      for i := 0 to |names|
        invariant calm ==> warned == [] && at < deadline
        invariant httpAt <= at <= Max(httpAt, deadline)
        invariant httpAt < at < deadline ==> IdleAtSome(registry.adapters, idleAt, at)
        invariant forall n :: n in warned ==> n in registry.adapters && registry.adapters[n].drains
        invariant warned != [] ==> deadline <= at
        invariant forall k :: 0 <= k < i && registry.adapters[names[k]].drains && names[k] !in warned
                    ==> idleAt[names[k]] <= at
        invariant forall k :: 0 <= k < i && registry.adapters[names[k]].drains && deadline < idleAt[names[k]]
                    ==> names[k] in warned
      {
        assert names[i] in names;
        var a := registry.Get(names[i]);
        if a.Err? {
          continue;
        }
        if a.value.drains {
          var ok;
          ok, at := Drain(at, idleAt[names[i]], deadline, luck[names[i]]);
          if !ok {
            warned := warned + [names[i]];
          }
        }
      }
    }

    /**
     * `Shutdown` called at `start` with a context that may have a deadline of its own.
     * `http.Shutdown` returns at `httpAt`, with nil if `httpOk`. For any order of names: adapters
     * idle before the deadline cause no warning, an adapter busy past it always does, and a stuck
     * clean-up delays the return no longer than to the deadline.
     */
    method Shutdown(
      start: int, parentDeadline: Option<int>, httpOk: bool, httpAt: int,
      idleAt: map<string, int>, luck: map<string, bool>)
      returns (failed: bool, warned: seq<string>, at: int)
      requires registry.Valid()
      requires forall n :: n in registry.adapters && registry.adapters[n].drains ==> n in idleAt && n in luck
      ensures failed <==> !httpOk
      ensures failed ==> warned == [] && at == httpAt
      ensures forall n :: n in warned ==> n in registry.adapters && registry.adapters[n].drains
      ensures var deadline := if parentDeadline.Some? && parentDeadline.value < start + 15_000
                              then parentDeadline.value else start + 15_000;
        !failed ==>
          && (forall n :: n in registry.adapters && registry.adapters[n].drains && deadline < idleAt[n] ==> n in warned)
          && (forall n :: n in registry.adapters && registry.adapters[n].drains && n !in warned ==> idleAt[n] <= at)
          && (warned != [] ==> deadline <= at)
          && httpAt <= at <= Max(httpAt, deadline)
          && (httpAt < at < deadline ==> IdleAtSome(registry.adapters, idleAt, at))
          && (httpAt < deadline && !BusyAtDeadline(registry.adapters, idleAt, deadline) ==>
                warned == [] && at < deadline)
    {
      var deadline := Protocol.Earliest(start + Protocol.SHUTDOWN_TIMEOUT, parentDeadline);
      failed, warned, at := !httpOk, [], httpAt;
      if !failed {
        warned, at := DrainAll(httpAt, deadline, idleAt, luck);
      }
    }
  }
}
