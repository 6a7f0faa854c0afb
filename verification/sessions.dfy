/**
 * Session router: the process-wide `activeThreads` registry and the
 * get-or-create step that picks the thread a request runs on
 * (server.js:17, 31-40).
 */
module Sessions {
  import opened Wrappers
  import opened Text

  /**
   * The registry: the `Map` of the source only ever stores `true`, so the set
   * of its keys is all it holds. Entries are only ever added.
   */
  type Registry = set<string>

  /** The incoming id is reused exactly when it is truthy and already registered. */
  predicate Reusable(reg: Registry, incoming: Option<string>) {
    Truthy(incoming) && incoming.value in reg
  }

  /**
   * What the remote engine's create-thread call yields when it is made:
   * the new id, or `None` when the call throws.
   */
  datatype Resolution = Resolution(threadId: Option<string>, registry: Registry)

  /**
   * Get-or-create: reuse a registered incoming id, otherwise take the id the
   * engine creates and register it; a failed creation leaves the registry as
   * it was and yields no thread.
   */
  function Resolve(reg: Registry, incoming: Option<string>, created: Option<string>): (r: Resolution)
    ensures reg <= r.registry
    ensures Reusable(reg, incoming) ==> r.threadId == incoming && r.registry == reg
    ensures !Reusable(reg, incoming) ==> r.threadId == created
    ensures !Reusable(reg, incoming) && created.Some? ==>
      r.registry == reg + {created.value}
    ensures !Reusable(reg, incoming) && created.None? ==> r.registry == reg
    ensures r.threadId.Some? ==> r.threadId.value in r.registry
  {
    if Reusable(reg, incoming) then Resolution(incoming, reg)
    else if created.Some? then Resolution(created, reg + {created.value})
    else Resolution(None, reg)
  }

  /** One request's session inputs: the id the client sent and what creation would yield. */
  datatype Request = Request(incoming: Option<string>, created: Option<string>)

  /** The registry after a run of requests, one after the other. */
  function Replay(reg: Registry, reqs: seq<Request>): Registry
    decreases |reqs|
  {
    if |reqs| == 0 then reg
    else Replay(Resolve(reg, reqs[0].incoming, reqs[0].created).registry, reqs[1..])
  }

  /** No sequence of requests removes or changes a registered thread. */
  lemma {:induction false} ReplayGrows(reg: Registry, reqs: seq<Request>)
    ensures reg <= Replay(reg, reqs)
    decreases |reqs|
  {
    if |reqs| > 0 {
      ReplayGrows(Resolve(reg, reqs[0].incoming, reqs[0].created).registry, reqs[1..]);
    }
  }

  /**
   * A thread id delivered to a client stays reusable: after any later
   * requests, a request carrying that id gets it back without creating a
   * thread and without changing the registry.
   */
  lemma DeliveredIdReused(reg: Registry, first: Request, later: seq<Request>, created: Option<string>)
    requires Resolve(reg, first.incoming, first.created).threadId.Some?
    requires Resolve(reg, first.incoming, first.created).threadId.value != ""
    ensures var r0 := Resolve(reg, first.incoming, first.created);
            var reg1 := Replay(r0.registry, later);
            Resolve(reg1, r0.threadId, created) == Resolution(r0.threadId, reg1)
  {
    var r0 := Resolve(reg, first.incoming, first.created);
    ReplayGrows(r0.registry, later);
  }

  /** The mutable registry of server.js:17. */
  class ThreadRegistry {
    var active: Registry

    constructor ()
      ensures active == {}
    {
      active := {};
    }

    /**
     * Lines 31-40: `created` is what `openai.beta.threads.create()` would
     * yield if called (`None`: it throws); it is consulted only when the
     * incoming id is not reused.
     */
    method GetOrCreate(incoming: Option<string>, created: Option<string>) returns (threadId: Option<string>)
      modifies this
      ensures Resolution(threadId, active) == Resolve(old(active), incoming, created)
    {
      if incoming.Some? && incoming.value != "" && incoming.value in active {
        threadId := incoming;
      } else if created.Some? {
        threadId := created;
        active := active + {created.value};
      } else {
        threadId := None;
      }
    }
  }
}
