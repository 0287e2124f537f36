/** The `provideDefinition` middleware's in-flight guard: a set of document
    URIs (`docSet`) whose definition request is still awaiting `next`.
    Asynchronous interleaving is modelled as a sequence of steps: `Enter` is
    the part before `await next(...)`, `Leave` the part after it settles, so a
    re-entrant request for the same document is an `Enter` between the two. */
module Dedup {
  import opened Text

  /** How the `next` handler's promise settles. */
  datatype Settled<T> = Resolves(value: T) | Rejects

  /** What the middleware's own promise settles to: `Returned(None)` is its
      bare `return;` (undefined), `Returned(Some(d))` passes `next`'s answer
      on, `Rejected` propagates `next`'s rejection. */
  datatype Reply<T> = Returned(result: Option<T>) | Rejected

  class DefinitionMiddleware {
    var docSet: set<string>

    constructor ()
      ensures docSet == {}
    {
      docSet := {};
    }

    /** `if (docSet.has(document.uri)) return; docSet.add(document.uri);` —
        `forward` says whether `next` is called. */
    method Enter(uri: string) returns (forward: bool)
      modifies this
      ensures forward == (uri !in old(docSet))
      ensures docSet == old(docSet) + {uri}
    {
      if uri in docSet {
        return false;
      }
      docSet := docSet + {uri};
      forward := true;
    }

    /** `docSet.delete(document.uri)` once `next` has resolved. */
    method Leave(uri: string)
      modifies this
      ensures docSet == old(docSet) - {uri}
    {
      docSet := docSet - {uri};
    }

    /** The whole middleware of client/src/extension.ts: a duplicate request
        answers undefined without calling `next`; otherwise the URI is held
        while `next` runs and released only when it resolves — there is no
        `finally`, so after a rejection the URI stays in the set. */
    method ProvideDefinition<T>(uri: string, next: Settled<T>) returns (forwarded: bool, reply: Reply<T>)
      modifies this
      ensures forwarded == (uri !in old(docSet))
      ensures !forwarded ==> reply == Returned(None) && docSet == old(docSet)
      ensures forwarded && next.Resolves? ==> reply == Returned(Some(next.value)) && docSet == old(docSet)
      ensures forwarded && next.Rejects? ==> reply == Rejected && docSet == old(docSet) + {uri}
    {
      forwarded := Enter(uri);
      if !forwarded {
        return forwarded, Returned(None);
      }
      match next
      case Rejects =>
        reply := Rejected;
      case Resolves(def) =>
        Leave(uri);
        reply := Returned(Some(def));
    }

    /** The guard with a `finally`: the URI is released on every exit path,
        as `try { … } finally { docSet.delete(uri) }` would. */
    method ProvideDefinitionReleasing<T>(uri: string, next: Settled<T>) returns (forwarded: bool, reply: Reply<T>)
      modifies this
      ensures forwarded == (uri !in old(docSet))
      ensures docSet == old(docSet)
      ensures !forwarded ==> reply == Returned(None)
      ensures forwarded ==> reply == (if next.Resolves? then Returned(Some(next.value)) else Rejected)
    {
      forwarded := Enter(uri);
      if !forwarded {
        return forwarded, Returned(None);
      }
      Leave(uri);
      reply := if next.Resolves? then Returned(Some(next.value)) else Rejected;
    }
  }

  /** Two requests for one document where the second arrives before the first
      has settled: exactly one reaches `next`, the second answers undefined,
      and once the first resolves the document is free again. */
  method OverlappingRequests(uri: string, def: int) returns (first: bool, second: bool, reply: Reply<int>, freed: bool)
    ensures first && !second
    ensures reply == Returned(None)
    ensures freed
  {
    var m := new DefinitionMiddleware();
    first := m.Enter(uri);
    var forwarded;
    forwarded, reply := m.ProvideDefinition(uri, Resolves(def));
    second := forwarded;
    m.Leave(uri);
    freed := uri !in m.docSet;
  }

  /** As written, a rejected `next` locks the document out: every later
      definition request for it answers undefined without reaching `next`. */
  method LockoutAfterRejection(uri: string, def: int) returns (laterForwarded: bool, laterReply: Reply<int>)
    ensures !laterForwarded && laterReply == Returned(None)
  {
    var m := new DefinitionMiddleware();
    var f, r := m.ProvideDefinition<int>(uri, Rejects);
    laterForwarded, laterReply := m.ProvideDefinition(uri, Resolves(def));
  }

  /** With the releasing guard the same sequence reaches `next` again. */
  method NoLockoutWhenReleasing(uri: string, def: int) returns (laterForwarded: bool, laterReply: Reply<int>)
    ensures laterForwarded && laterReply == Returned(Some(def))
  {
    var m := new DefinitionMiddleware();
    var f, r := m.ProvideDefinitionReleasing<int>(uri, Rejects);
    laterForwarded, laterReply := m.ProvideDefinitionReleasing(uri, Resolves(def));
  }
}
