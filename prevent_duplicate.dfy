/**
 * src/middleware/prevent-duplicate.middleware.ts: a module-level set of the keys
 * of requests that were let through and whose response has not finished yet. A
 * request whose key is already in the set is dropped (the handler returns
 * without calling `next` and without answering); otherwise its key is added,
 * removed again when its response emits `finish`, and `next` is called.
 */
module PreventDuplicate {

  /** Identity of one request object handed to the middleware. */
  type RequestId = nat

  /**
   * The parts of a request the key is built from; `serializedBody` is the text
   * `JSON.stringify(req.body)` produced, taken as given.
   */
  datatype Request = Request(httpMethod: string, originalUrl: string, serializedBody: string)

  /** `${req.method}-${req.originalUrl}-${JSON.stringify(req.body)}`. */
  function RequestKey(req: Request): (key: string)
    ensures |key| == |req.httpMethod| + |req.originalUrl| + |req.serializedBody| + 2
    ensures key[..|req.httpMethod|] == req.httpMethod && key[|req.httpMethod|] == '-'
    ensures key[|req.httpMethod| + 1..|key| - |req.serializedBody| - 1] == req.originalUrl
    ensures key[|key| - |req.serializedBody| - 1] == '-'
    ensures key[|key| - |req.serializedBody|..] == req.serializedBody
  {
    req.httpMethod + "-" + req.originalUrl + "-" + req.serializedBody
  }

  /**
   * Requests whose methods contain no '-' (every standard HTTP method) share a
   * key only if their methods are equal: the method is what precedes the key's
   * first '-'.
   */
  lemma KeyDeterminesMethod(r1: Request, r2: Request)
    requires '-' !in r1.httpMethod && '-' !in r2.httpMethod
    requires RequestKey(r1) == RequestKey(r2)
    ensures r1.httpMethod == r2.httpMethod
  {
  }

  /** The set `pendingRequests` together with the requests the model follows. */
  class DuplicateFilter {
    /** `pendingRequests`. */
    var pendingRequests: set<string>

    /**
     * The `finish` handlers registered by `res.on('finish', ...)` whose response
     * has not finished yet, each with the key it deletes: one per admitted,
     * unfinished request.
     */
    var inFlight: map<RequestId, string>
    /** Requests dropped as duplicates: they registered no `finish` handler. */
    ghost var dropped: set<RequestId>
    /** Every request the middleware has seen. */
    ghost var seen: set<RequestId>

    /**
     * The set holds exactly the keys of admitted, unfinished requests, and no two
     * of those share a key.
     */
    ghost predicate Valid()
      reads this
    {
      && pendingRequests == inFlight.Values
      && (forall i, j :: i in inFlight && j in inFlight && inFlight[i] == inFlight[j] ==> i == j)
      && inFlight.Keys <= seen && dropped <= seen && inFlight.Keys !! dropped
    }

    /** `new Set<string>()` at module load. */
    constructor ()
      ensures Valid()
      ensures pendingRequests == {} && inFlight == map[] && dropped == {} && seen == {}
    {
      pendingRequests := {};
      inFlight, dropped, seen := map[], {}, {};
    }

    /** `preventDuplicateMiddleware(req, res, next)`; the result says whether `next` was called. */
    method Handle(id: RequestId, req: Request) returns (calledNext: bool)
      requires Valid() && id !in seen
      modifies this
      ensures Valid() && seen == old(seen) + {id}
      ensures calledNext <==> RequestKey(req) !in old(pendingRequests)
      ensures calledNext ==>
        && pendingRequests == old(pendingRequests) + {RequestKey(req)}
        && inFlight == old(inFlight)[id := RequestKey(req)] && dropped == old(dropped)
      ensures !calledNext ==>
        && pendingRequests == old(pendingRequests)
        && inFlight == old(inFlight) && dropped == old(dropped) + {id}
    {
      var key := RequestKey(req);
      seen := seen + {id};
      if key in pendingRequests {
        dropped := dropped + {id};
        return false;
      }
      assert id !in inFlight;
      assert inFlight[id := key].Values == inFlight.Values + {key} by {
        forall v | v in inFlight.Values ensures v in inFlight[id := key].Values {
          var j :| j in inFlight && inFlight[j] == v;
          assert inFlight[id := key][j] == v;
        }
        forall v | v in inFlight[id := key].Values ensures v in inFlight.Values + {key} {
          var j :| j in inFlight[id := key] && inFlight[id := key][j] == v;
          if j != id { assert inFlight[j] == v; }
        }
        assert id in inFlight[id := key] && inFlight[id := key][id] == key;
      }
      pendingRequests := pendingRequests + {key};
      inFlight := inFlight[id := key];
      calledNext := true;
    }

    /**
     * The response of request `id` emits `finish`. Only an admitted request has a
     * handler for it, which deletes that request's key and nothing else.
     */
    method Finish(id: RequestId)
      requires Valid()
      modifies this
      ensures Valid() && seen == old(seen) && dropped == old(dropped)
      ensures id in old(inFlight) ==>
        && pendingRequests == old(pendingRequests) - {old(inFlight)[id]}
        && inFlight == old(inFlight) - {id}
      ensures id !in old(inFlight) ==>
        pendingRequests == old(pendingRequests) && inFlight == old(inFlight)
    {
      if id in inFlight {
        var key := inFlight[id];
        var rest := inFlight - {id};
        assert rest.Values == inFlight.Values - {key} by {
          forall v | v in inFlight.Values - {key} ensures v in rest.Values {
            var j :| j in inFlight && inFlight[j] == v;
            assert j != id && j in rest;
          }
        }
        pendingRequests := pendingRequests - {key};
        inFlight := rest;
      }
    }
  }
}
