/**
 * What the request handlers share: the reply a handler sends (a status code
 * and either a body or an `{"error": ...}` message), the store errors it
 * maps, and the store's document iterator.
 *
 * The iterator is the sequence of what successive `Next()` calls return: a
 * document snapshot (`Got`) or an error (`IterErr`); the end of the sequence
 * is `Done`.
 */
module Handlers {
  import opened Wrappers
  import opened Models

  datatype Reply<T> = Ok(status: int, value: T) | Error(status: int, message: string)

  /** A failed store call: the `NotFound` status code, or any other. */
  datatype StoreError = NotFound | Unavailable

  /** The error reply for a failed single-document store call. */
  function StoreErrorReply<T>(e: StoreError, notFound: string, failed: string): (r: Reply<T>)
    ensures r.Error?
    ensures r.status == 404 <==> e == NotFound
    ensures r.status == 404 || r.status == 500
    ensures r.message == if e == NotFound then notFound else failed
  {
    match e
    case NotFound => Error(404, notFound)
    case Unavailable => Error(500, failed)
  }

  datatype Snapshot = Snapshot(id: string, data: Document)

  datatype Next = Got(snapshot: Snapshot) | IterErr

  /** The iterator reports an error before it is done. */
  predicate Fails(steps: seq<Next>) {
    IterErr in steps
  }

  /** The documents the iterator yields, in order. */
  function Items(steps: seq<Next>): (snaps: seq<Snapshot>)
    ensures |snaps| <= |steps|
    ensures !Fails(steps) ==> |snaps| == |steps|
  {
    if steps == [] then []
    else
      var last := steps[|steps| - 1];
      assert !Fails(steps) ==> !Fails(steps[..|steps| - 1]);
      Items(steps[..|steps| - 1]) + (if last.Got? then [last.snapshot] else [])
  }

  /** The records of `snaps` that decode, in iteration order (undecodable ones skipped). */
  function Decoded<R>(snaps: seq<Snapshot>, decode: Snapshot -> Option<R>): (rs: seq<R>)
    ensures |rs| <= |snaps|
  {
    if snaps == [] then []
    else
      var last := snaps[|snaps| - 1];
      Decoded(snaps[..|snaps| - 1], decode) + (match decode(last) case Some(r) => [r] case None => [])
  }

  /** Listing preserves iteration order: it distributes over concatenation. */
  lemma {:induction false} DecodedAppend<R>(a: seq<Snapshot>, b: seq<Snapshot>, decode: Snapshot -> Option<R>)
    ensures Decoded(a + b, decode) == Decoded(a, decode) + Decoded(b, decode)
    decreases |b|
  {
    if b == [] {
      assert a + b == a;
    } else {
      var b' := b[..|b| - 1];
      assert (a + b)[..|a + b| - 1] == a + b';
      DecodedAppend(a, b', decode);
    }
  }

  /** A record is listed exactly when some yielded document decodes to it. */
  lemma {:induction false} DecodedMember<R>(snaps: seq<Snapshot>, decode: Snapshot -> Option<R>, r: R)
    ensures r in Decoded(snaps, decode) <==> exists i :: 0 <= i < |snaps| && decode(snaps[i]) == Some(r)
  {
    if snaps != [] {
      var init := snaps[..|snaps| - 1];
      DecodedMember(init, decode, r);
      if exists i :: 0 <= i < |snaps| && decode(snaps[i]) == Some(r) {
        var i :| 0 <= i < |snaps| && decode(snaps[i]) == Some(r);
        if i < |init| {
          assert init[i] == snaps[i];
        }
      }
      if r in Decoded(init, decode) {
        var i :| 0 <= i < |init| && decode(init[i]) == Some(r);
        assert snaps[i] == init[i];
      }
    }
  }
}
