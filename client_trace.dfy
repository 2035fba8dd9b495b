/** Sequences of calls a hub makes on its caller (`IChatClient`), and the
    vocabulary both hubs' guarantees are stated in. */
module ClientTrace {
  import opened Contracts

  /** One `ReceiveResponse` per text, in the order given. */
  function Forwarded(texts: seq<string>): (t: seq<ClientEvent>)
    ensures |t| == |texts|
  {
    seq(|texts|, i requires 0 <= i < |texts| => ReceiveResponse(texts[i]))
  }

  /** The texts a client receives through `ReceiveResponse`, in arrival order. */
  function Responses(t: seq<ClientEvent>): seq<string> {
    if t == [] then []
    else (if t[0].ReceiveResponse? then [t[0].response] else []) + Responses(t[1..])
  }

  /** The same texts glued together: what a client that appends every
      `ReceiveResponse` to one string ends up showing. */
  function Concat(texts: seq<string>): string {
    if texts == [] then "" else texts[0] + Concat(texts[1..])
  }

  /** A trace of one served submission: it ends with `NotifyDone`, no earlier
      event is `NotifyDone`, and nothing but that final `NotifyDone` follows a
      `ReceiveError`. */
  predicate EndsOnceWithDone(t: seq<ClientEvent>) {
    && |t| > 0
    && t[|t| - 1] == NotifyDone
    && (forall i :: 0 <= i < |t| - 1 ==> t[i] != NotifyDone)
    && (forall i, j :: 0 <= i < j < |t| && t[i].ReceiveError? ==> t[j] == NotifyDone)
  }

  lemma {:induction false} ResponsesAppend(a: seq<ClientEvent>, b: seq<ClientEvent>)
    ensures Responses(a + b) == Responses(a) + Responses(b)
  {
    if a != [] {
      assert (a + b)[1..] == a[1..] + b;
      ResponsesAppend(a[1..], b);
    } else {
      assert a + b == b;
    }
  }

  /** Forwarding loses, duplicates and reorders nothing. */
  lemma {:induction false} ResponsesOfForwarded(texts: seq<string>)
    ensures Responses(Forwarded(texts)) == texts
  {
    if texts != [] {
      assert Forwarded(texts) == [ReceiveResponse(texts[0])] + Forwarded(texts[1..]);
      ResponsesAppend([ReceiveResponse(texts[0])], Forwarded(texts[1..]));
      ResponsesOfForwarded(texts[1..]);
    }
  }

  lemma {:induction false} ConcatAppend(a: seq<string>, b: seq<string>)
    ensures Concat(a + b) == Concat(a) + Concat(b)
  {
    if a != [] {
      assert (a + b)[1..] == a[1..] + b;
      ConcatAppend(a[1..], b);
    } else {
      assert a + b == b;
    }
  }
}
