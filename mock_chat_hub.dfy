/** `MockChatHub`: the same guard as `ChatHub`, but the reply is the input
    itself, split into words that are relayed one at a time. */
module MockChatHub {
  import opened Contracts
  import opened ClientTrace
  import opened SendGuard

  /** The number of leading characters of `s` before its first space. */
  function WordLength(s: string): (n: nat)
    ensures n <= |s|
    ensures forall i :: 0 <= i < n ==> s[i] != ' '
    ensures n < |s| ==> s[n] == ' '
  {
    if s == [] || s[0] == ' ' then 0 else 1 + WordLength(s[1..])
  }

  /** `s.Split(" ", StringSplitOptions.RemoveEmptyEntries)`: the maximal runs
      of characters other than `' '`, in order. Only the space character
      separates; tabs and newlines stay inside words. */
  function Split(s: string): (parts: seq<string>)
    ensures forall p :: p in parts ==> |p| > 0 && ' ' !in p
    decreases |s|
  {
    if s == [] then []
    else if s[0] == ' ' then Split(s[1..])
    else
      var n := WordLength(s);
      assert forall c :: c in s[..n] ==> c != ' ';
      [s[..n]] + Split(s[n..])
  }

  /** Words joined by single spaces: the inverse of `Split` on such words. */
  function Join(words: seq<string>): string {
    if words == [] then ""
    else if |words| == 1 then words[0]
    else words[0] + " " + Join(words[1..])
  }

  /** `s` without its spaces. */
  function RemoveSpaces(s: string): string {
    if s == [] then "" else (if s[0] == ' ' then "" else [s[0]]) + RemoveSpaces(s[1..])
  }

  /** Splitting gives nothing exactly when the input is empty or all spaces. */
  lemma {:induction false} SplitEmptyIffBlank(s: string)
    ensures Split(s) == [] <==> forall i :: 0 <= i < |s| ==> s[i] == ' '
    decreases |s|
  {
    if s != [] {
      if s[0] == ' ' {
        SplitEmptyIffBlank(s[1..]);
        assert forall i :: 1 <= i < |s| ==> s[i] == s[1..][i - 1];
      }
    }
  }

  /** Splitting keeps every character that is not a space, in order. */
  lemma {:induction false} SplitKeepsText(s: string)
    ensures Concat(Split(s)) == RemoveSpaces(s)
    decreases |s|
  {
    if s != [] {
      if s[0] == ' ' {
        SplitKeepsText(s[1..]);
      } else {
        var n := WordLength(s);
        SplitKeepsText(s[n..]);
        assert Split(s) == [s[..n]] + Split(s[n..]);
        assert Concat(Split(s)) == s[..n] + Concat(Split(s[n..])) by {
          assert ([s[..n]] + Split(s[n..]))[1..] == Split(s[n..]);
        }
        RemoveSpacesAppend(s[..n], s[n..]);
        assert s[..n] + s[n..] == s;
        NoSpaceKept(s[..n]);
      }
    }
  }

  lemma {:induction false} RemoveSpacesAppend(a: string, b: string)
    ensures RemoveSpaces(a + b) == RemoveSpaces(a) + RemoveSpaces(b)
  {
    if a == [] {
      assert a + b == b;
    } else {
      assert (a + b)[1..] == a[1..] + b;
      RemoveSpacesAppend(a[1..], b);
    }
  }

  lemma {:induction false} NoSpaceKept(w: string)
    requires ' ' !in w
    ensures RemoveSpaces(w) == w
  {
    if w != [] {
      NoSpaceKept(w[1..]);
    }
  }

  /** Words joined by single spaces split back into the same words. */
  lemma {:induction false} SplitJoin(words: seq<string>)
    requires forall w :: w in words ==> |w| > 0 && ' ' !in w
    ensures Split(Join(words)) == words
  {
    if words == [] {
    } else if |words| == 1 {
      WordOfSplit(words[0], "");
      assert words[0] + "" == words[0];
    } else {
      var rest := " " + Join(words[1..]);
      WordOfSplit(words[0], rest);
      assert Join(words) == words[0] + rest;
      assert rest[1..] == Join(words[1..]);
      assert Split(rest) == Split(Join(words[1..]));
      SplitJoin(words[1..]);
      assert words == [words[0]] + words[1..];
    }
  }

  /** A word followed by nothing or by a space splits into that word first. */
  lemma {:induction false} WordOfSplit(w: string, rest: string)
    requires |w| > 0 && ' ' !in w
    requires rest == [] || rest[0] == ' '
    ensures Split(w + rest) == [w] + Split(rest)
  {
    var s := w + rest;
    WordLengthOf(w, rest);
    assert s[..|w|] == w && s[|w|..] == rest;
  }

  lemma {:induction false} WordLengthOf(w: string, rest: string)
    requires ' ' !in w
    requires rest == [] || rest[0] == ' '
    ensures WordLength(w + rest) == |w|
  {
    if w == [] {
      assert w + rest == rest;
    } else {
      assert (w + rest)[1..] == w[1..] + rest;
      WordLengthOf(w[1..], rest);
    }
  }

  /** A space separates: the parts of `a + " " + b` are those of `a` followed
      by those of `b`, so no part spans the space. With `SplitJoin` on a
      single word this fixes `Split` on every input. */
  lemma {:induction false} SpaceSeparates(a: string, b: string)
    ensures Split(a + " " + b) == Split(a) + Split(b)
    decreases |a|
  {
    var s := a + " " + b;
    if a == [] {
      assert s == " " + b && s[1..] == b;
    } else if a[0] == ' ' {
      assert s[1..] == a[1..] + " " + b;
      SpaceSeparates(a[1..], b);
    } else {
      var n := WordLength(a);
      WordLengthBeforeSpace(a, " " + b);
      assert s == a + (" " + b);
      assert s[..n] == a[..n];
      assert s[n..] == a[n..] + " " + b;
      SpaceSeparates(a[n..], b);
    }
  }

  /** A word ends no later than the first space that follows it. */
  lemma {:induction false} WordLengthBeforeSpace(a: string, rest: string)
    requires rest != [] && rest[0] == ' '
    ensures WordLength(a + rest) == WordLength(a)
  {
    if a == [] {
      assert a + rest == rest;
    } else if a[0] != ' ' {
      assert (a + rest)[1..] == a[1..] + rest;
      WordLengthBeforeSpace(a[1..], rest);
    }
  }

  /** One fragment per word, each followed by a single space. */
  function WordFragments(input: string): (texts: seq<string>)
    ensures |texts| == |Split(input)|
    ensures forall i :: 0 <= i < |texts| ==> texts[i] == Split(input)[i] + " "
  {
    var parts := Split(input);
    seq(|parts|, i requires 0 <= i < |parts| => parts[i] + " ")
  }

  /** What the caller receives from a submission that got the guard. */
  function MockTrace(input: string): seq<ClientEvent> {
    Forwarded(WordFragments(input)) + [NotifyDone]
  }

  /** No fragment is a bare space: each is a non-empty word and one space,
      and its last character is its only space. */
  lemma FragmentsAreWords(input: string)
    ensures forall f :: f in WordFragments(input) ==>
              |f| >= 2 && f[|f| - 1] == ' ' && ' ' !in f[..|f| - 1] && f != " "
  {
    var parts := Split(input);
    forall f | f in WordFragments(input)
      ensures |f| >= 2 && f[|f| - 1] == ' ' && ' ' !in f[..|f| - 1] && f != " "
    {
      var i :| 0 <= i < |parts| && f == parts[i] + " ";
      assert parts[i] in parts;
      assert f[..|f| - 1] == parts[i];
    }
  }

  /** The trace ends with a single `NotifyDone` after every fragment, and an
      empty or all-space input gives that `NotifyDone` alone. */
  lemma MockTraceShape(input: string)
    ensures EndsOnceWithDone(MockTrace(input))
    ensures Responses(MockTrace(input)) == WordFragments(input)
    ensures (forall i :: 0 <= i < |input| ==> input[i] == ' ') ==> MockTrace(input) == [NotifyDone]
  {
    var f := Forwarded(WordFragments(input));
    var t := MockTrace(input);
    assert forall i :: 0 <= i < |f| ==> t[i] == f[i] && t[i].ReceiveResponse?;
    ResponsesAppend(f, [NotifyDone]);
    ResponsesOfForwarded(WordFragments(input));
    assert [NotifyDone][1..] == [];
    SplitEmptyIffBlank(input);
  }

  class MockChatHub {
    /** The hub's static `_sendLocks`. */
    const sendLocks: SendLocks

    constructor (sendLocks: SendLocks)
      ensures this.sendLocks == sendLocks
    {
      this.sendLocks := sendLocks;
    }

    /** Serves one submission: relays the input's words, then `NotifyDone`,
        and releases the guard; drops the submission if the guard is held. */
    method SendChat(connectionId: ConnectionId, request: ChatRequest) returns (events: seq<ClientEvent>)
      modifies sendLocks
      ensures old(sendLocks.IsHeld(connectionId)) ==> events == [] && sendLocks.held == old(sendLocks.held)
      ensures !old(sendLocks.IsHeld(connectionId)) ==>
                events == MockTrace(request.input) && sendLocks.held == old(sendLocks.held)[connectionId := false]
    {
      events := [];
      var acquired := sendLocks.TryAcquire(connectionId);
      if !acquired {
        return;
      }
      var inputParts := Split(request.input);
      ghost var texts := WordFragments(request.input);
      for i := 0 to |inputParts|
        invariant events == Forwarded(texts[..i])
      {
        events := events + [ReceiveResponse(inputParts[i] + " ")];
        // the pacing delay is timing only
      }
      assert texts[..|texts|] == texts;
      events := events + [NotifyDone];
      sendLocks.Release(connectionId);
    }

    /** `OnDisconnectedAsync`: forgets the connection's guard. */
    method OnDisconnected(connectionId: ConnectionId)
      modifies sendLocks
      ensures sendLocks.held == old(sendLocks.held) - {connectionId}
    {
      sendLocks.TryRemove(connectionId);
    }
  }
}
