/**
  `Tokenizer` (tokenizer.cc, tokenizer.h): a cursor over one line, with a
  FIFO of tokens already peeked. The `std::istringstream` is represented by
  the whitespace-separated tokens it has still to deliver; it is at its end
  exactly when none are left.
 */
module Tokenizing {
  import opened Wrappers
  import opened Lexer

  /** `next_token_` (front first) and what `stream_` has still to deliver. */
  datatype Cursor = Cursor(queue: seq<string>, stream: seq<string>)

  /** Every token the cursor will still hand out through `next`, in order. */
  function Pending(c: Cursor): seq<string> {
    c.queue + c.stream
  }

  /** A token, or none, and the cursor after it was taken. */
  datatype Taken = Taken(token: Option<string>, rest: Cursor)

  /** `next()`: a peeked token first, then the stream; none once both are exhausted. */
  function NextToken(c: Cursor): (r: Taken)
    ensures r.token.None? <==> Pending(c) == []
    ensures r.token.None? ==> r.rest == c
    ensures r.token.Some? ==> Pending(c) == [r.token.value] + Pending(r.rest)
    ensures |c.queue| > 0 ==> r.token == Some(c.queue[0]) && r.rest.stream == c.stream
  {
    if |c.queue| > 0 then Taken(Some(c.queue[0]), c.(queue := c.queue[1..]))
    else if c.stream == [] then Taken(None, c)
    else Taken(Some(c.stream[0]), c.(stream := c.stream[1..]))
  }

  /**
    `peek()`: read one fresh token from the stream and queue it; the queue is
    not consulted, so an exhausted stream gives none even when tokens are
    queued.
   */
  function PeekToken(c: Cursor): (r: Taken)
    ensures Pending(r.rest) == Pending(c)
    ensures r.token.None? <==> c.stream == []
    ensures r.token.None? ==> r.rest == c
    ensures r.token.Some? ==>
      r.token.value == c.stream[0] && r.rest.queue == c.queue + [c.stream[0]] && r.rest.stream == c.stream[1..]
  {
    if c.stream == [] then Taken(None, c)
    else
      assert c.queue + c.stream == (c.queue + [c.stream[0]]) + c.stream[1..];
      Taken(Some(c.stream[0]), Cursor(c.queue + [c.stream[0]], c.stream[1..]))
  }

  class Tokenizer {
    var queue: seq<string>   // next_token_, front first
    var stream: seq<string>  // stream_, as the tokens it has still to deliver

    function State(): Cursor
      reads this
    {
      Cursor(queue, stream)
    }

    constructor()
      ensures State() == Cursor([], [])
    {
      queue, stream := [], [];
    }

    /** `clear()`: empty both the stream and the queue. */
    method Clear()
      modifies this
      ensures State() == Cursor([], [])
      ensures Pending(State()) == []
    {
      stream := [];
      queue := [];
    }

    /** `parse(line)`: start over on a new line. */
    method Parse(line: string)
      modifies this
      ensures State() == Cursor([], Tokens(line))
      ensures Pending(State()) == Tokens(line)
    {
      Clear();
      stream := Tokens(line);
    }

    method Next() returns (token: Option<string>)
      modifies this
      ensures Taken(token, State()) == NextToken(old(State()))
    {
      if |queue| > 0 {
        token := Some(queue[0]);
        queue := queue[1..];
        return;
      }
      if stream == [] {
        return None;
      }
      token := Some(stream[0]);
      stream := stream[1..];
    }

    method Peek() returns (token: Option<string>)
      modifies this
      ensures Taken(token, State()) == PeekToken(old(State()))
    {
      if stream == [] {
        return None;
      }
      var t := stream[0];
      stream := stream[1..];
      queue := queue + [t];
      token := Some(t);
    }
  }

  // ----- interleavings of next and peek

  datatype Request = NextRequest | PeekRequest

  /** What a sequence of calls delivers through `next`, and the cursor it leaves. */
  datatype Replayed = Replayed(delivered: seq<string>, last: Cursor)

  function Replay(c: Cursor, reqs: seq<Request>): Replayed
    decreases |reqs|
  {
    if reqs == [] then Replayed([], c)
    else
      var t := if reqs[0].NextRequest? then NextToken(c) else PeekToken(c);
      var r := Replay(t.rest, reqs[1..]);
      if reqs[0].NextRequest? && t.token.Some? then Replayed([t.token.value] + r.delivered, r.last)
      else r
  }

  /**
    However `next` and `peek` interleave, `next` hands out the pending tokens
    in their original order: what it delivered followed by what is still
    pending is what was pending at the start.
   */
  lemma {:induction false} ReplayKeepsOrder(c: Cursor, reqs: seq<Request>)
    ensures Replay(c, reqs).delivered + Pending(Replay(c, reqs).last) == Pending(c)
    decreases |reqs|
  {
    if reqs != [] {
      var t := if reqs[0].NextRequest? then NextToken(c) else PeekToken(c);
      ReplayKeepsOrder(t.rest, reqs[1..]);
      var r := Replay(t.rest, reqs[1..]);
      if reqs[0].NextRequest? && t.token.Some? {
        assert [t.token.value] + r.delivered + Pending(r.last) == [t.token.value] + (r.delivered + Pending(r.last));
      }
    }
  }

  /** Peeking only reads ahead: a run of peeks delivers nothing and leaves the pending tokens as they were. */
  lemma {:induction false} PeeksDeliverNothing(c: Cursor, k: nat)
    ensures Replay(c, seq(k, _ => PeekRequest)).delivered == []
    ensures Pending(Replay(c, seq(k, _ => PeekRequest)).last) == Pending(c)
    decreases k
  {
    if k > 0 {
      var reqs := seq(k, _ => PeekRequest);
      assert reqs[1..] == seq(k - 1, _ => PeekRequest);
      PeeksDeliverNothing(PeekToken(c).rest, k - 1);
    }
  }

  /** `k` calls of `next` deliver the first `k` pending tokens, or all of them if fewer are left. */
  lemma {:induction false} NextsDeliverPrefix(c: Cursor, k: nat)
    ensures var p := Pending(c);
      Replay(c, seq(k, _ => NextRequest)).delivered == if k <= |p| then p[..k] else p
    decreases k
  {
    var p := Pending(c);
    if k > 0 {
      var reqs := seq(k, _ => NextRequest);
      assert reqs[1..] == seq(k - 1, _ => NextRequest);
      var t := NextToken(c);
      NextsDeliverPrefix(t.rest, k - 1);
      if t.token.Some? {
        var q := Pending(t.rest);
        assert p == [t.token.value] + q;
        if k <= |p| {
          assert p[..k] == [t.token.value] + q[..k - 1];
        }
      } else {
        NextsOnEmpty(c, k - 1);
      }
    }
  }

  lemma {:induction false} NextsOnEmpty(c: Cursor, k: nat)
    requires Pending(c) == []
    ensures Replay(c, seq(k, _ => NextRequest)).delivered == []
    decreases k
  {
    if k > 0 {
      var reqs := seq(k, _ => NextRequest);
      assert reqs[1..] == seq(k - 1, _ => NextRequest);
      NextsOnEmpty(c, k - 1);
    }
  }

  /** After `parse(line)`, two peeks return the first two tokens, and `next` then returns them again. */
  lemma PeekTwiceThenNext(line: string)
    requires |Tokens(line)| >= 2
    ensures var ts := Tokens(line);
      var p1 := PeekToken(Cursor([], ts));
      var p2 := PeekToken(p1.rest);
      var n1 := NextToken(p2.rest);
      var n2 := NextToken(n1.rest);
      p1.token == Some(ts[0]) && p2.token == Some(ts[1]) &&
      n1.token == Some(ts[0]) && n2.token == Some(ts[1]) && n2.rest == Cursor([], ts[2..])
  {
  }
}
