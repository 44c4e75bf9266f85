/** Length-prefixed frames over a byte stream that arrives in arbitrary fragments. */
module Framing {
  import opened Common
  import opened Base64

  const HEADER_SIZE: nat := 4
  const MAX_FRAME_BYTES: nat := 0x1000_0000  // 256 MiB

  // ---------------------------------------------------------------- frames

  function PackLength(n: nat): (h: seq<byte>)
    requires n <= MAX_FRAME_BYTES
  {
    [n / 0x100_0000, n / 0x1_0000 % 0x100, n / 0x100 % 0x100, n % 0x100]
  }

  function UnpackLength(h: seq<byte>): nat
    requires |h| == HEADER_SIZE
  {
    (h[0] as int) * 0x100_0000 + (h[1] as int) * 0x1_0000 + (h[2] as int) * 0x100 + h[3] as int
  }

  lemma LengthReadsBack(n: nat)
    requires n <= MAX_FRAME_BYTES
    ensures UnpackLength(PackLength(n)) == n
  {
    var low, mid, high := n / 0x100, n / 0x1_0000, n / 0x100_0000;
    assert low == mid * 0x100 + low % 0x100 && mid == high * 0x100 + mid % 0x100;
  }

  /** None stands for the error on a body that is too long. */
  function EncodeFrame(body: seq<byte>): Option<seq<byte>> {
    if |body| > MAX_FRAME_BYTES then None else Some(PackLength(|body|) + body)
  }

  /** A body a peer accepts: JSON text is never empty. */
  predicate Sendable(body: seq<byte>) {
    0 < |body| <= MAX_FRAME_BYTES
  }

  predicate AllSendable(bodies: seq<seq<byte>>) {
    forall i | 0 <= i < |bodies| :: Sendable(bodies[i])
  }

  function Stream(bodies: seq<seq<byte>>): seq<byte>
    requires AllSendable(bodies)
  {
    if bodies == [] then []
    else
      assert Sendable(bodies[0]);
      EncodeFrame(bodies[0]).value + Stream(bodies[1..])
  }

  // ---------------------------------------------------------------- what a stream holds

  /** The peer closed, whether or not within a frame; or a header is out of range. */
  datatype Ending = PeerClosed | BadLength(length: nat)

  datatype Parsed = Parsed(bodies: seq<seq<byte>>, ending: Ending, rest: seq<byte>)

  /** The whole frames at the front of a stream, why they end, and what is left unread. */
  function Parse(stream: seq<byte>): Parsed
    decreases |stream|
  {
    if |stream| < HEADER_SIZE then Parsed([], PeerClosed, [])
    else
      var n := UnpackLength(stream[..HEADER_SIZE]);
      var after := stream[HEADER_SIZE..];
      if n == 0 || n > MAX_FRAME_BYTES then Parsed([], BadLength(n), after)
      else if |after| < n then Parsed([], PeerClosed, [])
      else
        var p := Parse(after[n..]);
        p.(bodies := [after[..n]] + p.bodies)
  }

  lemma WholeFrameParses(body: seq<byte>, tail: seq<byte>)
    requires Sendable(body)
    ensures var p := Parse(tail); Parse(EncodeFrame(body).value + tail) == p.(bodies := [body] + p.bodies)
  {
    LengthReadsBack(|body|);
    var stream := EncodeFrame(body).value + tail;
    assert stream[..HEADER_SIZE] == PackLength(|body|);
    assert stream[HEADER_SIZE..] == body + tail;
    assert (body + tail)[..|body|] == body && (body + tail)[|body|..] == tail;
  }

  lemma CutFrameParses(body: seq<byte>, cut: nat)
    requires Sendable(body) && cut < HEADER_SIZE + |body|
    ensures Parse(EncodeFrame(body).value[..cut]) == Parsed([], PeerClosed, [])
  {
    LengthReadsBack(|body|);
    var seen := EncodeFrame(body).value[..cut];
    if cut >= HEADER_SIZE {
      assert seen[..HEADER_SIZE] == PackLength(|body|);
      assert |seen[HEADER_SIZE..]| < |body|;
    }
  }

  lemma {:induction false} StreamParses(bodies: seq<seq<byte>>)
    requires AllSendable(bodies)
    ensures Parse(Stream(bodies)) == Parsed(bodies, PeerClosed, [])
  {
    if bodies != [] {
      assert Sendable(bodies[0]);
      StreamParses(bodies[1..]);
      WholeFrameParses(bodies[0], Stream(bodies[1..]));
      assert [bodies[0]] + bodies[1..] == bodies;
    }
  }

  /** One whole frame before a cut stream adds its body to the parse. */
  lemma WholeThenCut(body: seq<byte>, bodies: seq<seq<byte>>, seen: seq<byte>)
    requires Sendable(body) && AllSendable(bodies)
    requires Parse(seen).bodies <= bodies
    ensures var p, q := Parse(seen), Parse(EncodeFrame(body).value + seen);
            && q == p.(bodies := [body] + p.bodies)
            && q.bodies <= [body] + bodies && AllSendable(q.bodies) && AllSendable(p.bodies)
            && |Stream(q.bodies)| == HEADER_SIZE + |body| + |Stream(p.bodies)|
  {
    WholeFrameParses(body, seen);
    var p := Parse(seen);
    assert ([body] + p.bodies)[1..] == p.bodies;
  }

  /** A stream cut anywhere yields the frames that were whole by then. */
  lemma {:induction false} CutStreamParses(bodies: seq<seq<byte>>, cut: nat)
    requires AllSendable(bodies) && cut <= |Stream(bodies)|
    ensures var p := Parse(Stream(bodies)[..cut]);
            && p == Parsed(p.bodies, PeerClosed, [])
            && p.bodies <= bodies && AllSendable(p.bodies)
            && |Stream(p.bodies)| <= cut
            && (|p.bodies| < |bodies| ==> cut < |Stream(p.bodies)| + HEADER_SIZE + |bodies[|p.bodies|]|)
  {
    if bodies != [] {
      var body, tail := bodies[0], Stream(bodies[1..]);
      assert Sendable(body);
      var frame := EncodeFrame(body).value;
      if cut < |frame| {
        CutFrameParses(body, cut);
        assert (frame + tail)[..cut] == frame[..cut];
      } else {
        var k := cut - |frame|;
        CutStreamParses(bodies[1..], k);
        assert (frame + tail)[..cut] == frame + tail[..k];
        WholeThenCut(body, bodies[1..], tail[..k]);
        assert bodies == [body] + bodies[1..];
      }
    }
  }

  // ---------------------------------------------------------------- receiving

  datatype Received<T> = Data(data: T) | Closed | Expired | Invalid(length: nat)

  /** One direction of a connection: the bytes still to arrive before the peer closes,
      and how many waits the deadline allows, None when there is no deadline. */
  class Connection {
    var incoming: seq<byte>
    var patience: Option<nat>

    constructor (incoming: seq<byte>, patience: Option<nat>)
      ensures this.incoming == incoming && this.patience == patience
    {
      this.incoming, this.patience := incoming, patience;
    }

    /** Any non-empty fragment of at most `size` bytes, or nothing once the peer has
        closed. */
    method Recv(size: nat) returns (chunk: Received<seq<byte>>)
      requires size > 0
      modifies this
      ensures chunk.Data? ==>
                && 0 < |chunk.data| <= size && chunk.data + incoming == old(incoming)
                && patience.Some? == old(patience).Some?
      ensures chunk.Closed? ==> incoming == old(incoming) == [] && patience.Some? == old(patience).Some?
      ensures chunk.Expired? ==> old(patience) == Some(0) && incoming == old(incoming) && patience == old(patience)
      ensures !chunk.Invalid?
    {
      if patience.Some? {
        if patience.value == 0 {
          return Expired;
        }
        patience := Some(patience.value - 1);
      }
      if incoming == [] {
        return Closed;
      }
      var n :| 0 < n <= size && n <= |incoming|;
      chunk := Data(incoming[..n]);
      incoming := incoming[n..];
    }

    /** Exactly the next `size` bytes, however they are fragmented. */
    method RecvExact(size: nat) returns (r: Received<seq<byte>>)
      modifies this
      ensures patience.Some? == old(patience).Some?
      ensures r.Data? ==> |old(incoming)| >= size && r.data == old(incoming)[..size] && incoming == old(incoming)[size..]
      ensures r.Closed? ==> |old(incoming)| < size && incoming == []
      ensures r.Expired? ==> old(patience).Some?
      ensures !r.Invalid?
    {
      var chunks: seq<byte> := [];
      while |chunks| < size
        invariant |chunks| <= size && chunks + incoming == old(incoming)
        invariant patience.Some? == old(patience).Some?
        decreases size - |chunks|
      {
        var chunk := Recv(size - |chunks|);
        if !chunk.Data? {
          return chunk;
        }
        chunks := chunks + chunk.data;
      }
      assert old(incoming)[..size] == chunks;
      return Data(chunks);
    }

    method RecvFrame() returns (r: Received<seq<byte>>)
      modifies this
      ensures patience.Some? == old(patience).Some?
      ensures r.Expired? ==> old(patience).Some?
      ensures r.Data? ==>
                && Parse(old(incoming)).bodies != [] && Parse(old(incoming)).bodies[0] == r.data
                && Parse(old(incoming)) == Parse(incoming).(bodies := [r.data] + Parse(incoming).bodies)
                && |incoming| < |old(incoming)|
      ensures r.Closed? ==> Parse(old(incoming)) == Parsed([], PeerClosed, incoming)
      ensures r.Invalid? ==> Parse(old(incoming)) == Parsed([], BadLength(r.length), incoming)
    {
      var header := RecvExact(HEADER_SIZE);
      if !header.Data? {
        return header;
      }
      var length := UnpackLength(header.data);
      if length <= 0 || length > MAX_FRAME_BYTES {
        return Invalid(length);
      }
      r := RecvExact(length);
    }

    /** Receives until the stream ends, as a server reading one connection does. */
    method RecvAll() returns (bodies: seq<seq<byte>>, last: Received<seq<byte>>)
      modifies this
      ensures patience.Some? == old(patience).Some?
      ensures last.Expired? ==> old(patience).Some? && bodies <= Parse(old(incoming)).bodies
      ensures !last.Expired? ==>
                Parse(old(incoming)) ==
                  Parsed(bodies, if last.Invalid? then BadLength(last.length) else PeerClosed, incoming)
      ensures !last.Data?
    {
      bodies := [];
      while true
        invariant patience.Some? == old(patience).Some?
        invariant Parse(old(incoming)) == Parse(incoming).(bodies := bodies + Parse(incoming).bodies)
        decreases |incoming|
      {
        ghost var before := Parse(incoming);
        last := RecvFrame();
        if !last.Data? {
          assert before.bodies == [] && !last.Expired? ==> bodies + before.bodies == bodies;
          return;
        }
        assert bodies + ([last.data] + Parse(incoming).bodies) == (bodies + [last.data]) + Parse(incoming).bodies;
        bodies := bodies + [last.data];
      }
    }
  }

  /** With no deadline, whatever was sent is received: the same bodies in the same
      order, under every fragmentation, ending when the peer closes. */
  method SentIsReceived(sent: seq<seq<byte>>) returns (received: seq<seq<byte>>)
    requires AllSendable(sent)
    ensures received == sent
  {
    var connection := new Connection(Stream(sent), None);
    var last;
    received, last := connection.RecvAll();
    StreamParses(sent);
  }
}
