/** Forwarding of the streamed completion: each chunk whose first choice
    carries non-empty delta content is enqueued on the response stream, in
    arrival order, until the stream ends or an error interrupts it. */
module Forwarding {
  import opened Wrappers
  import Strings

  /** The nullable parts of a streamed completion chunk. */
  datatype Delta = Delta(content: Option<string>)
  datatype Choice = Choice(delta: Option<Delta>)
  datatype Chunk = Chunk(choices: Option<seq<Choice>>)

  /** The completion stream as it arrives: the chunks it yields, then either
      a normal end (`fault == None`) or an error raised by the iterator. */
  datatype Completion = Completion(chunks: seq<Chunk>, fault: Option<string>)

  /** The outcome of reading `choices[0]?.delta?.content`: a TypeError when
      `choices` itself is missing, otherwise the (possibly missing) content. */
  datatype Access = TypeError | Value(content: Option<string>)

  function ContentOf(c: Chunk): (r: Access)
    ensures r.TypeError? <==> c.choices.None?
    ensures r.Value? && r.content.Some? <==>
      c.choices.Some? && |c.choices.value| > 0 && c.choices.value[0].delta.Some?
        && c.choices.value[0].delta.value.content.Some?
    ensures r.Value? && r.content.Some? ==>
      r.content.value == c.choices.value[0].delta.value.content.value
  {
    match c.choices
    case None => TypeError
    case Some(cs) =>
      if |cs| == 0 then Value(None)
      else match cs[0].delta
        case None => Value(None)
        case Some(d) => Value(d.content)
  }

  predicate Throws(c: Chunk)
  {
    ContentOf(c).TypeError?
  }

  /** What one chunk enqueues: its content when that is present and non-empty. */
  function Fragment(c: Chunk): seq<string>
  {
    match ContentOf(c)
    case Value(Some(s)) => if s != "" then [s] else []
    case _ => []
  }

  /** The fragments enqueued for a run of chunks, in arrival order. */
  function Fragments(cs: seq<Chunk>): (r: seq<string>)
    ensures |r| <= |cs|
    ensures forall j :: 0 <= j < |r| ==> r[j] != ""
  {
    if cs == [] then [] else Fragments(cs[..|cs| - 1]) + Fragment(cs[|cs| - 1])
  }

  /** The position of the first chunk whose access throws, or |cs| if none. */
  function FirstThrow(cs: seq<Chunk>): (k: nat)
    ensures k <= |cs|
    ensures forall j :: 0 <= j < k ==> !Throws(cs[j])
    ensures k < |cs| ==> Throws(cs[k])
  {
    if cs == [] || Throws(cs[0]) then 0 else 1 + FirstThrow(cs[1..])
  }

  /** The error handed to `controller.error`. */
  datatype StreamError = ChunkTypeError | UpstreamFault(reason: string)

  /** What the response stream ends up holding: the enqueued fragments and
      the error it was put into, if any. */
  datatype Outcome = Outcome(enqueued: seq<string>, error: Option<StreamError>)

  /** The outcome of forwarding a whole completion stream. */
  function Forwarded(u: Completion): (o: Outcome)
    ensures |o.enqueued| <= |u.chunks|
    ensures o.error == None <==> u.fault == None && forall j :: 0 <= j < |u.chunks| ==> !Throws(u.chunks[j])
    ensures FirstThrow(u.chunks) < |u.chunks| ==> o.error == Some(ChunkTypeError)
    ensures FirstThrow(u.chunks) == |u.chunks| && u.fault.Some? ==> o.error == Some(UpstreamFault(u.fault.value))
  {
    var k := FirstThrow(u.chunks);
    var error :=
      if k < |u.chunks| then Some(ChunkTypeError)
      else if u.fault.Some? then Some(UpstreamFault(u.fault.value))
      else None;
    Outcome(Fragments(u.chunks[..k]), error)
  }

  /** The response body as enqueued: the fragments handed to the stream, in
      order, with encoding taken as the identity. */
  function Body(o: Outcome): string
  {
    Strings.Concat(o.enqueued)
  }

  /** Reference reading of a chunk: its content, or "" when there is none. */
  function TextOf(c: Chunk): string
  {
    match ContentOf(c)
    case Value(Some(s)) => s
    case _ => ""
  }

  /** Reference transcript: the text of every chunk, in arrival order. */
  function Transcript(cs: seq<Chunk>): string
  {
    if cs == [] then "" else TextOf(cs[0]) + Transcript(cs[1..])
  }

  lemma {:induction false} TranscriptSnoc(cs: seq<Chunk>, c: Chunk)
    ensures Transcript(cs + [c]) == Transcript(cs) + TextOf(c)
  {
    if cs == [] {
      assert cs + [c] == [c];
    } else {
      assert (cs + [c])[1..] == cs[1..] + [c];
      TranscriptSnoc(cs[1..], c);
    }
  }

  /** Order preservation: the fragments of two consecutive runs of chunks
      are those of the first run followed by those of the second. */
  lemma {:induction false} FragmentsAppend(a: seq<Chunk>, b: seq<Chunk>)
    ensures Fragments(a + b) == Fragments(a) + Fragments(b)
  {
    if b == [] {
      assert a + b == a;
    } else {
      var init := b[..|b| - 1];
      assert (a + b)[..|a + b| - 1] == a + init;
      assert (a + b)[|a + b| - 1] == b[|b| - 1];
      FragmentsAppend(a, init);
    }
  }

  /** Dropping the chunks with missing or empty content changes nothing:
      the concatenated fragments are the full transcript. */
  lemma {:induction false} FragmentsTranscript(cs: seq<Chunk>)
    ensures Strings.Concat(Fragments(cs)) == Transcript(cs)
  {
    if cs != [] {
      var init, c := cs[..|cs| - 1], cs[|cs| - 1];
      assert cs == init + [c];
      FragmentsTranscript(init);
      Strings.ConcatAppend(Fragments(init), Fragment(c));
      TranscriptSnoc(init, c);
      assert Strings.Concat(Fragment(c)) == TextOf(c) by {
        if Fragment(c) != [] {
          assert Strings.Concat(Fragment(c)) == TextOf(c) + Strings.Concat([]);
        }
      }
    }
  }

  /** When no chunk throws, the body is the transcript of the whole stream,
      whether the stream finished normally or failed after the last chunk. */
  lemma BodyIsTranscript(u: Completion)
    requires forall j :: 0 <= j < |u.chunks| ==> !Throws(u.chunks[j])
    ensures Body(Forwarded(u)) == Transcript(u.chunks)
  {
    assert u.chunks[..|u.chunks|] == u.chunks;
    FragmentsTranscript(u.chunks);
  }

  /** Whether or not a chunk throws, the body is the transcript of the
      chunks that arrived before the first throwing one. */
  lemma BodyIsTranscriptBeforeThrow(u: Completion)
    ensures Body(Forwarded(u)) == Transcript(u.chunks[..FirstThrow(u.chunks)])
  {
    FragmentsTranscript(u.chunks[..FirstThrow(u.chunks)]);
  }

  /** No retraction: if the stream fails after its first k chunks, what was
      enqueued is a prefix of what the uninterrupted stream enqueues, and the
      response stream is put into an error. */
  lemma NoRetraction(u: Completion, k: nat, reason: string)
    requires k <= |u.chunks|
    ensures var cut := Forwarded(Completion(u.chunks[..k], Some(reason)));
      cut.error.Some? && cut.enqueued <= Forwarded(u).enqueued
  {
    var cs := u.chunks;
    var n := FirstThrow(cs);
    var m := FirstThrow(cs[..k]);
    if n < k {
      assert cs[..k][n] == cs[n];
      assert m == n;
      assert cs[..k][..m] == cs[..n];
    } else {
      assert forall j :: 0 <= j < k ==> cs[..k][j] == cs[j];
      assert m == k;
      assert cs[..k][..m] == cs[..k];
      assert cs[..n] == cs[..k] + cs[k..n];
      FragmentsAppend(cs[..k], cs[k..n]);
    }
  }

  /** Nothing after a chunk that throws is enqueued: the chunks that would
      have followed it, and how the stream would have ended, do not matter. */
  lemma ThrowEndsForwarding(cs: seq<Chunk>, fault: Option<string>, later: seq<Chunk>, laterFault: Option<string>)
    requires exists j :: 0 <= j < |cs| && Throws(cs[j])
    ensures Forwarded(Completion(cs + later, laterFault)) == Forwarded(Completion(cs, fault))
  {
    var k := FirstThrow(cs);
    var all := cs + later;
    var k' := FirstThrow(all);
    assert forall j :: 0 <= j < |cs| ==> all[j] == cs[j];
    assert k' == k;
    assert all[..k] == cs[..k];
  }

  /** Two fragments "Hello" and " world" make the body "Hello world". */
  lemma HelloWorld()
    ensures var hello := Chunk(Some([Choice(Some(Delta(Some("Hello"))))]));
      var world := Chunk(Some([Choice(Some(Delta(Some(" world"))))]));
      var o := Forwarded(Completion([hello, world], None));
      Body(o) == "Hello world" && o.error == None
  {
  }

  /** A stream that fails after one fragment enqueues that fragment only,
      then reports the failure. */
  lemma FailAfterOne(reason: string)
    ensures var hello := Chunk(Some([Choice(Some(Delta(Some("Hello"))))]));
      Forwarded(Completion([hello], Some(reason))) == Outcome(["Hello"], Some(UpstreamFault(reason)))
  {
  }

  /** The response stream's controller: the chunks enqueued so far, the
      error it was put into, and whether it was closed. */
  class Controller {
    var queue: seq<string>
    var error: Option<StreamError>
    var closed: bool

    constructor ()
      ensures queue == [] && error == None && !closed
    {
      queue, error, closed := [], None, false;
    }

    method Enqueue(chunk: string)
      requires !closed && error == None
      modifies this
      ensures queue == old(queue) + [chunk]
      ensures error == old(error) && closed == old(closed)
    {
      queue := queue + [chunk];
    }

    method Error(e: StreamError)
      requires !closed && error == None
      modifies this
      ensures error == Some(e)
      ensures queue == old(queue) && closed == old(closed)
    {
      error := Some(e);
    }

    method Close()
      requires !closed
      modifies this
      ensures closed
      ensures queue == old(queue) && error == old(error)
    {
      closed := true;
    }
  }

  /** The stream's `start`: walk the chunks in arrival order and enqueue
      each present, non-empty content; on an error, put the stream into
      that error and stop; in every case close the stream at the end. */
  method Start(controller: Controller, completion: Completion)
    requires controller.queue == [] && controller.error == None && !controller.closed
    modifies controller
    ensures controller.queue == Forwarded(completion).enqueued
    ensures controller.error == Forwarded(completion).error
    ensures controller.closed
  {
    var cs := completion.chunks;
    var i := 0;
    var thrown := false;
    while i < |cs| && !thrown
      invariant 0 <= i <= FirstThrow(cs)
      invariant thrown ==> i == FirstThrow(cs) < |cs|
      invariant controller.queue == Fragments(cs[..i])
      invariant controller.error == if thrown then Some(ChunkTypeError) else None
      invariant !controller.closed
      decreases |cs| - i, if thrown then 0 else 1
    {
      match ContentOf(cs[i])
      case TypeError =>
        controller.Error(ChunkTypeError);
        thrown := true;
      case Value(content) =>
        assert cs[..i + 1][..i] == cs[..i];
        if content.Some? && content.value != "" {
          controller.Enqueue(content.value);
        }
        i := i + 1;
    }
    if !thrown {
      assert i == |cs|;
      if completion.fault.Some? {
        controller.Error(UpstreamFault(completion.fault.value));
      }
    }
    controller.Close();
  }
}
