/** One authorized model call: its reservation, its stream, and how the reservation is disposed of. */
module GatewayCall {

  import opened Options

  /** What the upstream iterator yields next: bytes, something that is not bytes, or an exception. */
  datatype Chunk = Bytes(data: string) | NotBytes | Raises(error: string)

  /** What the upstream answers: a rejection that definitely started nothing or may have, with its status, its
      body and the text of the exception; another exception; or a stream. */
  datatype Upstream =
    | Rejected(definite: bool, status: int, body: string, text: string)
    | Failed(text: string)
    | Streaming(chunks: seq<Chunk>)

  /** The request as it was read, and what the account makes of it. */
  datatype Read = NoLength | Invalid | Effective
  datatype Reservation = Granted | Exhausted | Unavailable

  /** Everything outside the gateway that the call meets. `disposes` says that the account does what it is
      asked for without raising, `headersRaise` that writing the stream headers raises, `clientUntil` from which
      chunk on writing to the client raises `clientError`, and `usage` whether the bytes received hold a valid
      usage receipt. */
  datatype World = World(
    read: Read, reservation: Reservation, upstream: Upstream, disposes: bool, headersRaise: bool,
    clientUntil: nat, clientError: string, usage: string -> bool)

  datatype Disposal = Release | Forfeit(evidence: string) | Settle(receipt: string)

  /** The disposals that the account was asked for, in order, the bytes that reached the client, and the status
      of the error reply if one was sent. */
  datatype Outcome = Outcome(disposals: seq<Disposal>, served: string, reply: Option<int>)

  // --- The stream -----------------------------------------------------------------------------------------

  /** All the bytes of the first `n` chunks. */
  function Joined(chunks: seq<Chunk>, n: nat): string
    requires n <= |chunks|
  {
    if n == 0 then ""
    else Joined(chunks, n - 1) + if chunks[n - 1].Bytes? then chunks[n - 1].data else ""
  }

  /** Chunk `i` can be received: it is bytes, and fits the response bound after those before it. */
  predicate Receivable(limit: nat, chunks: seq<Chunk>, i: nat)
    requires i < |chunks|
  {
    chunks[i].Bytes? && |Joined(chunks, i)| + |chunks[i].data| <= limit
  }

  predicate Passes(limit: nat, w: World, chunks: seq<Chunk>, i: nat)
    requires i < |chunks|
  {
    Receivable(limit, chunks, i) && i < w.clientUntil
  }

  /** How far the loop gets: to the first chunk that cannot be received or written, or to the end. */
  function Progress(limit: nat, w: World, chunks: seq<Chunk>, i: nat): (k: nat)
    requires i <= |chunks|
    ensures i <= k <= |chunks|
    decreases |chunks| - i
  {
    if i < |chunks| && Passes(limit, w, chunks, i) then Progress(limit, w, chunks, i + 1) else i
  }

  lemma {:induction false} ProgressStops(limit: nat, w: World, chunks: seq<Chunk>, i: nat)
    requires i <= |chunks|
    ensures
      var k := Progress(limit, w, chunks, i);
      (forall j :: i <= j < k ==> Passes(limit, w, chunks, j)) && (k < |chunks| ==> !Passes(limit, w, chunks, k))
    decreases |chunks| - i
  {
    if i < |chunks| && Passes(limit, w, chunks, i) { ProgressStops(limit, w, chunks, i + 1); }
  }

  /** The bytes received when the loop stops at chunk `k`: a chunk that was received is kept even if it
      could not be written. */
  function Received(limit: nat, chunks: seq<Chunk>, k: nat): string
    requires k <= |chunks|
  {
    if k < |chunks| && Receivable(limit, chunks, k) then Joined(chunks, k + 1) else Joined(chunks, k)
  }

  /** The name of the exception that stops the loop at chunk `k`. */
  function StopError(limit: nat, w: World, chunks: seq<Chunk>, k: nat): string
    requires k < |chunks|
  {
    match chunks[k]
    case Raises(error) => error
    case NotBytes => "TypeError"
    case Bytes(_) => if Receivable(limit, chunks, k) then w.clientError else "ValueError"
  }

  function Marker(error: string): string { "\n[gateway-stream-error:" + error + "]" }

  function OrElse(text: string, other: string): string { if text == "" then other else text }

  function ReplyOf(status: int): int { if 400 <= status < 500 then status else 502 }

  function Replied(w: World, disposal: Disposal, status: int): Outcome {
    Outcome([disposal], "", if w.disposes then Some(status) else None)
  }

  function Handled(limit: nat, w: World): Outcome {
    if w.read != Effective then Outcome([], "", Some(400))
    else if w.reservation == Unavailable then Outcome([], "", None)
    else if w.reservation == Exhausted then Outcome([], "", Some(402))
    else match w.upstream
    case Rejected(definite, status, body, text) =>
      Replied(w, if definite then Release else Forfeit(OrElse(body, text)), ReplyOf(status))
    case Failed(text) => Replied(w, Forfeit(OrElse(text, "unknown upstream error")), 502)
    case Streaming(chunks) =>
      if w.headersRaise then Outcome([], "", None)
      else
        var k := Progress(limit, w, chunks, 0);
        Outcome([StreamDisposal(limit, w, chunks, k)], Joined(chunks, k), None)
  }

  /** How a stream that stopped at `k` is disposed of. */
  function StreamDisposal(limit: nat, w: World, chunks: seq<Chunk>, k: nat): Disposal
    requires k <= |chunks|
  {
    var response := Received(limit, chunks, k);
    if k < |chunks| then Forfeit(response + Marker(StopError(limit, w, chunks, k)))
    else if w.usage(response) then Settle(response)
    else Forfeit(OrElse(response, "empty upstream response"))
  }

  lemma JoinedNext(chunks: seq<Chunk>, i: nat)
    requires i <= |chunks|
    ensures Joined(chunks, 0) == ""
    ensures i < |chunks| && chunks[i].Bytes? ==> Joined(chunks, i + 1) == Joined(chunks, i) + chunks[i].data
  {}

  lemma ProgressNext(limit: nat, w: World, chunks: seq<Chunk>, i: nat)
    requires i <= |chunks|
    ensures Progress(limit, w, chunks, i) ==
      if i < |chunks| && Passes(limit, w, chunks, i) then Progress(limit, w, chunks, i + 1) else i
  {}

  /** The loop over the stream: what was received, what was served, and the exception that ended it, if any. */
  method ReceiveStream(limit: nat, w: World, chunks: seq<Chunk>)
    returns (response: string, served: string, error: Option<string>)
    ensures
      var k := Progress(limit, w, chunks, 0);
      && response == Received(limit, chunks, k) && served == Joined(chunks, k)
      && error == if k < |chunks| then Some(StopError(limit, w, chunks, k)) else None
  {
    hide Joined, Progress;
    response, served := "", "";
    var i := 0;
    JoinedNext(chunks, 0);
    while i < |chunks|
      invariant 0 <= i <= |chunks|
      invariant response == Joined(chunks, i) && served == response
      invariant Progress(limit, w, chunks, 0) == Progress(limit, w, chunks, i)
    {
      JoinedNext(chunks, i);
      ProgressNext(limit, w, chunks, i);
      if chunks[i].Raises? { return response, served, Some(chunks[i].error); }
      if chunks[i].NotBytes? { return response, served, Some("TypeError"); }
      if |chunks[i].data| > limit - |response| { return response, served, Some("ValueError"); }
      response := response + chunks[i].data;
      if i >= w.clientUntil { return response, served, Some(w.clientError); }
      served := served + chunks[i].data;
      i := i + 1;
    }
    ProgressNext(limit, w, chunks, i);
    return response, served, None;
  }

  /** `_handle_authorized`, for a response bound of `limit` bytes. */
  method HandleAuthorized(limit: nat, w: World) returns (r: Outcome)
    ensures r == Handled(limit, w)
  {
    hide Progress, Received, Joined, StopError;
    if w.read != Effective { return Outcome([], "", Some(400)); }
    if w.reservation == Unavailable { return Outcome([], "", None); }
    if w.reservation == Exhausted { return Outcome([], "", Some(402)); }
    match w.upstream {
      case Rejected(definite, status, body, text) =>
        var disposal := if definite then Release else Forfeit(if body != "" then body else text);
        if !w.disposes { return Outcome([disposal], "", None); }
        return Outcome([disposal], "", Some(if 400 <= status < 500 then status else 502));
      case Failed(text) =>
        var disposal := Forfeit(if text != "" then text else "unknown upstream error");
        return Outcome([disposal], "", if w.disposes then Some(502) else None);
      case Streaming(chunks) =>
        if w.headersRaise { return Outcome([], "", None); }
        var response, served, error := ReceiveStream(limit, w, chunks);
        if error.Some? { return Outcome([Forfeit(response + Marker(error.value))], served, None); }
        if !w.usage(response) { return Outcome([Forfeit(OrElse(response, "empty upstream response"))], served, None); }
        return Outcome([Settle(response)], served, None);
    }
  }

  // --- What a call leaves behind ----------------------------------------------------------------------------

  /** A call disposes of its reservation exactly once, unless writing the response headers raises: then it
      ends without disposing of it. */
  lemma DisposedOnce(limit: nat, w: World)
    ensures |Handled(limit, w).disposals| ==
      if w.read == Effective && w.reservation == Granted && !(w.upstream.Streaming? && w.headersRaise) then 1 else 0
  {}

  lemma {:induction false} JoinedBounded(limit: nat, chunks: seq<Chunk>, n: nat)
    requires n <= |chunks| && forall j :: 0 <= j < n ==> Receivable(limit, chunks, j)
    ensures |Joined(chunks, n)| <= limit
  {
    if n > 0 { assert Receivable(limit, chunks, n - 1); }
  }

  predicate Whole(limit: nat, w: World, chunks: seq<Chunk>) {
    forall j :: 0 <= j < |chunks| ==> Passes(limit, w, chunks, j)
  }

  /** Never more than the bound is received or served. The client is served a prefix of the evidence retained, and
      all of it when the call settles; a call settles if and only if every chunk was received and written and the
      receipt in them is valid, and evidence of a broken stream names what broke it. */
  lemma StreamAccounts(limit: nat, w: World)
    requires w.read == Effective && w.reservation == Granted && w.upstream.Streaming? && !w.headersRaise
    ensures
      var chunks, r := w.upstream.chunks, Handled(limit, w);
      var d := r.disposals[0];
      && |r.served| <= limit
      && (d.Settle? <==> Whole(limit, w, chunks) && w.usage(Joined(chunks, |chunks|)))
      && (d.Settle? ==> d.receipt == r.served == Joined(chunks, |chunks|))
      && (d.Forfeit? && Whole(limit, w, chunks) ==> d.evidence == OrElse(r.served, "empty upstream response"))
      && (!Whole(limit, w, chunks) ==> d.Forfeit? && BrokenEvidence(limit, w, chunks, r.served, d.evidence))
  {
    var chunks := w.upstream.chunks;
    var k := Progress(limit, w, chunks, 0);
    ProgressStops(limit, w, chunks, 0);
    forall j | 0 <= j < k ensures Receivable(limit, chunks, j) { assert Passes(limit, w, chunks, j); }
    JoinedBounded(limit, chunks, k);
    hide Passes, Progress, Received, Joined, Marker, StopError;
    if k < |chunks| {
      assert !Passes(limit, w, chunks, k);
      StreamBreaks(limit, w, chunks, k);
    } else {
      WholeIsReceived(limit, chunks);
    }
  }

  lemma {:induction false} WholeIsReceived(limit: nat, chunks: seq<Chunk>)
    ensures Received(limit, chunks, |chunks|) == Joined(chunks, |chunks|)
  {}

  lemma {:induction false} StreamBreaks(limit: nat, w: World, chunks: seq<Chunk>, k: nat)
    requires k < |chunks| && !Passes(limit, w, chunks, k) && |Joined(chunks, k)| <= limit
    ensures
      var evidence := Received(limit, chunks, k) + Marker(StopError(limit, w, chunks, k));
      BrokenEvidence(limit, w, chunks, Joined(chunks, k), evidence)
  {
    ReceivedBounded(limit, chunks, k);
    hide Passes, Received, Joined, Marker, StopError;
    var evidence := Received(limit, chunks, k) + Marker(StopError(limit, w, chunks, k));
    assert Breaks(limit, w, chunks, Joined(chunks, k), evidence, k);
  }

  /** The stream broke at chunk `k`. */
  predicate Breaks(limit: nat, w: World, chunks: seq<Chunk>, served: string, evidence: string, k: nat) {
    && k < |chunks| && !Passes(limit, w, chunks, k) && served == Joined(chunks, k)
    && evidence == Received(limit, chunks, k) + Marker(StopError(limit, w, chunks, k))
    && served <= Received(limit, chunks, k) && |Received(limit, chunks, k)| <= limit
  }

  predicate BrokenEvidence(limit: nat, w: World, chunks: seq<Chunk>, served: string, evidence: string) {
    exists k | 0 <= k < |chunks| :: Breaks(limit, w, chunks, served, evidence, k)
  }

  lemma {:induction false} ReceivedBounded(limit: nat, chunks: seq<Chunk>, k: nat)
    requires k <= |chunks| && |Joined(chunks, k)| <= limit
    ensures |Received(limit, chunks, k)| <= limit && Joined(chunks, k) <= Received(limit, chunks, k)
  {}

  // --- Which disposal, which reply --------------------------------------------------------------------------

  /** A reservation is released if and only if it was granted and the upstream definitely started nothing. */
  lemma {:induction false} ReleasedExactly(limit: nat, w: World)
    ensures Release in Handled(limit, w).disposals <==>
      w.read == Effective && w.reservation == Granted && w.upstream.Rejected? && w.upstream.definite
  {}

  /** Every other rejection, and every failure, is one forfeit: its evidence is the body of the rejection, or else
      the text of the exception. Nothing is served. */
  lemma {:induction false} FailureIsForfeited(limit: nat, w: World)
    requires w.read == Effective && w.reservation == Granted && !w.upstream.Streaming?
    requires w.upstream.Rejected? ==> !w.upstream.definite
    ensures
      var r := Handled(limit, w);
      && r.served == "" && |r.disposals| == 1 && r.disposals[0].Forfeit?
      && var evidence := r.disposals[0].evidence;
      && (w.upstream.Rejected? && w.upstream.body != "" ==> evidence == w.upstream.body)
      && (w.upstream.Rejected? && w.upstream.body == "" ==> evidence == w.upstream.text)
      && (w.upstream.Failed? && w.upstream.text != "" ==> evidence == w.upstream.text)
      && (w.upstream.Failed? && w.upstream.text == "" ==> evidence == "unknown upstream error")
  {}

  /** The error replies: a request that cannot be read gets 400 and an exhausted budget 402, without a disposal; a
      rejection by the upstream gets the upstream's own status if that is a client error and 502 otherwise, a
      failure 502, once the account is through; and nothing else gets one. */
  lemma {:induction false} RepliesExactly(limit: nat, w: World)
    ensures
      var r := Handled(limit, w);
      var dispatched := w.read == Effective && w.reservation == Granted;
      && (r.reply == Some(400) <==>
            || w.read != Effective
            || (dispatched && w.disposes && w.upstream.Rejected? && w.upstream.status == 400))
      && (w.read == Effective && w.reservation == Exhausted ==> r.reply == Some(402))
      && (dispatched && w.disposes && w.upstream.Rejected? ==>
            r.reply == Some(if 400 <= w.upstream.status < 500 then w.upstream.status else 502))
      && (dispatched && w.disposes && w.upstream.Failed? ==> r.reply == Some(502))
      && (dispatched && (!w.disposes || w.upstream.Streaming?) ==> r.reply == None)
      && (w.read == Effective && w.reservation == Unavailable ==> r.reply == None)
      && (!dispatched ==> r.disposals == [] && r.served == "")
  {}

  // --- Which streams settle -----------------------------------------------------------------------------------

  lemma {:induction false} JoinedMonotone(chunks: seq<Chunk>, m: nat, n: nat)
    requires m <= n <= |chunks|
    ensures |Joined(chunks, m)| <= |Joined(chunks, n)|
  {
    if m < n { JoinedMonotone(chunks, m, n - 1); }
  }

  lemma {:induction false} WholeExactly(limit: nat, w: World, chunks: seq<Chunk>)
    ensures Whole(limit, w, chunks) <==>
      && (forall i :: 0 <= i < |chunks| ==> chunks[i].Bytes?)
      && |Joined(chunks, |chunks|)| <= limit && |chunks| <= w.clientUntil
  {
    var n := |chunks|;
    if Whole(limit, w, chunks) {
      forall i | 0 <= i < n ensures chunks[i].Bytes? { assert Passes(limit, w, chunks, i); }
      if n > 0 { assert Passes(limit, w, chunks, n - 1); }
    }
    if (forall i :: 0 <= i < n ==> chunks[i].Bytes?) && |Joined(chunks, n)| <= limit && n <= w.clientUntil {
      forall i | 0 <= i < n ensures Passes(limit, w, chunks, i) { JoinedMonotone(chunks, i + 1, n); }
    }
  }

  /** A stream settles if and only if all of it is bytes, no more than the bound together, all of it reached the
      client, and it holds a valid usage receipt; and then it settles with all of it. */
  lemma {:induction false} SettlesExactly(limit: nat, w: World)
    requires w.read == Effective && w.reservation == Granted && w.upstream.Streaming? && !w.headersRaise
    ensures
      var (chunks, d) := (w.upstream.chunks, Handled(limit, w).disposals[0]);
      var all := Joined(chunks, |chunks|);
      && (d.Settle? <==>
            && (forall i :: 0 <= i < |chunks| ==> chunks[i].Bytes?)
            && |all| <= limit && |chunks| <= w.clientUntil && w.usage(all))
      && (d.Settle? ==> d.receipt == all)
  {
    StreamAccounts(limit, w);
    WholeExactly(limit, w, w.upstream.chunks);
    hide Handled, Whole, Joined;
  }

  /** The first chunk that stops a stream names the exception in the evidence: the upstream's own, a type error for
      what is not bytes, a value error for what exceeds the bound, and the client's for what cannot be written, which
      is the only one whose own bytes are retained. */
  lemma {:induction false} BreakIsNamed(limit: nat, w: World, k: nat)
    requires w.read == Effective && w.reservation == Granted && w.upstream.Streaming? && !w.headersRaise
    requires k < |w.upstream.chunks|
    requires forall i :: 0 <= i < k ==> Passes(limit, w, w.upstream.chunks, i)
    requires !Passes(limit, w, w.upstream.chunks, k)
    ensures
      var (chunk, before) := (w.upstream.chunks[k], Joined(w.upstream.chunks, k));
      var r := Handled(limit, w);
      && r.served == before && |r.disposals| == 1 && r.disposals[0].Forfeit?
      && var evidence := r.disposals[0].evidence;
      && (chunk.Raises? ==> evidence == before + "\n[gateway-stream-error:" + chunk.error + "]")
      && (chunk.NotBytes? ==> evidence == before + "\n[gateway-stream-error:TypeError]")
      && (chunk.Bytes? && |before| + |chunk.data| > limit ==>
            evidence == before + "\n[gateway-stream-error:ValueError]")
      && (chunk.Bytes? && |before| + |chunk.data| <= limit ==>
            evidence == before + chunk.data + "\n[gateway-stream-error:" + w.clientError + "]")
  {
    ProgressIs(limit, w, w.upstream.chunks, 0, k);
    var chunks := w.upstream.chunks;
    assert Handled(limit, w) == Outcome([StreamDisposal(limit, w, chunks, k)], Joined(chunks, k), None);
    BreakEvidence(limit, w, chunks, k);
    hide Progress, Passes, Handled, Joined, StreamDisposal;
  }

  lemma {:induction false} BreakEvidence(limit: nat, w: World, chunks: seq<Chunk>, k: nat)
    requires k < |chunks|
    ensures StreamDisposal(limit, w, chunks, k).Forfeit?
    ensures
      var (chunk, before, evidence) := (chunks[k], Joined(chunks, k), StreamDisposal(limit, w, chunks, k).evidence);
      && (chunk.Raises? ==> evidence == before + "\n[gateway-stream-error:" + chunk.error + "]")
      && (chunk.NotBytes? ==> evidence == before + "\n[gateway-stream-error:TypeError]")
      && (chunk.Bytes? && |before| + |chunk.data| > limit ==>
            evidence == before + "\n[gateway-stream-error:ValueError]")
      && (chunk.Bytes? && |before| + |chunk.data| <= limit ==>
            evidence == before + chunk.data + "\n[gateway-stream-error:" + w.clientError + "]")
  {
    MarkerIs(Joined(chunks, k), StopError(limit, w, chunks, k));
    if chunks[k].Bytes? { MarkerIs(Joined(chunks, k) + chunks[k].data, w.clientError); }
    assert Marker("TypeError") == "\n[gateway-stream-error:TypeError]";
    assert Marker("ValueError") == "\n[gateway-stream-error:ValueError]";
    assert Receivable(limit, chunks, k) ==> Joined(chunks, k + 1) == Joined(chunks, k) + chunks[k].data;
    hide Marker, Joined;
  }

  lemma {:induction false} MarkerIs(before: string, error: string)
    ensures before + Marker(error) == before + "\n[gateway-stream-error:" + error + "]"
  {}

  lemma {:induction false} ProgressIs(limit: nat, w: World, chunks: seq<Chunk>, i: nat, k: nat)
    requires i <= k < |chunks| && (forall j :: i <= j < k ==> Passes(limit, w, chunks, j))
        && !Passes(limit, w, chunks, k)
    ensures Progress(limit, w, chunks, i) == k
    decreases k - i
  {
    if i < k { ProgressIs(limit, w, chunks, i + 1, k); }
  }
}
