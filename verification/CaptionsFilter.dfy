/**
  The filter context of native/ffmpeg/vf_docichcc.c with its handlers, updating
  the fields in place.  Every handler is proved equal to its transition function
  in Captions, whose runs carry the protocol's properties.
*/
module CaptionsFilter {
  import opened Wrappers
  import C = Captions

  type Triplet = C.Triplet
  type Code = C.Code

  class Context {
    const encoder: C.Encoder
    const capacity: nat
    const perFrame: nat
    var fifo: seq<Triplet>
    var detected: bool
    var enabled: bool
    var client: bool
    var executionId: string
    var prepared: int
    var visible: int
    var enqueued: nat
    var emitted: nat
    var pendingTarget: nat
    var pendingPage: int
    var pendingEvent: Option<C.Kind>
    var pendingFinalize: bool
    var air: seq<Triplet>
    var log: seq<C.Accepted>
    var sent: seq<C.Message>

    /** The context as a value. */
    function State(): C.State
      reads this
    {
      C.State(capacity, perFrame, fifo, detected, client, executionId, prepared, visible, enqueued, emitted,
        if pendingEvent.None? then None
        else Some(C.Pending(pendingEvent.value, pendingPage, pendingTarget, pendingFinalize)),
        air, log, sent)
    }

    constructor (encoder: C.Encoder, capacity: nat, perFrame: nat)
      ensures State() == C.Initial(capacity, perFrame) && this.encoder == encoder && enabled
    {
      this.encoder, this.capacity, this.perFrame := encoder, capacity, perFrame;
      fifo, detected, enabled, client, executionId := [], false, true, false, "";
      prepared, visible, pendingPage := -1, -1, -1;
      enqueued, emitted, pendingTarget, pendingEvent, pendingFinalize := 0, 0, 0, None, false;
      air, log, sent := [], [], [];
    }

    method CloseClient()
      modifies this
      ensures State() == C.CloseClient(old(State())) && enabled == old(enabled)
    {
      client := false;
      pendingTarget := 0;
      pendingEvent := None;
      pendingFinalize := false;
    }

    method SendErrorAndClose(code: Code)
      modifies this
      ensures State() == C.Refuse(old(State()), code) && enabled == old(enabled)
    {
      if !client { return; }
      sent := sent + [C.Error(code)];
      CloseClient();
    }

    /** Queues all triplets or none. */
    method EnqueueTriplets(request: C.Accepted) returns (ok: bool)
      modifies this
      ensures ok == C.Queueable(old(State()), request.triplets) && enabled == old(enabled)
      ensures State() == if ok then C.Enqueue(old(State()), request) else old(State())
    {
      var count := |request.triplets|;
      if count <= 0 || count > C.MAX_TRIPLETS || |fifo| + count > capacity {
        return false;
      }
      fifo := fifo + request.triplets;
      detected := true;
      enqueued := enqueued + count;
      log := log + [request];
      return true;
    }

    method StartPending(event: C.Kind, page: int, finalize: bool, sendOk: bool)
      modifies this
      ensures State() == C.StartPending(old(State()), event, page, finalize, sendOk) && enabled == old(enabled)
    {
      pendingEvent := Some(event);
      pendingTarget := enqueued;
      pendingPage := page;
      pendingFinalize := finalize;
      if sendOk {
        sent := sent + [C.Began(page)];
      } else {
        CloseClient();
      }
    }

    method HandlePrepare(r: C.Request, id: string, page: int, sendOk: bool)
      modifies this
      ensures State() == C.HandlePrepare(old(State()), encoder, r, id, page, sendOk) && enabled == old(enabled)
    {
      hide C.CaptionText, C.Queueable;
      if r.text.None? { SendErrorAndClose(C.BadText); return; }
      var ok := C.ValidateText(r.text.value);
      if !ok { SendErrorAndClose(C.BadText); return; }
      if executionId != "" && executionId != id { SendErrorAndClose(C.ActiveExecution); return; }
      if prepared >= 0 { SendErrorAndClose(C.PageAlreadyPrepared); return; }
      var triplets := encoder.caption(r.text.value);
      if triplets.None? { SendErrorAndClose(C.BadText); return; }
      var queued := EnqueueTriplets(C.Accepted(C.Prepare, page, id, triplets.value));
      if !queued { SendErrorAndClose(C.QueueFull); return; }
      executionId := id;
      prepared := page;
      StartPending(C.Prepare, page, false, sendOk);
    }

    method HandleErase(kind: C.Kind, sendOk: bool)
      modifies this
      ensures State() == C.HandleErase(old(State()), encoder, kind, sendOk) && enabled == old(enabled)
    {
      hide C.Queueable;
      if encoder.clear.None? { SendErrorAndClose(C.EncodeError); return; }
      var queued := EnqueueTriplets(C.Accepted(kind, -1, executionId, encoder.clear.value));
      if !queued { SendErrorAndClose(C.QueueFull); return; }
      prepared := -1;
      visible := -1;
      if kind == C.Reset { executionId := ""; }
      StartPending(kind, -1, true, sendOk);
    }

    method HandleCommit(page: int, sendOk: bool)
      modifies this
      ensures State() == C.HandleCommit(old(State()), page, sendOk) && enabled == old(enabled)
    {
      hide C.Queueable;
      if prepared != page { SendErrorAndClose(C.PageNotPrepared); return; }
      var queued := EnqueueTriplets(C.Accepted(C.Commit, page, executionId, [C.EndOfCaption, C.EndOfCaption]));
      if !queued { SendErrorAndClose(C.QueueFull); return; }
      visible := page;
      prepared := -1;
      StartPending(C.Commit, page, false, sendOk);
    }

    method HandleRequest(r: C.Request, sendOk: bool)
      modifies this
      ensures State() == C.HandleRequest(old(State()), encoder, r, sendOk) && enabled == old(enabled)
    {
      hide C.HandlePrepare, C.HandleCommit, C.HandleErase, C.Refuse, C.ValidExecutionId;
      if r.version != Some(1) || r.op.None? { SendErrorAndClose(C.BadRequest); return; }
      var op := r.op.value;
      if op == "reset" { HandleErase(C.Reset, sendOk); return; }
      if r.executionId.None? || !C.ValidExecutionId(r.executionId.value) { SendErrorAndClose(C.BadExecution); return; }
      if op == "prepare" || op == "commit" {
        if r.page.None? || r.page.value < 0 || r.page.value > C.MAX_PAGE { SendErrorAndClose(C.BadPage); return; }
      }
      if op == "prepare" { HandlePrepare(r, r.executionId.value, r.page.value, sendOk); return; }
      if executionId != r.executionId.value { SendErrorAndClose(C.StaleExecution); return; }
      if op == "commit" { HandleCommit(r.page.value, sendOk); return; }
      if op == "clear" { HandleErase(C.Clear, sendOk); return; }
      SendErrorAndClose(C.BadOperation);
    }

    method CompletePending()
      modifies this
      ensures State() == C.CompletePending(old(State())) && enabled == old(enabled)
    {
      if !client || pendingEvent.None? || emitted < pendingTarget {
        return;
      }
      sent := sent + [C.Done(pendingEvent.value, pendingPage)];
      if pendingFinalize {
        executionId := "";
        detected := false;
      }
      CloseClient();
    }

    method ServiceSocket(poll: C.Poll, sendOk: bool)
      modifies this
      ensures State() == C.ServiceSocket(old(State()), encoder, poll, sendOk) && enabled == old(enabled)
    {
      hide C.HandleRequest, C.CompletePending;
      CompletePending();
      if client && pendingEvent.Some? {
        return;
      }
      if !client {
        if poll.NoClient? { return; }
        client := true;
        if poll.AcceptBroken? { CloseClient(); return; }
      }
      match poll
      case Gone => CloseClient();
      case TooLarge => SendErrorAndClose(C.MessageTooLarge);
      case Line(r) => HandleRequest(r, sendOk);
      case _ =>
    }

    /** One video frame: serve the socket, inject up to `perFrame` triplets, complete. */
    method FilterFrame(f: C.Frame)
      modifies this
      ensures enabled == old(enabled)
      ensures State() == if enabled then C.FilterFrame(old(State()), encoder, f) else old(State())
    {
      hide C.ServiceSocket, C.CompletePending;
      if !enabled { return; }
      ServiceSocket(f.poll, f.sendOk);
      var available := if enqueued >= emitted then enqueued - emitted else 0;
      if !f.injectOk { return; }
      var n := if detected then C.Min(perFrame, |fifo|) else 0;
      air := air + fifo[..n];
      fifo := fifo[n..];
      emitted := emitted + C.Min(perFrame, available);
      CompletePending();
    }
  }

  /** A whole stream: the context after the frames is the run of the transition function, so its invariant holds. */
  method Stream(encoder: C.Encoder, capacity: nat, perFrame: nat, frames: seq<C.Frame>) returns (c: Context)
    ensures fresh(c) && c.State() == C.Run(C.Initial(capacity, perFrame), encoder, frames)
    ensures C.Good(c.State())
  {
    hide C.FilterFrame, C.Good, C.Initial;
    c := new Context(encoder, capacity, perFrame);
    for i := 0 to |frames|
      invariant fresh(c) && c.enabled && c.encoder == encoder
      invariant c.State() == C.Run(C.Initial(capacity, perFrame), encoder, frames[..i])
    {
      assert frames[..i + 1][..i] == frames[..i] && frames[..i + 1][i] == frames[i];
      c.FilterFrame(frames[i]);
    }
    assert frames[..|frames|] == frames;
    C.RunKeeps(capacity, perFrame, encoder, frames);
  }
}
