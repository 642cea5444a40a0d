/**
  What clients are told and what goes on air over whole runs of the caption injector of
  native/ffmpeg/vf_docichcc.c.
*/
module CaptionsAir {
  import opened Wrappers
  import opened Captions

  // ---------------------------------------------------------------- what one request does

  /** The triplets of an accepted request are the encoder's, or the end-of-caption pair of a commit. */
  ghost predicate Sourced(e: Encoder, x: Accepted) {
    match x.kind
    case Commit => x.triplets == [EndOfCaption, EndOfCaption]
    case Prepare => exists text :: e.caption(text) == Some(x.triplets)
    case _ => e.clear == Some(x.triplets)
  }

  /** A request was refused, which tells at most an error, or accepted, which tells at most its beginning. */
  ghost predicate Handled(e: Encoder, s: State, t: State) {
    && t.air == s.air
    && (|| (t.log == s.log && t.pending.None? && (t.sent == s.sent || exists code :: t.sent == s.sent + [Error(code)]))
        || (&& |t.log| == |s.log| + 1 && t.log[..|s.log|] == s.log && Sourced(e, t.log[|s.log|])
            && (t.sent == s.sent || exists page :: t.sent == s.sent + [Began(page)])))
  }

  lemma RefuseHandled(e: Encoder, s: State, code: Code)
    requires s.pending.None?
    ensures Handled(e, s, Refuse(s, code))
  {
    assert s.sent + [Error(code)] == s.sent + [Error(code)];
  }

  lemma AcceptHandled(e: Encoder, s: State, x: Accepted, t: State, kind: Kind, page: int, finalize: bool, sendOk: bool)
    requires Queueable(s, x.triplets) && Sourced(e, x)
    requires t == Enqueue(s, x).(prepared := t.prepared, visible := t.visible, executionId := t.executionId)
    ensures Handled(e, s, StartPending(t, kind, page, finalize, sendOk))
  {
    hide Queueable, Sourced;
    assert t.log[..|s.log|] == s.log && t.log[|s.log|] == x;
  }

  lemma HandleHandled(s: State, e: Encoder, r: Request, sendOk: bool)
    requires s.pending.None?
    ensures Handled(e, s, HandleRequest(s, e, r, sendOk))
  {
    hide Handled, Refuse, HandlePrepare, HandleCommit, HandleErase, ValidExecutionId;
    forall code ensures Handled(e, s, Refuse(s, code)) { RefuseHandled(e, s, code); }
    EraseHandled(s, e, Reset, sendOk);
    EraseHandled(s, e, Clear, sendOk);
    if r.page.Some? {
      CommitHandled(s, e, r.page.value, sendOk);
      if r.executionId.Some? { PrepareHandled(s, e, r, r.executionId.value, r.page.value, sendOk); }
    }
  }

  lemma PrepareHandled(s: State, e: Encoder, r: Request, id: string, page: int, sendOk: bool)
    requires s.pending.None?
    ensures Handled(e, s, HandlePrepare(s, e, r, id, page, sendOk))
  {
    hide CaptionText, Queueable, Handled, Refuse, StartPending;
    forall code ensures Handled(e, s, Refuse(s, code)) { RefuseHandled(e, s, code); }
    var triplets := if r.text.Some? then e.caption(r.text.value) else None;
    if triplets.Some? && Queueable(s, triplets.value) {
      var x := Accepted(Prepare, page, id, triplets.value);
      AcceptHandled(e, s, x, Enqueue(s, x).(executionId := id, prepared := page), Prepare, page, false, sendOk);
    }
  }

  lemma CommitHandled(s: State, e: Encoder, page: int, sendOk: bool)
    requires s.pending.None?
    ensures Handled(e, s, HandleCommit(s, page, sendOk))
  {
    hide Queueable, Handled, Refuse, StartPending;
    forall code ensures Handled(e, s, Refuse(s, code)) { RefuseHandled(e, s, code); }
    var x := Accepted(Commit, page, s.executionId, [EndOfCaption, EndOfCaption]);
    if Queueable(s, x.triplets) {
      AcceptHandled(e, s, x, Enqueue(s, x).(visible := page, prepared := -1), Commit, page, false, sendOk);
    }
  }

  lemma EraseHandled(s: State, e: Encoder, kind: Kind, sendOk: bool)
    requires s.pending.None? && (kind == Clear || kind == Reset)
    ensures Handled(e, s, HandleErase(s, e, kind, sendOk))
  {
    hide Queueable, Handled, Refuse, StartPending;
    forall code ensures Handled(e, s, Refuse(s, code)) { RefuseHandled(e, s, code); }
    if e.clear.Some? && Queueable(s, e.clear.value) {
      var x := Accepted(kind, -1, s.executionId, e.clear.value);
      var t := Enqueue(s, x);
      AcceptHandled(e, s, x,
        t.(prepared := -1, visible := -1, executionId := if kind == Reset then "" else t.executionId),
        kind, -1, true, sendOk);
    }
  }

  // ---------------------------------------------------------------- completions

  /**
    Every completion in `sent` belongs to its own accepted request, in order, among the
    first n, and the encodings of all requests up to it are on air.
  */
  ghost predicate Told(sent: seq<Message>, log: seq<Accepted>, air: seq<Triplet>, n: nat)
    requires n <= |log|
    decreases |sent|
  {
    sent == [] ||
    var last, init := sent[|sent| - 1], sent[..|sent| - 1];
    if last.Done? then exists k :: 0 < k <= n && Answers(last, log, air, k) && Told(init, log, air, k - 1)
    else Told(init, log, air, n)
  }

  predicate Answers(m: Message, log: seq<Accepted>, air: seq<Triplet>, k: nat)
    requires m.Done? && 0 < k <= |log|
  {
    log[k - 1].kind == m.kind && log[k - 1].page == m.page && Encoded(log[..k]) <= air
  }

  lemma {:induction false} ToldStays(sent: seq<Message>, log: seq<Accepted>, air: seq<Triplet>, n: nat,
    log': seq<Accepted>, air': seq<Triplet>, n': nat)
    requires n <= |log| && Told(sent, log, air, n)
    requires log <= log' && air <= air' && n <= n' <= |log'|
    ensures Told(sent, log', air', n')
    decreases |sent|
  {
    hide Encoded;
    if sent != [] {
      var last, init := sent[|sent| - 1], sent[..|sent| - 1];
      if last.Done? {
        var k :| 0 < k <= n && Answers(last, log, air, k) && Told(init, log, air, k - 1);
        assert log'[..k] == log[..k];
        ToldStays(init, log, air, k - 1, log', air', k - 1);
        assert Answers(last, log', air', k);
      } else {
        ToldStays(init, log, air, n, log', air', n');
      }
    }
  }

  lemma ToldOther(sent: seq<Message>, m: Message, log: seq<Accepted>, air: seq<Triplet>, n: nat)
    requires n <= |log| && Told(sent, log, air, n) && !m.Done?
    ensures Told(sent + [m], log, air, n)
  {
    assert (sent + [m])[..|sent|] == sent;
  }

  lemma ToldDone(sent: seq<Message>, m: Message, log: seq<Accepted>, air: seq<Triplet>)
    requires log != [] && m.Done? && Told(sent, log, air, |log| - 1) && Answers(m, log, air, |log|)
    ensures Told(sent + [m], log, air, |log|)
  {
    hide Answers;
    assert (sent + [m])[..|sent|] == sent;
  }

  /** A pending request is the last one accepted and was not answered yet. */
  ghost predicate Answered(s: State) {
    if s.pending.Some? then s.log != [] &&
      Told(s.sent, s.log, s.air, |s.log| - 1) else Told(s.sent, s.log, s.air, |s.log|)
  }

  lemma HandledAnswered(e: Encoder, s: State, t: State)
    requires s.pending.None? && Answered(s) && Handled(e, s, t)
    ensures Answered(t)
  {
    hide Told, Sourced;
    var n := |s.log|;
    if t.log == s.log {
      if code :| t.sent == s.sent + [Error(code)] { ToldOther(s.sent, Error(code), s.log, s.air, n); }
    } else {
      assert s.log <= t.log;
      ToldStays(s.sent, s.log, s.air, n, t.log, t.air, n);
      if page :| t.sent == s.sent + [Began(page)] { ToldOther(s.sent, Began(page), t.log, t.air, n); }
      ToldStays(t.sent, t.log, t.air, n, t.log, t.air, n + 1);
    }
  }

  lemma CompleteAnswered(s: State)
    requires Good(s) && Answered(s)
    ensures Answered(CompletePending(s))
  {
    hide Told, Encoded, CommitsFollowPrepares;
    var t := CompletePending(s);
    if t.sent != s.sent {
      CompletionIsSound(s);
      var r := s.log[|s.log| - 1];
      assert s.log[..|s.log|] == s.log;
      ToldDone(s.sent, Done(r.kind, r.page), s.log, s.air);
    }
  }

  lemma ServiceAnswered(s: State, e: Encoder, poll: Poll, sendOk: bool)
    requires Good(s) && Answered(s)
    ensures Answered(ServiceSocket(s, e, poll, sendOk))
  {
    hide Good, HandleRequest, CompletePending, Told, Refuse, Handled;
    CompleteAnswered(s);
    CompleteKeeps(s);
    var c := CompletePending(s);
    PendingMeansClient(c);
    if c.pending.None? {
      var t := c.(client := true);
      assert Answered(t);
      RefuseHandled(e, t, MessageTooLarge);
      HandledAnswered(e, t, Refuse(t, MessageTooLarge));
      if poll.Line? {
        HandleHandled(t, e, poll.request, sendOk);
        HandledAnswered(e, t, HandleRequest(t, e, poll.request, sendOk));
      }
    }
  }

  lemma PendingMeansClient(s: State)
    requires Good(s)
    ensures s.pending.Some? ==> s.client
  {
    hide QueueInv, PageInv;
  }

  lemma FrameAnswered(s: State, e: Encoder, f: Frame)
    requires Good(s) && Answered(s)
    ensures Answered(FilterFrame(s, e, f))
  {
    ServiceAnswered(s, e, f.poll, f.sendOk);
    ServiceKeeps(s, e, f.poll, f.sendOk);
    hide Good, ServiceSocket, CompletePending, Told;
    var t := ServiceSocket(s, e, f.poll, f.sendOk);
    if f.injectOk {
      InjectGood(t);
      var u := Inject(t);
      var n := if t.pending.Some? then |t.log| - 1 else |t.log|;
      ToldStays(t.sent, t.log, t.air, n, u.log, u.air, n);
      CompleteAnswered(u);
    }
  }

  lemma InjectGood(s: State)
    requires Good(s)
    ensures Good(Inject(s))
  {
    hide Encoded, CommitsFollowPrepares;
    InjectKeepsQueue(s);
  }

  /**
    Over every run: the completions sent so far answer distinct accepted requests in the
    order of acceptance, and for each of them everything up to it is on air.
  */
  lemma {:induction false} CompletionsAnswerRequests(capacity: nat, perFrame: nat, e: Encoder, frames: seq<Frame>)
    ensures Answered(Run(Initial(capacity, perFrame), e, frames))
    decreases |frames|
  {
    assert Told([], [], [], 0);
    hide FilterFrame, Told;
    if frames != [] {
      var init := frames[..|frames| - 1];
      CompletionsAnswerRequests(capacity, perFrame, e, init);
      RunKeeps(capacity, perFrame, e, init);
      hide Answered, Good, Initial;
      FrameAnswered(Run(Initial(capacity, perFrame), e, init), e, frames[|frames| - 1]);
    }
  }

  // ---------------------------------------------------------------- end-of-caption pairs on air

  ghost predicate AllSourced(e: Encoder, log: seq<Accepted>) {
    forall i :: 0 <= i < |log| ==> Sourced(e, log[i])
  }

  lemma ServiceSourced(s: State, e: Encoder, poll: Poll, sendOk: bool)
    requires Good(s) && AllSourced(e, s.log)
    ensures AllSourced(e, ServiceSocket(s, e, poll, sendOk).log)
  {
    CompleteKeeps(s);
    var c := CompletePending(s);
    assert c.log == s.log;
    hide Good, HandleRequest, CompletePending, Refuse, AllSourced, Handled;
    PendingMeansClient(c);
    if c.pending.None? {
      var t := c.(client := true);
      RefuseHandled(e, t, MessageTooLarge);
      HandledSourced(e, t, Refuse(t, MessageTooLarge));
      if poll.Line? {
        HandleHandled(t, e, poll.request, sendOk);
        HandledSourced(e, t, HandleRequest(t, e, poll.request, sendOk));
      }
    }
  }

  lemma FrameSourced(s: State, e: Encoder, f: Frame)
    requires Good(s) && AllSourced(e, s.log)
    ensures AllSourced(e, FilterFrame(s, e, f).log)
  {
    hide Good, ServiceSocket, AllSourced;
    ServiceSourced(s, e, f.poll, f.sendOk);
  }

  lemma HandledSourced(e: Encoder, s: State, t: State)
    requires AllSourced(e, s.log) && Handled(e, s, t)
    ensures AllSourced(e, t.log)
  {
    hide Sourced;
    forall i | 0 <= i < |t.log| ensures Sourced(e, t.log[i]) {
      if i < |s.log| { assert t.log[i] == s.log[i]; }
    }
  }

  lemma {:induction false} RunSourced(capacity: nat, perFrame: nat, e: Encoder, frames: seq<Frame>)
    ensures AllSourced(e, Run(Initial(capacity, perFrame), e, frames).log)
    decreases |frames|
  {
    hide FilterFrame, Sourced, Good;
    if frames != [] {
      var init := frames[..|frames| - 1];
      RunSourced(capacity, perFrame, e, init);
      RunKeeps(capacity, perFrame, e, init);
      FrameSourced(Run(Initial(capacity, perFrame), e, init), e, frames[|frames| - 1]);
    }
  }

  function Offset(log: seq<Accepted>, i: nat): nat
    requires i <= |log|
  {
    |Encoded(log[..i])|
  }

  /** Position k of the encodings lies in the triplets of one request. */
  lemma {:induction false} Locate(log: seq<Accepted>, k: nat) returns (i: nat)
    requires k < |Encoded(log)|
    ensures i < |log| && Offset(log, i) <= k < Offset(log, i + 1) <= |Encoded(log)|
    ensures Offset(log, i + 1) == Offset(log, i) + |log[i].triplets|
    decreases |log|
  {
    var init, last := log[..|log| - 1], log[|log| - 1];
    assert log[..|log|] == log;
    if k >= |Encoded(init)| {
      i := |log| - 1;
    } else {
      i := Locate(init, k);
      assert log[..i] == init[..i] && log[..i + 1] == init[..i + 1];
    }
  }

  /** The triplets of request j stand in one piece. */
  lemma {:induction false} Piece(log: seq<Accepted>, j: nat)
    requires j < |log|
    ensures Offset(log, j) <= Offset(log, j + 1) <= |Encoded(log)|
    ensures Offset(log, j + 1) == Offset(log, j) + |log[j].triplets|
    ensures Encoded(log)[Offset(log, j)..Offset(log, j + 1)] == log[j].triplets
    decreases |log|
  {
    var init, last := log[..|log| - 1], log[|log| - 1];
    assert log[..|log|] == log;
    if j == |log| - 1 {
      assert Encoded(log) == Encoded(init) + last.triplets;
    } else {
      Piece(init, j);
      assert log[..j] == init[..j] && log[..j + 1] == init[..j + 1];
      assert Encoded(log)[Offset(log, j)..Offset(log, j + 1)] == Encoded(init)[Offset(init, j)..Offset(init, j + 1)];
    }
  }

  /** The triplet at k belongs to the pair of commit i, which directly follows the triplets of its own prepare. */
  ghost predicate InPair(sent: seq<Triplet>, log: seq<Accepted>, k: nat, i: nat) {
    && 0 < i < |log| && log[i].kind == Commit && log[i - 1].kind == Prepare
    && log[i - 1].page == log[i].page && log[i - 1].executionId == log[i].executionId
    && Offset(log, i - 1) <= Offset(log, i) <= k < Offset(log, i) + 2 <= |sent|
    && sent[Offset(log, i)..Offset(log, i) + 2] == [EndOfCaption, EndOfCaption]
    && sent[Offset(log, i - 1)..Offset(log, i)] == log[i - 1].triplets
  }

  /** The triplet at k is the encoder's own, inside the triplets of prepare, clear or reset i. */
  ghost predicate InOwn(e: Encoder, sent: seq<Triplet>, log: seq<Accepted>, k: nat, i: nat) {
    && i < |log| && Offset(log, i) <= k < Offset(log, i) + |log[i].triplets| <= |sent|
    && sent[Offset(log, i)..Offset(log, i) + |log[i].triplets|] == log[i].triplets
    && match log[i].kind
       case Commit => false
       case Prepare => exists text :: e.caption(text) == Some(log[i].triplets)
       case _ => e.clear == Some(log[i].triplets)
  }

  /**
    Over every run, whatever the encoder emits: every end-of-caption triplet emitted or
    queued is one of a pair that directly follows the triplets of the prepare of the same
    page by the same execution, or the encoder put it into a caption or an erase sequence.
  */
  lemma PairsFollowPrepares(capacity: nat, perFrame: nat, e: Encoder, frames: seq<Frame>, k: nat)
    requires var s := Run(Initial(capacity, perFrame), e, frames);
      && k < |s.air + s.fifo|
      && (s.air + s.fifo)[k] == EndOfCaption
    ensures var s := Run(Initial(capacity, perFrame), e, frames);
      exists i :: InPair(s.air + s.fifo, s.log, k, i) || InOwn(e, s.air + s.fifo, s.log, k, i)
  {
    hide Run, Encoded, Initial, InPair, InOwn;
    var s := Run(Initial(capacity, perFrame), e, frames);
    RunKeeps(capacity, perFrame, e, frames);
    RunSourced(capacity, perFrame, e, frames);
    PairAt(e, s.log, k);
  }

  /** With an encoder whose captions hold none, an unpaired one lies in the erase sequence of a clear or reset. */
  lemma UnpairedIsErase(e: Encoder, sent: seq<Triplet>, log: seq<Accepted>, k: nat, i: nat)
    requires InOwn(e, sent, log, k, i) && sent[k] == EndOfCaption
    requires forall text :: e.caption(text).Some? ==> EndOfCaption !in e.caption(text).value
    ensures log[i].kind in {Clear, Reset} && e.clear.Some? && EndOfCaption in e.clear.value
  {
    hide Offset;
    var from := Offset(log, i);
    assert sent[from..from + |log[i].triplets|][k - from] == EndOfCaption;
  }

  lemma PairAt(e: Encoder, log: seq<Accepted>, k: nat)
    requires AllSourced(e, log) && CommitsFollowPrepares(log)
    requires k < |Encoded(log)| && Encoded(log)[k] == EndOfCaption
    ensures exists i :: InPair(Encoded(log), log, k, i) || InOwn(e, Encoded(log), log, k, i)
  {
    hide Encoded, Offset, AllSourced;
    var i := Locate(log, k);
    Piece(log, i);
    SourcedAt(e, log, i);
    if log[i].kind == Commit {
      assert i > 0;
      Piece(log, i - 1);
      assert Offset(log, i - 1 + 1) == Offset(log, i);
      assert InPair(Encoded(log), log, k, i);
    } else {
      assert InOwn(e, Encoded(log), log, k, i);
    }
  }

  lemma SourcedAt(e: Encoder, log: seq<Accepted>, i: nat)
    requires AllSourced(e, log) && i < |log|
    ensures Sourced(e, log[i])
  {
    hide Sourced;
  }
}
