/**
  Which request lines of native/ffmpeg/vf_docichcc.c are accepted, what an accepted one
  changes, why the others are refused, and what each look at the client does.
*/
module CaptionsRequests {
  import opened Wrappers
  import opened Captions

  /** A letter, a digit, or one of the four signs, by its ASCII code. */
  predicate IdCode(n: int) {
    65 <= n <= 90 || 97 <= n <= 122 || 48 <= n <= 57 || n in {46, 95, 58, 45}
  }

  /** An execution id is 1 to 128 letters, digits, dots, underscores, colons and hyphens. */
  lemma IdMeans(id: string)
    ensures ValidExecutionId(id) <==> 1 <= |id| <= 128 && forall i :: 0 <= i < |id| ==> IdCode(id[i] as int)
  {
    forall c: char ensures IdCharacter(c) <==> IdCode(c as int) { CodeMeans(c); }
  }

  lemma CodeMeans(c: char)
    ensures IdCharacter(c) <==> IdCode(c as int)
  {
    assert '.' as int == 46 && '_' as int == 95 && ':' as int == 58 && '-' as int == 45;
    assert c as int == 46 ==> c == '.';
    assert c as int == 95 ==> c == '_';
    assert c as int == 58 ==> c == ':';
    assert c as int == 45 ==> c == '-';
  }

  /** One line of a caption: 1 to 32 characters from space to tilde. */
  predicate OneLine(s: seq<nat>) {
    1 <= |s| <= 32 && forall i :: 0 <= i < |s| ==> 32 <= s[i] <= 126
  }

  /** A caption is one such line, or two with a newline between them. */
  lemma TextMeans(s: seq<nat>)
    ensures CaptionText(s) <==>
      OneLine(s) || exists a, b :: OneLine(a) && OneLine(b) && s == a + [10] + b
  {
    if k :| 0 <= k < |s| && SplitsAt(s, k) {
      assert s == s[..k] + [10] + s[k + 1..] && OneLine(s[..k]) && OneLine(s[k + 1..]);
    }
    if a, b :| OneLine(a) && OneLine(b) && s == a + [10] + b {
      assert s[..|a|] == a && s[|a| + 1..] == b && SplitsAt(s, |a|);
    }
  }

  /** The sender names the execution whose captions are up. */
  predicate FromActive(s: State, r: Request) {
    r.executionId == Some(s.executionId) && ValidExecutionId(s.executionId)
  }

  predicate OnPage(r: Request, page: int) {
    r.page == Some(page) && 0 <= page <= 31
  }

  /** The request may be accepted as x: its sender, its page and its triplets are right, and the queue has room. */
  ghost predicate Allowed(s: State, e: Encoder, r: Request, x: Accepted) {
    && r.version == Some(1) && 0 < |x.triplets| <= 128 && |s.fifo| + |x.triplets| <= s.capacity
    && match x.kind
       case Prepare =>
         && r.op == Some("prepare") && OnPage(r, x.page) && s.prepared < 0
         && r.executionId == Some(x.executionId) && ValidExecutionId(x.executionId)
         && (s.executionId == "" || s.executionId == x.executionId)
         && r.text.Some? && CaptionText(r.text.value) && e.caption(r.text.value) == Some(x.triplets)
       case Commit =>
         && r.op == Some("commit") && OnPage(r, x.page) && s.prepared == x.page
         && FromActive(s, r) && x.executionId == s.executionId && x.triplets == [EndOfCaption, EndOfCaption]
       case Clear =>
         && r.op == Some("clear") && x.page == -1
         && FromActive(s, r) && x.executionId == s.executionId && e.clear == Some(x.triplets)
       case Reset =>
         && r.op == Some("reset") && x.page == -1
         && x.executionId == s.executionId && e.clear == Some(x.triplets)
  }

  /** The pages and the execution after an accepted request. */
  ghost predicate Switched(s: State, t: State, x: Accepted) {
    match x.kind
    case Prepare => t.prepared == x.page && t.visible == s.visible && t.executionId == x.executionId
    case Commit => t.prepared == -1 && t.visible == x.page && t.executionId == s.executionId
    case Clear => t.prepared == -1 && t.visible == -1 && t.executionId == s.executionId
    case Reset => t.prepared == -1 && t.visible == -1 && t.executionId == ""
  }

  /** The state after x was accepted: queued, switched, and waited for by a client that could be told. */
  ghost predicate TakenAs(s: State, t: State, x: Accepted, sendOk: bool) {
    && t.log == s.log + [x] && t.fifo == s.fifo + x.triplets && t.enqueued == s.enqueued + |x.triplets|
    && t.detected && t.air == s.air && t.emitted == s.emitted
    && Switched(s, t, x)
    && t.client == (s.client && sendOk)
    && t.pending == (if sendOk then Some(Pending(x.kind, x.page, t.enqueued, x.kind in {Clear, Reset})) else None)
    && t.sent == (if sendOk then s.sent + [Began(x.page)] else s.sent)
  }

  /** A reason that a request is refused for is a true one. */
  ghost predicate Applies(s: State, e: Encoder, r: Request, code: Code) {
    match code
    case BadRequest => r.version != Some(1) || r.op.None?
    case BadExecution => r.op != Some("reset") && (r.executionId.None? || !ValidExecutionId(r.executionId.value))
    case BadPage => r.op in {Some("prepare"), Some("commit")} && (r.page.None? || !(0 <= r.page.value <= 31))
    case BadText =>
      r.op == Some("prepare") &&
      (r.text.None? || !CaptionText(r.text.value) || e.caption(r.text.value).None?)
    case ActiveExecution => r.op == Some("prepare") && s.executionId != "" && r.executionId != Some(s.executionId)
    case PageAlreadyPrepared => r.op == Some("prepare") && s.prepared >= 0
    case StaleExecution => r.op !in {Some("prepare"), Some("reset")} && r.executionId != Some(s.executionId)
    case PageNotPrepared => r.op == Some("commit") && r.page != Some(s.prepared)
    case EncodeError => r.op in {Some("clear"), Some("reset")} && e.clear.None?
    case BadOperation => r.op !in {Some("prepare"), Some("commit"), Some("clear"), Some("reset")}
    case QueueFull => exists n: nat :: Wanted(e, r, n) && (n == 0 || n > 128 || |s.fifo| + n > s.capacity)
    case MessageTooLarge => false
  }

  /** The number of triplets the request asks for. */
  predicate Wanted(e: Encoder, r: Request, n: nat) {
    || (r.op == Some("prepare") && r.text.Some? && e.caption(r.text.value).Some? &&
        n == |e.caption(r.text.value).value|)
    || (r.op == Some("commit") && n == 2)
    || (r.op in {Some("clear"), Some("reset")} && e.clear.Some? && n == |e.clear.value|)
  }

  predicate TextRefused(r: Request) {
    r.text.None? || !CaptionText(r.text.value)
  }

  /** The order of the reasons: request, execution, page, text, the state of the pages, the encoder, the queue. */
  function Place(r: Request, code: Code): nat {
    match code
    case BadRequest => 0
    case BadExecution => 1
    case BadPage => 2
    case BadText => if TextRefused(r) then 3 else 6
    case ActiveExecution => 4
    case StaleExecution => 4
    case PageAlreadyPrepared => 5
    case PageNotPrepared => 5
    case EncodeError => 6
    case BadOperation => 6
    case QueueFull => 7
    case MessageTooLarge => 8
  }

  /** No other reason that applies comes before this one. */
  ghost predicate FirstReason(s: State, e: Encoder, r: Request, code: Code) {
    Applies(s, e, r, code) && forall other :: Applies(s, e, r, other) ==> Place(r, code) <= Place(r, other)
  }

  /** Accepted as something allowed, or refused for the first reason there is while nothing is allowed. */
  ghost predicate Resolves(s: State, e: Encoder, r: Request, t: State, sendOk: bool) {
    || (exists x :: Allowed(s, e, r, x) && TakenAs(s, t, x, sendOk))
    || ((exists code :: FirstReason(s, e, r, code) && t == Refuse(s, code)) && forall x :: !Allowed(s, e, r, x))
  }

  lemma PrepareResolves(s: State, e: Encoder, r: Request, id: string, page: int, sendOk: bool)
    requires r.version == Some(1) && r.op == Some("prepare") && r.executionId == Some(id) && ValidExecutionId(id)
    requires OnPage(r, page)
    ensures Resolves(s, e, r, HandlePrepare(s, e, r, id, page, sendOk), sendOk)
  {
    hide CaptionText, ValidExecutionId;
    var t := HandlePrepare(s, e, r, id, page, sendOk);
    if TextRefused(r) {
      assert FirstReason(s, e, r, BadText);
    } else if s.executionId != "" && s.executionId != id {
      assert FirstReason(s, e, r, ActiveExecution);
    } else if s.prepared >= 0 {
      assert FirstReason(s, e, r, PageAlreadyPrepared);
    } else if e.caption(r.text.value).None? {
      assert FirstReason(s, e, r, BadText);
    } else {
      var x := Accepted(Prepare, page, id, e.caption(r.text.value).value);
      if Queueable(s, x.triplets) {
        assert Allowed(s, e, r, x) && TakenAs(s, t, x, sendOk);
      } else {
        assert Wanted(e, r, |x.triplets|) && FirstReason(s, e, r, QueueFull);
      }
    }
  }

  lemma CommitResolves(s: State, e: Encoder, r: Request, page: int, sendOk: bool)
    requires r.version == Some(1) && r.op == Some("commit") && FromActive(s, r) && OnPage(r, page)
    ensures Resolves(s, e, r, HandleCommit(s, page, sendOk), sendOk)
  {
    hide CaptionText, ValidExecutionId;
    var x := Accepted(Commit, page, s.executionId, [EndOfCaption, EndOfCaption]);
    if s.prepared != page {
      assert FirstReason(s, e, r, PageNotPrepared);
    } else if Queueable(s, x.triplets) {
      assert Allowed(s, e, r, x) && TakenAs(s, HandleCommit(s, page, sendOk), x, sendOk);
    } else {
      assert Wanted(e, r, 2) && FirstReason(s, e, r, QueueFull);
    }
  }

  lemma EraseResolves(s: State, e: Encoder, r: Request, kind: Kind, sendOk: bool)
    requires r.version == Some(1) && (kind == Reset || kind == Clear)
    requires r.op == Some(if kind == Reset then "reset" else "clear") && (kind == Clear ==> FromActive(s, r))
    ensures Resolves(s, e, r, HandleErase(s, e, kind, sendOk), sendOk)
  {
    hide CaptionText, ValidExecutionId;
    if e.clear.None? {
      assert FirstReason(s, e, r, EncodeError);
    } else {
      var x := Accepted(kind, -1, s.executionId, e.clear.value);
      if Queueable(s, x.triplets) {
        assert Allowed(s, e, r, x) && TakenAs(s, HandleErase(s, e, kind, sendOk), x, sendOk);
      } else {
        assert Wanted(e, r, |x.triplets|) && FirstReason(s, e, r, QueueFull);
      }
    }
  }

  lemma RequestResolves(s: State, e: Encoder, r: Request, sendOk: bool)
    ensures Resolves(s, e, r, HandleRequest(s, e, r, sendOk), sendOk)
  {
    hide CaptionText, ValidExecutionId, HandlePrepare, HandleCommit, HandleErase, Refuse, TakenAs;
    if r.version != Some(1) || r.op.None? {
      assert FirstReason(s, e, r, BadRequest);
    } else if r.op.value == "reset" {
      EraseResolves(s, e, r, Reset, sendOk);
    } else if r.executionId.None? || !ValidExecutionId(r.executionId.value) {
      assert FirstReason(s, e, r, BadExecution);
    } else if r.op.value in {"prepare", "commit"} && (r.page.None? || r.page.value < 0 || r.page.value > MAX_PAGE) {
      assert FirstReason(s, e, r, BadPage);
    } else if r.op.value == "prepare" {
      PrepareResolves(s, e, r, r.executionId.value, r.page.value, sendOk);
    } else if s.executionId != r.executionId.value {
      assert FirstReason(s, e, r, StaleExecution);
    } else if r.op.value == "commit" {
      CommitResolves(s, e, r, r.page.value, sendOk);
    } else if r.op.value == "clear" {
      EraseResolves(s, e, r, Clear, sendOk);
    } else {
      assert FirstReason(s, e, r, BadOperation);
    }
  }

  lemma AllowedOnce(s: State, e: Encoder, r: Request, x: Accepted, y: Accepted)
    requires Allowed(s, e, r, x) && Allowed(s, e, r, y)
    ensures x == y
  {
    hide CaptionText, ValidExecutionId;
  }

  /** A request is accepted exactly if it is allowed, and then with exactly these effects. */
  lemma AcceptedExactly(s: State, e: Encoder, r: Request, sendOk: bool, x: Accepted)
    ensures HandleRequest(s, e, r, sendOk).log == s.log + [x] <==> Allowed(s, e, r, x)
    ensures Allowed(s, e, r, x) ==> TakenAs(s, HandleRequest(s, e, r, sendOk), x, sendOk)
  {
    hide HandleRequest, Allowed, Applies, Switched;
    RequestResolves(s, e, r, sendOk);
    var t := HandleRequest(s, e, r, sendOk);
    if y :| Allowed(s, e, r, y) && TakenAs(s, t, y, sendOk) {
      assert (s.log + [y])[|s.log|] == y && (s.log + [x])[|s.log|] == x;
      if Allowed(s, e, r, x) { AllowedOnce(s, e, r, x, y); }
    } else {
      assert |s.log + [x]| != |s.log|;
    }
  }

  /** In particular only the execution whose captions are up can commit, clear or prepare. */
  lemma OnlyTheActiveExecution(s: State, e: Encoder, r: Request, sendOk: bool)
    requires HandleRequest(s, e, r, sendOk).log != s.log
    ensures var t := HandleRequest(s, e, r, sendOk);
      && |t.log| == |s.log| + 1
      && (r.op != Some("reset") ==> r.executionId == Some(t.log[|s.log|].executionId))
      && (r.op != Some("reset") && s.executionId != "" ==> r.executionId == Some(s.executionId))
  {
    hide HandleRequest, Applies, Switched, CaptionText, ValidExecutionId;
    RequestResolves(s, e, r, sendOk);
  }

  /** A request that is not accepted changes nothing but the connection, which is told the first reason and closed. */
  lemma RefusedTruly(s: State, e: Encoder, r: Request, sendOk: bool)
    requires s.client && HandleRequest(s, e, r, sendOk).log == s.log
    ensures exists code ::
      FirstReason(s, e, r, code) && HandleRequest(s, e, r, sendOk) ==
        s.(client := false, pending := None, sent := s.sent + [Error(code)])
  {
    hide HandleRequest, Allowed, Applies, Switched;
    RequestResolves(s, e, r, sendOk);
  }

  // ---------------------------------------------------------------- the client

  /** The request that a client waits for is through. */
  predicate Through(s: State) {
    s.client && s.pending.Some? && s.pending.value.target <= s.emitted
  }

  /**
    A request that is through is reported and its client dropped, and after a clear or a
    reset the execution is over; otherwise nothing happens.
  */
  lemma CompletesExactly(s: State)
    ensures var t := CompletePending(s);
      && (!Through(s) ==> t == s)
      && (Through(s) ==> var p := s.pending.value;
            && t.sent == s.sent + [Done(p.kind, p.page)] && !t.client && t.pending.None?
            && (p.finalize ==> t.executionId == "" && !t.detected)
            && (!p.finalize ==> t.executionId == s.executionId && t.detected == s.detected)
            && t == s.(sent := t.sent, client := t.client, pending := t.pending, executionId := t.executionId,
                 detected := t.detected))
  {
  }

  /**
    One look at the socket.  While a request is pending nothing is read.  Otherwise a client
    is accepted if there is none; a silent one is kept, one that hung up is dropped, an
    overlong line is refused, and a line is handled as a request of this client.
  */
  lemma LooksExactly(s: State, e: Encoder, poll: Poll, sendOk: bool)
    ensures var c, t := CompletePending(s), ServiceSocket(s, e, poll, sendOk);
      if c.client && c.pending.Some? then t == c
      else
        && (!c.client && poll == NoClient ==> t == c)
        && (!c.client && poll == AcceptBroken ==> t == c.(pending := None))
        && (poll == Waiting || (c.client && poll in {NoClient, AcceptBroken}) ==> t == c.(client := true))
        && (poll == Gone ==> t == c.(client := false, pending := None))
        && (poll == TooLarge ==>
              t == c.(client := false, pending := None, sent := c.sent + [Error(MessageTooLarge)]))
        && (poll.Line? ==> t == HandleRequest(c.(client := true), e, poll.request, sendOk))
  {
    hide CompletePending, HandleRequest;
  }

  /** A successful frame moves the next triplets from the queue to the air, up to the budget, in order. */
  lemma InjectsExactly(s: State)
    requires QueueInv(s)
    ensures var t, n := Inject(s), if s.perFrame <= |s.fifo| then s.perFrame else |s.fifo|;
      t == s.(air := s.air + s.fifo[..n], fifo := s.fifo[n..], emitted := s.emitted + n)
  {
    hide Encoded;
  }
}
