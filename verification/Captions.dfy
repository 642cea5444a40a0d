/**
  The caption injector of native/ffmpeg/vf_docichcc.c as a state machine: one
  client at a time, one pending request, a queue of CEA-608 triplets drained per
  video frame, and a completion message once everything queued went on air.
*/
module Captions {
  import opened Wrappers

  const MAX_TRIPLETS := 128
  const MAX_TEXT := 65
  const MAX_EXECUTION_ID := 128
  const MAX_PAGE := 31

  datatype Triplet = EndOfCaption | Triplet(hi: nat, lo: nat)

  datatype Kind = Prepare | Commit | Clear | Reset

  /** A request whose triplets were queued. */
  datatype Accepted = Accepted(kind: Kind, page: int, executionId: string, triplets: seq<Triplet>)

  datatype Code =
    | BadRequest | BadExecution | BadPage | BadText | ActiveExecution | PageAlreadyPrepared | QueueFull
    | StaleExecution | PageNotPrepared | EncodeError | BadOperation | MessageTooLarge

  /** What the client is told. */
  datatype Message =
    | Began(page: int)
    | Done(kind: Kind, page: int)
    | Error(code: Code)

  /** The caption encoder: triplets without the final end-of-caption pair, None when it fails. */
  datatype Encoder = Encoder(caption: seq<nat> -> Option<seq<Triplet>>, clear: Option<seq<Triplet>>)

  /** A request line with its JSON fields already scanned; a field is None when missing or malformed. */
  datatype Request = Request(
    version: Option<int>, op: Option<string>, executionId: Option<string>, page: Option<int>, text: Option<seq<nat>>)

  /** One look at the client socket. */
  datatype Poll = NoClient | AcceptBroken | Waiting | Gone | TooLarge | Line(request: Request)

  datatype Pending = Pending(kind: Kind, page: int, target: nat, finalize: bool)

  datatype State = State(
    capacity: nat,               // room of the triplet queue
    perFrame: nat,               // triplets injected per frame
    fifo: seq<Triplet>,
    detected: bool,              // the queue injects only while captions were detected
    client: bool,
    executionId: string,
    prepared: int,
    visible: int,
    enqueued: nat,
    emitted: nat,
    pending: Option<Pending>,
    air: seq<Triplet>,           // everything injected into frames so far
    log: seq<Accepted>,          // every accepted request
    sent: seq<Message>)          // every message to clients

  // ---------------------------------------------------------------- caption text

  predicate Printable(c: nat) { 0x20 <= c <= 0x7e }

  predicate TextLine(s: seq<nat>) {
    1 <= |s| <= 32 && forall i :: 0 <= i < |s| ==> Printable(s[i])
  }

  /** One or two lines of 1 to 32 printable ASCII characters. */
  predicate CaptionText(s: seq<nat>) {
    TextLine(s) || exists k :: 0 <= k < |s| && SplitsAt(s, k)
  }

  predicate SplitsAt(s: seq<nat>, k: nat)
    requires k < |s|
  {
    s[k] == 10 && TextLine(s[..k]) && TextLine(s[k + 1..])
  }

  /** The current line so far is acceptable, `from` being its first character. */
  ghost predicate Scanned(s: seq<nat>, i: nat, columns: nat, lines: nat, from: nat) {
    && from + columns == i <= |s| && columns <= 32
    && (forall j :: from <= j < i ==> Printable(s[j]))
    && (lines == 1 ==> from == 0)
    && (lines == 2 ==> from > 0 && s[from - 1] == 10 && TextLine(s[..from - 1]))
    && 1 <= lines <= 2
  }

  /** Accepts exactly the caption texts; the length limit adds nothing to the line limits. */
  method ValidateText(s: seq<nat>) returns (ok: bool)
    ensures ok <==> CaptionText(s)
  {
    var columns, lines := 0, 1;
    if |s| < 1 || |s| > MAX_TEXT {
      LengthImplied(s);
      return false;
    }
    ghost var from := 0;
    for i := 0 to |s|
      invariant Scanned(s, i, columns, lines, from)
    {
      if s[i] == 10 {
        lines := lines + 1;
        if columns == 0 || lines > 2 {
          NewlineRefused(s, i, columns, lines - 1, from);
          return false;
        }
        columns := 0;
        from := i + 1;
        assert TextLine(s[..i]);
      } else {
        if !Printable(s[i]) {
          BadCharacter(s, i);
          return false;
        }
        columns := columns + 1;
        if columns > 32 {
          TooWide(s, i, from, lines);
          return false;
        }
      }
    }
    TextEnds(s, columns, lines, from);
    ok := columns > 0;
  }

  lemma LengthImplied(s: seq<nat>)
    requires |s| < 1 || |s| > MAX_TEXT
    ensures !CaptionText(s)
  {
  }

  lemma BadCharacter(s: seq<nat>, i: nat)
    requires i < |s| && s[i] != 10 && !Printable(s[i])
    ensures !CaptionText(s)
  {
    forall k | 0 <= k < |s| ensures !SplitsAt(s, k) {
      assert i < k ==> s[..k][i] == s[i];
      assert i > k ==> s[k + 1..][i - k - 1] == s[i];
    }
  }

  /** A text split at k has no other newline. */
  lemma SplitPrintable(s: seq<nat>, k: nat)
    requires k < |s| && SplitsAt(s, k)
    ensures forall j :: 0 <= j < |s| && j != k ==> Printable(s[j])
  {
    forall j | 0 <= j < |s| && j != k ensures Printable(s[j]) {
      assert j < k ==> s[..k][j] == s[j];
      assert j > k ==> s[k + 1..][j - k - 1] == s[j];
    }
  }

  lemma NewlineRefused(s: seq<nat>, i: nat, columns: nat, lines: nat, from: nat)
    requires i < |s| && s[i] == 10 && Scanned(s, i, columns, lines, from)
    requires columns == 0 || lines == 2
    ensures !CaptionText(s)
  {
    assert !TextLine(s);
    forall k | 0 <= k < |s| ensures !SplitsAt(s, k) {
      if SplitsAt(s, k) { SplitPrintable(s, k); }
    }
  }

  lemma TooWide(s: seq<nat>, i: nat, from: nat, lines: nat)
    requires i < |s| && Scanned(s, i, 32, lines, from) && Printable(s[i])
    ensures !CaptionText(s)
  {
    assert lines == 2 ==> !Printable(s[from - 1]);
    forall k | 0 <= k < |s| ensures !SplitsAt(s, k) {
      if SplitsAt(s, k) { SplitPrintable(s, k); }
    }
  }

  lemma TextEnds(s: seq<nat>, columns: nat, lines: nat, from: nat)
    requires |s| > 0 && Scanned(s, |s|, columns, lines, from)
    ensures columns > 0 <==> CaptionText(s)
  {
    if lines == 1 {
      assert columns == |s|;
    } else {
      var k := from - 1;
      assert !Printable(s[k]);
      assert s[k + 1..] == s[from..];
      if columns > 0 {
        assert SplitsAt(s, k);
      } else {
        forall l | 0 <= l < |s| ensures !SplitsAt(s, l) {
          if SplitsAt(s, l) { SplitPrintable(s, l); }
        }
      }
    }
  }

  // ---------------------------------------------------------------- the transition functions

  predicate IdCharacter(c: char) {
    || 'A' <= c <= 'Z' || 'a' <= c <= 'z' || '0' <= c <= '9' || c == '.' || c == '_' || c == ':' || c == '-'
  }

  predicate ValidExecutionId(id: string) {
    1 <= |id| <= MAX_EXECUTION_ID && forall i :: 0 <= i < |id| ==> IdCharacter(id[i])
  }

  function CloseClient(s: State): State {
    s.(client := false, pending := None)
  }

  function Refuse(s: State, code: Code): State {
    if !s.client then s else CloseClient(s.(sent := s.sent + [Error(code)]))
  }

  predicate Queueable(s: State, triplets: seq<Triplet>) {
    0 < |triplets| <= MAX_TRIPLETS && |s.fifo| + |triplets| <= s.capacity
  }

  /** Queues the triplets of an accepted request; all or nothing. */
  function Enqueue(s: State, request: Accepted): State
    requires Queueable(s, request.triplets)
  {
    s.(fifo := s.fifo + request.triplets, detected := true, enqueued := s.enqueued + |request.triplets|,
       log := s.log + [request])
  }

  /** Waits for everything queued so far; the client is dropped if it cannot be told. */
  function StartPending(s: State, kind: Kind, page: int, finalize: bool, sendOk: bool): State {
    var t := s.(pending := Some(Pending(kind, page, s.enqueued, finalize)));
    if sendOk then t.(sent := t.sent + [Began(page)]) else CloseClient(t)
  }

  function HandlePrepare(s: State, e: Encoder, r: Request, id: string, page: int, sendOk: bool): State {
    if r.text.None? || !CaptionText(r.text.value) then Refuse(s, BadText)
    else if s.executionId != "" && s.executionId != id then Refuse(s, ActiveExecution)
    else if s.prepared >= 0 then Refuse(s, PageAlreadyPrepared)
    else
      var triplets := e.caption(r.text.value);
      if triplets.None? then Refuse(s, BadText)
      else if !Queueable(s, triplets.value) then Refuse(s, QueueFull)
      else
        var t := Enqueue(s, Accepted(Prepare, page, id, triplets.value));
        StartPending(t.(executionId := id, prepared := page), Prepare, page, false, sendOk)
  }

  function HandleCommit(s: State, page: int, sendOk: bool): State {
    if s.prepared != page then Refuse(s, PageNotPrepared)
    else if !Queueable(s, [EndOfCaption, EndOfCaption]) then Refuse(s, QueueFull)
    else
      var t := Enqueue(s, Accepted(Commit, page, s.executionId, [EndOfCaption, EndOfCaption]));
      StartPending(t.(visible := page, prepared := -1), Commit, page, false, sendOk)
  }

  /** Clear and reset queue the same erase sequence; reset also forgets the execution at once. */
  function HandleErase(s: State, e: Encoder, kind: Kind, sendOk: bool): State {
    if e.clear.None? then Refuse(s, EncodeError)
    else if !Queueable(s, e.clear.value) then Refuse(s, QueueFull)
    else
      var t := Enqueue(s, Accepted(kind, -1, s.executionId, e.clear.value));
      var u := t.(prepared := -1, visible := -1, executionId := if kind == Reset then "" else t.executionId);
      StartPending(u, kind, -1, true, sendOk)
  }

  function HandleRequest(s: State, e: Encoder, r: Request, sendOk: bool): State {
    if r.version != Some(1) || r.op.None? then Refuse(s, BadRequest)
    else if r.op.value == "reset" then HandleErase(s, e, Reset, sendOk)
    else if r.executionId.None? || !ValidExecutionId(r.executionId.value) then Refuse(s, BadExecution)
    else if r.op.value in {"prepare", "commit"} && (r.page.None? || r.page.value < 0 || r.page.value > MAX_PAGE)
    then Refuse(s, BadPage)
    else if r.op.value == "prepare" then HandlePrepare(s, e, r, r.executionId.value, r.page.value, sendOk)
    else if s.executionId != r.executionId.value then Refuse(s, StaleExecution)
    else if r.op.value == "commit" then HandleCommit(s, r.page.value, sendOk)
    else if r.op.value == "clear" then HandleErase(s, e, Clear, sendOk)
    else Refuse(s, BadOperation)
  }

  /** Everything pending went on air: tell the client and let it go. */
  function CompletePending(s: State): State {
    if !s.client || s.pending.None? || s.emitted < s.pending.value.target then s
    else
      var p := s.pending.value;
      var t := s.(sent := s.sent + [Done(p.kind, p.page)]);
      CloseClient(if p.finalize then t.(executionId := "", detected := false) else t)
  }

  function ServiceSocket(s0: State, e: Encoder, poll: Poll, sendOk: bool): State {
    var s := CompletePending(s0);
    if s.client && s.pending.Some? then s
    else if !s.client && poll.NoClient? then s
    else if !s.client && poll.AcceptBroken? then CloseClient(s)
    else
      var t := s.(client := true);
      match poll
      case Gone => CloseClient(t)
      case TooLarge => Refuse(t, MessageTooLarge)
      case Line(r) => HandleRequest(t, e, r, sendOk)
      case _ => t
  }

  function Min(a: nat, b: nat): nat { if a < b then a else b }

  /** The injection of one frame, when it succeeds. */
  function Inject(s: State): State {
    var n := if s.detected then Min(s.perFrame, |s.fifo|) else 0;
    var available := if s.enqueued >= s.emitted then s.enqueued - s.emitted else 0;
    s.(air := s.air + s.fifo[..n], fifo := s.fifo[n..], emitted := s.emitted + Min(s.perFrame, available))
  }

  datatype Frame = Frame(poll: Poll, sendOk: bool, injectOk: bool)

  function FilterFrame(s: State, e: Encoder, f: Frame): State {
    var t := ServiceSocket(s, e, f.poll, f.sendOk);
    if !f.injectOk then t else CompletePending(Inject(t))
  }

  /** The state after a sequence of frames. */
  function Run(s: State, e: Encoder, frames: seq<Frame>): State
    decreases |frames|
  {
    if frames == [] then s else FilterFrame(Run(s, e, frames[..|frames| - 1]), e, frames[|frames| - 1])
  }

  function Initial(capacity: nat, perFrame: nat): State {
    State(capacity, perFrame, [], false, false, "", -1, -1, 0, 0, None, [], [], [])
  }

  // ---------------------------------------------------------------- what every frame keeps

  /** All triplets of the accepted requests in order. */
  function Encoded(log: seq<Accepted>): seq<Triplet> {
    if log == [] then [] else Encoded(log[..|log| - 1]) + log[|log| - 1].triplets
  }

  /** Every end-of-caption pair directly follows the prepare of its page by the same execution. */
  predicate CommitsFollowPrepares(log: seq<Accepted>) {
    forall i :: 0 <= i < |log| && log[i].kind == Commit ==>
      && log[i].triplets == [EndOfCaption, EndOfCaption]
      && i > 0 && log[i - 1].kind == Prepare && log[i - 1].page == log[i].page
      && log[i - 1].executionId == log[i].executionId && log[i].executionId != ""
  }

  predicate QueueInv(s: State) {
    && s.emitted + |s.fifo| == s.enqueued
    && |s.fifo| <= s.capacity
    && s.air + s.fifo == Encoded(s.log)
    && |s.air| == s.emitted
    && (s.fifo != [] ==> s.detected)
  }

  predicate PageInv(s: State) {
    && CommitsFollowPrepares(s.log)
    && (s.prepared >= 0 || s.visible >= 0 ==> s.executionId != "")
    && (s.prepared >= 0 ==> s.log != [] && var last := s.log[|s.log| - 1];
          last.kind == Prepare && last.page == s.prepared && last.executionId == s.executionId)
  }

  /** The pending completion belongs to this request. */
  predicate Matches(r: Accepted, p: Pending) { r.kind == p.kind && r.page == p.page }

  predicate PendingInv(s: State) {
    s.pending.Some? ==>
      && s.client && s.pending.value.target == s.enqueued
      && s.log != [] && Matches(s.log[|s.log| - 1], s.pending.value)
      && (s.pending.value.finalize ==> s.prepared < 0 && s.visible < 0)
  }

  predicate Good(s: State) {
    QueueInv(s) && PageInv(s) && PendingInv(s)
  }

  lemma EncodedSnoc(log: seq<Accepted>, r: Accepted)
    ensures Encoded(log + [r]) == Encoded(log) + r.triplets
  {
    assert (log + [r])[..|log|] == log;
  }

  lemma EnqueueKeepsQueue(s: State, r: Accepted)
    requires QueueInv(s) && Queueable(s, r.triplets)
    ensures QueueInv(Enqueue(s, r))
  {
    EncodedSnoc(s.log, r);
    assert s.air + (s.fifo + r.triplets) == (s.air + s.fifo) + r.triplets;
  }

  lemma InjectKeepsQueue(s: State)
    requires QueueInv(s)
    ensures QueueInv(Inject(s))
    ensures Inject(s).emitted == s.emitted + Min(s.perFrame, |s.fifo|)
    ensures |Inject(s).fifo| == |s.fifo| - Min(s.perFrame, |s.fifo|)
  {
    var n := if s.detected then Min(s.perFrame, |s.fifo|) else 0;
    assert s.fifo == s.fifo[..n] + s.fifo[n..];
    assert s.air + s.fifo == (s.air + s.fifo[..n]) + s.fifo[n..];
  }

  lemma RefuseKeeps(s: State, code: Code)
    requires Good(s)
    ensures Good(Refuse(s, code))
  {
  }

  /** Waiting for an accepted request keeps the invariant even when the client cannot be told. */
  lemma StartKeeps(s: State, kind: Kind, page: int, finalize: bool, sendOk: bool)
    requires QueueInv(s) && PageInv(s) && s.client
    requires s.log != [] && s.log[|s.log| - 1].kind == kind && s.log[|s.log| - 1].page == page
    requires finalize ==> s.prepared < 0 && s.visible < 0
    ensures Good(StartPending(s, kind, page, finalize, sendOk))
  {
    hide Encoded, CommitsFollowPrepares;
  }

  lemma LogGrows(log: seq<Accepted>, r: Accepted)
    requires CommitsFollowPrepares(log)
    requires r.kind == Commit ==>
      && r.triplets == [EndOfCaption, EndOfCaption] && r.executionId != ""
      && log != [] && log[|log| - 1].kind == Prepare
      && log[|log| - 1].page == r.page && log[|log| - 1].executionId == r.executionId
    ensures CommitsFollowPrepares(log + [r])
  {
  }

  lemma PrepareKeeps(s: State, e: Encoder, r: Request, id: string, page: int, sendOk: bool)
    requires Good(s) && s.client && s.pending.None? && id != ""
    ensures Good(HandlePrepare(s, e, r, id, page, sendOk))
  {
    hide CaptionText, Encoded, CommitsFollowPrepares;
    var triplets := if r.text.Some? then e.caption(r.text.value) else None;
    if triplets.Some? && Queueable(s, triplets.value) {
      var entry := Accepted(Prepare, page, id, triplets.value);
      EnqueueKeepsQueue(s, entry);
      LogGrows(s.log, entry);
      StartKeeps(Enqueue(s, entry).(executionId := id, prepared := page), Prepare, page, false, sendOk);
    }
  }

  lemma CommitKeeps(s: State, page: int, sendOk: bool)
    requires Good(s) && s.client && s.pending.None? && page >= 0
    ensures Good(HandleCommit(s, page, sendOk))
  {
    hide Encoded, CommitsFollowPrepares;
    var entry := Accepted(Commit, page, s.executionId, [EndOfCaption, EndOfCaption]);
    if s.prepared == page && Queueable(s, entry.triplets) {
      EnqueueKeepsQueue(s, entry);
      LogGrows(s.log, entry);
      StartKeeps(Enqueue(s, entry).(visible := page, prepared := -1), Commit, page, false, sendOk);
    }
  }

  lemma EraseKeeps(s: State, e: Encoder, kind: Kind, sendOk: bool)
    requires Good(s) && s.client && s.pending.None? && kind != Commit
    ensures Good(HandleErase(s, e, kind, sendOk))
  {
    hide Encoded, CommitsFollowPrepares;
    if e.clear.Some? && Queueable(s, e.clear.value) {
      var entry := Accepted(kind, -1, s.executionId, e.clear.value);
      EnqueueKeepsQueue(s, entry);
      LogGrows(s.log, entry);
      var t := Enqueue(s, entry);
      StartKeeps(t.(prepared := -1, visible := -1, executionId := if kind == Reset then "" else t.executionId),
        kind, -1, true, sendOk);
    }
  }

  lemma HandleKeeps(s: State, e: Encoder, r: Request, sendOk: bool)
    requires Good(s) && s.client && s.pending.None?
    ensures Good(HandleRequest(s, e, r, sendOk))
  {
    hide Good, Refuse, HandlePrepare, HandleCommit, HandleErase, IdCharacter;
    forall code ensures Good(Refuse(s, code)) { RefuseKeeps(s, code); }
    EraseKeeps(s, e, Reset, sendOk);
    EraseKeeps(s, e, Clear, sendOk);
    if r.page.Some? && r.page.value >= 0 { CommitKeeps(s, r.page.value, sendOk); }
    if r.executionId.Some? && r.executionId.value != "" && r.page.Some? {
      PrepareKeeps(s, e, r, r.executionId.value, r.page.value, sendOk);
    }
  }

  lemma CompleteKeeps(s: State)
    requires Good(s)
    ensures Good(CompletePending(s))
  {
    hide Encoded, CommitsFollowPrepares;
    assert s.pending.Some? && s.emitted >= s.pending.value.target ==> s.fifo == [];
  }

  lemma ServiceKeeps(s: State, e: Encoder, poll: Poll, sendOk: bool)
    requires Good(s)
    ensures Good(ServiceSocket(s, e, poll, sendOk))
  {
    hide Encoded, CommitsFollowPrepares, HandleRequest, CompletePending;
    CompleteKeeps(s);
    var c := CompletePending(s);
    if !(c.client && c.pending.Some?) {
      var t := c.(client := true);
      assert Good(t);
      if poll.Line? { HandleKeeps(t, e, poll.request, sendOk); }
    }
  }

  /** The invariant holds after every frame, whatever clients, sockets and frames do. */
  lemma FrameKeeps(s: State, e: Encoder, f: Frame)
    requires Good(s)
    ensures Good(FilterFrame(s, e, f))
  {
    hide Encoded, CommitsFollowPrepares, ServiceSocket, CompletePending;
    ServiceKeeps(s, e, f.poll, f.sendOk);
    var t := ServiceSocket(s, e, f.poll, f.sendOk);
    InjectKeepsQueue(t);
    CompleteKeeps(Inject(t));
  }

  // ---------------------------------------------------------------- completion

  /** A completion message means that every triplet queued so far went on air, the request's own last. */
  lemma CompletionIsSound(s: State)
    requires Good(s) && CompletePending(s).sent != s.sent
    ensures s.fifo == [] && s.air == Encoded(s.log)
    ensures s.log != [] && var r := s.log[|s.log| - 1]; CompletePending(s).sent == s.sent + [Done(r.kind, r.page)]
  {
    hide Encoded, CommitsFollowPrepares;
    assert s.air + s.fifo == s.air;
  }

  /** What one more successful frame does to a waiting request. */
  lemma WaitingFrame(s: State, e: Encoder, f: Frame)
    requires Good(s) && s.pending.Some? && s.fifo != [] && f.injectOk
    ensures var t := FilterFrame(s, e, f); var p := s.pending.value;
      && t.perFrame == s.perFrame
      && if |s.fifo| > s.perFrame
         then t.pending == s.pending && t.sent == s.sent && |t.fifo| == |s.fifo| - s.perFrame
         else t.pending.None? && !t.client && t.fifo == [] && t.sent == s.sent + [Done(p.kind, p.page)]
  {
    hide Encoded, CommitsFollowPrepares, HandleRequest;
    InjectKeepsQueue(s);
  }

  function CeilDiv(a: nat, b: nat): (r: nat)
    requires b > 0
  {
    (a + b - 1) / b
  }

  /** n frames drain n * perFrame triplets, so the last one is the first n with n * perFrame >= backlog. */
  lemma CeilDivIs(a: nat, b: nat, n: nat)
    requires b > 0
    ensures n < CeilDiv(a, b) <==> n * b < a
  {
    var q := CeilDiv(a, b);
    assert q * b + (a + b - 1) % b == a + b - 1;
    if n < q { Scales(n, q - 1, b); } else { Scales(q, n, b); }
  }

  lemma Scales(m: int, n: int, b: nat)
    requires m <= n
    ensures m * b <= n * b
  {
  }

  /** The frames whose injection succeeded. */
  function Successes(frames: seq<Frame>): (n: nat)
    ensures n <= |frames|
  {
    if frames == [] then 0
    else Successes(frames[..|frames| - 1]) + if frames[|frames| - 1].injectOk then 1 else 0
  }

  /** A frame whose injection fails leaves a waiting request as it is. */
  lemma FailingFrame(s: State, e: Encoder, f: Frame)
    requires Good(s) && s.pending.Some? && s.fifo != [] && !f.injectOk
    ensures FilterFrame(s, e, f) == s
  {
    hide Encoded, CommitsFollowPrepares, HandleRequest;
  }

  /**
    In any run of frames, a request that starts to wait with `backlog` queued triplets
    is completed at exactly the ceil(backlog / perFrame)-th successful frame, the
    accepting frame included: until then it waits and each success drains the budget.
  */
  lemma {:induction false} CompletionIsBounded(s: State, e: Encoder, frames: seq<Frame>, n: nat)
    requires Good(s) && s.perFrame > 0 && 1 <= n <= |frames|
    requires var t := ServiceSocket(s, e, frames[0].poll, frames[0].sendOk); t.pending.Some? && t.fifo != []
    ensures var t := ServiceSocket(s, e, frames[0].poll, frames[0].sendOk); var p := t.pending.value;
      var u, k, last := Run(s, e, frames[..n]), Successes(frames[..n]), CeilDiv(|t.fifo|, s.perFrame);
      && (k < last ==>
            u.perFrame == s.perFrame && u.pending == t.pending && u.sent == t.sent &&
            |u.fifo| == |t.fifo| - k * s.perFrame)
      && (k == last && frames[n - 1].injectOk ==>
            u.pending.None? && !u.client && u.fifo == [] && u.sent == t.sent + [Done(p.kind, p.page)])
    decreases n
  {
    hide Good, ServiceSocket, FilterFrame, CeilDiv;
    var f, t := frames[n - 1], ServiceSocket(s, e, frames[0].poll, frames[0].sendOk);
    ServiceKeeps(s, e, frames[0].poll, frames[0].sendOk);
    ServiceExtends(s, e, frames[0].poll, frames[0].sendOk);
    if n == 1 {
      assert frames[..1] == [frames[0]] && [frames[0]][..0] == [];
      assert Run(s, e, []) == s && Successes([]) == 0;
      FirstFrame(s, t, e, frames[0]);
    } else {
      CompletionIsBounded(s, e, frames, n - 1);
      assert frames[..n][..n - 1] == frames[..n - 1] && frames[..n][n - 1] == f;
      var u, k := Run(s, e, frames[..n - 1]), Successes(frames[..n - 1]);
      RunGood(s, e, frames[..n - 1]);
      if k < CeilDiv(|t.fifo|, s.perFrame) {
        NextFrame(t, u, e, f, k);
      }
      assert Run(s, e, frames[..n]) == FilterFrame(u, e, f);
    }
  }

  /** The accepting frame is the first that can inject for its request. */
  lemma FirstFrame(s: State, t: State, e: Encoder, f: Frame)
    requires t == ServiceSocket(s, e, f.poll, f.sendOk) && Good(t) && t.pending.Some? && t.fifo != []
    requires t.perFrame == s.perFrame > 0
    ensures var u, last, k := FilterFrame(s, e, f), CeilDiv(|t.fifo|, t.perFrame), if f.injectOk then 1 else 0;
      var p := t.pending.value;
      && last > 0
      && (k < last ==> u.perFrame == t.perFrame && u.pending == t.pending && u.sent == t.sent &&
                       |u.fifo| == |t.fifo| - k * t.perFrame)
      && (k == last ==> u.pending.None? && !u.client && u.fifo == [] && u.sent == t.sent + [Done(p.kind, p.page)])
  {
    hide Good, ServiceSocket, CeilDiv;
    CeilDivIs(|t.fifo|, t.perFrame, 0);
    CeilDivIs(|t.fifo|, t.perFrame, 1);
    if f.injectOk {
      AcceptingFrame(s, t, e, f);
    }
  }

  /** Each later success drains the budget once more. */
  lemma NextFrame(t: State, u: State, e: Encoder, f: Frame, k: nat)
    requires Good(u) && u.pending.Some? && u.pending == t.pending && u.perFrame == t.perFrame > 0 && u.sent == t.sent
    requires k < CeilDiv(|t.fifo|, t.perFrame) && |u.fifo| == |t.fifo| - k * t.perFrame
    ensures var v, last, l := FilterFrame(u, e, f), CeilDiv(|t.fifo|, t.perFrame), if f.injectOk then k + 1 else k;
      var p := t.pending.value;
      && (l < last ==> v.perFrame == t.perFrame && v.pending == t.pending && v.sent == t.sent &&
                       |v.fifo| == |t.fifo| - l * t.perFrame)
      && (l == last ==> v.pending.None? && !v.client && v.fifo == [] && v.sent == t.sent + [Done(p.kind, p.page)])
  {
    hide Good, FilterFrame, CeilDiv;
    CeilDivIs(|t.fifo|, t.perFrame, k);
    CeilDivIs(|t.fifo|, t.perFrame, k + 1);
    assert (k + 1) * t.perFrame == k * t.perFrame + t.perFrame;
    if f.injectOk {
      WaitingFrame(u, e, f);
    } else {
      FailingFrame(u, e, f);
    }
  }

  /** Settings stay, and what went on air, was accepted or was sent is never taken back. */
  predicate Extends(s: State, t: State) {
    t.perFrame == s.perFrame && t.capacity == s.capacity && s.air <= t.air && s.log <= t.log && s.sent <= t.sent
  }

  lemma RefuseExtends(s: State, code: Code)
    ensures Extends(s, Refuse(s, code))
  {
  }

  lemma AcceptExtends(s: State, r: Accepted, t: State, kind: Kind, page: int, finalize: bool, sendOk: bool)
    requires Queueable(s, r.triplets)
    requires t == Enqueue(s, r).(prepared := t.prepared, visible := t.visible, executionId := t.executionId)
    ensures Extends(s, StartPending(t, kind, page, finalize, sendOk))
  {
    hide Queueable;
  }

  lemma PrepareExtends(s: State, e: Encoder, r: Request, id: string, page: int, sendOk: bool)
    ensures Extends(s, HandlePrepare(s, e, r, id, page, sendOk))
  {
    hide CaptionText, Queueable;
    var triplets := if r.text.Some? then e.caption(r.text.value) else None;
    if triplets.Some? && Queueable(s, triplets.value) {
      var x := Accepted(Prepare, page, id, triplets.value);
      AcceptExtends(s, x, Enqueue(s, x).(executionId := id, prepared := page), Prepare, page, false, sendOk);
    }
  }

  lemma CommitExtends(s: State, page: int, sendOk: bool)
    ensures Extends(s, HandleCommit(s, page, sendOk))
  {
    hide Queueable;
    var x := Accepted(Commit, page, s.executionId, [EndOfCaption, EndOfCaption]);
    if Queueable(s, x.triplets) {
      AcceptExtends(s, x, Enqueue(s, x).(visible := page, prepared := -1), Commit, page, false, sendOk);
    }
  }

  lemma EraseExtends(s: State, e: Encoder, kind: Kind, sendOk: bool)
    ensures Extends(s, HandleErase(s, e, kind, sendOk))
  {
    hide Queueable;
    if e.clear.Some? && Queueable(s, e.clear.value) {
      var t := Enqueue(s, Accepted(kind, -1, s.executionId, e.clear.value));
      AcceptExtends(s, Accepted(kind, -1, s.executionId, e.clear.value),
        t.(prepared := -1, visible := -1, executionId := if kind == Reset then "" else t.executionId), kind, -1,
          true, sendOk);
    }
  }

  lemma HandleExtends(s: State, e: Encoder, r: Request, sendOk: bool)
    ensures Extends(s, HandleRequest(s, e, r, sendOk))
  {
    hide ValidExecutionId, Refuse, HandlePrepare, HandleCommit, HandleErase, Extends;
    forall code ensures Extends(s, Refuse(s, code)) { RefuseExtends(s, code); }
    EraseExtends(s, e, Reset, sendOk);
    EraseExtends(s, e, Clear, sendOk);
    if r.page.Some? {
      CommitExtends(s, r.page.value, sendOk);
      if r.executionId.Some? { PrepareExtends(s, e, r, r.executionId.value, r.page.value, sendOk); }
    }
  }

  lemma ServiceExtends(s: State, e: Encoder, poll: Poll, sendOk: bool)
    ensures Extends(s, ServiceSocket(s, e, poll, sendOk))
  {
    hide HandleRequest;
    if poll.Line? {
      HandleExtends(CompletePending(s).(client := true), e, poll.request, sendOk);
    }
  }

  lemma FrameExtends(s: State, e: Encoder, f: Frame)
    ensures Extends(s, FilterFrame(s, e, f))
  {
    hide ServiceSocket;
    ServiceExtends(s, e, f.poll, f.sendOk);
  }

  lemma {:induction false} RunExtends(s: State, e: Encoder, frames: seq<Frame>)
    ensures Extends(s, Run(s, e, frames))
    decreases |frames|
  {
    hide FilterFrame;
    if frames != [] {
      RunExtends(s, e, frames[..|frames| - 1]);
      FrameExtends(Run(s, e, frames[..|frames| - 1]), e, frames[|frames| - 1]);
    }
  }

  /** The accepting frame injects after the request was queued, like any later frame. */
  lemma AcceptingFrame(s: State, t: State, e: Encoder, f: Frame)
    requires t == ServiceSocket(s, e, f.poll, f.sendOk) && Good(t) && t.pending.Some? && t.fifo != [] && f.injectOk
    ensures FilterFrame(s, e, f) == FilterFrame(t, e, f)
    ensures var u := FilterFrame(s, e, f); var p := t.pending.value;
      && u.perFrame == t.perFrame
      && if |t.fifo| > t.perFrame
         then u.pending == t.pending && u.sent == t.sent && |u.fifo| == |t.fifo| - t.perFrame
         else u.pending.None? && !u.client && u.fifo == [] && u.sent == t.sent + [Done(p.kind, p.page)]
  {
    WaitingFrame(t, e, f);
    hide HandleRequest, Encoded, CommitsFollowPrepares;
    assert ServiceSocket(t, e, f.poll, f.sendOk) == t;
  }

  lemma {:induction false} RunGood(s: State, e: Encoder, frames: seq<Frame>)
    requires Good(s)
    ensures Good(Run(s, e, frames))
    decreases |frames|
  {
    if frames != [] {
      RunGood(s, e, frames[..|frames| - 1]);
      FrameKeeps(Run(s, e, frames[..|frames| - 1]), e, frames[|frames| - 1]);
    }
  }

  /** From start-up, every run of frames satisfies the invariant: on-air order and paired commits. */
  lemma RunKeeps(capacity: nat, perFrame: nat, e: Encoder, frames: seq<Frame>)
    ensures Good(Run(Initial(capacity, perFrame), e, frames))
  {
    assert Good(Initial(capacity, perFrame));
    RunGood(Initial(capacity, perFrame), e, frames);
  }

  // ---------------------------------------------------------------- the per-frame budget

  /** Triplets and constructs per frame for a frame rate the table does not know; None disables captions. */
  function Budget(fps: real): (r: Option<(nat, nat)>)
    ensures r.None? <==> fps <= 0.0
  {
    if fps <= 0.0 then None
    else Some((Clamp((60.0 / fps).Floor), Clamp((600.0 / fps + 0.999).Floor)))
  }

  function Clamp(n: int): (r: nat)
    ensures 1 <= r <= 31
  {
    if n < 1 then 1 else if n > 31 then 31 else n
  }

  /** Triplets sent in a second. */
  function PerSecond(n: nat, fps: real): real {
    n as real * fps
  }

  lemma RateLimit(n: nat, fps: real, q: real)
    requires fps > 0.0 && q * fps == 60.0
    ensures PerSecond(n, fps) <= 60.0 <==> n as real <= q
  {
    var x := n as real;
    if x <= q { Times(x, q, fps); } else { StrictTimes(q, x, fps); }
  }

  lemma StrictTimes(a: real, b: real, c: real)
    requires a < b && c > 0.0
    ensures a * c < b * c
  {
  }

  /**
    The values: the most triplets per frame, at most 31, that keep to 60 per second, or one;
    and 600 constructs per second rounded up, between 1 and 31 per picture.
  */
  lemma BudgetValues(fps: real)
    requires fps > 0.0
    ensures var (perFrame, constructs) := Budget(fps).value;
      && 1 <= perFrame <= 31 && 1 <= constructs <= 31
      && (perFrame == 1 || PerSecond(perFrame, fps) <= 60.0)
      && (perFrame == 31 || PerSecond(perFrame + 1, fps) > 60.0)
      && (1 < constructs ==> constructs as real <= 600.0 / fps + 0.999)
      && (constructs < 31 ==> 600.0 / fps + 0.999 < (constructs + 1) as real)
  {
    hide PerSecond, Clamp;
    var q, v := 60.0 / fps, 600.0 / fps + 0.999;
    var n := Clamp(q.Floor);
    assert Budget(fps) == Some((n, Clamp(v.Floor)));
    Quotient(fps);
    RateLimit(n, fps, q);
    RateLimit(n + 1, fps, q);
    ClampedFloor(q);
    ClampedFloor(v);
  }

  lemma Quotient(fps: real)
    requires fps > 0.0
    ensures 60.0 / fps * fps == 60.0
  {
  }

  lemma ClampedFloor(v: real)
    ensures var c := Clamp(v.Floor); (1 < c ==> c as real <= v) && (c < 31 ==> v < (c + 1) as real)
  {
    assert v.Floor as real <= v < v.Floor as real + 1.0;
  }

  /** Progress is always possible, the triplets fit the constructs of a picture, and up to 60 fps the rate is kept. */
  lemma BudgetFits(fps: real)
    requires fps > 0.0
    ensures var (perFrame, constructs) := Budget(fps).value;
      && 1 <= perFrame <= constructs <= 31
      && (fps <= 60.0 ==> perFrame as real * fps <= 60.0)
  {
    var q := 60.0 / fps;
    assert 600.0 / fps == 10.0 * q && q > 0.0;
    assert q.Floor <= (10.0 * q + 0.999).Floor;
    if fps <= 60.0 {
      assert q >= 1.0 && Clamp(q.Floor) as real <= q;
      Times(Clamp(q.Floor) as real, q, fps);
    }
  }

  lemma Times(a: real, b: real, c: real)
    requires a <= b && c > 0.0
    ensures a * c <= b * c
  {
  }
}
