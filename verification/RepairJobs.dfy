/**
 * The repair dispatcher of ops/self_repair/worker.py: one tick picks at most one new event, and
 * moves one job a few durable steps forward.
 *
 * Commands, the clock and the directory listing are parameters or arbitrary choices; every command
 * and every write may fail, and the process may die in it.
 */
module RepairJobs {
  import opened Wrappers
  import opened Strings

  datatype Event = Event(id: string, hash: string, time: int)

  datatype JobStatus =
    Queued | CandidateReady | Pushed | Staged | AwaitingReview | Expired | NotReproduced | NeedsAttention

  datatype Job = Job(event: Event, created: real, status: JobStatus,
                     candidate: Option<string>, repair: Option<string>, url: Option<string>, error: bool)

  type Jobs = map<string, Job>

  /** A file of the event directory: its stem and the event in it, if it validates. */
  datatype Entry = Entry(stem: string, event: Option<Event>)

  datatype Status = Done | Failed | Killed

  /** Whether the commands and the file writes of a stretch work; otherwise each may fail or kill the process. */
  datatype World = World(commands: bool, files: bool)

  const MAX_JOBS := 1000
  const MAX_EVENT_SCAN := 512
  const MAX_EVENT_AGE := 900

  // ---------------------------------------------------------------- choosing an event

  /** Python's order on the pairs `(time, event_id)`. */
  predicate Leq(a: Event, b: Event) {
    a.time < b.time || (a.time == b.time && StringLeq(a.id, b.id))
  }

  lemma LeqOrder(a: Event, b: Event, c: Event)
    ensures Leq(a, b) || Leq(b, a)
    ensures Leq(a, b) && Leq(b, c) ==> Leq(a, c)
    ensures Leq(a, b) && Leq(b, a) ==> a.time == b.time && a.id == b.id
    ensures a.time < b.time ==> Leq(a, b)
  {
    hide StringLeq;
    StringLeqTotal(a.id, b.id);
    if StringLeq(a.id, b.id) && StringLeq(b.id, a.id) { StringLeqAntisymmetric(a.id, b.id); }
    if StringLeq(a.id, b.id) && StringLeq(b.id, c.id) { StringLeqTransitive(a.id, b.id, c.id); }
  }

  /** At most fifteen minutes old, or up to a minute ahead of the clock. */
  predicate Timely(e: Event, now: real) {
    now - MAX_EVENT_AGE as real <= e.time as real <= now + 60.0
  }

  /** `duplicate`: the same event, or one with the same context inside the cooldown. */
  predicate Duplicate(e: Event, jobs: Jobs, now: real, cooldown: int) {
    exists id :: id in jobs &&
      (jobs[id].event.id == e.id || (jobs[id].event.hash == e.hash && now - jobs[id].created < cooldown as real))
  }

  /** A file whose event may become a job now. */
  predicate Eligible(x: Entry, jobs: Jobs, now: real, cooldown: int) {
    && x.stem !in jobs && x.event.Some? && x.stem == x.event.value.id
    && Timely(x.event.value, now) && !Duplicate(x.event.value, jobs, now, cooldown)
  }

  predicate ScanFits(entries: seq<Entry>, jobs: Jobs) {
    |jobs| < MAX_JOBS && |entries| <= MAX_EVENT_SCAN
  }

  /**
    An event may become a job from one minute before its time to fifteen minutes
    after it, unless a job has its id, or has its context and was created less than
    the cooldown ago; and there are at most 999 jobs and 512 events.
  */
  lemma EligibleExactly(x: Entry, jobs: Jobs, now: real, cooldown: int, entries: seq<Entry>)
    requires x.event.Some?
    ensures var e := x.event.value;
      Eligible(x, jobs, now, cooldown) <==>
        && x.stem !in jobs && x.stem == e.id && -60.0 <= now - e.time as real <= 900.0
        && (forall id :: id in jobs ==> jobs[id].event.id != e.id)
        && forall id :: id in jobs && jobs[id].event.hash == e.hash ==> now >= jobs[id].created + cooldown as real
    ensures ScanFits(entries, jobs) <==> |jobs| <= 999 && |entries| <= 512
  {
  }

  /** `next_event`: the newest eligible event, or none exactly when there is none or a capacity is reached. */
  method NextEvent(entries: seq<Entry>, jobs: Jobs, now: real, cooldown: int) returns (r: Option<Event>)
    ensures r.Some? <==>
      ScanFits(entries, jobs) && exists i :: 0 <= i < |entries| && Eligible(entries[i], jobs, now, cooldown)
    ensures r.Some? ==>
      exists i :: 0 <= i < |entries| && Eligible(entries[i], jobs, now, cooldown) && entries[i].event == r
    ensures r.Some? ==> forall i :: 0 <= i < |entries| && Eligible(entries[i], jobs, now, cooldown) ==>
      Leq(entries[i].event.value, r.value)
  {
    hide Leq, Timely, Duplicate;
    r := None;
    if !ScanFits(entries, jobs) { return; }
    for k := 0 to |entries|
      invariant r.Some? <==> exists i :: 0 <= i < k && Eligible(entries[i], jobs, now, cooldown)
      invariant r.Some? ==> exists i :: 0 <= i < k && Eligible(entries[i], jobs, now, cooldown) && entries[i].event == r
      invariant r.Some? ==> forall i :: 0 <= i < k && Eligible(entries[i], jobs, now, cooldown) ==>
        Leq(entries[i].event.value, r.value)
    {
      if Eligible(entries[k], jobs, now, cooldown) {
        var e := entries[k].event.value;
        LeqOrder(e, e, e);
        if r.None? || !Leq(e, r.value) {
          if r.Some? {
            LeqOrder(e, r.value, e);
            forall i | 0 <= i < k && Eligible(entries[i], jobs, now, cooldown) ensures Leq(entries[i].event.value, e) {
              LeqOrder(entries[i].event.value, r.value, e);
            }
          }
          r := Some(e);
        }
      }
    }
  }

  // ---------------------------------------------------------------- what a tick may leave on disk

  predicate Active(s: JobStatus) {
    s in {Queued, CandidateReady, Pushed, Staged}
  }

  function Rank(s: JobStatus): nat {
    match s
    case Queued => 0
    case CandidateReady => 1
    case Pushed => 2
    case Staged => 3
    case _ => 4
  }

  /** Forward along queued, candidate_ready, pushed, staged, awaiting_review, or from queued to a terminal status. */
  predicate Forward(a: JobStatus, b: JobStatus) {
    || a == b
    || (Active(a) && (Active(b) || b == AwaitingReview) && Rank(a) < Rank(b))
    || (a == Queued && b in {Expired, NotReproduced, NeedsAttention})
  }

  /** The publisher's answer counts only if it is not empty: the source tests its truth. */
  predicate Known(j: Job) {
    j.url.Some? && j.url.value != ""
  }

  const PULL := "https://github.com/azumag/soviet_now/pull/"

  /** The decimal numeral of a number. */
  function Decimal(n: nat): string {
    if n < 10 then [DIGITS[n]] else Decimal(n / 10) + [DIGITS[n % 10]]
  }

  const DIGITS := "0123456789"

  /** What the ledger accepts as the address of a pull request. */
  predicate IsPullRequest(url: string) {
    && PULL < url && '1' <= url[|PULL|] <= '9'
    && forall i :: |PULL| <= i < |url| ==> '0' <= url[i] <= '9'
  }

  /** It is the address of the pull requests followed by the numeral of a positive number. */
  lemma PullRequestMeans(url: string)
    ensures IsPullRequest(url) <==>
      exists n: nat :: n > 0 && url == "https://github.com/azumag/soviet_now/pull/" + Decimal(n)
  {
    if n: nat :| n > 0 && url == PULL + Decimal(n) {
      DecimalIsNumeral(n);
      var s := Decimal(n);
      assert url[|PULL|] == s[0] && PULL < url;
      forall i | |PULL| <= i < |url| ensures IsDigit(url[i]) { assert url[i] == s[i - |PULL|]; }
    }
    if IsPullRequest(url) {
      var s := url[|PULL|..];
      assert url == PULL + s && s[0] == url[|PULL|];
      forall i | 0 <= i < |s| ensures IsDigit(s[i]) { assert s[i] == url[i + |PULL|]; }
      var n := NumeralOf(s);
    }
  }

  predicate IsDigit(c: char) { '0' <= c <= '9' }

  lemma {:induction false} DecimalIsNumeral(n: nat)
    ensures |Decimal(n)| > 0 && forall i :: 0 <= i < |Decimal(n)| ==> IsDigit(Decimal(n)[i])
    ensures n > 0 ==> Decimal(n)[0] != '0'
  {
    DigitsMean(n % 10);
    if n >= 10 { DecimalIsNumeral(n / 10); }
  }

  lemma DigitsMean(d: nat)
    requires d < 10
    ensures IsDigit(DIGITS[d]) && (DIGITS[d] == '0' <==> d == 0) && DIGITS[d] as int == 48 + d
  {
  }

  /** Digits without a leading zero are the numeral of a positive number. */
  lemma {:induction false} NumeralOf(s: string) returns (n: nat)
    requires s != [] && s[0] != '0' && forall i :: 0 <= i < |s| ==> IsDigit(s[i])
    ensures n > 0 && Decimal(n) == s
    decreases |s|
  {
    var d := s[|s| - 1] as int - 48;
    DigitsMean(d);
    assert DIGITS[d] == s[|s| - 1];
    if |s| == 1 {
      n := d;
    } else {
      var m := NumeralOf(s[..|s| - 1]);
      n := 10 * m + d;
      assert n / 10 == m && n % 10 == d;
    }
  }

  /** A job that reached a step holds what the later steps read. */
  predicate JobOk(j: Job) {
    && (j.status in {CandidateReady, Pushed, Staged, AwaitingReview} ==> j.candidate.Some?)
    && (j.status in {Staged, AwaitingReview} ==> j.repair.Some?)
    && (j.status == AwaitingReview ==> j.url.Some? && IsPullRequest(j.url.value))
    && (j.url.Some? ==> j.status in {Staged, AwaitingReview})
  }

  /** What work on a job keeps: its event and creation time, the direction of its status, and a known pull request. */
  predicate Moves(a: Job, b: Job) {
    b.event == a.event && b.created == a.created && Forward(a.status, b.status) && (Known(a) ==> b.url == a.url)
  }

  /** Two jobs for the same context were created at least the cooldown apart, whatever the clock did. */
  ghost predicate Spaced(jobs: Jobs, cooldown: int) {
    forall a, b :: a in jobs && b in jobs && a != b ==> Apart(jobs[a], jobs[b], cooldown)
  }

  predicate Apart(a: Job, b: Job, cooldown: int) {
    a.event.hash == b.event.hash ==>
      a.created - b.created >= cooldown as real || b.created - a.created >= cooldown as real
  }

  ghost predicate Inv(jobs: Jobs, cooldown: int) {
    && |jobs| <= MAX_JOBS && Spaced(jobs, cooldown)
    && forall id :: id in jobs ==> jobs[id].event.id == id && JobOk(jobs[id])
  }

  /**
    One tick: at most one job is new, at most one other moved, and the publisher is called for at most one job
    without a saved URL.
  */
  ghost predicate TickLeaves(before: Jobs, after: Jobs, calls: seq<string>) {
    && |calls| <= 1
    && (forall id :: id in before ==> id in after && Moves(before[id], after[id]))
    && (exists added, worked :: OnlyTouches(before, after, added, worked))
    && (forall id :: id in calls ==> id !in before || (!Known(before[id]) && Active(before[id].status)))
  }

  ghost predicate OnlyTouches(before: Jobs, after: Jobs, added: string, worked: string) {
    forall id :: id in after && id != added && id != worked ==> id in before && after[id] == before[id]
  }

  lemma MovesTransitive(a: Job, b: Job, c: Job)
    requires Moves(a, b) && Moves(b, c)
    ensures Moves(a, c)
  {
  }

  // ---------------------------------------------------------------- one tick

  /** Only this job's file changed, to something its earlier content may move to. */
  ghost predicate Worked(was: Jobs, disk: Jobs, id: string) {
    id in was && id in disk && disk == was[id := disk[id]] && Moves(was[id], disk[id]) && JobOk(disk[id])
  }

  lemma WorkedTwice(a: Jobs, b: Jobs, c: Jobs, id: string)
    requires Worked(a, b, id) && Worked(b, c, id)
    ensures Worked(a, c, id)
  {
    hide Moves, JobOk;
    MovesTransitive(a[id], b[id], c[id]);
  }

  /** Queueing an eligible event keeps the jobs spaced and within capacity. */
  lemma QueueKeepsInv(entries: seq<Entry>, jobs: Jobs, now: real, cooldown: int, i: nat)
    requires Inv(jobs, cooldown) && |jobs| < MAX_JOBS && i < |entries| && Eligible(entries[i], jobs, now, cooldown)
    ensures Inv(jobs[entries[i].stem := NewJob(entries[i].event.value, now)], cooldown)
  {
    var e := entries[i].event.value;
    var after := jobs[e.id := NewJob(e, now)];
    assert after.Keys == jobs.Keys + {e.id};
    assert JobOk(NewJob(e, now));
    NotDuplicate(e, jobs, now, cooldown);
    hide Timely, Duplicate, JobOk, Eligible, Apart;
    assert Spaced(after, cooldown);
  }

  lemma NotDuplicate(e: Event, jobs: Jobs, now: real, cooldown: int)
    requires !Duplicate(e, jobs, now, cooldown)
    ensures forall id :: id in jobs ==>
      Apart(jobs[id], NewJob(e, now), cooldown) && Apart(NewJob(e, now), jobs[id], cooldown)
  {
  }

  lemma WorkKeepsInv(was: Jobs, disk: Jobs, id: string, cooldown: int)
    requires Inv(was, cooldown) && Worked(was, disk, id)
    ensures Inv(disk, cooldown)
  {
    hide JobOk, Forward;
    assert disk.Keys == was.Keys;
    assert forall other :: other in disk ==>
      disk[other].event == was[other].event && disk[other].created == was[other].created;
  }

  lemma QueuedTick(was: Jobs, mid: Jobs, id: string, job: Job)
    requires mid == was || (id !in was && mid == was[id := job])
    ensures TickLeaves(was, mid, [])
  {
    forall other | other in was ensures Moves(was[other], mid[other]) { MovesReflexive(was[other]); }
    hide Moves;
    assert OnlyTouches(was, mid, id, id);
  }

  lemma WorkedTick(was: Jobs, mid: Jobs, disk: Jobs, added: string, job: Job, id: string, calls: seq<string>)
    requires mid == was || (added !in was && mid == was[added := job])
    requires Worked(mid, disk, id) && Active(mid[id].status)
    requires calls == [] || (calls == [id] && !Known(mid[id]))
    ensures TickLeaves(was, disk, calls)
  {
    hide JobOk, Active;
    forall other | other in was ensures other in disk && Moves(was[other], disk[other]) {
      if other != id { MovesReflexive(was[other]); }
    }
    hide Moves;
    assert OnlyTouches(was, disk, added, id);
  }

  lemma WorkedKeys(was: Jobs, disk: Jobs, id: string)
    requires Worked(was, disk, id)
    ensures disk.Keys == was.Keys
  {
    hide Moves, JobOk;
  }

  lemma InvMeans(jobs: Jobs, id: string, cooldown: int)
    requires Inv(jobs, cooldown) && id in jobs
    ensures JobOk(jobs[id])
  {
  }

  lemma EligibleMeans(x: Entry, jobs: Jobs, now: real, cooldown: int)
    requires Eligible(x, jobs, now, cooldown)
    ensures x.event.Some? && x.stem == x.event.value.id && x.stem !in jobs
  {
  }

  lemma NothingYet(jobs: Jobs, id: string)
    requires id in jobs && JobOk(jobs[id])
    ensures Worked(jobs, jobs, id) && Moves(jobs[id], jobs[id])
  {
  }

  lemma MovesKeepUrl(a: Job, b: Job)
    requires Moves(a, b)
    ensures !Known(b) ==> !Known(a)
  {
  }

  function NewJob(e: Event, now: real): Job {
    Job(e, now, Queued, None, None, None, false)
  }

  /** At most one eligible event became a job. */
  ghost predicate Queues(before: Jobs, mid: Jobs, entries: seq<Entry>, now: real, cooldown: int) {
    || mid == before
    || (|before| < MAX_JOBS && exists i :: 0 <= i < |entries| && QueuesEntry(before, mid, entries[i], now, cooldown))
  }

  ghost predicate QueuesEntry(before: Jobs, mid: Jobs, x: Entry, now: real, cooldown: int) {
    Eligible(x, before, now, cooldown) && mid == before[x.stem := NewJob(x.event.value, now)]
  }

  /** How a tick got from one directory of jobs to the next: it queued at most one, then worked on at most one. */
  ghost predicate TickFrom(before: Jobs, after: Jobs, entries: seq<Entry>, now: real, cooldown: int) {
    exists mid :: Queues(before, mid, entries, now, cooldown) && (after == mid || exists id :: Worked(mid, after, id))
  }

  lemma TickKeepsInv(before: Jobs, after: Jobs, entries: seq<Entry>, now: real, cooldown: int)
    requires Inv(before, cooldown) && TickFrom(before, after, entries, now, cooldown)
    ensures Inv(after, cooldown)
  {
    hide Inv, Worked, Eligible;
    var mid :| Queues(before, mid, entries, now, cooldown) && (after == mid || exists id :: Worked(mid, after, id));
    if mid != before {
      var i :| 0 <= i < |entries| && QueuesEntry(before, mid, entries[i], now, cooldown);
      EligibleMeans(entries[i], before, now, cooldown);
      QueueKeepsInv(entries, before, now, cooldown, i);
    }
    if after != mid {
      var id :| Worked(mid, after, id);
      WorkKeepsInv(mid, after, id, cooldown);
    }
  }

  // ---------------------------------------------------------------- runs

  /** One tick of a run: the events it saw, its clock, and the publisher calls it made. */
  datatype TickOf = TickOf(entries: seq<Entry>, now: real, calls: seq<string>)
  datatype Trace = Trace(disks: seq<Jobs>, ticks: seq<TickOf>)

  /** A run of ticks with one cooldown: `ticks[i]` leads from `disks[i]` to `disks[i + 1]`. */
  ghost predicate Run(t: Trace, cooldown: int) {
    && |t.disks| == |t.ticks| + 1
    && forall i :: 0 <= i < |t.ticks| ==>
         && TickLeaves(t.disks[i], t.disks[i + 1], t.ticks[i].calls)
         && TickFrom(t.disks[i], t.disks[i + 1], t.ticks[i].entries, t.ticks[i].now, cooldown)
  }

  /** Over any run, whatever the clock does, jobs of one context stay the cooldown apart and at most 1000. */
  lemma {:induction false} AlwaysSpaced(t: Trace, cooldown: int, i: nat)
    requires Run(t, cooldown) && i < |t.disks| && Inv(t.disks[0], cooldown)
    ensures Inv(t.disks[i], cooldown)
    decreases i
  {
    hide Inv, TickLeaves, TickFrom;
    if i > 0 {
      AlwaysSpaced(t, cooldown, i - 1);
      TickKeepsInv(t.disks[i - 1], t.disks[i], t.ticks[i - 1].entries, t.ticks[i - 1].now, cooldown);
    }
  }

  /** Over any run a job keeps its identity, and its status only moves forward. */
  lemma {:induction false} StatusOnlyMovesForward(t: Trace, cooldown: int, i: nat, j: nat, id: string)
    requires Run(t, cooldown) && i <= j < |t.disks| && id in t.disks[i]
    ensures id in t.disks[j] && Moves(t.disks[i][id], t.disks[j][id])
    decreases j
  {
    hide Moves, TickFrom;
    if i < j {
      StatusOnlyMovesForward(t, cooldown, i, j - 1, id);
      assert TickLeaves(t.disks[j - 1], t.disks[j], t.ticks[j - 1].calls);
      MovesTransitive(t.disks[i][id], t.disks[j - 1][id], t.disks[j][id]);
    } else {
      assert Moves(t.disks[i][id], t.disks[i][id]) by { MovesReflexive(t.disks[i][id]); }
    }
  }

  lemma MovesReflexive(a: Job)
    ensures Moves(a, a)
  {
  }

  /**
    An empty URL that was saved is not known: a publisher that printed nothing leaves one,
    the ledger refuses it, the job stays staged, and the next tick asks the publisher again.
  */
  lemma EmptyUrlIsAskedAgain()
    ensures exists t: Trace, id: string ::
              && Run(t, 0) && |t.ticks| == 1 && id in t.disks[0] && t.disks[0][id].url == Some("") &&
                id in t.ticks[0].calls
              && Inv(t.disks[0], 0) && Inv(t.disks[1], 0)
  {
    var job := Job(Event("e", "h", 0), 0.0, Staged, Some("c"), Some("r"), Some(""), true);
    var a, b := map["e" := job], map["e" := job.(url := Some("u"))];
    var t := Trace([a, b], [TickOf([], 0.0, ["e"])]);
    assert Worked(a, b, "e") && Queues(a, a, [], 0.0, 0);
    assert OnlyTouches(a, b, "e", "e") && TickLeaves(a, b, ["e"]);
    assert Run(t, 0);
    assert t.disks[0] == a && t.disks[1] == b && t.ticks[0].calls == ["e"] && "e" in ["e"];
    assert Inv(a, 0) && Inv(b, 0);
    hide Run, Inv;
  }

  /** Once a job's pull request URL is saved and not empty, no later tick calls the publisher for it. */
  lemma PublishedOnce(t: Trace, cooldown: int, i: nat, j: nat, id: string)
    requires Run(t, cooldown) && i <= j < |t.ticks| && id in t.disks[i] && Known(t.disks[i][id])
    ensures id !in t.ticks[j].calls
  {
    StatusOnlyMovesForward(t, cooldown, i, j, id);
    assert TickLeaves(t.disks[j], t.disks[j + 1], t.ticks[j].calls);
  }

  // ---------------------------------------------------------------- what a tick achieves

  /** Asking for the health of a queued job that is still timely fails. */
  predicate Unhealthy(job: Job, now: real, healthy: Option<bool>) {
    job.status == Queued && Timely(job.event, now) && healthy.None?
  }

  /** Attached as the pull request, or kept for another attempt. */
  predicate Published(j: Job) {
    && j.url.Some?
    && (if IsPullRequest(j.url.value) then j.status == AwaitingReview && !j.error else j.status == Staged && j.error)
  }

  /** Where work on a job ends when every command and file write works. */
  predicate Ends(job: Job, now: real, healthy: Option<bool>, j: Job) {
    if job.status == Queued && !Timely(job.event, now) then j.status == Expired
    else if job.status == Queued && healthy.None? then j.status == Queued
    else if job.status == Queued && healthy == Some(true) then j.status == NotReproduced
    else Published(j)
  }

  /** `e` is the newest eligible event, the one a tick queues. */
  ghost predicate Chosen(entries: seq<Entry>, jobs: Jobs, now: real, cooldown: int, e: Event) {
    && ScanFits(entries, jobs)
    && (exists i :: 0 <= i < |entries| && Eligible(entries[i], jobs, now, cooldown) && entries[i].event == Some(e))
    && forall i :: 0 <= i < |entries| && Eligible(entries[i], jobs, now, cooldown) ==> Leq(entries[i].event.value, e)
  }

  /** There is an event to queue. */
  predicate Eventful(entries: seq<Entry>, jobs: Jobs, now: real, cooldown: int) {
    ScanFits(entries, jobs) && exists i :: 0 <= i < |entries| && Eligible(entries[i], jobs, now, cooldown)
  }

  /** A job is waiting to be worked on. */
  predicate Waits(jobs: Jobs, id: string) { id in jobs && Active(jobs[id].status) }

  /**
    A tick queues at most the newest eligible event and works on at most one job: one
    that waited before, or else the new one.  If files can be written it does queue one
    and does work whenever there is something to queue and to work on; if the commands
    work too, the job ends where it should.
  */
  ghost predicate TickDoes(before: Jobs, after: Jobs, entries: seq<Entry>, now: real, later: real, cooldown: int,
    healthy: Option<bool>, w: World, queued: Option<Event>, worked: Option<string>)
  {
    && (queued.Some? ==> Chosen(entries, before, now, cooldown, queued.value) && queued.value.id !in before)
    && after.Keys == before.Keys + (if queued.Some? then {queued.value.id} else {})
    && (forall id :: id in before && worked != Some(id) ==> after[id] == before[id])
    && (queued.Some? ==> after[queued.value.id].event == queued.value && after[queued.value.id].created == now)
    && (queued.Some? && worked != Some(queued.value.id) ==> after[queued.value.id] == NewJob(queued.value, now))
    && (worked.Some? ==>
          if exists id :: Waits(before, id) then Waits(before, worked.value)
          else queued.Some? && worked.value == queued.value.id)
    && (w.files ==>
          && (queued.Some? <==> Eventful(entries, before, now, cooldown))
          && (worked.Some? <==> queued.Some? || exists id :: Waits(before, id)))
    && (w.files && w.commands && worked.Some? ==>
          var was := if worked.value in before then before[worked.value] else NewJob(queued.value, now);
          if Unhealthy(was, later, healthy) then after[worked.value].status == NeedsAttention
          else Ends(was, later, healthy, after[worked.value]))
  }

  lemma MovesFrom(a: Job, b: Job)
    requires Moves(a, b)
    ensures b.event == a.event && b.created == a.created && Forward(a.status, b.status)
  {
  }

  lemma NothingQueued(jobs: Jobs, entries: seq<Entry>, now: real, cooldown: int)
    ensures Queues(jobs, jobs, entries, now, cooldown)
  {
  }

  lemma TickIdle(before: Jobs, after: Jobs, entries: seq<Entry>, now: real, later: real, cooldown: int,
    healthy: Option<bool>, w: World, queued: Option<Event>)
    requires queued.Some? ==> Chosen(entries, before, now, cooldown, queued.value) && queued.value.id !in before
    requires w.files ==>
      (queued.None? && !Eventful(entries, before, now, cooldown) && forall id :: !Waits(before, id))
    requires after == if queued.Some? then before[queued.value.id := NewJob(queued.value, now)] else before
    ensures TickDoes(before, after, entries, now, later, cooldown, healthy, w, queued, None)
  {
    hide Chosen, Eventful, Unhealthy, Ends;
  }

  lemma TickDid(before: Jobs, mid: Jobs, after: Jobs, entries: seq<Entry>, now: real, later: real, cooldown: int,
    healthy: Option<bool>, w: World, queued: Option<Event>, id: string)
    requires queued.Some? ==> Chosen(entries, before, now, cooldown, queued.value) && queued.value.id !in before
    requires queued.Some? <==> Eventful(entries, before, now, cooldown)
    requires mid == if queued.Some? then before[queued.value.id := NewJob(queued.value, now)] else before
    requires Worked(mid, after, id)
    requires if exists x :: Waits(before, x) then Waits(before, id) else queued.Some? && id == queued.value.id
    requires w.commands && w.files ==>
      if Unhealthy(mid[id], later, healthy) then after[id].status == NeedsAttention
      else Ends(mid[id], later, healthy, after[id])
    ensures TickDoes(before, after, entries, now, later, cooldown, healthy, w, queued, Some(id))
  {
    hide Chosen, Eventful, Unhealthy, Ends, JobOk;
  }

  /**
    What commands did outside the job files: the jobs whose candidate was pushed, those whose
    repair the gateway applied, and the addresses attached to jobs in its ledger.
  */
  datatype Outside = Outside(pushes: seq<string>, stages: seq<string>, attached: seq<(string, string)>)

  /** How far along the pipeline a job is. */
  function Reached(s: JobStatus): nat {
    match s
    case CandidateReady => 1
    case Pushed => 2
    case Staged => 3
    case AwaitingReview => 4
    case _ => 0
  }

  /** A job that went from `from` to where j is had each command between these done once, and no other. */
  ghost function Did(o: Outside, id: string, from: JobStatus, j: Job): Outside {
    Outside(
      o.pushes + (if Reached(from) < 2 <= Reached(j.status) then [id] else []),
      o.stages + (if Reached(from) < 3 <= Reached(j.status) then [id] else []),
      o.attached + (if Reached(from) < 4 <= Reached(j.status) && j.url.Some? then [(id, j.url.value)] else []))
  }

  lemma DidNothing(o: Outside, id: string, from: JobStatus, j: Job)
    requires Reached(j.status) <= Reached(from) || Reached(j.status) < 2
    ensures Did(o, id, from, j) == o
  {
  }

  lemma DidAttach(o: Outside, id: string, j: Job)
    requires j.status == AwaitingReview ==> j.url.Some?
    ensures j.status == AwaitingReview ==>
      Did(o, id, Staged, j) == o.(attached := o.attached + [(id, j.url.value)])
    ensures j.status == Staged ==> Did(o, id, Staged, j) == o
  {
  }

  lemma DidSame(o: Outside, id: string, from: JobStatus, j: Job, k: Job)
    requires Reached(j.status) == Reached(k.status) && j.url == k.url
    ensures Did(o, id, from, j) == Did(o, id, from, k)
  {
  }

  lemma DidTwice(o: Outside, id: string, from: JobStatus, j: Job, k: Job)
    requires Reached(from) <= Reached(j.status) <= Reached(k.status) && Reached(j.status) < 4
    ensures Did(Did(o, id, from, j), id, j.status, k) == Did(o, id, from, k)
  {
  }

  class Worker {
    /** The job files. */
    var disk: Jobs
    /** The jobs for which the publisher was called, in order. */
    ghost var calls: seq<string>
    ghost var outside: Outside
    /** The process died. */
    ghost var killed: bool

    constructor ()
      ensures disk == map[] && calls == [] && outside == Outside([], [], []) && !killed
    {
      disk, calls, outside, killed := map[], [], Outside([], [], []), false;
    }

    /** A command or a file operation may fail or be the last thing the process does, unless it works. */
    method Attempt(works: bool) returns (s: Status)
      requires !killed
      modifies this`killed
      ensures works ==> s == Done
      ensures killed <==> s == Killed
    {
      s := Done;
      if !works {
        if * { s := Failed; } else if * { s := Killed; }
      }
      killed := s == Killed;
    }

    /** `save`: an atomic replacement of one job file. */
    method Save(id: string, j: Job, w: World) returns (s: Status)
      requires !killed
      modifies this`disk, this`killed
      ensures killed <==> s == Killed
      ensures disk == old(disk) || disk == old(disk)[id := j]
      ensures s == Done ==> disk == old(disk)[id := j]
      ensures w.files ==> s == Done
    {
      s := Attempt(w.files);
      if s == Done {
        disk := disk[id := j];
        s := Attempt(w.files);
        if s == Failed { s := Done; }
      }
    }

    /** The first half of `publish`: reuse the known URL or ask for one, and save it. */
    method Ask(id: string, job: Job, w: World) returns (s: Status, j: Job)
      requires id in disk && disk[id] == job && JobOk(job) && job.status == Staged && !killed
      modifies this`disk, this`calls, this`killed
      ensures Worked(old(disk), disk, id) && Moves(disk[id], j) && Moves(job, j) && JobOk(j)
      ensures killed <==> s == Killed
      ensures disk[id].status == j.status == Staged
      ensures calls == if Known(job) then old(calls) else old(calls) + [id]
      ensures s == Done ==> j.url.Some? && disk[id] == j
      ensures w.files && j.url.Some? ==> disk[id].url == j.url
      ensures w.commands && w.files ==> s == Done
    {
      hide IsPullRequest;
      j := job;
      var url := job.url;
      s := Done;
      if !Known(job) {
        calls := calls + [id];
        s := Attempt(w.commands);
        if s == Done {
          var found: string := *;
          url := Some(found);
        }
      }
      if s == Done {
        j := j.(url := url);
        s := Save(id, j, w);
      }
    }

    /** `publish`: reuse the known URL or ask for one, save it before attaching it. */
    method Publish(id: string, job: Job, w: World) returns (s: Status, j: Job)
      requires id in disk && disk[id] == job && JobOk(job) && job.status == Staged && !killed
      modifies this
      ensures Worked(old(disk), disk, id) && Moves(disk[id], j) && Moves(job, j) && JobOk(j)
      ensures killed <==> s == Killed
      ensures j.status in {Staged, AwaitingReview} && outside == Did(old(outside), id, Staged, j)
      ensures w.files && j.url.Some? ==> disk[id].url == j.url
      ensures disk[id].status != NeedsAttention
      ensures calls == if Known(job) then old(calls) else old(calls) + [id]
      ensures s == Done ==> disk[id] == j
      ensures w.files ==> s != Failed
      ensures w.commands && w.files ==> s == Done && Published(j)
    {
      hide IsPullRequest, Did;
      s, j := Ask(id, job, w);
      if s == Done {
        s := Attempt(w.commands);
        if s == Done && !IsPullRequest(j.url.value) { s := Failed; }
      }
      DidNothing(outside, id, Staged, j);
      if s == Killed { return; }
      if s == Done { outside := outside.(attached := outside.attached + [(id, j.url.value)]); }
      j := if s == Done then j.(status := AwaitingReview, error := false) else j.(error := true);
      DidAttach(old(outside), id, j);
      s := Save(id, j, w);
    }

    /** The stretch of `process` for a queued job: too old, healthy again, or a candidate commit. */
    method Prepare(id: string, job: Job, now: real, healthy: Option<bool>, w: World) returns (s: Status, j: Job)
      requires id in disk && disk[id] == job && JobOk(job) && job.status == Queued && !killed
      modifies this`disk, this`killed
      ensures killed <==> s == Killed
      ensures Worked(old(disk), disk, id) && Moves(disk[id], j) && Moves(job, j) && JobOk(j)
      ensures disk[id].status != NeedsAttention
      ensures j.status in {Queued, CandidateReady, Expired, NotReproduced}
      ensures s == Done ==> disk[id] == j
      ensures s == Done ==> Timely(job.event, now) ==> healthy.Some?
      ensures s == Done ==> j.status == if !Timely(job.event,
        now) then Expired else if healthy == Some(true) then NotReproduced else CandidateReady
      ensures w.files && s == Failed ==> j.status == Queued
      ensures w.commands && w.files ==> s == if Timely(job.event, now) && healthy.None? then Failed else Done
    {
      j := job;
      if !Timely(job.event, now) {
        j := j.(status := Expired);
        s := Save(id, j, w);
        return;
      }
      if healthy.None? { return Failed, j; }
      if healthy.value {
        j := j.(status := NotReproduced);
        s := Save(id, j, w);
        return;
      }
      s := Attempt(w.commands);
      if s != Done { return; }
      var commit: string := *;
      j := j.(status := CandidateReady, candidate := Some(commit));
      s := Save(id, j, w);
    }

    /** Push the candidate, then say so. */
    method Push(id: string, job: Job, w: World) returns (s: Status, j: Job)
      requires id in disk && disk[id] == job && JobOk(job) && job.status == CandidateReady && !killed
      modifies this`disk, this`outside, this`killed
      ensures killed <==> s == Killed
      ensures Worked(old(disk), disk, id) && Moves(disk[id], j) && Moves(job, j) && JobOk(j)
      ensures disk[id].status != NeedsAttention
      ensures s == Done ==> j.status == Pushed && disk[id] == j
      ensures j.status != Queued && j.status != NeedsAttention
      ensures j.status in {CandidateReady, Pushed} && outside == Did(old(outside), id, CandidateReady, j)
      ensures w.files && s == Failed ==> j == job
      ensures w.commands && w.files ==> s == Done
    {
      j := job;
      s := Attempt(w.commands);
      if s != Done { return; }
      outside := outside.(pushes := outside.pushes + [id]);
      j := j.(status := Pushed);
      s := Save(id, j, w);
    }

    /** Stage the repair through the gateway; the helper must answer with a repair identity. */
    method Stage(id: string, job: Job, w: World) returns (s: Status, j: Job)
      requires id in disk && disk[id] == job && JobOk(job) && job.status == Pushed && !killed
      modifies this`disk, this`outside, this`killed
      ensures killed <==> s == Killed
      ensures j.status in {Pushed, Staged} && outside == Did(old(outside), id, Pushed, j)
      ensures Worked(old(disk), disk, id) && Moves(disk[id], j) && Moves(job, j) && JobOk(j)
      ensures disk[id].status != NeedsAttention
      ensures s == Done ==> j.status == Staged && disk[id] == j
      ensures j.status != Queued && j.status != NeedsAttention
      ensures w.files && s == Failed ==> j == job
      ensures w.commands && w.files ==> s == Done
    {
      j := job;
      s := Attempt(w.commands);
      if s != Done { return; }
      outside := outside.(stages := outside.stages + [id]);
      var repair: string := *;
      j := j.(status := Staged, repair := Some(repair));
      s := Save(id, j, w);
    }

    /** `process`: the exception that ends it early leaves the job as `j`. */
    method Steps(id: string, job: Job, now: real, healthy: Option<bool>, w: World) returns (s: Status, j: Job)
      requires id in disk && disk[id] == job && JobOk(job) && Active(job.status) && !killed
      modifies this
      ensures killed <==> s == Killed
      ensures outside == Did(old(outside), id, job.status, j)
      ensures Worked(old(disk), disk, id) && Moves(disk[id], j) && Moves(job, j) && JobOk(j)
      ensures disk[id].status != NeedsAttention
      ensures calls == old(calls) || (calls == old(calls) + [id] && !Known(job))
      ensures job.status == Staged ==> calls == if Known(job) then old(calls) else old(calls) + [id]
      ensures s == Done ==> disk[id] == j
      ensures s == Failed && j.status == Queued ==> job.status == Queued
      ensures w.files && s == Failed ==> Active(j.status)
      ensures w.commands && w.files ==> s == (if Unhealthy(job, now, healthy) then Failed else Done)
      ensures w.commands && w.files ==> Ends(job, now, healthy, j)
    {
      hide Moves, JobOk, Timely, Known, IsPullRequest, Did;
      ghost var was, out := disk, outside;
      NothingYet(disk, id);
      DidNothing(out, id, job.status, job);
      j := job;
      s := Done;
      if j.status == Queued {
        s, j := Prepare(id, j, now, healthy, w);
        MovesFrom(job, j);
        DidNothing(out, id, Queued, j);
        if s != Done || j.status != CandidateReady { return; }
      }
      if j.status == CandidateReady {
        ghost var mid, before := disk, j;
        s, j := Push(id, j, w);
        WorkedTwice(was, mid, disk, id);
        MovesTransitive(job, before, j);
        MovesFrom(job, j);
        DidTwice(out, id, job.status, before, j);
        if s != Done { return; }
      }
      if j.status == Pushed {
        ghost var mid, before := disk, j;
        s, j := Stage(id, j, w);
        WorkedTwice(was, mid, disk, id);
        MovesTransitive(job, before, j);
        MovesFrom(job, j);
        DidTwice(out, id, job.status, before, j);
        if s != Done { return; }
      }
      if j.status == Staged {
        ghost var mid, before := disk, j;
        s, j := Publish(id, j, w);
        WorkedTwice(was, mid, disk, id);
        MovesTransitive(job, before, j);
        MovesFrom(before, j);
        MovesKeepUrl(job, before);
        DidTwice(out, id, job.status, before, j);
      }
    }

    /**
      `process` and the handler around it: some steps of one active job.  `last` is the job in memory,
      which the file may lag behind, and `failed` says that the handler ran.
    */
    method Process(id: string, now: real, healthy: Option<bool>, w: World)
      returns (s: Status, ghost failed: bool, ghost last: Job)
      requires id in disk && JobOk(disk[id]) && Active(disk[id].status) && !killed
      modifies this
      ensures killed <==> s == Killed
      ensures Worked(old(disk), disk, id)
      ensures outside == Did(old(outside), id, old(disk)[id].status, last)
      ensures Moves(disk[id], last) && (s == Done ==> disk[id] == last)
      ensures calls == old(calls) || (calls == old(calls) + [id] && !Known(old(disk)[id]))
      ensures old(disk)[id].status == Staged ==> calls == if Known(old(disk)[id]) then old(calls) else old(calls) + [id]
      ensures w.files && failed ==> s == Done && disk[id].error && disk[id].status != Queued
      ensures disk[id].status == NeedsAttention ==> failed && old(disk)[id].status == Queued
      ensures w.files && failed && old(disk)[id].status == Queued ==>
        disk[id].status == NeedsAttention || disk[id].candidate.Some?
      ensures w.commands && w.files ==> s == Done && failed == Unhealthy(old(disk)[id], now, healthy)
      ensures w.commands && w.files && failed ==> disk[id].status == NeedsAttention
      ensures w.commands && w.files && !failed ==> Ends(old(disk)[id], now, healthy, disk[id])
    {
      hide IsPullRequest, Timely, Known, Did;
      var j;
      ghost var was := disk[id];
      s, j := Steps(id, disk[id], now, healthy, w);
      failed, last := s == Failed, j;
      if s == Failed {
        ghost var mid := disk;
        j := j.(error := true, status := if j.status == Queued then NeedsAttention else j.status);
        DidSame(old(outside), id, was.status, last, j);
        s := Save(id, j, w);
        last := j;
      }
    }

    /** The first half of `main`: queue the newest eligible event, if there is one. */
    method Enqueue(entries: seq<Entry>, now: real, cooldown: int, w: World)
      returns (s: Status, queued: Option<Event>)
      requires Inv(disk, cooldown) && !killed
      modifies this`disk, this`killed
      ensures killed <==> s == Killed
      ensures Inv(disk, cooldown) && Queues(old(disk), disk, entries, now, cooldown)
      ensures disk == if queued.Some? then old(disk)[queued.value.id := NewJob(queued.value, now)] else old(disk)
      ensures queued.Some? ==> disk[queued.value.id] == Job(queued.value, now, Queued, None, None, None, false)
      ensures queued.Some? ==> Chosen(entries, old(disk), now, cooldown, queued.value)
      ensures queued.Some? ==> queued.value.id !in old(disk)
      ensures queued.Some? ==> exists i ::
        0 <= i < |entries| && entries[i].stem == queued.value.id && Eligible(entries[i], old(disk), now, cooldown)
      ensures s == Done ==> (queued.Some? <==> Eventful(entries, old(disk), now, cooldown))
      ensures w.files ==> s == Done
    {
      hide Inv, Eligible, JobOk;
      queued := None;
      var event := NextEvent(entries, disk, now, cooldown);
      s := Attempt(w.files);
      if s == Done && event.Some? {
        var id, job := event.value.id, NewJob(event.value, now);
        ghost var was := disk;
        ghost var i :| 0 <= i < |entries| && Eligible(entries[i], disk, now, cooldown) && entries[i].event == event;
        EligibleMeans(entries[i], disk, now, cooldown);
        QueueKeepsInv(entries, disk, now, cooldown, i);
        s := Save(id, job, w);
        assert entries[i].stem == id && QueuesEntry(was, was[id := job], entries[i], now, cooldown);
        if id in disk { queued := event; }
      }
    }

    /**
      `main`: choose an event, queue it, and work on one active job; an older one comes
      before the new one.  `queued` and `worked` say which it did.
    */
    method Tick(entries: seq<Entry>, now: real, later: real, cooldown: int, healthy: Option<bool>, w: World)
      returns (ghost queued: Option<Event>, ghost worked: Option<string>)
      requires Inv(disk, cooldown)
      modifies this
      ensures Inv(disk, cooldown)
      ensures old(calls) <= calls && TickLeaves(old(disk), disk, calls[|old(calls)|..])
      ensures TickFrom(old(disk), disk, entries, now, cooldown)
      ensures forall id :: id in disk && id !in old(disk) ==>
        exists i :: 0 <= i < |entries| && entries[i].stem == id && Eligible(entries[i], old(disk), now, cooldown)
      ensures !(0 <= cooldown <= 86400) ==> disk == old(disk) && queued.None? && worked.None?
      ensures 0 <= cooldown <= 86400 ==>
        TickDoes(old(disk), disk, entries, now, later, cooldown, healthy, w, queued, worked)
    {
      hide Inv, Worked, TickLeaves, Eligible, Moves, JobOk, IsPullRequest, Timely, Known, Chosen, Unhealthy, Ends,
        Eventful, Queues, TickDoes, Did;
      ghost var was, before := disk, calls;
      queued, worked, killed := None, None, false;
      assert calls[|before|..] == [];
      assert Queues(was, was, entries, now, cooldown) by { NothingQueued(was, entries, now, cooldown); }
      QueuedTick(was, was, "", NewJob(Event("", "", 0), now));
      if cooldown < 0 || cooldown > 86400 { return; }
      var waiting := set id | id in disk && Active(disk[id].status);
      assert forall id :: Waits(disk, id) <==> id in waiting;
      var s, event := Enqueue(entries, now, cooldown, w);
      queued := event;
      var added := if event.Some? then event.value.id else "";
      ghost var job := NewJob(if event.Some? then event.value else Event("", "", 0), now);
      QueuedTick(was, disk, added, job);
      if s != Done || (waiting == {} && event.None?) {
        TickIdle(was, disk, entries, now, later, cooldown, healthy, w, queued);
        return;
      }
      var id := added;
      if waiting != {} { id :| id in waiting; }
      ghost var mid := disk;
      InvMeans(disk, id, cooldown);
      ghost var failed, last;
      s, failed, last := Process(id, later, healthy, w);
      worked := Some(id);
      WorkKeepsInv(mid, disk, id, cooldown);
      WorkedTick(was, mid, disk, added, job, id, calls[|before|..]);
      WorkedKeys(mid, disk, id);
      TickDid(was, mid, disk, entries, now, later, cooldown, healthy, w, event, id);
    }
  }
}
