/**
 * The Redis-backed email queue: three priority lists, a processing marker and
 * a result record per job, and retry with exponential backoff.
 *
 * A list is a sequence whose index 0 is the head (the LPUSH end) and whose
 * last element is the tail (the RPOP end). The store's keys with a TTL are
 * maps whose entries carry the time they expire.
 */
module EmailQueue {
  import opened Wrappers
  import opened EmailJobs

  const HighQueue: string := "queue:email:high"
  const NormalQueue: string := "queue:email:normal"
  const LowQueue: string := "queue:email:low"
  const ProcessingTTL: int := 300
  const ResultTTL: int := 86400

  datatype Tier = High | Normal | Low

  /** The list a job of this priority is pushed onto. */
  function TierOf(priority: int): Tier {
    if priority <= 0 then High else if priority <= 5 then Normal else Low
  }

  function QueueName(t: Tier): string {
    match t
    case High => HighQueue
    case Normal => NormalQueue
    case Low => LowQueue
  }

  /** A store value with the time its TTL runs out. */
  datatype Stored<T> = Stored(value: T, expiresAt: Time)

  function MarkerKey(id: string): string { "processing:email:" + id }
  function ResultKey(id: string): string { "results:email:" + id }

  /** Distinct job ids give distinct result keys (and likewise marker keys). */
  lemma ResultKeyInjective(a: string, b: string)
    requires ResultKey(a) == ResultKey(b)
    ensures a == b
  {
    var p := "results:email:";
    assert a == ResultKey(a)[|p|..];
    assert b == ResultKey(b)[|p|..];
  }

  /** The queue's part of the store. */
  datatype QueueState = QueueState(
    high: seq<Payload>,
    normal: seq<Payload>,
    low: seq<Payload>,
    markers: map<string, Stored<EmailJob>>,
    results: map<string, Stored<EmailJobResult>>)
  {
    function List(t: Tier): seq<Payload> {
      match t
      case High => high
      case Normal => normal
      case Low => low
    }

    function WithList(t: Tier, l: seq<Payload>): QueueState {
      match t
      case High => this.(high := l)
      case Normal => this.(normal := l)
      case Low => this.(low := l)
    }
  }

  /** Every job on list l routes to tier t. */
  ghost predicate RoutedTo(l: seq<Payload>, t: Tier) {
    forall i :: 0 <= i < |l| && l[i].Encoded? ==> TierOf(l[i].job.priority) == t
  }

  /** Every queued job sits on the list its priority routes it to. */
  ghost predicate Routed(s: QueueState) {
    RoutedTo(s.high, High) && RoutedTo(s.normal, Normal) && RoutedTo(s.low, Low)
  }

  lemma RoutedList(s: QueueState, t: Tier)
    requires Routed(s)
    ensures RoutedTo(s.List(t), t)
  {
  }

  lemma RoutedWithList(s: QueueState, t: Tier, l: seq<Payload>)
    requires Routed(s) && RoutedTo(l, t)
    ensures Routed(s.WithList(t, l))
  {
  }

  /** The order in which a list's elements leave it: tail first. */
  function PopOrder(l: seq<Payload>): seq<Payload> {
    if l == [] then [] else [l[|l| - 1]] + PopOrder(l[..|l| - 1])
  }

  /** Pushing at the head puts the new element last in line. */
  lemma {:induction false} PushJoinsLine(x: Payload, l: seq<Payload>)
    ensures PopOrder([x] + l) == PopOrder(l) + [x]
    decreases |l|
  {
    if l != [] {
      assert ([x] + l)[..|[x] + l| - 1] == [x] + l[..|l| - 1];
      PushJoinsLine(x, l[..|l| - 1]);
    }
  }

  /** Store failures that one call may meet, one flag per store command. */
  datatype Faults = Faults(
    popFails: bool,
    requeueFails: bool,
    markFails: bool,
    resultFails: bool,
    markerDelFails: bool,
    pushFails: bool)

  const NoFaults := Faults(false, false, false, false, false, false)

  /** QueueEmail's edits to the job: an id when it has none, and a fresh creation time always. */
  function Stamp(job: EmailJob, now: Time, freshId: string): EmailJob {
    job.(id := if job.id == "" then freshId else job.id, createdAt := now)
  }

  /** QueueEmail on the store: LPUSH the encoded job onto the list its priority selects. */
  function Enqueue(s: QueueState, job: EmailJob, now: Time, freshId: string, pushFails: bool): (QueueState, Option<string>) {
    if pushFails then (s, Some("failed to add job to queue"))
    else
      var t := TierOf(job.priority);
      (s.WithList(t, [Encode(Stamp(job, now, freshId))] + s.List(t)), None)
  }

  /**
   * Routing: with a working store exactly one list grows, by the stamped job at
   * its head; the tier is High for priority <= 0, Normal for 1..5, Low above.
   */
  lemma EnqueueRouting(s: QueueState, job: EmailJob, now: Time, freshId: string)
    ensures var (s', err) := Enqueue(s, job, now, freshId, false);
      && err == None
      && (job.priority <= 0 ==> s'.high == [Encoded(Stamp(job, now, freshId))] + s.high && s'.normal == s.normal && s'.low == s.low)
      && (0 < job.priority <= 5 ==> s'.normal == [Encoded(Stamp(job, now, freshId))] + s.normal && s'.high == s.high && s'.low == s.low)
      && (5 < job.priority ==> s'.low == [Encoded(Stamp(job, now, freshId))] + s.low && s'.high == s.high && s'.normal == s.normal)
      && s'.markers == s.markers && s'.results == s.results
  {
  }

  /** A failed push changes nothing. */
  lemma EnqueueFailureKeepsState(s: QueueState, job: EmailJob, now: Time, freshId: string)
    ensures Enqueue(s, job, now, freshId, true) == (s, Some("failed to add job to queue"))
  {
  }

  /** A non-empty id is kept, an empty one replaced; the creation time is always now, retries included. */
  lemma StampIdentity(job: EmailJob, now: Time, freshId: string)
    ensures Stamp(job, now, freshId).id == (if job.id != "" then job.id else freshId)
    ensures Stamp(job, now, freshId).createdAt == now
    ensures Stamp(job, now, freshId).(id := job.id, createdAt := job.createdAt) == job
  {
  }

  /** Within a list, jobs leave in the order they were enqueued. */
  lemma EnqueueJoinsLine(s: QueueState, job: EmailJob, now: Time, freshId: string)
    ensures var s' := Enqueue(s, job, now, freshId, false).0;
      PopOrder(s'.List(TierOf(job.priority))) == PopOrder(s.List(TierOf(job.priority))) + [Encoded(Stamp(job, now, freshId))]
  {
    PushJoinsLine(Encoded(Stamp(job, now, freshId)), s.List(TierOf(job.priority)));
  }

  lemma EnqueueKeepsRouted(s: QueueState, job: EmailJob, now: Time, freshId: string, pushFails: bool)
    requires Routed(s)
    ensures Routed(Enqueue(s, job, now, freshId, pushFails).0)
  {
    if !pushFails {
      var t := TierOf(job.priority);
      var l := [Encode(Stamp(job, now, freshId))] + s.List(t);
      RoutedList(s, t);
      assert forall i :: 0 < i < |l| ==> l[i] == s.List(t)[i - 1];
      RoutedWithList(s, t, l);
    }
  }

  /** The list BRPOP serves: the first non-empty one in the order high, normal, low. */
  function NextTier(s: QueueState): (r: Option<Tier>)
    ensures r.None? <==> s.high == [] && s.normal == [] && s.low == []
    ensures r.Some? ==> s.List(r.value) != []
    ensures r == Some(Normal) || r == Some(Low) ==> s.high == []
    ensures r == Some(Low) ==> s.normal == []
  {
    if s.high != [] then Some(High)
    else if s.normal != [] then Some(Normal)
    else if s.low != [] then Some(Low)
    else None
  }

  /** What the template renderer and the mail transport do with one job. */
  datatype SendOutcome = Delivered | RenderFailed(reason: string) | TransportFailed(reason: string)

  /**
   * processEmailJob: the result, and the job as it is afterwards (its template
   * map is shared with the caller, so the CurrentYear it adds stays on the job).
   */
  function ProcessEmailJob(job: EmailJob, outcome: SendOutcome, now: Time, year: int): (r: (EmailJobResult, EmailJob))
    ensures r.0.jobId == job.id
    ensures r.0.successful <==> job.templateFile != "" && outcome == Delivered
    ensures r.0.sentAt == (if r.0.successful then Some(now) else None)
    ensures job.templateFile == "" ==> r.0.error == "template file not specified" && r.1 == job
    ensures r.1.(templateData := job.templateData) == job
    ensures forall k :: k in job.templateData ==> k in r.1.templateData && r.1.templateData[k] == job.templateData[k]
    ensures job.templateFile != "" ==> "CurrentYear" in r.1.templateData
    ensures job.templateFile != "" && "CurrentYear" !in job.templateData ==>
      r.1.templateData == job.templateData["CurrentYear" := Num(year)]
    ensures "CurrentYear" in job.templateData ==> r.1.templateData == job.templateData
    ensures job.templateFile != "" && outcome.RenderFailed? ==> r.0.error == "template error: " + outcome.reason
    ensures job.templateFile != "" && outcome.TransportFailed? ==> r.0.error == outcome.reason
    ensures r.0.successful ==> r.0.error == ""
  {
    if job.templateFile == "" then
      (EmailJobResult(job.id, false, "template file not specified", None), job)
    else
      var data := if "CurrentYear" in job.templateData then job.templateData
                  else job.templateData["CurrentYear" := Num(year)];
      var job' := job.(templateData := data);
      match outcome
      case RenderFailed(e) => (EmailJobResult(job.id, false, "template error: " + e, None), job')
      case TransportFailed(e) => (EmailJobResult(job.id, false, e, None), job')
      case Delivered => (EmailJobResult(job.id, true, "", Some(now)), job')
  }

  function Pow2(n: nat): (r: nat)
    ensures r >= 1
  {
    if n == 0 then 1 else 2 * Pow2(n - 1)
  }

  /** `1 << uint(n)` seconds: a shift by a negative or a 64-or-more count gives 0. */
  function BackoffSeconds(n: int): nat {
    if n < 0 || n >= 64 then 0 else Pow2(n)
  }

  /** A failed job may go round again while its retry count is below its maximum. */
  predicate WillRetry(job: EmailJob) {
    job.retryCount < job.maxRetries
  }

  /** The job as it is re-enqueued after a failed attempt. */
  function RetryJob(job: EmailJob, lastError: string, now: Time): EmailJob {
    job.(retryCount := job.retryCount + 1,
         lastAttemptedAt := Some(now),
         lastError := lastError,
         processAfter := Some(now + BackoffSeconds(job.retryCount + 1)))
  }

  /** The n-th retry (counting from 1) waits 2^n seconds: 2, 4, 8, ... */
  lemma RetryBackoff(job: EmailJob, lastError: string, now: Time)
    requires 0 <= job.retryCount < 63
    ensures RetryJob(job, lastError, now).processAfter == Some(now + Pow2(job.retryCount + 1))
    ensures RetryJob(job, lastError, now).retryCount == job.retryCount + 1
    ensures !IsDue(RetryJob(job, lastError, now), now)
  {
  }

  /**
   * How many attempts a job gets if every attempt fails: this one, and one more
   * for each retry it is granted.
   */
  function AttemptsWhenAlwaysFailing(job: EmailJob, now: Time): (r: nat)
    ensures r == (if job.retryCount < job.maxRetries then job.maxRetries - job.retryCount else 0) + 1
    decreases job.maxRetries - job.retryCount
  {
    if WillRetry(job) then 1 + AttemptsWhenAlwaysFailing(RetryJob(job, "", now), now) else 1
  }

  /** A job enqueued with retry count 0 is attempted MaxRetries + 1 times if it always fails. */
  lemma AttemptsFromZero(job: EmailJob, now: Time)
    requires job.retryCount == 0 && job.maxRetries >= 0
    ensures AttemptsWhenAlwaysFailing(job, now) == job.maxRetries + 1
  {
  }

  /**
   * The due-job half of a poll, on the store as it is after the pop: mark the
   * job as in flight, process it, store its result, drop the marker, and
   * re-enqueue it if it failed with retries left.
   */
  function Deliver(s1: QueueState, job: EmailJob, now: Time, year: int, f: Faults, outcome: SendOutcome, retryId: string): (QueueState, Option<string>) {
    if f.markFails then (s1, Some("failed to mark job as processing"))
    else
      var s2 := s1.(markers := s1.markers[MarkerKey(job.id) := Stored(job, now + ProcessingTTL)]);
      var (res, job1) := ProcessEmailJob(job, outcome, now, year);
      if f.resultFails then (s2, Some("failed to save job result"))
      else
        var s3 := s2.(results := s2.results[ResultKey(job.id) := Stored(res, now + ResultTTL)]);
        var s4 := if f.markerDelFails then s3 else s3.(markers := s3.markers - {MarkerKey(job.id)});
        if !res.successful && WillRetry(job1) then Enqueue(s4, RetryJob(job1, res.error, now), now, retryId, f.pushFails)
        else (s4, None)
  }

  /** What a poll does with the element it popped from list t; s1 is the store after the pop. */
  function Dispatch(s1: QueueState, t: Tier, p: Payload, now: Time, year: int, f: Faults, outcome: SendOutcome, retryId: string): (QueueState, Option<string>) {
    match Decode(p)
    case Err(e) => (s1, Some(e))
    case Ok(job) =>
      if !IsDue(job, now) then
        if f.requeueFails then (s1, Some("failed to requeue delayed job"))
        else (s1.WithList(t, s1.List(t) + [Encode(job)]), None)
      else Deliver(s1, job, now, year, f, outcome, retryId)
  }

  /** ProcessEmailQueue on the store: one poll, with the given faults and send outcome. */
  function Poll(s: QueueState, now: Time, year: int, f: Faults, outcome: SendOutcome, retryId: string): (QueueState, Option<string>) {
    if f.popFails then (s, Some("failed to pop job from queue"))
    else match NextTier(s)
      case None => (s, None)
      case Some(t) =>
        var l := s.List(t);
        Dispatch(s.WithList(t, l[..|l| - 1]), t, l[|l| - 1], now, year, f, outcome, retryId)
  }

  /** The result a status lookup sees at time t. */
  function ResultAt(s: QueueState, id: string, t: Time): Option<EmailJobResult> {
    if ResultKey(id) in s.results && t < s.results[ResultKey(id)].expiresAt
    then Some(s.results[ResultKey(id)].value) else None
  }

  /** With all lists empty a poll returns no error and changes nothing. */
  lemma PollIdle(s: QueueState, now: Time, year: int, f: Faults, outcome: SendOutcome, retryId: string)
    requires s.high == [] && s.normal == [] && s.low == [] && !f.popFails
    ensures Poll(s, now, year, f, outcome, retryId) == (s, None)
  {
  }

  /**
   * A poll never takes a normal or low job while the high list holds one:
   * whatever happens, the normal and low lists are left as they were.
   */
  lemma PollServesHighFirst(s: QueueState, now: Time, year: int, f: Faults, outcome: SendOutcome, retryId: string)
    requires Routed(s) && s.high != []
    ensures Poll(s, now, year, f, outcome, retryId).0.normal == s.normal
    ensures Poll(s, now, year, f, outcome, retryId).0.low == s.low
  {
    var l := s.high;
    var s1 := s.WithList(High, l[..|l| - 1]);
    if !f.popFails {
      assert NextTier(s) == Some(High);
      var r := Dispatch(s1, High, l[|l| - 1], now, year, f, outcome, retryId);
      assert Poll(s, now, year, f, outcome, retryId) == r;
      if l[|l| - 1].Encoded? {
        var job := l[|l| - 1].job;
        assert TierOf(job.priority) == High;
        if IsDue(job, now) {
          assert r == Deliver(s1, job, now, year, f, outcome, retryId);
          DeliverKeepsOtherLists(s1, job, now, year, f, outcome, retryId, Normal);
          DeliverKeepsOtherLists(s1, job, now, year, f, outcome, retryId, Low);
        }
      }
    }
  }

  /** Delivering a job touches no list but its own (the one a retry goes back to). */
  lemma DeliverKeepsOtherLists(s1: QueueState, job: EmailJob, now: Time, year: int, f: Faults, outcome: SendOutcome, retryId: string, u: Tier)
    requires u != TierOf(job.priority)
    ensures Deliver(s1, job, now, year, f, outcome, retryId).0.List(u) == s1.List(u)
  {
  }

  /**
   * A job that is not yet due goes back to the pop end of its list: the poll is
   * a no-op, so the next poll meets the same job again and everything behind it waits.
   */
  lemma DeferredPollIsNoOp(s: QueueState, now: Time, year: int, f: Faults, outcome: SendOutcome, retryId: string)
    requires !f.popFails && !f.requeueFails && NextTier(s).Some?
    requires var l := s.List(NextTier(s).value); l[|l| - 1].Encoded? && !IsDue(l[|l| - 1].job, now)
    ensures Poll(s, now, year, f, outcome, retryId) == (s, None)
  {
    var t := NextTier(s).value;
    var l := s.List(t);
    var s1 := s.WithList(t, l[..|l| - 1]);
    assert s1.List(t) + [l[|l| - 1]] == l;
    assert s1.WithList(t, l) == s;
  }

  /** A popped element that is not a job is dropped: nothing is pushed back and an error is returned. */
  lemma MalformedJobIsLost(s: QueueState, now: Time, year: int, f: Faults, outcome: SendOutcome, retryId: string)
    requires !f.popFails && NextTier(s).Some?
    requires var l := s.List(NextTier(s).value); l[|l| - 1].Malformed?
    ensures var t := NextTier(s).value;
      var (s', err) := Poll(s, now, year, f, outcome, retryId);
      && err == Some("failed to deserialize email job")
      && s'.List(t) == s.List(t)[..|s.List(t)| - 1]
      && s'.markers == s.markers && s'.results == s.results
  {
  }

  /**
   * A due job is processed: its result is stored for 24 hours under its result
   * key, its marker removed, and a failed job with retries left re-enqueued on
   * its own list with one more retry, the error, and a backoff. A result write
   * failure returns early: the marker stays and nothing is retried.
   */
  lemma PollProcessesDueJob(s: QueueState, now: Time, year: int, f: Faults, outcome: SendOutcome, retryId: string)
    requires Routed(s) && !f.popFails && !f.markFails && NextTier(s).Some?
    requires var l := s.List(NextTier(s).value); l[|l| - 1].Encoded? && IsDue(l[|l| - 1].job, now)
    ensures var t := NextTier(s).value;
      var l := s.List(t);
      var job := l[|l| - 1].job;
      var (res, job1) := ProcessEmailJob(job, outcome, now, year);
      var (s', err) := Poll(s, now, year, f, outcome, retryId);
      && (f.resultFails ==>
            && err == Some("failed to save job result")
            && s'.results == s.results
            && s'.markers == s.markers[MarkerKey(job.id) := Stored(job, now + ProcessingTTL)]
            && s'.List(t) == l[..|l| - 1])
      && (!f.resultFails ==>
            && s'.results == s.results[ResultKey(job.id) := Stored(res, now + ResultTTL)]
            && (!f.markerDelFails ==> MarkerKey(job.id) !in s'.markers && s'.markers == s.markers - {MarkerKey(job.id)})
            && (f.markerDelFails ==> s'.markers == s.markers[MarkerKey(job.id) := Stored(job, now + ProcessingTTL)])
            && (res.successful || !WillRetry(job1) ==> err == None && s'.List(t) == l[..|l| - 1])
            && (!res.successful && WillRetry(job1) && f.pushFails ==>
                  err == Some("failed to add job to queue") && s'.List(t) == l[..|l| - 1])
            && (!res.successful && WillRetry(job1) && !f.pushFails ==>
                  && err == None
                  && s'.List(t) == [Encoded(Stamp(RetryJob(job1, res.error, now), now, retryId))] + l[..|l| - 1]))
  {
    var t := NextTier(s).value;
    var l := s.List(t);
    var job := l[|l| - 1].job;
    var s1 := s.WithList(t, l[..|l| - 1]);
    RoutedList(s, t);
    assert TierOf(job.priority) == t;
    assert Poll(s, now, year, f, outcome, retryId) == Deliver(s1, job, now, year, f, outcome, retryId);
    DeliverDueJob(s1, t, job, now, year, f, outcome, retryId);
  }

  /** Deliver on the store after the pop, for a job whose priority routes it to list t. */
  lemma DeliverDueJob(s1: QueueState, t: Tier, job: EmailJob, now: Time, year: int, f: Faults, outcome: SendOutcome, retryId: string)
    requires !f.markFails && TierOf(job.priority) == t
    ensures var (res, job1) := ProcessEmailJob(job, outcome, now, year);
      var (s', err) := Deliver(s1, job, now, year, f, outcome, retryId);
      && (f.resultFails ==>
            && err == Some("failed to save job result")
            && s'.results == s1.results
            && s'.markers == s1.markers[MarkerKey(job.id) := Stored(job, now + ProcessingTTL)]
            && s'.List(t) == s1.List(t))
      && (!f.resultFails ==>
            && s'.results == s1.results[ResultKey(job.id) := Stored(res, now + ResultTTL)]
            && (!f.markerDelFails ==> MarkerKey(job.id) !in s'.markers && s'.markers == s1.markers - {MarkerKey(job.id)})
            && (f.markerDelFails ==> s'.markers == s1.markers[MarkerKey(job.id) := Stored(job, now + ProcessingTTL)])
            && (res.successful || !WillRetry(job1) ==> err == None && s'.List(t) == s1.List(t))
            && (!res.successful && WillRetry(job1) && f.pushFails ==>
                  err == Some("failed to add job to queue") && s'.List(t) == s1.List(t))
            && (!res.successful && WillRetry(job1) && !f.pushFails ==>
                  && err == None
                  && s'.List(t) == [Encoded(Stamp(RetryJob(job1, res.error, now), now, retryId))] + s1.List(t)))
  {
  }

  /**
   * The job a failed delivery re-enqueues has one attempt fewer left, so a
   * job that fails on every poll is delivered AttemptsWhenAlwaysFailing times.
   */
  lemma RequeuedJobHasOneAttemptLess(job: EmailJob, outcome: SendOutcome, now: Time, year: int, retryId: string, later: Time)
    requires WillRetry(job)
    ensures var (res, job1) := ProcessEmailJob(job, outcome, now, year);
      AttemptsWhenAlwaysFailing(Stamp(RetryJob(job1, res.error, now), now, retryId), later) + 1
        == AttemptsWhenAlwaysFailing(job, now)
  {
  }

  /** Once a poll has stored a job's result, every lookup in the next 24 hours returns it. */
  lemma ResultLookupStable(s: QueueState, now: Time, year: int, outcome: SendOutcome, retryId: string, t: Time)
    requires NextTier(s).Some?
    requires var l := s.List(NextTier(s).value); l[|l| - 1].Encoded? && IsDue(l[|l| - 1].job, now)
    requires now <= t < now + ResultTTL
    ensures var l := s.List(NextTier(s).value);
      var job := l[|l| - 1].job;
      ResultAt(Poll(s, now, year, NoFaults, outcome, retryId).0, job.id, t)
        == Some(ProcessEmailJob(job, outcome, now, year).0)
  {
  }

  /** Every poll keeps each queued job on the list its priority routes it to. */
  lemma PollKeepsRouted(s: QueueState, now: Time, year: int, f: Faults, outcome: SendOutcome, retryId: string)
    requires Routed(s)
    ensures Routed(Poll(s, now, year, f, outcome, retryId).0)
  {
    if !f.popFails && NextTier(s).Some? {
      var t := NextTier(s).value;
      var l := s.List(t);
      var s1 := s.WithList(t, l[..|l| - 1]);
      RoutedList(s, t);
      RoutedWithList(s, t, l[..|l| - 1]);
      if l[|l| - 1].Encoded? {
        var job := l[|l| - 1].job;
        if !IsDue(job, now) {
          if !f.requeueFails {
            DeferredPollIsNoOp(s, now, year, f, outcome, retryId);
          }
        } else {
          DeliverKeepsRouted(s1, job, now, year, f, outcome, retryId);
        }
      }
    }
  }

  lemma DeliverKeepsRouted(s1: QueueState, job: EmailJob, now: Time, year: int, f: Faults, outcome: SendOutcome, retryId: string)
    requires Routed(s1)
    ensures Routed(Deliver(s1, job, now, year, f, outcome, retryId).0)
  {
    if !f.markFails && !f.resultFails {
      var (res, job1) := ProcessEmailJob(job, outcome, now, year);
      var s2 := s1.(markers := s1.markers[MarkerKey(job.id) := Stored(job, now + ProcessingTTL)]);
      var s3 := s2.(results := s2.results[ResultKey(job.id) := Stored(res, now + ResultTTL)]);
      var s4 := if f.markerDelFails then s3 else s3.(markers := s3.markers - {MarkerKey(job.id)});
      assert Routed(s4);
      if !res.successful && WillRetry(job1) {
        EnqueueKeepsRouted(s4, RetryJob(job1, res.error, now), now, retryId, f.pushFails);
      }
    }
  }

  /** The job builders: record construction, then QueueEmail. */
  function OtpText(otpType: string): (string, string, string) {
    match otpType
    case "registration" => ("Verify Your Email Address", "Email Verification",
      "Thank you for registering. Please use the following code to verify your email address.")
    case "password_reset" => ("Reset Your Password", "Password Reset Request",
      "We received a request to reset your password. Please use the following code to continue with your password reset.")
    case "2fa" => ("Two-Factor Authentication Code", "Login Authentication Code",
      "To complete your login, please enter the following verification code.")
    case _ => ("Verification Code", "Your Verification Code",
      "Please use the following code to verify your identity.")
  }

  function OtpJob(id: string, to: string, otp: string, otpType: string, now: Time, year: int): EmailJob {
    var (subject, title, message) := OtpText(otpType);
    EmailJob(id, OtpMail, to, subject, "otp_email.html",
      map["Title" := Str(title), "Message" := Str(message), "OTP" := Str(otp), "CurrentYear" := Num(year)],
      0, now, None, 0, 3, "", None)
  }

  function WelcomeJob(id: string, email: string, firstName: string, lastName: string,
                      password: string, orgName: string, now: Time, year: int): EmailJob {
    EmailJob(id, Welcome, email, "Welcome to " + orgName + " - Your Account Information", "welcome_email.html",
      map["Name" := Str(firstName + " " + lastName), "OrgName" := Str(orgName), "Email" := Str(email),
          "Password" := Str(password), "LoginURL" := Str("https://yourdomain.com/login"), "CurrentYear" := Num(year)],
      3, now, None, 0, 3, "", None)
  }

  function TicketConfirmationJob(id: string, to: string, name: string, eventName: string, ticketId: string,
                                 eventDate: string, eventTime: string, eventVenue: string, ticketType: string,
                                 barcodeImage: string, downloadUrl: string, now: Time, year: int): EmailJob {
    EmailJob(id, TicketConfirmation, to, "Your Ticket Confirmation for " + eventName, "ticket_confirmation.html",
      map["Name" := Str(name), "EventName" := Str(eventName), "TicketID" := Str(ticketId),
          "EventDate" := Str(eventDate), "EventTime" := Str(eventTime), "EventVenue" := Str(eventVenue),
          "TicketType" := Str(ticketType), "BarcodeImage" := Str(barcodeImage),
          "DownloadURL" := Str(downloadUrl), "CurrentYear" := Num(year)],
      1, now, None, 0, 3, "", None)
  }

  function EventNotificationJob(id: string, to: string, name: string, notificationType: string, message: string,
                                eventName: string, description: string, date: string, eventTime: string,
                                location: string, organizer: string, eventUrl: string, unsubscribeUrl: string,
                                now: Time, year: int): EmailJob {
    EmailJob(id, Notification, to, notificationType + ": " + eventName, "event_notification.html",
      map["Name" := Str(name), "NotificationType" := Str(notificationType), "NotificationMessage" := Str(message),
          "EventName" := Str(eventName), "EventDescription" := Str(description), "EventDate" := Str(date),
          "EventTime" := Str(eventTime), "EventLocation" := Str(location), "EventOrganizer" := Str(organizer),
          "EventURL" := Str(eventUrl), "UnsubscribeURL" := Str(unsubscribeUrl), "CurrentYear" := Num(year)],
      2, now, None, 0, 3, "", None)
  }

  function InvitationJob(id: string, to: string, name: string, orgName: string, orgDesc: string,
                         inviterName: string, roleName: string, rolePerms: string, acceptUrl: string,
                         declineUrl: string, expirationDate: string, now: Time, year: int): EmailJob {
    EmailJob(id, Invitation, to, "Invitation to Join " + orgName, "organization_invitation.html",
      map["Name" := Str(name), "OrganizationName" := Str(orgName), "OrganizationDescription" := Str(orgDesc),
          "InviterName" := Str(inviterName), "RoleName" := Str(roleName), "RoleSpecificPerms" := Str(rolePerms),
          "AcceptURL" := Str(acceptUrl), "DeclineURL" := Str(declineUrl),
          "ExpirationDate" := Str(expirationDate), "CurrentYear" := Num(year)],
      2, now, None, 0, 3, "", None)
  }

  /**
   * OTP mails go to the high list; welcome, ticket, notification and invitation
   * mails all go to the normal list. Every builder allows three retries.
   */
  lemma BuilderRouting(id: string, a: string, b: string, c: string, d: string, e: string, f: string,
                       g: string, h: string, i: string, j: string, k: string, l: string, now: Time, year: int)
    ensures TierOf(OtpJob(id, a, b, c, now, year).priority) == High
    ensures TierOf(WelcomeJob(id, a, b, c, d, e, now, year).priority) == Normal
    ensures TierOf(TicketConfirmationJob(id, a, b, c, d, e, f, g, h, i, j, now, year).priority) == Normal
    ensures TierOf(EventNotificationJob(id, a, b, c, d, e, f, g, h, i, j, k, l, now, year).priority) == Normal
    ensures TierOf(InvitationJob(id, a, b, c, d, e, f, g, h, i, j, now, year).priority) == Normal
    ensures OtpJob(id, a, b, c, now, year).maxRetries == 3 && OtpJob(id, a, b, c, now, year).retryCount == 0
  {
  }

  /** The queue service over its part of the store. */
  class EmailQueueService {
    var high: seq<Payload>
    var normal: seq<Payload>
    var low: seq<Payload>
    var markers: map<string, Stored<EmailJob>>
    var results: map<string, Stored<EmailJobResult>>

    function State(): QueueState
      reads this
    {
      QueueState(high, normal, low, markers, results)
    }

    constructor ()
      ensures State() == QueueState([], [], [], map[], map[])
    {
      high, normal, low := [], [], [];
      markers, results := map[], map[];
    }

    /** LPUSH onto the list of the given tier. */
    method PushHead(t: Tier, p: Payload)
      modifies this
      ensures State() == old(State()).WithList(t, [p] + old(State()).List(t))
    {
      match t
      case High => high := [p] + high;
      case Normal => normal := [p] + normal;
      case Low => low := [p] + low;
    }

    /** RPUSH onto the list of the given tier. */
    method PushTail(t: Tier, p: Payload)
      modifies this
      ensures State() == old(State()).WithList(t, old(State()).List(t) + [p])
    {
      match t
      case High => high := high + [p];
      case Normal => normal := normal + [p];
      case Low => low := low + [p];
    }

    /** RPOP from the list of the given tier. */
    method PopTail(t: Tier) returns (p: Payload)
      requires State().List(t) != []
      modifies this
      ensures p == old(State()).List(t)[|old(State()).List(t)| - 1]
      ensures State() == old(State()).WithList(t, old(State()).List(t)[..|old(State()).List(t)| - 1])
    {
      match t
      case High => p := high[|high| - 1]; high := high[..|high| - 1];
      case Normal => p := normal[|normal| - 1]; normal := normal[..|normal| - 1];
      case Low => p := low[|low| - 1]; low := low[..|low| - 1];
    }

    /** QueueEmail. `queued` is the job as the caller's struct holds it afterwards. */
    method QueueEmail(job: EmailJob, now: Time, freshId: string, pushFails: bool)
      returns (err: Option<string>, queued: EmailJob)
      modifies this
      ensures queued == Stamp(job, now, freshId)
      ensures (State(), err) == Enqueue(old(State()), job, now, freshId, pushFails)
    {
      queued := job;
      if queued.id == "" {
        queued := queued.(id := freshId);
      }
      queued := queued.(createdAt := now);
      var payload := Encode(queued);
      var t: Tier;
      if queued.priority <= 0 {
        t := High;
      } else if queued.priority <= 5 {
        t := Normal;
      } else {
        t := Low;
      }
      if pushFails {
        return Some("failed to add job to queue"), queued;
      }
      PushHead(t, payload);
      err := None;
    }

    /** ProcessEmailQueue: one non-blocking poll. */
    method ProcessEmailQueue(now: Time, year: int, f: Faults, outcome: SendOutcome, retryId: string)
      returns (err: Option<string>)
      modifies this
      ensures (State(), err) == Poll(old(State()), now, year, f, outcome, retryId)
    {
      if f.popFails {
        return Some("failed to pop job from queue");
      }
      var t: Tier;
      if high != [] {
        t := High;
      } else if normal != [] {
        t := Normal;
      } else if low != [] {
        t := Low;
      } else {
        return None;
      }
      var p := PopTail(t);
      var decoded := Decode(p);
      if decoded.Err? {
        return Some(decoded.msg);
      }
      var job := decoded.value;
      if !IsDue(job, now) {
        if f.requeueFails {
          return Some("failed to requeue delayed job");
        }
        PushTail(t, Encode(job));
        return None;
      }
      err := DeliverJob(job, now, year, f, outcome, retryId);
    }

    /** The part of ProcessEmailQueue that follows the pop of a due job. */
    method DeliverJob(job: EmailJob, now: Time, year: int, f: Faults, outcome: SendOutcome, retryId: string)
      returns (err: Option<string>)
      modifies this
      ensures (State(), err) == Deliver(old(State()), job, now, year, f, outcome, retryId)
    {
      if f.markFails {
        return Some("failed to mark job as processing");
      }
      markers := markers[MarkerKey(job.id) := Stored(job, now + ProcessingTTL)];
      var (res, job1) := ProcessEmailJob(job, outcome, now, year);
      if f.resultFails {
        return Some("failed to save job result");
      }
      results := results[ResultKey(job.id) := Stored(res, now + ResultTTL)];
      if !f.markerDelFails {
        markers := markers - {MarkerKey(job.id)};
      }
      if !res.successful && job1.retryCount < job1.maxRetries {
        var retry := job1.(retryCount := job1.retryCount + 1);
        retry := retry.(lastAttemptedAt := Some(now));
        retry := retry.(lastError := res.error);
        retry := retry.(processAfter := Some(now + BackoffSeconds(retry.retryCount)));
        var queued;
        err, queued := QueueEmail(retry, now, retryId, f.pushFails);
        return;
      }
      return None;
    }

    method QueueOTPEmail(to: string, otp: string, otpType: string, id: string, now: Time, year: int, pushFails: bool)
      returns (err: Option<string>)
      modifies this
      ensures (State(), err) == Enqueue(old(State()), OtpJob(id, to, otp, otpType, now, year), now, id, pushFails)
    {
      var queued;
      err, queued := QueueEmail(OtpJob(id, to, otp, otpType, now, year), now, id, pushFails);
    }

    method QueueWelcomeEmail(email: string, firstName: string, lastName: string, password: string, orgName: string,
                             id: string, now: Time, year: int, pushFails: bool)
      returns (err: Option<string>)
      modifies this
      ensures (State(), err) == Enqueue(old(State()), WelcomeJob(id, email, firstName, lastName, password, orgName, now, year), now, id, pushFails)
    {
      var queued;
      err, queued := QueueEmail(WelcomeJob(id, email, firstName, lastName, password, orgName, now, year), now, id, pushFails);
    }

    method QueueTicketConfirmationEmail(to: string, name: string, eventName: string, ticketId: string,
                                        eventDate: string, eventTime: string, eventVenue: string, ticketType: string,
                                        barcodeImage: string, downloadUrl: string,
                                        id: string, now: Time, year: int, pushFails: bool)
      returns (err: Option<string>)
      modifies this
      ensures (State(), err) == Enqueue(old(State()),
        TicketConfirmationJob(id, to, name, eventName, ticketId, eventDate, eventTime, eventVenue, ticketType, barcodeImage, downloadUrl, now, year),
        now, id, pushFails)
    {
      var job := TicketConfirmationJob(id, to, name, eventName, ticketId, eventDate, eventTime, eventVenue, ticketType, barcodeImage, downloadUrl, now, year);
      var queued;
      err, queued := QueueEmail(job, now, id, pushFails);
    }

    method QueueEventNotificationEmail(to: string, name: string, notificationType: string, message: string,
                                       eventName: string, description: string, date: string, eventTime: string,
                                       location: string, organizer: string, eventUrl: string, unsubscribeUrl: string,
                                       id: string, now: Time, year: int, pushFails: bool)
      returns (err: Option<string>)
      modifies this
      ensures (State(), err) == Enqueue(old(State()),
        EventNotificationJob(id, to, name, notificationType, message, eventName, description, date, eventTime, location, organizer, eventUrl, unsubscribeUrl, now, year),
        now, id, pushFails)
    {
      var job := EventNotificationJob(id, to, name, notificationType, message, eventName, description, date, eventTime, location, organizer, eventUrl, unsubscribeUrl, now, year);
      var queued;
      err, queued := QueueEmail(job, now, id, pushFails);
    }

    method QueueOrganizationInvitationEmail(to: string, name: string, orgName: string, orgDesc: string,
                                            inviterName: string, roleName: string, rolePerms: string,
                                            acceptUrl: string, declineUrl: string, expirationDate: string,
                                            id: string, now: Time, year: int, pushFails: bool)
      returns (err: Option<string>)
      modifies this
      ensures (State(), err) == Enqueue(old(State()),
        InvitationJob(id, to, name, orgName, orgDesc, inviterName, roleName, rolePerms, acceptUrl, declineUrl, expirationDate, now, year),
        now, id, pushFails)
    {
      var job := InvitationJob(id, to, name, orgName, orgDesc, inviterName, roleName, rolePerms, acceptUrl, declineUrl, expirationDate, now, year);
      var queued;
      err, queued := QueueEmail(job, now, id, pushFails);
    }
  }
}
