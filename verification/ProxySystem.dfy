/** The whole proxy as a step system: any number of client connections in front of one dual writer.

Composes the sessions of `ProxySession` with the protocol of `RetryProtocol`, all interleavings
allowed. The source is assumed to answer each forwarded frame once, on its stream, and to push no
EVENT frames; whether a forwarded frame took effect on the source is the source's choice.
*/
module ProxySystem {
  import opened MachineIntegers
  import Clusters
  import BlacklistFilter
  import opened Codec
  import opened QueryText
  import opened RetryProtocol
  import opened RetryInvariant
  import opened RetryTheorems
  import opened DualWriterService
  import opened ProxySession

  type ConnId = nat
  /** A client frame; a dual-written frame uses its own number for its `write()` call. */
  type JobId = WriteId

  datatype Stage =
    | Writing                       // waiting for `write()` to return
    | Forwarding                    // sent to the source, waiting for its answer
    | Answered(response: seq<byte>)

  datatype Job = Job(conn: ConnId, frame: Frame, plan: Plan, stage: Stage)

  /** A connection handles one frame at a time. */
  datatype Conn = Conn(prepared: Prepared, requests: seq<JobId>, responses: seq<seq<byte>>)

  datatype System = System(
    writer: State,
    jobs: map<JobId, Job>,
    conns: map<ConnId, Conn>,
    forwardAcks: multiset<JobId>,  // forwarded frames that took effect on the source
    answers: map<JobId, Frame>)    // what the source answered to forwarded frames

  datatype Action =
    | Connect(c: ConnId)
    | Receive(c: ConnId, j: JobId, frame: Frame)
    | WriterStep(step: Step)
    | WriteReturned(j: JobId)
    | SourceAnswers(j: JobId, answer: Frame, effect: bool)

  function Start(settings: Settings): System {
    System(Initial(settings), map[], map[], multiset{}, map[])
  }

  predicate AtStage(s: System, j: JobId, stage: Stage) {
    j in s.jobs && s.jobs[j].stage == stage && s.jobs[j].conn in s.conns
  }

  predicate Permitted(s: System, a: Action) {
    match a
    case Connect(c) => c !in s.conns
    case Receive(c, j, frame) =>
      && c in s.conns && |s.conns[c].requests| == |s.conns[c].responses|
      && j !in s.jobs && j !in s.writer.calls
      && WellFormed(frame) && Readable(frame)
    case WriterStep(step) => !step.Begin? && Enabled(s.writer, step)
    case WriteReturned(j) =>
      AtStage(s, j, Writing) && j in s.writer.calls && s.writer.calls[j].phase.Returned?
    case SourceAnswers(j, answer, _) =>
      && AtStage(s, j, Forwarding)
      && Readable(s.jobs[j].frame)
      && WellFormed(answer) && answer.header.streamId == s.jobs[j].frame.header.streamId
      && ReadableResponse(s.jobs[j].frame, FrameBytes(answer))
  }

  /** The answer goes to the client and the session becomes ready for the next frame. */
  function Respond(s: System, j: JobId, response: seq<byte>, prepared: Prepared): System
    requires j in s.jobs && s.jobs[j].conn in s.conns
  {
    var c := s.jobs[j].conn;
    s.(jobs := s.jobs[j := s.jobs[j].(stage := Answered(response))],
       conns := s.conns[c := s.conns[c].(prepared := prepared, responses := s.conns[c].responses + [response])])
  }

  function DoReceive(s: System, c: ConnId, j: JobId, frame: Frame): System
    requires Permitted(s, Receive(c, j, frame))
  {
    var plan := PlanFor(s.conns[c].prepared, frame);
    var conns := s.conns[c := s.conns[c].(requests := s.conns[c].requests + [j])];
    match plan
    case Forward =>
      s.(jobs := s.jobs[j := Job(c, frame, plan, Forwarding)], conns := conns)
    case DualWrite(query, table) =>
      s.(jobs := s.jobs[j := Job(c, frame, plan, Writing)], conns := conns,
         writer := Do(s.writer, Begin(j, query, table)))
  }

  /** The source acknowledged: VOID at once. It refused: fall back to forwarding. */
  function DoWriteReturned(s: System, j: JobId): System
    requires Permitted(s, WriteReturned(j))
  {
    var job := s.jobs[j];
    if s.writer.calls[j].phase.sourceOk then
      Respond(s, j, FrameBytes(VoidResult(job.frame.header.streamId)), s.conns[job.conn].prepared)
    else
      s.(jobs := s.jobs[j := job.(stage := Forwarding)])
  }

  function DoSourceAnswers(s: System, j: JobId, answer: Frame, effect: bool): System
    requires Permitted(s, SourceAnswers(j, answer, effect))
  {
    var job := s.jobs[j];
    var response := FrameBytes(answer);
    Respond(s, j, response, Track(s.conns[job.conn].prepared, job.frame, response))
      .(forwardAcks := if effect then s.forwardAcks + multiset{j} else s.forwardAcks,
        answers := s.answers[j := answer])
  }

  function Act(s: System, a: Action): System
    requires Permitted(s, a)
  {
    match a
    case Connect(c) => s.(conns := s.conns[c := Conn(map[], [], [])])
    case Receive(c, j, frame) => DoReceive(s, c, j, frame)
    case WriterStep(step) => s.(writer := Do(s.writer, step))
    case WriteReturned(j) => DoWriteReturned(s, j)
    case SourceAnswers(j, answer, effect) => DoSourceAnswers(s, j, answer, effect)
  }

  predicate CanAct(s: System, actions: seq<Action>)
    decreases |actions|
  {
    actions == [] || (Permitted(s, actions[0]) && CanAct(Act(s, actions[0]), actions[1..]))
  }

  function After(s: System, actions: seq<Action>): System
    requires CanAct(s, actions)
    decreases |actions|
  {
    if actions == [] then s else After(Act(s, actions[0]), actions[1..])
  }

  ghost predicate ReachableSystem(s: System) {
    exists settings: Settings, actions: seq<Action> ::
      ValidSettings(settings) && CanAct(Start(settings), actions) && s == After(Start(settings), actions)
  }

  // ---------------------------------------------------------------------------
  // The invariant
  // ---------------------------------------------------------------------------

  /** What the frame's own text says about its plan: a QUERY is dual-written exactly when it is a write, to the
      table its text names; only QUERY and EXECUTE can be dual-written. */
  ghost predicate PlanFits(job: Job)
    requires Readable(job.frame)
  {
    && (job.frame.header.opcode == OP_QUERY ==>
          var query := QueryOf(job.frame);
          job.plan == if IsWrite(query) then DualWrite(query, Target(query)) else Forward)
    && (job.frame.header.opcode != OP_QUERY && job.frame.header.opcode != OP_EXECUTE ==> job.plan == Forward)
  }

  /** A job and the `write()` call made for it. */
  ghost predicate JobInv(job: Job, calls: map<WriteId, Call>, acks: multiset<JobId>, j: JobId) {
    && Readable(job.frame)
    && PlanFits(job)
    && (j in calls <==> job.plan.DualWrite?)
    && (job.stage.Writing? ==> job.plan.DualWrite?)
    && (job.stage.Forwarding? && job.plan.DualWrite? ==>
          calls[j].phase.Returned? && !calls[j].phase.sourceOk)
    && acks[j] <= 1
    && (acks[j] > 0 ==> job.stage.Answered?)
    && (acks[j] > 0 && job.plan.DualWrite? ==> calls[j].phase.Returned? && !calls[j].phase.sourceOk)
    && (job.stage.Answered? && job.plan.DualWrite? ==> calls[j].phase.Returned?)
    && (job.stage.Answered? && job.plan.DualWrite? && calls[j].phase.sourceOk ==>
          job.stage.response == FrameBytes(VoidResult(job.frame.header.streamId)))
    && (job.plan.DualWrite? ==> calls[j].cql == job.plan.query && calls[j].table == job.plan.table)
  }

  ghost predicate JobsInv(jobs: map<JobId, Job>, calls: map<WriteId, Call>, acks: multiset<JobId>) {
    && (forall j :: j in jobs ==> JobInv(jobs[j], calls, acks, j))
    && (forall j :: j !in jobs ==> j !in calls && acks[j] == 0)
  }

  /** The i-th response answers the i-th request, on its stream. */
  ghost predicate ConnInv(conn: Conn, jobs: map<JobId, Job>, c: ConnId) {
    && |conn.responses| <= |conn.requests| <= |conn.responses| + 1
    && (forall i :: 0 <= i < |conn.requests| ==> conn.requests[i] in jobs && jobs[conn.requests[i]].conn == c)
    && (forall i :: 0 <= i < |conn.responses| ==>
          && jobs[conn.requests[i]].stage == Answered(conn.responses[i])
          && OnStream(conn.responses[i], jobs[conn.requests[i]].frame.header.streamId))
    && (forall i :: |conn.responses| <= i < |conn.requests| ==> !jobs[conn.requests[i]].stage.Answered?)
    && (forall i, k :: 0 <= i < k < |conn.requests| ==> conn.requests[i] != conn.requests[k])
  }

  /** The bytes are one frame of the given stream. */
  ghost predicate OnStream(response: seq<byte>, streamId: int16) {
    exists f :: WellFormed(f) && response == FrameBytes(f) && f.header.streamId == streamId
  }

  ghost predicate ConnsInv(conns: map<ConnId, Conn>, jobs: map<JobId, Job>) {
    forall c :: c in conns ==> ConnInv(conns[c], jobs, c)
  }

  /** Every open job is the last request of its connection. */
  ghost predicate OpenInv(conns: map<ConnId, Conn>, jobs: map<JobId, Job>) {
    forall j :: j in jobs ==>
      && jobs[j].conn in conns
      && (!jobs[j].stage.Answered? ==>
            var conn := conns[jobs[j].conn];
            |conn.requests| == |conn.responses| + 1 && conn.requests[|conn.responses|] == j)
  }

  /** What the connection has seen so far. */
  ghost function HistoryOf(conn: Conn, jobs: map<JobId, Job>): (history: seq<Exchange>)
    requires |conn.responses| <= |conn.requests|
    requires forall i :: 0 <= i < |conn.responses| ==> conn.requests[i] in jobs
    ensures |history| == |conn.responses|
  {
    seq(|conn.responses|, i requires 0 <= i < |conn.responses| =>
      Exchange(jobs[conn.requests[i]].frame, conn.responses[i]))
  }

  /** The tracker is what the history makes of it. */
  ghost predicate TrackerInv(conn: Conn, jobs: map<JobId, Job>) {
    && |conn.responses| <= |conn.requests|
    && (forall i :: 0 <= i < |conn.responses| ==> conn.requests[i] in jobs)
    && ReadableHistory(HistoryOf(conn, jobs))
    && conn.prepared == TrackAll(HistoryOf(conn, jobs))
  }

  ghost predicate TrackersInv(conns: map<ConnId, Conn>, jobs: map<JobId, Job>) {
    forall c :: c in conns ==> TrackerInv(conns[c], jobs)
  }

  /** The frame with number `i` was planned by what the connection had seen before it. */
  ghost predicate PlanAt(history: seq<Exchange>, i: nat, job: Job) {
    && Readable(job.frame) && i <= |history| && ReadableHistory(history[..i])
    && job.plan == PlanFor(TrackAll(history[..i]), job.frame)
  }

  ghost predicate PlanInv(conn: Conn, jobs: map<JobId, Job>) {
    && |conn.responses| <= |conn.requests|
    && (forall i :: 0 <= i < |conn.requests| ==> conn.requests[i] in jobs)
    && (forall i :: 0 <= i < |conn.requests| ==> PlanAt(HistoryOf(conn, jobs), i, jobs[conn.requests[i]]))
  }

  ghost predicate PlansInv(conns: map<ConnId, Conn>, jobs: map<JobId, Job>) {
    forall c :: c in conns ==> PlanInv(conns[c], jobs)
  }

  /** The proxy itself answers a frame whose dual write the source acknowledged. */
  ghost predicate AnsweredByProxy(job: Job, calls: map<WriteId, Call>, j: JobId) {
    job.plan.DualWrite? && j in calls && calls[j].phase.Returned? && calls[j].phase.sourceOk
  }

  /** Every other response is the source's own answer. */
  ghost predicate AnswersInv(jobs: map<JobId, Job>, calls: map<WriteId, Call>, answers: map<JobId, Frame>) {
    forall j :: j in jobs && jobs[j].stage.Answered? && !AnsweredByProxy(jobs[j], calls, j) ==>
      j in answers && jobs[j].stage.response == FrameBytes(answers[j])
  }

  ghost predicate SystemInv(s: System) {
    && Reachable(s.writer) && JobsInv(s.jobs, s.writer.calls, s.forwardAcks)
    && ConnsInv(s.conns, s.jobs) && OpenInv(s.conns, s.jobs) && TrackersInv(s.conns, s.jobs)
    && PlansInv(s.conns, s.jobs) && AnswersInv(s.jobs, s.writer.calls, s.answers)
  }

  lemma StartInv(settings: Settings)
    requires ValidSettings(settings)
    ensures SystemInv(Start(settings))
  {
    hide Reachable;
    InitialReachable(settings);
  }

  // ---------------------------------------------------------------------------
  // Writer steps
  // ---------------------------------------------------------------------------

  /** A writer step never reopens, forgets or rewrites a call. */
  lemma WriterFrame(s: State, step: Step)
    requires Enabled(s, step) && !step.Begin?
    ensures var t := Do(s, step);
            && t.calls.Keys == s.calls.Keys
            && forall w :: w in s.calls ==>
                 && t.calls[w].cql == s.calls[w].cql && t.calls[w].table == s.calls[w].table
                 && (s.calls[w].phase.Returned? ==> t.calls[w] == s.calls[w])
  {
    hide BlacklistFilter.Rules.Skips, Settle, DoProcess, RetryEntry;
    if step.Process? {
      ProcessFrame(s, step.id, step.reply);
    }
  }

  lemma JobsWriterFrame(jobs: map<JobId, Job>, calls: map<WriteId, Call>, acks: multiset<JobId>,
                        calls': map<WriteId, Call>)
    requires JobsInv(jobs, calls, acks)
    requires calls'.Keys == calls.Keys
    requires forall w :: w in calls ==>
               && calls'[w].cql == calls[w].cql && calls'[w].table == calls[w].table
               && (calls[w].phase.Returned? ==> calls'[w] == calls[w])
    ensures JobsInv(jobs, calls', acks)
  {
    forall j | j in jobs ensures JobInv(jobs[j], calls', acks, j) {
      assert JobInv(jobs[j], calls, acks, j);
    }
  }

  lemma AnswersWriterFrame(jobs: map<JobId, Job>, calls: map<WriteId, Call>, acks: multiset<JobId>,
                           answers: map<JobId, Frame>, calls': map<WriteId, Call>)
    requires JobsInv(jobs, calls, acks) && AnswersInv(jobs, calls, answers)
    requires forall w :: w in calls && calls[w].phase.Returned? ==> w in calls' && calls'[w] == calls[w]
    ensures AnswersInv(jobs, calls', answers)
  {
    hide FrameBytes, Readable, PlanFits;
    forall j | j in jobs && jobs[j].stage.Answered? && !AnsweredByProxy(jobs[j], calls', j)
      ensures j in answers && jobs[j].stage.response == FrameBytes(answers[j])
    {
      assert JobInv(jobs[j], calls, acks, j);
      assert !AnsweredByProxy(jobs[j], calls, j);
    }
  }

  /** A change confined to job `j`. */
  lemma AnswersFrame(jobs: map<JobId, Job>, calls: map<WriteId, Call>, answers: map<JobId, Frame>,
                     j: JobId, job: Job, calls': map<WriteId, Call>, answers': map<JobId, Frame>)
    requires AnswersInv(jobs, calls, answers)
    requires forall i :: i != j ==> (i in calls' <==> i in calls) && (i in answers ==> i in answers')
    requires forall i :: i != j && i in calls ==> calls'[i] == calls[i]
    requires forall i :: i != j && i in answers ==> answers'[i] == answers[i]
    requires job.stage.Answered? && !AnsweredByProxy(job, calls', j) ==>
               j in answers' && job.stage.response == FrameBytes(answers'[j])
    ensures AnswersInv(jobs[j := job], calls', answers')
  {
    hide FrameBytes;
  }

  lemma WriterStepKeeps(s: System, step: Step)
    requires SystemInv(s) && Permitted(s, WriterStep(step))
    ensures SystemInv(Act(s, WriterStep(step)))
  {
    hide Reachable, JobsInv, ConnsInv, OpenInv, TrackersInv, PlansInv, AnswersInv, Do, Enabled;
    ReachableStep(s.writer, step);
    WriterFrame(s.writer, step);
    JobsWriterFrame(s.jobs, s.writer.calls, s.forwardAcks, Do(s.writer, step).calls);
    AnswersWriterFrame(s.jobs, s.writer.calls, s.forwardAcks, s.answers, Do(s.writer, step).calls);
  }

  // ---------------------------------------------------------------------------
  // Session steps
  // ---------------------------------------------------------------------------

  /** A change confined to job `j` keeps what holds of every other job. */
  lemma JobsFrame(jobs: map<JobId, Job>, calls: map<WriteId, Call>, acks: multiset<JobId>,
                  j: JobId, job: Job, calls': map<WriteId, Call>, acks': multiset<JobId>)
    requires JobsInv(jobs, calls, acks)
    requires forall i :: i != j ==> (i in calls' <==> i in calls) && acks'[i] == acks[i]
    requires forall i :: i in calls && i != j ==> calls'[i] == calls[i]
    requires JobInv(job, calls', acks', j)
    ensures JobsInv(jobs[j := job], calls', acks')
  {
    var after := jobs[j := job];
    forall i | i in after ensures JobInv(after[i], calls', acks', i) {
      if i != j {
        assert JobInv(jobs[i], calls, acks, i);
      }
    }
  }

  /** A new open job at the end of an idle connection. */
  lemma OpenJob(conns: map<ConnId, Conn>, jobs: map<JobId, Job>, c: ConnId, j: JobId, job: Job)
    requires ConnsInv(conns, jobs) && OpenInv(conns, jobs)
    requires c in conns && |conns[c].requests| == |conns[c].responses|
    requires j !in jobs && job.conn == c && !job.stage.Answered?
    ensures var conns' := conns[c := conns[c].(requests := conns[c].requests + [j])];
            ConnsInv(conns', jobs[j := job]) && OpenInv(conns', jobs[j := job])
  {
    hide ConnsInv;
    OpenConns(conns, jobs, c, j, job);
    var conns' := conns[c := conns[c].(requests := conns[c].requests + [j])];
    assert conns'[c].requests[|conns'[c].responses|] == j;
  }

  lemma OpenConns(conns: map<ConnId, Conn>, jobs: map<JobId, Job>, c: ConnId, j: JobId, job: Job)
    requires ConnsInv(conns, jobs)
    requires c in conns && |conns[c].requests| == |conns[c].responses|
    requires j !in jobs && job.conn == c && !job.stage.Answered?
    ensures ConnsInv(conns[c := conns[c].(requests := conns[c].requests + [j])], jobs[j := job])
  {
    hide ConnInv;
    var conns' := conns[c := conns[c].(requests := conns[c].requests + [j])];
    forall d | d in conns' ensures ConnInv(conns'[d], jobs[j := job], d) {
      if d == c {
        OpenConn(conns[c], jobs, c, j, job);
      } else {
        OtherConn(conns[d], jobs, d, j, job);
      }
    }
  }

  lemma OpenConn(conn: Conn, jobs: map<JobId, Job>, c: ConnId, j: JobId, job: Job)
    requires ConnInv(conn, jobs, c) && |conn.requests| == |conn.responses|
    requires j !in jobs && job.conn == c && !job.stage.Answered?
    ensures ConnInv(conn.(requests := conn.requests + [j]), jobs[j := job], c)
  {
    hide OnStream;
  }

  /** A job of another connection does not concern this one. */
  lemma OtherConn(conn: Conn, jobs: map<JobId, Job>, c: ConnId, j: JobId, job: Job)
    requires ConnInv(conn, jobs, c) && (j in jobs ==> jobs[j].conn != c)
    ensures ConnInv(conn, jobs[j := job], c)
  {
    hide OnStream;
  }

  /** Trackers depend only on the frames and the responses. */
  lemma TrackersFrame(conns: map<ConnId, Conn>, jobs: map<JobId, Job>,
                      conns': map<ConnId, Conn>, jobs': map<JobId, Job>)
    requires TrackersInv(conns, jobs)
    requires conns'.Keys == conns.Keys
    requires forall c :: c in conns ==>
               && conns[c].requests <= conns'[c].requests
               && conns'[c].responses == conns[c].responses && conns'[c].prepared == conns[c].prepared
    requires forall j :: j in jobs ==> j in jobs' && jobs'[j].frame == jobs[j].frame
    ensures TrackersInv(conns', jobs')
  {
    hide TrackAll, ReadableHistory;
    forall c | c in conns' ensures TrackerInv(conns'[c], jobs') {
      assert TrackerInv(conns[c], jobs);
      assert HistoryOf(conns'[c], jobs') == HistoryOf(conns[c], jobs);
    }
  }

  /** Plans stay while frames and requests do and responses only grow. */
  lemma PlansFrame(conns: map<ConnId, Conn>, jobs: map<JobId, Job>,
                   conns': map<ConnId, Conn>, jobs': map<JobId, Job>)
    requires PlansInv(conns, jobs)
    requires conns'.Keys == conns.Keys
    requires forall c :: c in conns ==>
               && conns'[c].requests == conns[c].requests && conns[c].responses <= conns'[c].responses
               && |conns'[c].responses| <= |conns'[c].requests|
    requires forall j :: j in jobs ==> j in jobs' && jobs'[j].frame == jobs[j].frame && jobs'[j].plan == jobs[j].plan
    ensures PlansInv(conns', jobs')
  {
    hide PlanAt;
    forall c | c in conns' ensures PlanInv(conns'[c], jobs') {
      assert PlanInv(conns[c], jobs);
      var before, after := HistoryOf(conns[c], jobs), HistoryOf(conns'[c], jobs');
      forall i | 0 <= i < |conns'[c].requests| ensures PlanAt(after, i, jobs'[conns'[c].requests[i]]) {
        PlanStands(before, after, i, jobs[conns[c].requests[i]], jobs'[conns[c].requests[i]]);
      }
    }
  }

  lemma PlanStands(before: seq<Exchange>, after: seq<Exchange>, i: nat, job: Job, job': Job)
    requires PlanAt(before, i, job) && before <= after && job'.frame == job.frame && job'.plan == job.plan
    ensures PlanAt(after, i, job')
  {
    hide PlanFor, TrackAll, ReadableHistory, Readable;
    assert after[..i] == before[..i];
  }

  /** A new frame is planned by the tracker, which is what the history makes of it. */
  lemma PlanNew(conns: map<ConnId, Conn>, jobs: map<JobId, Job>, c: ConnId, j: JobId, job: Job)
    requires PlansInv(conns, jobs) && TrackersInv(conns, jobs)
    requires c in conns && |conns[c].requests| == |conns[c].responses| && j !in jobs
    requires Readable(job.frame) && job.plan == PlanFor(conns[c].prepared, job.frame)
    ensures PlansInv(conns[c := conns[c].(requests := conns[c].requests + [j])], jobs[j := job])
  {
    hide PlanAt, TrackAll, ReadableHistory, Readable, PlanFor;
    var conns', jobs' := conns[c := conns[c].(requests := conns[c].requests + [j])], jobs[j := job];
    forall d | d in conns' ensures PlanInv(conns'[d], jobs') {
      assert PlanInv(conns[d], jobs) && TrackerInv(conns[d], jobs);
      var history := HistoryOf(conns[d], jobs);
      assert HistoryOf(conns'[d], jobs') == history;
      forall i | 0 <= i < |conns'[d].requests| ensures PlanAt(history, i, jobs'[conns'[d].requests[i]]) {
        if i == |conns[d].requests| {
          PlanLast(history, conns[d].prepared, job);
        } else {
          assert conns'[d].requests[i] == conns[d].requests[i] != j;
        }
      }
    }
  }

  lemma PlanLast(history: seq<Exchange>, prepared: Prepared, job: Job)
    requires ReadableHistory(history) && prepared == TrackAll(history)
    requires Readable(job.frame) && job.plan == PlanFor(prepared, job.frame)
    ensures PlanAt(history, |history|, job)
  {
    assert history[..|history|] == history;
  }

  /** An open job changes stage without being answered. */
  lemma Restage(conns: map<ConnId, Conn>, jobs: map<JobId, Job>, j: JobId, stage: Stage)
    requires ConnsInv(conns, jobs) && OpenInv(conns, jobs)
    requires j in jobs && !jobs[j].stage.Answered? && !stage.Answered?
    ensures var jobs' := jobs[j := jobs[j].(stage := stage)];
            ConnsInv(conns, jobs') && OpenInv(conns, jobs')
  {
    hide ConnInv;
    var jobs' := jobs[j := jobs[j].(stage := stage)];
    forall d | d in conns ensures ConnInv(conns[d], jobs', d) {
      RestageConn(conns[d], jobs, d, j, stage);
    }
  }

  lemma RestageConn(conn: Conn, jobs: map<JobId, Job>, c: ConnId, j: JobId, stage: Stage)
    requires ConnInv(conn, jobs, c) && j in jobs && !jobs[j].stage.Answered? && !stage.Answered?
    ensures ConnInv(conn, jobs[j := jobs[j].(stage := stage)], c)
  {
    hide OnStream;
  }

  /** Answering the open job of a connection. */
  lemma CloseJob(s: System, j: JobId, response: seq<byte>, prepared: Prepared)
    requires ConnsInv(s.conns, s.jobs) && OpenInv(s.conns, s.jobs)
    requires j in s.jobs && s.jobs[j].conn in s.conns && !s.jobs[j].stage.Answered?
    requires OnStream(response, s.jobs[j].frame.header.streamId)
    ensures var t := Respond(s, j, response, prepared);
            ConnsInv(t.conns, t.jobs) && OpenInv(t.conns, t.jobs)
  {
    hide ConnsInv, OnStream;
    CloseConns(s, j, response, prepared);
    OneOpenJob(s.conns, s.jobs, j);
  }

  /** No two open jobs share a connection. */
  lemma OneOpenJob(conns: map<ConnId, Conn>, jobs: map<JobId, Job>, j: JobId)
    requires OpenInv(conns, jobs) && j in jobs && !jobs[j].stage.Answered?
    ensures forall i :: i in jobs && i != j && !jobs[i].stage.Answered? ==> jobs[i].conn != jobs[j].conn
  {
  }

  lemma CloseConns(s: System, j: JobId, response: seq<byte>, prepared: Prepared)
    requires ConnsInv(s.conns, s.jobs) && OpenInv(s.conns, s.jobs)
    requires j in s.jobs && s.jobs[j].conn in s.conns && !s.jobs[j].stage.Answered?
    requires OnStream(response, s.jobs[j].frame.header.streamId)
    ensures var t := Respond(s, j, response, prepared); ConnsInv(t.conns, t.jobs)
  {
    hide ConnInv, OnStream;
    var t := Respond(s, j, response, prepared);
    var c := s.jobs[j].conn;
    forall d | d in t.conns ensures ConnInv(t.conns[d], t.jobs, d) {
      if d == c {
        CloseConn(s.conns[c], s.jobs, c, j, response, prepared);
      } else {
        OtherConn(s.conns[d], s.jobs, d, j, t.jobs[j]);
      }
    }
  }

  lemma CloseConn(conn: Conn, jobs: map<JobId, Job>, c: ConnId, j: JobId, response: seq<byte>, prepared: Prepared)
    requires ConnInv(conn, jobs, c) && j in jobs
    requires |conn.requests| == |conn.responses| + 1 && conn.requests[|conn.responses|] == j
    requires OnStream(response, jobs[j].frame.header.streamId)
    ensures ConnInv(conn.(prepared := prepared, responses := conn.responses + [response]),
                    jobs[j := jobs[j].(stage := Answered(response))], c)
  {
    hide OnStream;
  }

  lemma TrackReply(s: System, j: JobId, response: seq<byte>)
    requires ConnsInv(s.conns, s.jobs) && OpenInv(s.conns, s.jobs) && TrackersInv(s.conns, s.jobs)
    requires j in s.jobs && s.jobs[j].conn in s.conns && !s.jobs[j].stage.Answered?
    requires Readable(s.jobs[j].frame) && ReadableResponse(s.jobs[j].frame, response)
    ensures var prepared := Track(s.conns[s.jobs[j].conn].prepared, s.jobs[j].frame, response);
            var t := Respond(s, j, response, prepared);
            TrackersInv(t.conns, t.jobs)
  {
    hide Track, Readable, ReadableResponse, ReadableHistory, ConnsInv, OnStream, TrackAll;
    var c := s.jobs[j].conn;
    var prepared := Track(s.conns[c].prepared, s.jobs[j].frame, response);
    var t := Respond(s, j, response, prepared);
    forall d | d in t.conns ensures TrackerInv(t.conns[d], t.jobs) {
      assert TrackerInv(s.conns[d], s.jobs);
      if d != c {
        assert HistoryOf(t.conns[d], t.jobs) == HistoryOf(s.conns[d], s.jobs);
      } else {
        assert HistoryOf(t.conns[d], t.jobs)
            == HistoryOf(s.conns[d], s.jobs) + [Exchange(s.jobs[j].frame, response)];
        TrackSnoc(HistoryOf(s.conns[d], s.jobs), Exchange(s.jobs[j].frame, response));
      }
    }
  }

  lemma TrackSnoc(history: seq<Exchange>, x: Exchange)
    requires ReadableHistory(history) && ReadableExchange(x)
    ensures ReadableHistory(history + [x])
    ensures TrackAll(history + [x]) == Track(TrackAll(history), x.request, x.response)
  {
    hide Track, Readable, ReadableResponse;
    assert (history + [x])[..|history + [x]| - 1] == history;
  }

  lemma ReceiveKeeps(s: System, c: ConnId, j: JobId, frame: Frame)
    requires SystemInv(s) && Permitted(s, Receive(c, j, frame))
    ensures SystemInv(Act(s, Receive(c, j, frame)))
  {
    hide Reachable, JobsInv, ConnsInv, OpenInv, TrackersInv, PlansInv, AnswersInv, PlanFor, Readable, Do;
    var t := DoReceive(s, c, j, frame);
    OpenJob(s.conns, s.jobs, c, j, t.jobs[j]);
    TrackersFrame(s.conns, s.jobs, t.conns, t.jobs);
    PlanNew(s.conns, s.jobs, c, j, t.jobs[j]);
    ReceiveJobs(s, c, j, frame);
    ReceiveAnswers(s, c, j, frame);
    if t.jobs[j].plan.DualWrite? {
      ReachableStep(s.writer, Begin(j, t.jobs[j].plan.query, t.jobs[j].plan.table));
    }
  }

  lemma ReceiveAnswers(s: System, c: ConnId, j: JobId, frame: Frame)
    requires AnswersInv(s.jobs, s.writer.calls, s.answers) && Permitted(s, Receive(c, j, frame))
    ensures var t := DoReceive(s, c, j, frame); AnswersInv(t.jobs, t.writer.calls, t.answers)
  {
    hide PlanFor, Readable, AnswersInv;
    var t := DoReceive(s, c, j, frame);
    AnswersFrame(s.jobs, s.writer.calls, s.answers, j, t.jobs[j], t.writer.calls, t.answers);
  }

  lemma PlanFitsFrame(prepared: Prepared, job: Job)
    requires Readable(job.frame) && job.plan == PlanFor(prepared, job.frame)
    ensures PlanFits(job)
  {
    hide IsWrite, Target, QueryOf, ExecuteId;
  }

  lemma ReceiveJobs(s: System, c: ConnId, j: JobId, frame: Frame)
    requires JobsInv(s.jobs, s.writer.calls, s.forwardAcks) && Permitted(s, Receive(c, j, frame))
    ensures var t := DoReceive(s, c, j, frame); JobsInv(t.jobs, t.writer.calls, t.forwardAcks)
  {
    hide PlanFor, Readable, PlanFits;
    var t := DoReceive(s, c, j, frame);
    assert s.forwardAcks[j] == 0;
    PlanFitsFrame(s.conns[c].prepared, t.jobs[j]);
    JobsFrame(s.jobs, s.writer.calls, s.forwardAcks, j, t.jobs[j], t.writer.calls, t.forwardAcks);
  }

  lemma WriteReturnedKeeps(s: System, j: JobId)
    requires SystemInv(s) && Permitted(s, WriteReturned(j))
    ensures SystemInv(Act(s, WriteReturned(j)))
  {
    hide Reachable, JobsInv, ConnsInv, OpenInv, TrackersInv, PlansInv, AnswersInv, Readable, Track, OnStream;
    hide FrameBytes;
    hide VoidResult;
    var t := DoWriteReturned(s, j);
    WriteReturnedJobs(s, j);
    IsDualWrite(s, j);
    AnswersFrame(s.jobs, s.writer.calls, s.answers, j, t.jobs[j], t.writer.calls, t.answers);
    RoomForReply(s, j);
    PlansFrame(s.conns, s.jobs, t.conns, t.jobs);
    if s.writer.calls[j].phase.sourceOk {
      VoidReply(s, j);
    } else {
      Restage(s.conns, s.jobs, j, Forwarding);
      TrackersFrame(s.conns, s.jobs, t.conns, t.jobs);
    }
  }

  lemma IsDualWrite(s: System, j: JobId)
    requires JobsInv(s.jobs, s.writer.calls, s.forwardAcks) && AtStage(s, j, Writing)
    ensures s.jobs[j].plan.DualWrite?
  {
    hide Readable, PlanFits, FrameBytes;
    assert JobInv(s.jobs[j], s.writer.calls, s.forwardAcks, j);
  }

  lemma WriteReturnedJobs(s: System, j: JobId)
    requires JobsInv(s.jobs, s.writer.calls, s.forwardAcks) && Permitted(s, WriteReturned(j))
    ensures var t := DoWriteReturned(s, j); JobsInv(t.jobs, t.writer.calls, t.forwardAcks)
  {
    hide Readable, FrameBytes, PlanFits, VoidResult;
    var job := s.jobs[j];
    var t := DoWriteReturned(s, j);
    assert JobInv(job, s.writer.calls, s.forwardAcks, j);
    PlanStays(job, t.jobs[j].stage);
    JobsFrame(s.jobs, s.writer.calls, s.forwardAcks, j, t.jobs[j], t.writer.calls, t.forwardAcks);
  }

  /** Answering an open dual write with VOID keeps the connections and their trackers. */
  lemma VoidReply(s: System, j: JobId)
    requires JobsInv(s.jobs, s.writer.calls, s.forwardAcks)
    requires ConnsInv(s.conns, s.jobs) && OpenInv(s.conns, s.jobs) && TrackersInv(s.conns, s.jobs)
    requires AtStage(s, j, Writing)
    ensures var job := s.jobs[j];
            var t := Respond(s, j, FrameBytes(VoidResult(job.frame.header.streamId)), s.conns[job.conn].prepared);
            ConnsInv(t.conns, t.jobs) && OpenInv(t.conns, t.jobs) && TrackersInv(t.conns, t.jobs)
  {
    hide ConnsInv, OpenInv, TrackersInv, Readable, Track, OnStream, FrameBytes, PlanFits, VoidResult, ReadableResponse;
    var job := s.jobs[j];
    var response := FrameBytes(VoidResult(job.frame.header.streamId));
    assert JobInv(job, s.writer.calls, s.forwardAcks, j);
    VoidOnStream(job.frame.header.streamId);
    CloseJob(s, j, response, s.conns[job.conn].prepared);
    DualIsNotPrepare(job);
    VoidIsReadable(job.frame, job.frame.header.streamId);
    NotAPrepare(s, j, response);
    TrackReply(s, j, response);
  }

  lemma PlanStays(job: Job, stage: Stage)
    requires Readable(job.frame) && PlanFits(job)
    ensures PlanFits(job.(stage := stage))
  {
    hide IsWrite, Target, QueryOf;
  }

  lemma DualIsNotPrepare(job: Job)
    requires Readable(job.frame) && PlanFits(job) && job.plan.DualWrite?
    ensures job.frame.header.opcode != OP_PREPARE
  {
    hide IsWrite, Target, QueryOf;
  }

  lemma VoidOnStream(streamId: int16)
    ensures OnStream(FrameBytes(VoidResult(streamId)), streamId)
  {
    assert WellFormed(VoidResult(streamId));
  }

  /** Only a PREPARE changes the tracker, and a PREPARE is never dual-written. */
  lemma NotAPrepare(s: System, j: JobId, response: seq<byte>)
    requires j in s.jobs && s.jobs[j].conn in s.conns
    requires Readable(s.jobs[j].frame) && ReadableResponse(s.jobs[j].frame, response)
    requires s.jobs[j].frame.header.opcode != OP_PREPARE
    ensures Track(s.conns[s.jobs[j].conn].prepared, s.jobs[j].frame, response) == s.conns[s.jobs[j].conn].prepared
  {
  }

  lemma SourceAnswersKeeps(s: System, j: JobId, answer: Frame, effect: bool)
    requires SystemInv(s) && Permitted(s, SourceAnswers(j, answer, effect))
    ensures SystemInv(Act(s, SourceAnswers(j, answer, effect)))
  {
    hide Reachable, JobsInv, ConnsInv, OpenInv, TrackersInv, PlansInv, AnswersInv, Readable, Track, OnStream;
    hide FrameBytes;
    hide ReadableResponse;
    var job := s.jobs[j];
    var t := DoSourceAnswers(s, j, answer, effect);
    var response := FrameBytes(answer);
    SourceAnswersJobs(s, j, answer, effect);
    AnswersFrame(s.jobs, s.writer.calls, s.answers, j, t.jobs[j], t.writer.calls, t.answers);
    AnswerOnStream(answer);
    CloseJob(s, j, response, t.conns[job.conn].prepared);
    TrackReply(s, j, response);
    RoomForReply(s, j);
    PlansFrame(s.conns, s.jobs, t.conns, t.jobs);
  }

  lemma SourceAnswersJobs(s: System, j: JobId, answer: Frame, effect: bool)
    requires JobsInv(s.jobs, s.writer.calls, s.forwardAcks) && Permitted(s, SourceAnswers(j, answer, effect))
    ensures var t := DoSourceAnswers(s, j, answer, effect); JobsInv(t.jobs, t.writer.calls, t.forwardAcks)
  {
    hide Readable, FrameBytes, PlanFits, Track, ReadableResponse;
    var t := DoSourceAnswers(s, j, answer, effect);
    assert JobInv(s.jobs[j], s.writer.calls, s.forwardAcks, j);
    PlanStays(s.jobs[j], t.jobs[j].stage);
    JobsFrame(s.jobs, s.writer.calls, s.forwardAcks, j, t.jobs[j], t.writer.calls, t.forwardAcks);
  }

  /** Responses never outnumber requests, the answer to an open job included. */
  lemma RoomForReply(s: System, j: JobId)
    requires ConnsInv(s.conns, s.jobs) && OpenInv(s.conns, s.jobs)
    requires j in s.jobs && !s.jobs[j].stage.Answered?
    ensures s.jobs[j].conn in s.conns
    ensures |s.conns[s.jobs[j].conn].responses| < |s.conns[s.jobs[j].conn].requests|
    ensures forall c :: c in s.conns ==> |s.conns[c].responses| <= |s.conns[c].requests|
  {
    hide OnStream;
    assert forall c :: c in s.conns ==> ConnInv(s.conns[c], s.jobs, c);
  }

  lemma AnswerOnStream(answer: Frame)
    requires WellFormed(answer)
    ensures OnStream(FrameBytes(answer), answer.header.streamId)
  {
  }

  lemma NewConnection(conns: map<ConnId, Conn>, jobs: map<JobId, Job>, c: ConnId)
    requires ConnsInv(conns, jobs) && OpenInv(conns, jobs) && c !in conns
    ensures var conns' := conns[c := Conn(map[], [], [])]; ConnsInv(conns', jobs) && OpenInv(conns', jobs)
  {
    hide OnStream;
    var conns' := conns[c := Conn(map[], [], [])];
    forall d | d in conns' ensures ConnInv(conns'[d], jobs, d) {
      assert d != c ==> ConnInv(conns[d], jobs, d);
    }
  }

  lemma NewTracker(conns: map<ConnId, Conn>, jobs: map<JobId, Job>, c: ConnId)
    requires TrackersInv(conns, jobs) && c !in conns
    ensures TrackersInv(conns[c := Conn(map[], [], [])], jobs)
  {
    hide Readable, ReadableResponse, Track;
    var conns' := conns[c := Conn(map[], [], [])];
    forall d | d in conns' ensures TrackerInv(conns'[d], jobs) {
      if d == c {
        assert HistoryOf(conns'[c], jobs) == [];
      } else {
        assert TrackerInv(conns[d], jobs);
      }
    }
  }

  lemma NewPlans(conns: map<ConnId, Conn>, jobs: map<JobId, Job>, c: ConnId)
    requires PlansInv(conns, jobs) && c !in conns
    ensures PlansInv(conns[c := Conn(map[], [], [])], jobs)
  {
    hide PlanAt;
    var conns' := conns[c := Conn(map[], [], [])];
    forall d | d in conns' ensures PlanInv(conns'[d], jobs) {
      assert d != c ==> PlanInv(conns[d], jobs);
    }
  }

  lemma ConnectKeeps(s: System, c: ConnId)
    requires SystemInv(s) && Permitted(s, Connect(c))
    ensures SystemInv(Act(s, Connect(c)))
  {
    hide Reachable, JobsInv, ConnsInv, OpenInv, TrackersInv, PlansInv, AnswersInv;
    NewConnection(s.conns, s.jobs, c);
    NewPlans(s.conns, s.jobs, c);
    NewTracker(s.conns, s.jobs, c);
  }

  lemma ActKeeps(s: System, a: Action)
    requires SystemInv(s) && Permitted(s, a)
    ensures SystemInv(Act(s, a))
  {
    hide SystemInv, Permitted, Act;
    match a
    case Connect(c) => ConnectKeeps(s, c);
    case Receive(c, j, frame) => ReceiveKeeps(s, c, j, frame);
    case WriterStep(step) => WriterStepKeeps(s, step);
    case WriteReturned(j) => WriteReturnedKeeps(s, j);
    case SourceAnswers(j, answer, effect) => SourceAnswersKeeps(s, j, answer, effect);
  }

  lemma {:induction false} ActionsKeep(s: System, actions: seq<Action>)
    requires SystemInv(s) && CanAct(s, actions)
    ensures SystemInv(After(s, actions))
    decreases |actions|
  {
    hide SystemInv, Permitted, Act;
    if actions != [] {
      ActKeeps(s, actions[0]);
      ActionsKeep(Act(s, actions[0]), actions[1..]);
    }
  }

  lemma ReachableSystemInv(s: System)
    requires ReachableSystem(s)
    ensures SystemInv(s)
  {
    hide SystemInv, Permitted, Act;
    var settings: Settings, actions: seq<Action> :|
      ValidSettings(settings) && CanAct(Start(settings), actions) && s == After(Start(settings), actions);
    StartInv(settings);
    ActionsKeep(Start(settings), actions);
  }

  // ---------------------------------------------------------------------------
  // End-to-end guarantees
  // ---------------------------------------------------------------------------

  /** How often the source acknowledged the statement of a client frame, by dual write or by forwarding. */
  function SourceAcks(s: System, j: JobId): nat {
    s.writer.ledger.sourceAcks[j] + s.forwardAcks[j]
  }

  /** No client frame takes effect on the source twice, the fallback after a failed dual write included. */
  lemma AcknowledgedOnce(s: System, j: JobId)
    requires ReachableSystem(s)
    ensures SourceAcks(s, j) <= 1
  {
    hide ReachableSystem, Reachable, ConnsInv, OpenInv, TrackersInv, PlansInv, AnswersInv, PlanFits, Readable;
    ReachableSystemInv(s);
    BoundedDelivery(s.writer, j);
    if j in s.jobs {
      assert JobInv(s.jobs[j], s.writer.calls, s.forwardAcks, j);
      if s.forwardAcks[j] > 0 {
        NoAckUnlessCalled(s.writer, j);
      }
    }
  }

  /** The writer's source acknowledged a call only if there is one, and not if it returned a source failure. */
  lemma NoAckUnlessCalled(w: State, j: JobId)
    requires Reachable(w)
    ensures j !in w.calls || (w.calls[j].phase.Returned? && !w.calls[j].phase.sourceOk) ==>
              w.ledger.sourceAcks[j] == 0
    ensures j in w.calls && w.calls[j].phase.Returned? && w.calls[j].phase.sourceOk ==>
              w.ledger.sourceAcks[j] == 1
  {
    hide Reachable, GateInv, CountersInv, SplitInv, DecisionsInv, PlacesInv, EntriesInv, TicketInv;
    ReachableInv(w);
    assert j in w.calls ==> CallInv(w.calls[j].phase, w.ledger, j);
    assert j !in w.calls ==> Unknown(w.ledger, j);
  }

  /** The source acknowledged the statement on the source-only path of a blacklisted table. */
  ghost predicate HeldAtGate(w: State, j: JobId) {
    w.ledger.sourceAcks[j] > 0 && WritesBlacklisted(w, j)
  }

  /** The places an acknowledged client frame can be in, seen from the target: sent to the source only by
      forwarding, held back because its table is blacklisted, then the five fates of a dual write. */
  ghost function Whereabouts(s: System, j: JobId): seq<bool> {
    [s.forwardAcks[j] > 0, HeldAtGate(s.writer, j)] + Fates(s.writer, j)
  }

  /** End to end: a client frame that the source has acknowledged is in exactly one of: forwarded to the source
      only, sent source-only because its table is blacklisted, in flight, on the target, pending, abandoned, dropped. So
      what is missing on the target is exactly what is in one of the other six places. */
  lemma EndToEnd(s: System, j: JobId)
    requires ReachableSystem(s) && SourceAcks(s, j) > 0
    ensures Ones(Whereabouts(s, j)) == 1
    ensures !TargetAcked(s.writer, j) <==>
              || s.forwardAcks[j] > 0 || HeldAtGate(s.writer, j) || InFlight(s.writer, j)
              || IsPending(s.writer, j) || IsAbandoned(s.writer, j) || IsDropped(s.writer, j)
  {
    hide ReachableSystem, SystemInv, Reachable, InFlight, IsPending, IsAbandoned, IsDropped, WritesBlacklisted;
    AcknowledgedOnce(s, j);
    WriterReachable(s);
    if s.writer.ledger.sourceAcks[j] == 0 || WritesBlacklisted(s.writer, j) {
      NothingElseReachesTheTarget(s.writer, j);
    } else {
      NoAckUnlessCalled(s.writer, j);
      Conservation(s.writer, j);
    }
    OnesOfSeven(s.forwardAcks[j] > 0, HeldAtGate(s.writer, j), InFlight(s.writer, j), TargetAcked(s.writer, j),
                IsPending(s.writer, j), IsAbandoned(s.writer, j), IsDropped(s.writer, j));
    OnesOfFive(InFlight(s.writer, j), TargetAcked(s.writer, j),
               IsPending(s.writer, j), IsAbandoned(s.writer, j), IsDropped(s.writer, j));
  }

  lemma WriterReachable(s: System)
    requires ReachableSystem(s)
    ensures Reachable(s.writer)
  {
    hide ReachableSystem, Reachable, ConnsInv, OpenInv, TrackersInv, PlansInv, AnswersInv, JobsInv;
    ReachableSystemInv(s);
  }

  lemma OnesOfSeven(a: bool, b: bool, c: bool, d: bool, e: bool, f: bool, g: bool)
    ensures Ones([a, b] + [c, d, e, f, g]) == (if a then 1 else 0) + (if b then 1 else 0) + Ones([c, d, e, f, g])
  {
    var five := [c, d, e, f, g];
    assert ([a, b] + five)[1..] == [b] + five;
    assert ([b] + five)[1..] == five;
  }

  // ---------------------------------------------------------------------------
  // The blacklist, end to end
  // ---------------------------------------------------------------------------

  /** Nothing of the frame has reached the target or waits for it. */
  ghost predicate KeptOffTarget(w: State, j: JobId) {
    && w.ledger.targetTries[j] == 0 && w.ledger.targetAcks[j] == 0
    && !InFlight(w, j) && !IsPending(w, j) && !IsAbandoned(w, j) && !IsDropped(w, j)
  }

  /** A frame dual-written to a blacklisted table, by QUERY or by EXECUTE, is kept off the target. */
  lemma BlacklistedIsKeptOff(s: System, j: JobId)
    requires ReachableSystem(s) && j in s.jobs
    requires s.jobs[j].plan.DualWrite? ==> Blacklists(s.writer.settings, s.jobs[j].plan.table)
    ensures KeptOffTarget(s.writer, j)
  {
    hide ReachableSystem, Reachable, ConnsInv, OpenInv, TrackersInv, PlansInv, AnswersInv, PlanFits, Readable;
    hide Blacklists;
    ReachableSystemInv(s);
    assert JobInv(s.jobs[j], s.writer.calls, s.forwardAcks, j);
    if s.jobs[j].plan.Forward? {
      NoAckUnlessCalled(s.writer, j);
    }
    NothingElseReachesTheTarget(s.writer, j);
  }

  /** A QUERY frame is sent source-only exactly when the table read from its text is blacklisted. */
  lemma QueryFollowsBlacklist(s: System, j: JobId)
    requires ReachableSystem(s) && j in s.jobs && s.jobs[j].frame.header.opcode == 0x07
    ensures Readable(s.jobs[j].frame)
    ensures var query := QueryOf(s.jobs[j].frame);
            && (!IsWrite(query) || Blacklists(s.writer.settings, Target(query)) ==> KeptOffTarget(s.writer, j))
            && (j in s.writer.calls && !s.writer.calls[j].phase.Begun? ==>
                  (j in s.writer.ledger.gated <==> Blacklists(s.writer.settings, Target(query))))
  {
    hide ReachableSystem, Reachable, ConnsInv, OpenInv, TrackersInv, PlansInv, AnswersInv, Readable, Blacklists;
    hide KeptOffTarget;
    hide IsWrite, Target, QueryOf;
    ReachableSystemInv(s);
    assert JobInv(s.jobs[j], s.writer.calls, s.forwardAcks, j);
    var query := QueryOf(s.jobs[j].frame);
    if !IsWrite(query) || Blacklists(s.writer.settings, Target(query)) {
      BlacklistedIsKeptOff(s, j);
    }
    if j in s.writer.calls && !s.writer.calls[j].phase.Begun? {
      GateFollowsBlacklist(s.writer, j);
    }
  }

  /** The frame is a QUERY (opcode 7) whose body carries the given text, whatever parameters follow it. */
  ghost predicate IsQuery(f: Frame, text: string) {
    f.header.opcode == 0x07 && CarriesText(f, text)
  }

  /** What becomes of the bytes a client sends: a QUERY whose text is a write is dual-written as exactly that text, to
      the table read from it. */
  lemma QueryIsDualWritten(s: System, j: JobId, text: string)
    requires ReachableSystem(s) && j in s.jobs && IsQuery(s.jobs[j].frame, text) && IsWrite(text)
    ensures s.jobs[j].plan == DualWrite(text, Target(text))
    ensures j in s.writer.calls && s.writer.calls[j].cql == text && s.writer.calls[j].table == Target(text)
  {
    hide ReachableSystem, Reachable, ConnsInv, OpenInv, TrackersInv, PlansInv, AnswersInv, Readable;
    hide IsWrite, Target, QueryOf, CarriesText;
    ReachableSystemInv(s);
    QueryRoundTrip(s.jobs[j].frame, text);
    assert JobInv(s.jobs[j], s.writer.calls, s.forwardAcks, j);
  }

  /** A QUERY whose text starts with none of the write keywords never enters `write()`: it is forwarded, and its
      response is the source's answer. */
  lemma OtherQueryIsForwarded(s: System, j: JobId, text: string)
    requires ReachableSystem(s) && j in s.jobs && IsQuery(s.jobs[j].frame, text)
    requires forall lead, keyword, word, rest ::
               StartsAs(text, lead, keyword, word, rest) ==> word !in {"INSERT", "UPDATE", "DELETE"}
    ensures s.jobs[j].plan == Forward && j !in s.writer.calls && KeptOffTarget(s.writer, j)
    ensures s.jobs[j].stage.Answered? ==>
              j in s.answers && s.jobs[j].stage.response == FrameBytes(s.answers[j])
  {
    hide ReachableSystem, Reachable, ConnsInv, OpenInv, TrackersInv, PlansInv, Readable, StartsAs, FrameBytes;
    hide IsWrite, Target, QueryOf, CarriesText, KeptOffTarget;
    ReachableSystemInv(s);
    WriteStartsWithKeyword(text);
    QueryRoundTrip(s.jobs[j].frame, text);
    assert JobInv(s.jobs[j], s.writer.calls, s.forwardAcks, j);
    BlacklistedIsKeptOff(s, j);
  }

  /** INSERT into a blacklisted table, in any letter case and spacing, never reaches the target. */
  lemma BlacklistedInsert(s: System, j: JobId, lead: string, insert: string, gap: string, into: string,
                          blanks: string, table: string, tail: string)
    requires ReachableSystem(s) && j in s.jobs && Blacklists(s.writer.settings, table)
    requires AllSpace(lead) && AllSpace(gap) && AllSpace(blanks) && IsName(table) && IsTail(tail)
    requires Spells(insert, "INSERT") && Spells(into, "INTO")
    requires IsQuery(s.jobs[j].frame, lead + insert + gap + into + blanks + table + tail)
    ensures KeptOffTarget(s.writer, j)
  {
    hide ReachableSystem, KeptOffTarget, Blacklists, QueryOf, Readable, IsWrite, Target, CarriesText;
    hide AllSpace, IsName, IsTail, Spells;
    InsertTarget(lead, insert, gap, into, blanks, table, tail);
    QueryRoundTrip(s.jobs[j].frame, lead + insert + gap + into + blanks + table + tail);
    QueryFollowsBlacklist(s, j);
  }

  /** UPDATE of a blacklisted table, if INTO occurs nowhere in the text. */
  lemma BlacklistedUpdate(s: System, j: JobId, lead: string, update: string, blanks: string,
                          table: string, tail: string)
    requires ReachableSystem(s) && j in s.jobs && Blacklists(s.writer.settings, table)
    requires AllSpace(lead) && AllSpace(blanks) && IsName(table) && IsTail(tail) && Spells(update, "UPDATE")
    requires IntoAt(UpperAll(lead + update + blanks + table + tail)) < 0
    requires IsQuery(s.jobs[j].frame, lead + update + blanks + table + tail)
    ensures KeptOffTarget(s.writer, j)
  {
    hide ReachableSystem, KeptOffTarget, Blacklists, QueryOf, Readable, IsWrite, Target, CarriesText;
    hide AllSpace, IsName, IsTail, Spells, IntoAt, UpperAll, TokenAfter;
    UpdateTarget(lead, update, blanks, table, tail);
    QueryRoundTrip(s.jobs[j].frame, lead + update + blanks + table + tail);
    QueryFollowsBlacklist(s, j);
  }

  /** DELETE from a blacklisted table, if neither INTO nor UPDATE occurs and no FROM precedes the keyword. */
  lemma BlacklistedDelete(s: System, j: JobId, lead: string, delete: string, columns: string, from: string,
                          blanks: string, table: string, tail: string)
    requires ReachableSystem(s) && j in s.jobs && Blacklists(s.writer.settings, table)
    requires AllSpace(lead) && AllSpace(blanks) && IsName(table) && IsTail(tail)
    requires Spells(delete, "DELETE") && Spells(from, "FROM")
    requires var u := UpperAll(DeleteText(lead, delete, columns, from, blanks, table, tail));
             IntoAt(u) < 0 && UpdateAt(u) < 0 && FromAt(u) == |lead| + |delete| + |columns|
    requires IsQuery(s.jobs[j].frame, DeleteText(lead, delete, columns, from, blanks, table, tail))
    ensures KeptOffTarget(s.writer, j)
  {
    hide ReachableSystem, KeptOffTarget, Blacklists, QueryOf, Readable, IsWrite, Target, CarriesText, DeleteText;
    hide AllSpace, IsName, IsTail, Spells, IntoAt, UpdateAt, FromAt, UpperAll, TokenAfter;
    DeleteTarget(lead, delete, columns, from, blanks, table, tail);
    QueryRoundTrip(s.jobs[j].frame, DeleteText(lead, delete, columns, from, blanks, table, tail));
    QueryFollowsBlacklist(s, j);
  }

  /** The conditions matter: a DELETE from the blacklisted table `updates` is taken for one from `s`, which is not
      blacklisted, and so passes the gate. */
  lemma MisreadDeletePassesTheGate(settings: Settings)
    requires settings.filter.Some? && settings.filter.value.tableBlacklist == ["updates"]
    ensures Blacklists(settings, "updates") && !Blacklists(settings, Target("DELETE FROM updates;"))
  {
    hide Target;
    DeleteFromUpdates();
    var list := settings.filter.value.tableBlacklist;
    assert list[0] == "updates" && |"s"| != |"updates"|;
    forall suffix: string ensures "*." + suffix !in list {
      assert ("*." + suffix)[0] != "updates"[0];
    }
  }

  /** Request/response discipline: on every connection the responses answer the requests one by one and in order,
      each a single frame on its request's stream, with at most one request open. */
  lemma ResponsesMatchRequests(s: System, c: ConnId)
    requires ReachableSystem(s) && c in s.conns
    ensures var conn := s.conns[c];
            && |conn.responses| <= |conn.requests| <= |conn.responses| + 1
            && (forall i, k :: 0 <= i < k < |conn.requests| ==> conn.requests[i] != conn.requests[k])
            && (forall i :: 0 <= i < |conn.requests| ==> conn.requests[i] in s.jobs)
            && (forall i :: 0 <= i < |conn.responses| ==>
                  && s.jobs[conn.requests[i]].stage == Answered(conn.responses[i])
                  && OnStream(conn.responses[i], s.jobs[conn.requests[i]].frame.header.streamId))
  {
    hide ReachableSystem, Reachable, JobsInv, OpenInv, TrackersInv, PlansInv, AnswersInv, OnStream;
    ReachableSystemInv(s);
    assert ConnInv(s.conns[c], s.jobs, c);
  }

  /** A dual-written frame is answered with VOID by the proxy itself when the source has acknowledged it, once and
      without forwarding; otherwise the writer's source never acknowledged it. */
  lemma VoidOnlyAfterSourceAck(s: System, j: JobId)
    requires ReachableSystem(s) && j in s.jobs
    requires s.jobs[j].plan.DualWrite? && s.jobs[j].stage.Answered?
    ensures j in s.writer.calls && s.writer.calls[j].phase.Returned?
    ensures s.writer.calls[j].phase.sourceOk ==>
              && s.writer.ledger.sourceAcks[j] == 1 && s.forwardAcks[j] == 0
              && s.jobs[j].stage.response == FrameBytes(VoidResult(s.jobs[j].frame.header.streamId))
    ensures !s.writer.calls[j].phase.sourceOk ==> s.writer.ledger.sourceAcks[j] == 0
  {
    hide ReachableSystem, Reachable, ConnsInv, OpenInv, TrackersInv, PlansInv, AnswersInv, PlanFits, Readable;
    ReachableSystemInv(s);
    assert JobInv(s.jobs[j], s.writer.calls, s.forwardAcks, j);
    NoAckUnlessCalled(s.writer, j);
  }

  /** A statement reaches the source by forwarding only as a fallback after a refused dual write, or because its
      frame is not a QUERY with a write text and not an EXECUTE the session dual-writes. BATCH and every other opcode
      are only ever forwarded. The response is then the source's answer. */
  lemma WhyForwarded(s: System, j: JobId)
    requires ReachableSystem(s) && s.forwardAcks[j] > 0
    ensures j in s.jobs && Readable(s.jobs[j].frame)
    ensures s.jobs[j].plan.DualWrite? ==>
              j in s.writer.calls && s.writer.calls[j].phase == Returned(false, false)
    ensures s.jobs[j].plan.Forward? && s.jobs[j].frame.header.opcode == OP_QUERY ==>
              !IsWrite(QueryOf(s.jobs[j].frame))
    ensures s.jobs[j].frame.header.opcode !in {0x07, 0x0A} ==> s.jobs[j].plan.Forward?
    ensures j in s.answers && s.jobs[j].stage == Answered(FrameBytes(s.answers[j]))
  {
    hide ReachableSystem, Reachable, ConnsInv, OpenInv, TrackersInv, PlansInv, Readable, IsWrite, Target, QueryOf;
    hide FrameBytes;
    ReachableSystemInv(s);
    assert JobInv(s.jobs[j], s.writer.calls, s.forwardAcks, j);
    ReturnedShape(s.writer, j);
  }

  lemma ReturnedShape(w: State, j: JobId)
    requires Reachable(w)
    ensures j in w.calls && w.calls[j].phase.Returned? && !w.calls[j].phase.sourceOk ==>
              w.calls[j].phase == Returned(false, false)
  {
    hide Reachable, GateInv, CountersInv, SplitInv, DecisionsInv, PlacesInv, EntriesInv, TicketInv;
    ReachableInv(w);
    assert j in w.calls ==> CallInv(w.calls[j].phase, w.ledger, j);
  }

  /** On any connection of any run, every EXECUTE of an id ever received was dual-written exactly when the
      most recent PREPARE that had been answered with that id on this connection before it carried a write, and then
      as the statement of that PREPARE. */
  lemma ExecuteFollowsPrepare(s: System, c: ConnId, i: nat, id: seq<byte>, parameters: seq<byte>)
    requires ReachableSystem(s) && c in s.conns && i < |s.conns[c].requests|
    requires |id| < 0x8000 && s.conns[c].requests[i] in s.jobs
    requires var frame := s.jobs[s.conns[c].requests[i]].frame;
             frame.header.opcode == 0x0A && frame.body == ExecuteBody(id, parameters)
    ensures TrackerInv(s.conns[c], s.jobs) && i <= |s.conns[c].responses|
    ensures var past := HistoryOf(s.conns[c], s.jobs)[..i];
            var plan := s.jobs[s.conns[c].requests[i]].plan;
            && ReadableHistory(past)
            && (plan.DualWrite? <==> exists k :: LatestPrepare(past, id, k) && IsWrite(QueryOf(past[k].request)))
            && (forall k :: LatestPrepare(past, id, k) && IsWrite(QueryOf(past[k].request)) ==>
                  plan == DualWrite(QueryOf(past[k].request), Target(QueryOf(past[k].request))))
  {
    hide ReachableSystem, Reachable, JobsInv, OpenInv, ConnsInv, ReadableHistory, TrackAll, PlanFor, HistoryOf;
    hide IsWrite, QueryOf, Readable, LatestPrepare, ExecuteBody, Target;
    ReachableSystemInv(s);
    assert TrackerInv(s.conns[c], s.jobs) && PlanInv(s.conns[c], s.jobs);
    var history := HistoryOf(s.conns[c], s.jobs);
    var job := s.jobs[s.conns[c].requests[i]];
    assert PlanAt(history, i, job);
    ExecutePlan(history[..i], job.frame, id, parameters);
  }

  /** So an EXECUTE is dual-written as exactly the text that the latest such PREPARE carried, if that is a write. */
  lemma PreparedTextIsWritten(s: System, c: ConnId, i: nat, id: seq<byte>, parameters: seq<byte>, k: nat, text: string)
    requires ReachableSystem(s) && c in s.conns && i < |s.conns[c].requests|
    requires |id| < 0x8000 && s.conns[c].requests[i] in s.jobs
    requires var frame := s.jobs[s.conns[c].requests[i]].frame;
             frame.header.opcode == 0x0A && frame.body == ExecuteBody(id, parameters)
    requires |s.conns[c].responses| <= |s.conns[c].requests| && i <= |s.conns[c].responses|
    requires forall n :: 0 <= n < |s.conns[c].responses| ==> s.conns[c].requests[n] in s.jobs
    requires var past := HistoryOf(s.conns[c], s.jobs)[..i];
             ReadableHistory(past) && LatestPrepare(past, id, k) && CarriesText(past[k].request, text)
    requires IsWrite(text)
    ensures var j := s.conns[c].requests[i];
            && s.jobs[j].plan == DualWrite(text, Target(text))
            && j in s.writer.calls && s.writer.calls[j].cql == text
  {
    hide ReachableSystem, Reachable, ConnsInv, OpenInv, TrackersInv, PlansInv, AnswersInv, Readable, TrackerInv;
    hide IsWrite, Target, QueryOf, CarriesText, HistoryOf, ExecuteBody, PlanFits, FrameBytes, Prepares;
    ReachableSystemInv(s);
    ExecuteFollowsPrepare(s, c, i, id, parameters);
    QueryRoundTrip(HistoryOf(s.conns[c], s.jobs)[k].request, text);
    var j := s.conns[c].requests[i];
    assert JobInv(s.jobs[j], s.writer.calls, s.forwardAcks, j);
  }

  // ---------------------------------------------------------------------------
  // The connection object and the system
  // ---------------------------------------------------------------------------

  /** The source's answer to a frame: one frame on its stream, with no negative id length where one is read. */
  predicate AnswerFits(f: Frame, answer: Frame) {
    && WellFormed(answer) && answer.header.streamId == f.header.streamId
    && ReadableResponse(f, FrameBytes(answer))
  }

  /** The actions of a round that forwards. */
  function ForwardRound(c: ConnId, j: JobId, f: Frame, answer: Frame, effect: bool): seq<Action> {
    [Receive(c, j, f), SourceAnswers(j, answer, effect)]
  }

  function WriterActions(steps: seq<Step>): seq<Action> {
    if steps == [] then [] else [WriterStep(steps[0])] + WriterActions(steps[1..])
  }

  /** The actions of a round that dual-writes with the given steps of the writer, the first of which comes with the
      frame; a refused write is then forwarded. */
  function DualRound(c: ConnId, j: JobId, f: Frame, steps: seq<Step>, sourceOk: bool, answer: Frame, effect: bool)
    : seq<Action>
    requires steps != []
  {
    [Receive(c, j, f)] + WriterActions(steps[1..]) + [WriteReturned(j)]
    + if sourceOk then [] else [SourceAnswers(j, answer, effect)]
  }

  /** The system after one more round of a connection: the writer moved on, one request was answered, and the tracker
      follows; other connections are as before. */
  ghost predicate Answers(s: System, t: System, c: ConnId, j: JobId, f: Frame, writer: State, response: seq<byte>)
    requires c in s.conns && Readable(f) && ReadableResponse(f, response)
  {
    && t.writer == writer
    && t.conns == s.conns[c := Conn(Track(s.conns[c].prepared, f, response),
                                    s.conns[c].requests + [j], s.conns[c].responses + [response])]
  }

  lemma {:induction false} ActAppend(s: System, a: seq<Action>, b: seq<Action>)
    requires CanAct(s, a) && CanAct(After(s, a), b)
    ensures CanAct(s, a + b) && After(s, a + b) == After(After(s, a), b)
    decreases |a|
  {
    hide Act, Permitted;
    if a == [] {
      assert a + b == b;
    } else {
      ActAppend(Act(s, a[0]), a[1..], b);
      assert (a + b)[1..] == a[1..] + b;
    }
  }

  lemma ActOne(s: System, a: Action)
    requires Permitted(s, a)
    ensures CanAct(s, [a]) && After(s, [a]) == Act(s, a)
  {
    hide Act, Permitted;
    assert [a][1..] == [];
  }

  lemma {:induction false} WriterActs(s: System, steps: seq<Step>)
    requires CanRun(s.writer, steps) && forall i :: 0 <= i < |steps| ==> !steps[i].Begin?
    ensures CanAct(s, WriterActions(steps))
    ensures After(s, WriterActions(steps)) == s.(writer := Run(s.writer, steps))
    decreases |steps|
  {
    hide Do, Enabled;
    if steps != [] {
      var t := Act(s, WriterStep(steps[0]));
      WriterActs(t, steps[1..]);
      assert WriterActions(steps)[1..] == WriterActions(steps[1..]);
    }
  }

  lemma {:induction false} RunSplit(s: State, a: seq<Step>, b: seq<Step>)
    requires CanRun(s, a + b)
    ensures CanRun(s, a) && CanRun(Run(s, a), b) && Run(s, a + b) == Run(Run(s, a), b)
    decreases |a|
  {
    hide Do, Enabled;
    if a == [] {
      assert a + b == b;
    } else {
      assert (a + b)[1..] == a[1..] + b;
      RunSplit(Do(s, a[0]), a[1..], b);
    }
  }

  lemma ForwardRoundRuns(s: System, c: ConnId, j: JobId, f: Frame, answer: Frame, effect: bool)
    requires Permitted(s, Receive(c, j, f)) && PlanFor(s.conns[c].prepared, f).Forward? && AnswerFits(f, answer)
    ensures CanAct(s, ForwardRound(c, j, f, answer, effect))
    ensures Answers(s, After(s, ForwardRound(c, j, f, answer, effect)), c, j, f, s.writer, FrameBytes(answer))
  {
    hide PlanFor, Readable, ReadableResponse, FrameBytes, Track;
    var t := DoReceive(s, c, j, f);
    ActOne(s, Receive(c, j, f));
    ActOne(t, SourceAnswers(j, answer, effect));
    ActAppend(s, [Receive(c, j, f)], [SourceAnswers(j, answer, effect)]);
    assert ForwardRound(c, j, f, answer, effect) == [Receive(c, j, f)] + [SourceAnswers(j, answer, effect)];
  }

  /** The steps are one call of `write()` for the frame, from its beginning to its return. */
  ghost predicate IsWriteRun(writer: State, steps: seq<Step>, j: JobId, query: string, table: string, sourceOk: bool) {
    && steps != [] && steps[0] == Begin(j, query, table)
    && (forall i :: 1 <= i < |steps| ==> !steps[i].Begin?)
    && CanRun(writer, steps)
    && var calls := Run(writer, steps).calls;
       j in calls && calls[j].phase.Returned? && calls[j].phase.sourceOk == sourceOk
  }

  /** Up to the return of `write()`: the frame received and the writer's steps taken. */
  lemma DualRoundWrites(s: System, c: ConnId, j: JobId, f: Frame, query: string, table: string,
                        steps: seq<Step>, sourceOk: bool)
    requires Permitted(s, Receive(c, j, f)) && PlanFor(s.conns[c].prepared, f) == DualWrite(query, table)
    requires IsWriteRun(s.writer, steps, j, query, table, sourceOk)
    ensures var first := [Receive(c, j, f)] + WriterActions(steps[1..]);
            && CanAct(s, first)
            && After(s, first) == DoReceive(s, c, j, f).(writer := Run(s.writer, steps))
  {
    hide PlanFor, Readable, Do, Enabled, WriterActions;
    var t := DoReceive(s, c, j, f);
    ActOne(s, Receive(c, j, f));
    WriterActs(t, steps[1..]);
    ActAppend(s, [Receive(c, j, f)], WriterActions(steps[1..]));
  }

  lemma DualRoundRuns(s: System, c: ConnId, j: JobId, f: Frame, query: string, table: string,
                      steps: seq<Step>, sourceOk: bool, answer: Frame, effect: bool)
    requires Permitted(s, Receive(c, j, f)) && PlanFor(s.conns[c].prepared, f) == DualWrite(query, table)
    requires IsWriteRun(s.writer, steps, j, query, table, sourceOk) && AnswerFits(f, answer)
    ensures CanAct(s, DualRound(c, j, f, steps, sourceOk, answer, effect))
    ensures var response := FrameBytes(if sourceOk then VoidResult(f.header.streamId) else answer);
            && ReadableResponse(f, response)
            && Answers(s, After(s, DualRound(c, j, f, steps, sourceOk, answer, effect)),
                       c, j, f, Run(s.writer, steps), response)
  {
    hide PlanFor, Readable, ReadableResponse, FrameBytes, Track, WriterActions, CanRun, Run, VoidResult, CanAct, After;
    hide Do, Enabled;
    var first := [Receive(c, j, f)] + WriterActions(steps[1..]);
    DualRoundWrites(s, c, j, f, query, table, steps, sourceOk);
    var t := DoReceive(s, c, j, f).(writer := Run(s.writer, steps));
    ActOne(t, WriteReturned(j));
    ActAppend(s, first, [WriteReturned(j)]);
    if sourceOk {
      VoidIsReadable(f, f.header.streamId);
      DualLeavesTracker(s.conns[c].prepared, f, FrameBytes(VoidResult(f.header.streamId)));
      assert DualRound(c, j, f, steps, sourceOk, answer, effect) == first + [WriteReturned(j)];
    } else {
      ActOne(DoWriteReturned(t, j), SourceAnswers(j, answer, effect));
      ActAppend(s, first + [WriteReturned(j)], [SourceAnswers(j, answer, effect)]);
    }
  }

  lemma DualLeavesTracker(prepared: Prepared, f: Frame, response: seq<byte>)
    requires Readable(f) && PlanFor(prepared, f).DualWrite? && ReadableResponse(f, response)
    ensures Track(prepared, f, response) == prepared
  {
    hide IsWrite, Target, QueryOf, ExecuteId, PreparedId, Readable, ReadableResponse;
  }

  lemma {:induction false} ReachableAfter(s: System, actions: seq<Action>)
    requires ReachableSystem(s) && CanAct(s, actions)
    ensures ReachableSystem(After(s, actions))
  {
    hide Act, Permitted;
    var settings: Settings, past: seq<Action> :|
      ValidSettings(settings) && CanAct(Start(settings), past) && s == After(Start(settings), past);
    ActAppend(Start(settings), past, actions);
  }

  /** The steps of `write()` begin the call first and once. */
  lemma WriteStepsBegin(w: WriteId, cql: string, table: string, id: EntryId, skip: bool,
                        source: Clusters.Reply, target: Clusters.Reply)
    ensures var steps := WriteSteps(w, cql, table, id, skip, source, target);
            && steps != [] && steps[0] == Begin(w, cql, table)
            && forall i :: 1 <= i < |steps| ==> !steps[i].Begin?
  {
  }

  /** One round of the connection object is a run of the system's actions: from a system that agrees with the object on
      the writer and on this connection's tracker, the actions lead to one that agrees with it again, with the response
      added. So every end-to-end guarantee holds of the object, round after round. `effect` says whether a forwarded
      frame took effect on the source. */
  method ServeFrame(conn: ProxyConnection, f: Frame, id: EntryId, ghost w: WriteId,
                    ghost s: System, ghost c: ConnId, ghost effect: bool)
    returns (response: seq<byte>, ghost actions: seq<Action>)
    requires conn.Valid() && s.writer == conn.writer.model && Permitted(s, Receive(c, w, f))
    requires s.conns[c].prepared == conn.prepared && id !in s.writer.ledger.issued
    requires AnswerFits(f, conn.socket.answers(|conn.socket.sent|))
    modifies conn, conn.socket, conn.writer, conn.writer.source, conn.writer.target, conn.writer.filter
    ensures conn.Valid() && CanAct(s, actions) && (ReachableSystem(s) ==> ReachableSystem(After(s, actions)))
    ensures ReadableResponse(f, response)
    ensures Answers(s, After(s, actions), c, w, f, conn.writer.model, response)
    ensures After(s, actions).conns[c].prepared == conn.prepared
  {
    hide PlanFor, Readable, ReadableResponse, FrameBytes, Track, CanRun, Run, Do, Enabled, After, CanAct, WriteSteps;
    hide ReachableSystem, DualRound, ForwardRound, VoidResult;
    ghost var plan := PlanFor(conn.prepared, f);
    ghost var answer := conn.socket.answers(|conn.socket.sent|);
    ghost var trace, settings := conn.writer.trace, conn.writer.settings;
    ghost var r1 := conn.writer.source.replies(conn.writer.source.executions);
    ghost var r2 := conn.writer.target.replies(conn.writer.target.executions);
    response := conn.HandleFrame(f, id, w);
    match plan {
      case Forward =>
        actions := ForwardRound(c, w, f, answer, effect);
        ForwardRoundRuns(s, c, w, f, answer, effect);
      case DualWrite(query, table) =>
        ghost var steps := WriteSteps(w, query, table, id, s.writer.rules.Skips(table), r1, r2);
        WriteStepsBegin(w, query, table, id, s.writer.rules.Skips(table), r1, r2);
        RunSplit(Initial(settings), trace, steps);
        actions := DualRound(c, w, f, steps, r1.Acked?, answer, effect);
        DualRoundRuns(s, c, w, f, query, table, steps, r1.Acked?, answer, effect);
    }
    if ReachableSystem(s) {
      ReachableAfter(s, actions);
    }
  }
}
