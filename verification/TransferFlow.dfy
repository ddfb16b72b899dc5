/** The frames of each call on the wire of the transfer link. */
module TransferFlow {
  import opened Frames
  import opened TransferBody
  import opened TransferLink

  function Script(u: Setup, job: Job): (script: seq<Message>)
    requires SizeFits(job.req.transferId, |job.content|)
    ensures |script| == 3
  {
    [OpenMessage(u, job), BodyMessage(job), CommitMessage(u, job)]
  }

  function MineOf(flying: seq<Frame>, job: Job): seq<Message> {
    if flying == [] then []
    else (if Mine(flying[0], job) then [flying[0]] else []) + MineOf(flying[1..], job)
  }

  lemma {:induction false} MineOfPush(flying: seq<Frame>, f: Frame, job: Job)
    ensures MineOf(flying + [f], job) == MineOf(flying, job) + (if Mine(f, job) then [f] else [])
  {
    if flying != [] {
      MineOfPush(flying[1..], f, job);
      assert (flying + [f])[1..] == flying[1..] + [f];
    } else {
      assert flying + [f] == [f];
      assert MineOf([f][1..], job) == [];
    }
  }

  /** The frames of a call under way are those it has sent and the receiver has not handled, in order. */
  ghost predicate FlowOf(u: Setup, job: Job, p: Progress, flying: seq<Frame>) {
    && SizeFits(job.req.transferId, |job.content|)
    && p.read <= p.sent <= 3
    && MineOf(flying, job) == Script(u, job)[p.read..p.sent]
  }

  ghost predicate Flow(u: Setup, calls: map<Call, Progress>, flying: seq<Frame>) {
    && calls.Keys == u.jobs.Keys
    && (forall t :: t in calls ==> FlowOf(u, u.jobs[t], calls[t], flying))
  }

  /** Every transfer message on the wire belongs to a call. */
  ghost predicate Known(jobs: map<Call, Job>, flying: seq<Frame>) {
    forall f :: f in flying && TransferType(f.typ) ==> exists t :: t in jobs && Mine(f, jobs[t])
  }

  /** Message ids are fresh, so a frame is of one call. */
  lemma MineOnce(u: Setup, t: Call, v: Call, f: Frame)
    requires ValidSetup(u) && t in u.jobs && v in u.jobs && Mine(f, u.jobs[t]) && Mine(f, u.jobs[v])
    ensures t == v
  {}

  lemma FlowOfPush(u: Setup, job: Job, p: Progress, flying: seq<Frame>, f: Frame, p': Progress)
    requires FlowOf(u, job, p, flying) && p.sent < 3 && f == Script(u, job)[p.sent]
    requires p'.sent == p.sent + 1 && p'.read == p.read
    ensures FlowOf(u, job, p', flying + [f])
  {
    MineOfPush(flying, f, job);
    var script := Script(u, job);
    assert script[p.read..p.sent] + [script[p.sent]] == script[p.read..p.sent + 1];
  }

  lemma FlowOfPushOther(u: Setup, job: Job, p: Progress, flying: seq<Frame>, f: Frame)
    requires FlowOf(u, job, p, flying) && !Mine(f, job)
    ensures FlowOf(u, job, p, flying + [f])
  {
    MineOfPush(flying, f, job);
  }

  /** The message at the front that belongs to the call is the next of its script. */
  lemma FlowOfPop(u: Setup, job: Job, p: Progress, flying: seq<Frame>, p': Progress)
    requires FlowOf(u, job, p, flying) && flying != [] && Mine(flying[0], job)
    requires p'.sent == p.sent && p'.read == p.read + 1
    ensures p.read < p.sent && flying[0] == Script(u, job)[p.read]
    ensures FlowOf(u, job, p', flying[1..])
  {
    var rest := Script(u, job)[p.read..p.sent];
    assert rest == [flying[0]] + MineOf(flying[1..], job);
    assert rest[1..] == MineOf(flying[1..], job);
  }

  lemma FlowOfPopOther(u: Setup, job: Job, p: Progress, flying: seq<Frame>)
    requires FlowOf(u, job, p, flying) && flying != [] && !Mine(flying[0], job)
    ensures FlowOf(u, job, p, flying[1..])
  {
    assert MineOf(flying, job) == MineOf(flying[1..], job);
  }

  lemma FlowPush(u: Setup, calls: map<Call, Progress>, flying: seq<Frame>, t: Call, f: Frame, p: Progress)
    requires ValidSetup(u) && Flow(u, calls, flying) && t in calls && calls[t].sent < 3
    requires FlowOf(u, u.jobs[t], calls[t], flying) && f == Script(u, u.jobs[t])[calls[t].sent]
    requires Mine(f, u.jobs[t]) && p.sent == calls[t].sent + 1 && p.read == calls[t].read
    ensures Flow(u, calls[t := p], flying + [f])
  {
    hide FlowOf;
    hide ValidSetup;
    hide Mine;
    forall v | v in calls
      ensures FlowOf(u, u.jobs[v], calls[t := p][v], flying + [f])
    {
      if v == t {
        FlowOfPush(u, u.jobs[t], calls[t], flying, f, p);
      } else {
        if Mine(f, u.jobs[v]) { MineOnce(u, t, v, f); }
        FlowOfPushOther(u, u.jobs[v], calls[v], flying, f);
      }
    }
  }

  lemma FlowPushOther(u: Setup, calls: map<Call, Progress>, flying: seq<Frame>, f: Frame)
    requires Flow(u, calls, flying) && !TransferType(f.typ)
    ensures Flow(u, calls, flying + [f])
  {
    forall v | v in calls
      ensures FlowOf(u, u.jobs[v], calls[v], flying + [f])
    {
      FlowOfPushOther(u, u.jobs[v], calls[v], flying, f);
    }
  }

  lemma FlowPop(u: Setup, calls: map<Call, Progress>, flying: seq<Frame>, t: Call, p: Progress)
    requires ValidSetup(u) && Flow(u, calls, flying) && flying != [] && t in calls && Mine(flying[0], u.jobs[t])
    requires p.read == calls[t].read + 1 && p.sent == calls[t].sent
    ensures FlowOf(u, u.jobs[t], calls[t], flying)
    ensures calls[t].read < calls[t].sent && flying[0] == Script(u, u.jobs[t])[calls[t].read]
    ensures Flow(u, calls[t := p], flying[1..])
  {
    hide FlowOf;
    hide Script;
    hide ValidSetup;
    hide Mine;
    FlowOfPop(u, u.jobs[t], calls[t], flying, p);
    forall v | v in calls
      ensures FlowOf(u, u.jobs[v], calls[t := p][v], flying[1..])
    {
      if v != t {
        if Mine(flying[0], u.jobs[v]) { MineOnce(u, t, v, flying[0]); }
        FlowOfPopOther(u, u.jobs[v], calls[v], flying);
      }
    }
  }

  lemma FlowPopOther(u: Setup, calls: map<Call, Progress>, flying: seq<Frame>)
    requires Flow(u, calls, flying) && flying != [] && !TransferType(flying[0].typ)
    ensures Flow(u, calls, flying[1..])
  {
    forall v | v in calls
      ensures FlowOf(u, u.jobs[v], calls[v], flying[1..])
    {
      FlowOfPopOther(u, u.jobs[v], calls[v], flying);
    }
  }

  lemma KnownPush(jobs: map<Call, Job>, flying: seq<Frame>, f: Frame)
    requires Known(jobs, flying)
    requires TransferType(f.typ) ==> exists t :: t in jobs && Mine(f, jobs[t])
    ensures Known(jobs, flying + [f])
  {}
}
