/** A run in which a transfer succeeds: for every file and request whose messages are within the limits of both
    messengers and whose digest is the file's, the protocol can deliver the file. */
module TransferSuccess {
  import opened BigEndian
  import opened Wrappers
  import opened Frames
  import opened ByteChannel
  import opened TransferBody
  import opened TransferReceiver
  import opened TransferLink
  import TransferRuns

  ghost predicate Next(u: Setup, l: Link, s: Step, l': Link) {
    Enabled(u, l, s) && Apply(u, l, s) == l'
  }

  lemma OneFlying(f: Frame)
    ensures CanTake(Push(EMPTY, f)) && Front(Push(EMPTY, f)) == f && Rest(Push(EMPTY, f)) == EMPTY
  {
    HeadOfFrame(f, []);
    assert Binary(f) + [] == Binary(f) && [] + Binary(f) == Binary(f);
    assert ([f])[1..] == [];
  }

  /** Everything the surroundings do for one transfer. */
  datatype Setting = Setting(path: string, temp: Temp)

  ghost predicate Helpful(l: Link, t: Call, w: Setting) {
    && t in l.calls && l.serving && w.path != "" && w.temp.Created?
    && TempFor(l.receiver.disk.cwd, w.path, w.temp.path) && w.temp.path !in l.receiver.disk.names
    && w.temp.inode !in l.receiver.disk.data && w.temp.inode !in l.receiver.disk.names.Values
  }

  function Accept(job: Job): Response {
    Response(job.req.transferId, true, NoError)
  }

  function Ok(u: Setup, job: Job): Result {
    Result(job.req.transferId, true, |job.content|, u.sha(job.content), Fine)
  }

  function AcceptReply(u: Setup, job: Job): Message {
    Message(job.openId, OPEN_RESPONSE, u.codec.putResponse(Accept(job)))
  }

  function OkReply(u: Setup, job: Job): Message {
    Message(job.commitId, COMMIT_RESPONSE, u.codec.putResult(Ok(u, job)))
  }

  /** A message that one messenger sends and the other one admits. */
  predicate Passes(from: Limits, to: Limits, m: Message) {
    Sendable(from.sends, m) && Admits(to.receives, HeaderOf(m))
  }

  /** Both limits in plain terms: the sender's counts the header, the receiver's does not, and 0 is no limit. */
  lemma PassesExactly(from: Limits, to: Limits, m: Message)
    ensures Passes(from, to, m) <==>
              && m.id != 0 && |m.payload| < 0x1_0000_0000
              && (from.sends == 0 || 16 + |m.payload| <= from.sends)
              && (to.receives == 0 || |m.payload| <= to.receives)
  {}

  /** The three messages of a call and the two replies of a success are within the limits. */
  predicate WithinLimits(u: Setup, job: Job)
    requires SizeFits(job.req.transferId, |job.content|)
  {
    && Passes(u.sender, u.receiver, OpenMessage(u, job)) && Passes(u.sender, u.receiver, BodyMessage(job))
    && Passes(u.sender, u.receiver, CommitMessage(u, job))
    && Passes(u.receiver, u.sender, AcceptReply(u, job)) && Passes(u.receiver, u.sender, OkReply(u, job))
  }

  predicate DigestMatches(u: Setup, job: Job) {
    DigestFits(job.req.sha256, u.sha(job.content))
  }

  /** The call can succeed. */
  predicate CanPass(u: Setup, t: Call)
    requires t in u.jobs && SizeFits(u.jobs[t].req.transferId, |u.jobs[t].content|)
  {
    WithinLimits(u, u.jobs[t]) && DigestMatches(u, u.jobs[t])
  }

  function EnvOf(w: Setting): Env {
    Env(Destination(w.path), w.temp, Complete, true, true)
  }

  // ----- the receiver's states -----

  function Opened(u: Setup, s: State, t: Call, w: Setting): State
    requires t in u.jobs
  {
    TransferReceiver.Open(s, u.jobs[t].req, Destination(w.path), w.temp).0
  }

  lemma OpenAccepts(u: Setup, l: Link, t: Call, w: Setting)
    requires ValidSetup(u) && Start(u, l) && Helpful(l, t, w) && t in u.jobs
    ensures var (s, resp) := TransferReceiver.Open(l.receiver, u.jobs[t].req, Destination(w.path), w.temp);
            && resp == Accept(u.jobs[t])
            && s.incoming == map[u.jobs[t].req.transferId := NewIncoming(u.jobs[t].req,
                                                                         Where(l.receiver.disk.cwd, w.path), w.temp)]
            && s.disk.data == l.receiver.disk.data[w.temp.inode := []]
            && s.disk.names == l.receiver.disk.names[w.temp.path := w.temp.inode]
  {
    hide TempFor;
    hide Where;
    hide Fits;
  }

  lemma BodyStores(sha: TransferRuns.Digest, s: State, job: Job, w: Setting, to: Path)
    requires w.temp.Created? && SizeFits(job.req.transferId, |job.content|)
    requires s.incoming == map[job.req.transferId := NewIncoming(job.req, to, w.temp)]
    requires w.temp.inode in s.disk.data && s.disk.data[w.temp.inode] == []
    ensures var (s', outcome) := ReceiveBody(s, BodyMessage(job).payload, Complete);
            && outcome == Stored && s'.disk.names == s.disk.names
            && s'.incoming == map[job.req.transferId := Incoming(to, w.temp.path, w.temp.inode, job.req, false,
                                                                 job.content, true, |job.content|)]
  {
    hide DecodeBody;
    hide EncodeId;
    DecodeAfterEncode(job.req.transferId, job.content);
    assert [] + job.content == job.content;
  }

  lemma CommitSucceeds(u: Setup, s: State, job: Job, w: Setting, to: Path)
    requires job.req.size == |job.content| && w.temp.Created?
    requires DigestFits(job.req.sha256, u.sha(job.content))
    requires s.incoming == map[job.req.transferId := Incoming(to, w.temp.path, w.temp.inode, job.req, false,
                                                              job.content, true, |job.content|)]
    requires w.temp.path in s.disk.names
    ensures Commit(u.sha, s, job.req.transferId, true, true).1 == Ok(u, job)
  {
    hide EqualFold;
    hide SameButForCase;
    EqualFoldExactly(u.sha(job.content), job.req.sha256);
  }

  // ----- the run -----

  /** The link with call `t` at `p`, and everything else of interest given. */
  function At(l: Link, t: Call, p: Progress, toReceiver: Channel, receiver: State, toSender: Channel,
              owner: map<Id, Call>, delivered: map<uint64, Result>): Link
  {
    Link(l.calls[t := p], toReceiver, receiver, true, toSender, owner, delivered)
  }

  lemma Asks(u: Setup, l: Link, t: Call, w: Setting)
    requires ValidSetup(u) && Start(u, l) && Helpful(l, t, w) && t in u.jobs
    requires SizeFits(u.jobs[t].req.transferId, |u.jobs[t].content|)
    requires WithinLimits(u, u.jobs[t])
    ensures Fits(OpenMessage(u, u.jobs[t]))
    ensures Next(u, l, SendOpen(t),
                 At(l, t, Progress(Asked, 1, 0, false), Push(EMPTY, OpenMessage(u, u.jobs[t])), l.receiver, EMPTY,
                    map[], map[]))
  {
    hide Push;
    hide TempFor;
    hide Where;
  }

  lemma IsOpened(u: Setup, l: Link, t: Call, w: Setting)
    requires ValidSetup(u) && Start(u, l) && Helpful(l, t, w) && t in u.jobs
    requires SizeFits(u.jobs[t].req.transferId, |u.jobs[t].content|)
    requires WithinLimits(u, u.jobs[t])
    ensures Fits(OpenMessage(u, u.jobs[t]))
    ensures var job := u.jobs[t];
            var reply := AcceptReply(u, job);
            && Fits(reply)
            && Next(u, At(l, t, Progress(Asked, 1, 0, false), Push(EMPTY, OpenMessage(u, job)), l.receiver, EMPTY,
                          map[], map[]),
                    HandleOpen(t, EnvOf(w)),
                    At(l, t, Progress(Asked, 1, 1, true), EMPTY, Opened(u, l.receiver, t, w), Push(EMPTY, reply),
                       map[job.req.transferId := t], map[]))
  {
    hide Push;
    hide TempFor;
    hide Where;
    hide Head;
    hide Rest;
    hide Open;
    OneFlying(OpenMessage(u, u.jobs[t]));
    OpenAccepts(u, l, t, w);
    var l1 := At(l, t, Progress(Asked, 1, 0, false), Push(EMPTY, OpenMessage(u, u.jobs[t])), l.receiver, EMPTY, map[],
                 map[]);
    assert EventOf(u, Front(l1.toReceiver), EnvOf(w)) == Some(TransferRuns.OpenEvent(u.jobs[t].req,
                                                                                     Destination(w.path), w.temp));
  }

  lemma HearsAccepted(u: Setup, l: Link, t: Call, receiver: State, owner: map<Id, Call>, reply: Frame)
    requires ValidSetup(u) && t in u.jobs && t in l.calls && SizeFits(u.jobs[t].req.transferId, |u.jobs[t].content|)
    requires WithinLimits(u, u.jobs[t]) && reply == AcceptReply(u, u.jobs[t])
    ensures Next(u, At(l, t, Progress(Asked, 1, 1, true), EMPTY, receiver, Push(EMPTY, reply), owner, map[]),
                 GetOpenResponse(t),
                 At(l, t, Progress(Phase.Accepted, 1, 1, true), EMPTY, receiver, EMPTY, owner, map[]))
  {
    hide Push;
    hide Head;
    hide Rest;
    OneFlying(reply);
  }

  lemma SendsBody(u: Setup, l: Link, t: Call, receiver: State, owner: map<Id, Call>)
    requires ValidSetup(u) && t in u.jobs && t in l.calls && SizeFits(u.jobs[t].req.transferId, |u.jobs[t].content|)
    requires WithinLimits(u, u.jobs[t])
    ensures Next(u, At(l, t, Progress(Phase.Accepted, 1, 1, true), EMPTY, receiver, EMPTY, owner, map[]),
                 SendBody(t),
                 At(l, t, Progress(BodySent, 2, 1, true), Push(EMPTY, BodyMessage(u.jobs[t])), receiver, EMPTY, owner,
                    map[]))
  {
    hide Push;
    hide SizeFits;
    hide BodyMessage;
  }

  lemma IsStored(u: Setup, l: Link, t: Call, w: Setting, receiver: State, owner: map<Id, Call>)
    requires ValidSetup(u) && t in u.jobs && t in l.calls && SizeFits(u.jobs[t].req.transferId, |u.jobs[t].content|)
    requires WithinLimits(u, u.jobs[t])
    requires ReceiveBody(receiver, BodyMessage(u.jobs[t]).payload, Complete).1 == Stored
    ensures Next(u, At(l, t, Progress(BodySent, 2, 1, true), Push(EMPTY, BodyMessage(u.jobs[t])), receiver, EMPTY,
                       owner, map[]),
                 HandleBody(t, EnvOf(w)),
                 At(l, t, Progress(BodySent, 2, 2, true), EMPTY,
                    ReceiveBody(receiver, BodyMessage(u.jobs[t]).payload, Complete).0, EMPTY, owner, map[]))
  {
    hide Push;
    hide Head;
    hide Rest;
    hide SizeFits;
    hide ReceiveBody;
    OneFlying(BodyMessage(u.jobs[t]));
  }

  lemma SendsCommit(u: Setup, l: Link, t: Call, receiver: State, owner: map<Id, Call>)
    requires t in u.jobs && t in l.calls && SizeFits(u.jobs[t].req.transferId, |u.jobs[t].content|)
    requires WithinLimits(u, u.jobs[t])
    ensures Next(u, At(l, t, Progress(BodySent, 2, 2, true), EMPTY, receiver, EMPTY, owner, map[]),
                 SendCommit(t),
                 At(l, t, Progress(Committing, 3, 2, true), Push(EMPTY, CommitMessage(u, u.jobs[t])), receiver, EMPTY,
                    owner, map[]))
  {
    hide Push;
  }

  lemma IsCommitted(u: Setup, l: Link, t: Call, w: Setting, receiver: State, owner: map<Id, Call>, reply: Frame)
    requires ValidSetup(u) && t in u.jobs && t in l.calls && SizeFits(u.jobs[t].req.transferId, |u.jobs[t].content|)
    requires WithinLimits(u, u.jobs[t])
    requires Commit(u.sha, receiver, u.jobs[t].req.transferId, true, true).1 == Ok(u, u.jobs[t])
    requires reply == OkReply(u, u.jobs[t])
    ensures exists after: State, owner', delivered ::
              Next(u, At(l, t, Progress(Committing, 3, 2, true), Push(EMPTY, CommitMessage(u, u.jobs[t])), receiver,
                         EMPTY, owner, map[]),
                   HandleCommit(t, EnvOf(w)),
                   At(l, t, Progress(Committing, 3, 3, true), EMPTY, after, Push(EMPTY, reply), owner', delivered))
  {
    hide Push;
    hide Head;
    hide Rest;
    hide Commit;
    OneFlying(CommitMessage(u, u.jobs[t]));
    var l6 := At(l, t, Progress(Committing, 3, 2, true), Push(EMPTY, CommitMessage(u, u.jobs[t])), receiver, EMPTY,
                 owner, map[]);
    var e := TransferRuns.CommitEvent(u.jobs[t].req.transferId, true, true);
    assert EventOf(u, Front(l6.toReceiver), EnvOf(w)) == Some(e);
    var l7 := Apply(u, l6, HandleCommit(t, EnvOf(w)));
    assert l7 == At(l, t, Progress(Committing, 3, 3, true), EMPTY, l7.receiver, Push(EMPTY, reply), l7.owner,
                    l7.delivered);
  }

  lemma HearsDone(u: Setup, l: Link, t: Call, receiver: State, owner: map<Id, Call>, delivered: map<uint64, Result>,
                  reply: Frame)
    requires ValidSetup(u) && t in u.jobs && t in l.calls && SizeFits(u.jobs[t].req.transferId, |u.jobs[t].content|)
    requires WithinLimits(u, u.jobs[t]) && reply == OkReply(u, u.jobs[t])
    ensures Next(u, At(l, t, Progress(Committing, 3, 3, true), EMPTY, receiver, Push(EMPTY, reply), owner, delivered),
                 GetCommitResponse(t),
                 At(l, t, Progress(Done(Ok(u, u.jobs[t])), 3, 3, true), EMPTY, receiver, EMPTY, owner, delivered))
  {
    hide Push;
    hide Head;
    hide Rest;
    OneFlying(reply);
  }

  ghost predicate Reaches(u: Setup, l: Link, l': Link) {
    exists steps :: Run(u, l, steps, l')
  }

  lemma ReachesNext(u: Setup, l: Link, s: Step, m: Link, l': Link)
    requires Next(u, l, s, m) && Reaches(u, m, l')
    ensures Reaches(u, l, l')
  {
    hide CanStep;
    hide EventPossible;
    hide Apply;
    var steps :| Run(u, m, steps, l');
    assert ([s] + steps)[1..] == steps;
    assert Run(u, l, [s] + steps, l');
  }

  lemma ReachesSelf(u: Setup, l: Link)
    ensures Reaches(u, l, l)
  {
    assert Run(u, l, [], l);
  }

  lemma FromBodyOn(u: Setup, l: Link, t: Call, w: Setting, to: Path, receiver: State, owner: map<Id, Call>)
    requires ValidSetup(u) && Helpful(l, t, w) && t in u.jobs && SizeFits(u.jobs[t].req.transferId, |u.jobs[t].content|)
    requires WithinLimits(u, u.jobs[t]) && DigestMatches(u, u.jobs[t])
    requires receiver.incoming == map[u.jobs[t].req.transferId := NewIncoming(u.jobs[t].req, to, w.temp)]
    requires w.temp.inode in receiver.disk.data && receiver.disk.data[w.temp.inode] == []
    requires w.temp.path in receiver.disk.names
    ensures exists l' :: In(l', t, Done(Ok(u, u.jobs[t])))
                      && Reaches(u, At(l, t, Progress(Phase.Accepted, 1, 1, true), EMPTY, receiver, EMPTY, owner,
                                       map[]), l')
  {
    hide Next;
    hide Reaches;
    hide TempFor;
    hide Where;
    hide DigestFits;
    hide ReceiveBody;
    hide Commit;
    hide EncodeId;
    hide Inverse;
    var job := u.jobs[t];
    SendsBody(u, l, t, receiver, owner);
    BodyStores(u.sha, receiver, job, w, to);
    IsStored(u, l, t, w, receiver, owner);
    var stored := ReceiveBody(receiver, BodyMessage(job).payload, Complete).0;
    SendsCommit(u, l, t, stored, owner);
    CommitSucceeds(u, stored, job, w, to);
    var reply: Frame := OkReply(u, job);
    IsCommitted(u, l, t, w, stored, owner, reply);
    var l3 := At(l, t, Progress(Phase.Accepted, 1, 1, true), EMPTY, receiver, EMPTY, owner, map[]);
    var l4 := At(l, t, Progress(BodySent, 2, 1, true), Push(EMPTY, BodyMessage(job)), receiver, EMPTY, owner, map[]);
    var l5 := At(l, t, Progress(BodySent, 2, 2, true), EMPTY, stored, EMPTY, owner, map[]);
    var l6 := At(l, t, Progress(Committing, 3, 2, true), Push(EMPTY, CommitMessage(u, job)), stored, EMPTY, owner,
                 map[]);
    var after: State, owner', delivered :|
      Next(u, l6, HandleCommit(t, EnvOf(w)),
           At(l, t, Progress(Committing, 3, 3, true), EMPTY, after, Push(EMPTY, reply), owner', delivered));
    var l7 := At(l, t, Progress(Committing, 3, 3, true), EMPTY, after, Push(EMPTY, reply), owner', delivered);
    var l8 := At(l, t, Progress(Done(Ok(u, job)), 3, 3, true), EMPTY, after, EMPTY, owner', delivered);
    HearsDone(u, l, t, after, owner', delivered, reply);
    ReachesSelf(u, l8);
    ReachesNext(u, l7, GetCommitResponse(t), l8, l8);
    ReachesNext(u, l6, HandleCommit(t, EnvOf(w)), l7, l8);
    ReachesNext(u, l5, SendCommit(t), l6, l8);
    ReachesNext(u, l4, HandleBody(t, EnvOf(w)), l5, l8);
    ReachesNext(u, l3, SendBody(t), l4, l8);
  }

  lemma ValidFits(u: Setup, t: Call)
    requires ValidSetup(u) && t in u.jobs
    ensures SizeFits(u.jobs[t].req.transferId, |u.jobs[t].content|) && u.jobs[t].req.size == |u.jobs[t].content|
  {}

  /** From a fresh link with helpful surroundings, a call that can pass has a run in which it returns the OK result. */
  lemma SendFileCanSucceed(u: Setup, l: Link, t: Call, w: Setting)
    requires ValidSetup(u) && Start(u, l) && Helpful(l, t, w) && t in u.jobs
    requires SizeFits(u.jobs[t].req.transferId, |u.jobs[t].content|) && CanPass(u, t)
    ensures exists l' :: In(l', t, Done(Ok(u, u.jobs[t]))) && Reaches(u, l, l')
  {
    hide Next;
    hide Reaches;
    hide TempFor;
    hide Where;
    hide DigestFits;
    hide Inverse;
    hide Open;
    var job := u.jobs[t];
    Asks(u, l, t, w);
    IsOpened(u, l, t, w);
    OpenAccepts(u, l, t, w);
    var receiver := Opened(u, l.receiver, t, w);
    var owner := map[job.req.transferId := t];
    var reply: Frame := AcceptReply(u, job);
    HearsAccepted(u, l, t, receiver, owner, reply);
    FromBodyOn(u, l, t, w, Where(l.receiver.disk.cwd, w.path), receiver, owner);
    var l1 := At(l, t, Progress(Asked, 1, 0, false), Push(EMPTY, OpenMessage(u, job)), l.receiver, EMPTY, map[], map[]);
    var l2 := At(l, t, Progress(Asked, 1, 1, true), EMPTY, receiver, Push(EMPTY, reply), owner, map[]);
    var l3 := At(l, t, Progress(Phase.Accepted, 1, 1, true), EMPTY, receiver, EMPTY, owner, map[]);
    var l' :| In(l', t, Done(Ok(u, job))) && Reaches(u, l3, l');
    ReachesNext(u, l2, GetOpenResponse(t), l3, l');
    ReachesNext(u, l1, HandleOpen(t, EnvOf(w)), l2, l');
    ReachesNext(u, l, SendOpen(t), l1, l');
  }
}
