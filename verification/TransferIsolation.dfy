/** Transfers with different ids and destinations do not affect each other: every interleaving gives each
    transfer the outcomes and the final file of running its own messages alone. */
module TransferIsolation {
  import opened BigEndian
  import opened TransferBody
  import opened TransferReceiver
  import opened TransferRuns

  predicate Concerns(e: Event, x: Id) {
    match e
    case OpenEvent(req, _, _) => req.transferId == x
    case BodyEvent(payload, _) => DecodeBody(payload).Body? && DecodeBody(payload).id == x
    case CommitEvent(id, _, _) => id == x
  }

  /** The messages of one transfer, in their order. */
  function Only(events: seq<Event>, x: Id): seq<Event> {
    if events == [] then []
    else
      var last := events[|events| - 1];
      Only(events[..|events| - 1], x) + (if Concerns(last, x) then [last] else [])
  }

  /** Their outcomes in the interleaved run. */
  function OutcomesOf(sha: Digest, s: State, events: seq<Event>, x: Id): seq<Outcome> {
    if events == [] then []
    else
      var front := events[..|events| - 1];
      var last := events[|events| - 1];
      OutcomesOf(sha, s, front, x) + (if Concerns(last, x) then [Step(sha, After(sha, s, front), last).1] else [])
  }

  /** No other transfer is given a destination that names the place `d`, seen from the directory `cwd`. */
  ghost predicate LeavesAlone(cwd: string, e: Event, x: Id, d: Path) {
    e.OpenEvent? && !Concerns(e, x) && e.plan.Destination? ==> Where(cwd, e.plan.path) != d
  }

  // ----- how the whole run and the solo run stay alike -----

  ghost predicate NamesHaveData(disk: Disk) {
    forall p :: p in disk.names ==> disk.names[p] in disk.data
  }

  /** The entry is as it should be, and its temporary name stands for its own file. */
  ghost predicate Sound(inc: Incoming, disk: Disk) {
    EntryOk(inc, disk) && Intact(inc, disk)
  }

  /** The transfer itself stands the same, and its temporary file has the same bytes. */
  ghost predicate SameTransfer(f: State, t: State, x: Id) {
    && (x in f.incoming <==> x in t.incoming)
    && (forall y :: y in t.incoming ==> y == x)
    && (x in f.incoming ==>
          && t.incoming[x] == f.incoming[x]
          && Sound(f.incoming[x], f.disk) && Sound(t.incoming[x], t.disk)
          && t.disk.data[t.incoming[x].inode] == f.disk.data[t.incoming[x].inode])
  }

  /** The file at `d` is not the transfer's own temporary file. */
  ghost predicate OwnApart(f: State, t: State, x: Id, d: Path) {
    && (x in f.incoming && d in f.disk.names ==> f.disk.names[d] != f.incoming[x].inode)
    && (x in t.incoming && d in t.disk.names ==> t.disk.names[d] != t.incoming[x].inode)
  }

  ghost predicate SmallerDisk(f: State, t: State) {
    && t.disk.names.Keys <= f.disk.names.Keys && t.disk.data.Keys <= f.disk.data.Keys
    && NamesHaveData(f.disk) && NamesHaveData(t.disk) && f.disk.cwd == t.disk.cwd
  }

  /** Another transfer's temporary file is unknown to the solo run and is not the file at `d`. */
  ghost predicate Foreign(f: State, t: State, y: Id, d: Path)
    requires y in f.incoming
  {
    && f.incoming[y].tempPath !in t.disk.names && f.incoming[y].inode !in t.disk.data
    && f.incoming[y].finalPath != d && f.incoming[y].tempPath != d
    && (d in f.disk.names ==> f.disk.names[d] != f.incoming[y].inode)
  }

  ghost predicate OthersForeign(f: State, t: State, x: Id, d: Path) {
    forall y :: y in f.incoming && y != x ==> Foreign(f, t, y, d)
  }

  ghost predicate Alike(f: State, t: State, x: Id, d: Path) {
    && SameTransfer(f, t, x) && OwnApart(f, t, x, d) && SmallerDisk(f, t) && OthersForeign(f, t, x, d)
    && Content(f.disk, d) == Content(t.disk, d)
  }

  lemma OwnOpenOthers(f: State, t: State, x: Id, d: Path, req: Request, plan: Plan, temp: Temp)
    requires Alike(f, t, x, d) && Inv(f) && req.transferId == x && !TempShaped(d)
    requires Possible(f, OpenEvent(req, plan, temp))
    ensures OthersForeign(Open(f, req, plan, temp).0, Open(t, req, plan, temp).0, x, d)
  {
    hide OnlyName;
    hide TempShaped;
    hide TempFor;
    hide Where;
    hide Apart;
    hide SameTransfer;
    hide NamesHaveData;
    if plan.Destination? && temp.Created? {
      TempForIsShaped(f.disk.cwd, plan.path, temp.path);
    }
  }

  lemma PossibleToo(f: State, t: State, e: Event)
    requires SmallerDisk(f, t) && Possible(f, e)
    ensures Possible(t, e)
  {
    hide TempFor;
  }

  lemma OwnOpen(f: State, t: State, x: Id, d: Path, req: Request, plan: Plan, temp: Temp)
    requires Alike(f, t, x, d) && Inv(f) && req.transferId == x && !TempShaped(d)
    requires Possible(f, OpenEvent(req, plan, temp))
    ensures Possible(t, OpenEvent(req, plan, temp))
    ensures Open(f, req, plan, temp).1 == Open(t, req, plan, temp).1
    ensures Alike(Open(f, req, plan, temp).0, Open(t, req, plan, temp).0, x, d)
  {
    hide TempShaped;
    hide TempFor;
    hide Where;
    hide Inv;
    hide OthersForeign;
    hide EntryOk;
    PossibleToo(f, t, OpenEvent(req, plan, temp));
    OwnOpenOthers(f, t, x, d, req, plan, temp);
    if plan.Destination? && temp.Created? {
      TempForIsShaped(f.disk.cwd, plan.path, temp.path);
      NewEntryOk(f.disk, req, Where(f.disk.cwd, plan.path), temp);
      NewEntryOk(t.disk, req, Where(t.disk.cwd, plan.path), temp);
    }
  }

  lemma StoresAlike(f: Disk, t: Disk, inc: Incoming, content: seq<byte>, end: CopyEnd)
    requires inc.inode in f.data && inc.inode in t.data && f.data[inc.inode] == t.data[inc.inode]
    ensures Stores(f, inc, content, end).1 == Stores(t, inc, content, end).1
    ensures Stores(f, inc, content, end).2 == Stores(t, inc, content, end).2
    ensures inc.inode in Stores(f, inc, content, end).0.data && inc.inode in Stores(t, inc, content, end).0.data
    ensures Stores(f, inc, content, end).0.data[inc.inode] == Stores(t, inc, content, end).0.data[inc.inode]
  {}

  lemma OwnBody(f: State, t: State, x: Id, d: Path, payload: seq<byte>, end: CopyEnd)
    requires Alike(f, t, x, d) && Inv(f) && Concerns(BodyEvent(payload, end), x)
    ensures ReceiveBody(f, payload, end).1 == ReceiveBody(t, payload, end).1
    ensures Alike(ReceiveBody(f, payload, end).0, ReceiveBody(t, payload, end).0, x, d)
  {
    hide OnlyName;
    hide Stores;
    hide EntriesOk;
    hide DecodeBody;
    if x in f.incoming && !f.incoming[x].bodyWritten {
      StoresOk(f.disk, f.incoming[x], DecodeBody(payload).content, end);
      StoresOk(t.disk, t.incoming[x], DecodeBody(payload).content, end);
      StoresAlike(f.disk, t.disk, f.incoming[x], DecodeBody(payload).content, end);
    }
  }

  lemma SameError(sha: Digest, f: State, t: State, x: Id, renames: bool)
    requires SameTransfer(f, t, x) && x in f.incoming
    ensures CommitErrorOf(f.incoming[x], sha(f.incoming[x].hashed), f.disk, renames)
         == CommitErrorOf(t.incoming[x], sha(t.incoming[x].hashed), t.disk, renames)
    ensures f.incoming[x].tempPath in f.disk.names && t.incoming[x].tempPath in t.disk.names
  {}

  lemma OwnCommitOthers(sha: Digest, f: State, t: State, x: Id, d: Path, renames: bool, removes: bool)
    requires Alike(f, t, x, d) && Inv(f) && TempFilesExact(f) && !TempShaped(d) && x in f.incoming
    requires CommitErrorOf(f.incoming[x], sha(f.incoming[x].hashed), f.disk, renames)
          == CommitErrorOf(t.incoming[x], sha(t.incoming[x].hashed), t.disk, renames)
    ensures var f', t' := Commit(sha, f, x, renames, removes).0, Commit(sha, t, x, renames, removes).0;
            SmallerDisk(f', t') && OthersForeign(f', t', x, d)
  {
    hide OnlyName;
    hide TempShaped;
    hide CommitErrorOf;
    hide OwnApart;
    hide Apart;
  }

  lemma OwnCommit(sha: Digest, f: State, t: State, x: Id, d: Path, renames: bool, removes: bool)
    requires Alike(f, t, x, d) && Inv(f) && TempFilesExact(f) && !TempShaped(d)
    ensures Commit(sha, f, x, renames, removes).1 == Commit(sha, t, x, renames, removes).1
    ensures Alike(Commit(sha, f, x, renames, removes).0, Commit(sha, t, x, renames, removes).0, x, d)
  {
    hide TempShaped;
    hide Inv;
    hide TempFilesExact;
    hide CommitErrorOf;
    hide OthersForeign;
    if x in f.incoming {
      SameError(sha, f, t, x, renames);
      OwnCommitOthers(sha, f, t, x, d, renames, removes);
    }
  }

  lemma OtherOpen(f: State, t: State, x: Id, d: Path, req: Request, plan: Plan, temp: Temp)
    requires Alike(f, t, x, d) && Inv(f) && req.transferId != x && !TempShaped(d)
    requires Possible(f, OpenEvent(req, plan, temp)) && LeavesAlone(f.disk.cwd, OpenEvent(req, plan, temp), x, d)
    ensures Alike(Open(f, req, plan, temp).0, t, x, d)
  {
    hide TempShaped;
    hide TempFor;
    hide Where;
    hide EntryOk;
    if plan.Destination? && temp.Created? {
      TempForIsShaped(f.disk.cwd, plan.path, temp.path);
      if x in f.incoming {
        CreatedKept(f.disk, f.incoming[x], temp.path, temp.inode);
      }
    }
  }

  lemma OtherBody(f: State, t: State, x: Id, d: Path, payload: seq<byte>, end: CopyEnd)
    requires Alike(f, t, x, d) && Inv(f) && !Concerns(BodyEvent(payload, end), x)
    ensures Alike(ReceiveBody(f, payload, end).0, t, x, d)
  {
    hide OnlyName;
    hide Stores;
    hide DecodeBody;
    var body := DecodeBody(payload);
    if body.Body? && body.id in f.incoming && !f.incoming[body.id].bodyWritten {
      StoresOk(f.disk, f.incoming[body.id], body.content, end);
    }
  }

  /** The two transfers' files are different ones. */
  lemma OtherStandsApart(f: State, t: State, x: Id, d: Path, id: Id)
    requires Alike(f, t, x, d) && Inv(f) && TempFilesExact(f) && id != x && id in f.incoming
    ensures EntryOk(f.incoming[id], f.disk) && Foreign(f, t, id, d)
    ensures x in f.incoming ==> f.incoming[x].tempPath in Temps(f.incoming)
    ensures x in f.incoming ==>
              f.incoming[x].tempPath != f.incoming[id].tempPath && f.incoming[x].inode != f.incoming[id].inode
  {
    hide TempShaped;
  }

  lemma OtherCommitSparesOwn(sha: Digest, f: State, t: State, x: Id, d: Path, id: Id, renames: bool, removes: bool)
    requires Alike(f, t, x, d) && Inv(f) && TempFilesExact(f) && id != x
    ensures var f' := Commit(sha, f, id, renames, removes).0;
            SameTransfer(f', t, x) && OwnApart(f', t, x, d) && Content(f'.disk, d) == Content(t.disk, d)
  {
    hide TempShaped;
    hide CommitErrorOf;
    hide Inv;
    hide OthersForeign;
    if id in f.incoming {
      OtherStandsApart(f, t, x, d, id);
    }
  }

  lemma OtherCommitSparesOthers(sha: Digest, f: State, t: State, x: Id, d: Path, id: Id, renames: bool, removes: bool)
    requires Alike(f, t, x, d) && Inv(f) && TempFilesExact(f) && id != x
    ensures var f' := Commit(sha, f, id, renames, removes).0; SmallerDisk(f', t) && OthersForeign(f', t, x, d)
  {
    hide OnlyName;
    hide TempShaped;
    hide CommitErrorOf;
    hide SameTransfer;
    hide TempFilesExact;
    hide Apart;
  }

  lemma OtherCommit(sha: Digest, f: State, t: State, x: Id, d: Path, id: Id, renames: bool, removes: bool)
    requires Alike(f, t, x, d) && Inv(f) && TempFilesExact(f) && id != x
    ensures Alike(Commit(sha, f, id, renames, removes).0, t, x, d)
  {
    hide Commit;
    hide Inv;
    hide TempFilesExact;
    hide SameTransfer;
    hide OthersForeign;
    hide Commit;
    OtherCommitSparesOwn(sha, f, t, x, d, id, renames, removes);
    OtherCommitSparesOthers(sha, f, t, x, d, id, renames, removes);
  }

  /** A message of the transfer does the same in both runs. */
  lemma OwnStep(sha: Digest, f: State, t: State, e: Event, x: Id, d: Path)
    requires Alike(f, t, x, d) && Inv(f) && TempFilesExact(f) && !TempShaped(d)
    requires Concerns(e, x) && Possible(f, e)
    ensures Possible(t, e)
    ensures Step(sha, f, e).1 == Step(sha, t, e).1
    ensures Alike(Step(sha, f, e).0, Step(sha, t, e).0, x, d)
  {
    hide Alike;
    hide Inv;
    hide TempFilesExact;
    match e
    case OpenEvent(req, plan, temp) => OwnOpen(f, t, x, d, req, plan, temp);
    case BodyEvent(payload, end) => OwnBody(f, t, x, d, payload, end);
    case CommitEvent(id, renames, removes) => OwnCommit(sha, f, t, x, d, renames, removes);
  }

  /** Any other message leaves the solo run a faithful picture. */
  lemma OtherStep(sha: Digest, f: State, t: State, e: Event, x: Id, d: Path)
    requires Alike(f, t, x, d) && Inv(f) && TempFilesExact(f) && !TempShaped(d)
    requires !Concerns(e, x) && Possible(f, e) && LeavesAlone(f.disk.cwd, e, x, d)
    ensures Alike(Step(sha, f, e).0, t, x, d)
  {
    hide Alike;
    hide Inv;
    hide TempFilesExact;
    match e
    case OpenEvent(req, plan, temp) => OtherOpen(f, t, x, d, req, plan, temp);
    case BodyEvent(payload, end) => OtherBody(f, t, x, d, payload, end);
    case CommitEvent(id, renames, removes) => OtherCommit(sha, f, t, x, d, id, renames, removes);
  }

  lemma AlikeAtStart(s: State, x: Id, d: Path)
    requires s.incoming == map[] && NamesHaveData(s.disk)
    ensures Alike(s, s, x, d)
  {}

  lemma {:induction false} RunsAlike(sha: Digest, s: State, events: seq<Event>, x: Id, d: Path)
    requires s.incoming == map[] && TempFilesExact(s) && NamesHaveData(s.disk)
    requires AllowedAndSafe(sha, s, events) && !TempShaped(d)
    requires forall e :: e in events ==> LeavesAlone(s.disk.cwd, e, x, d)
    ensures Alike(After(sha, s, events), After(sha, s, Only(events, x)), x, d)
    ensures Outcomes(sha, s, Only(events, x)) == OutcomesOf(sha, s, events, x)
    ensures AllowedAndSafe(sha, s, Only(events, x))
  {
    hide Alike;
    hide Inv;
    hide TempFilesExact;
    hide Step;
    hide Possible;
    hide TempShaped;
    hide Where;
    hide LeavesAlone;
    if events == [] {
      AlikeAtStart(s, x, d);
    } else {
      var front := events[..|events| - 1];
      var last := events[|events| - 1];
      assert events == front + [last];
      RunKeepsDirectory(sha, s, front);
      RunKeepsDirectory(sha, s, Only(front, x));
      RunsAlike(sha, s, front, x, d);
      TempFilesAreIncoming(sha, s, front);
      var f, t := After(sha, s, front), After(sha, s, Only(front, x));
      if Concerns(last, x) {
        OwnStep(sha, f, t, last, x, d);
        var solo := Only(events, x);
        assert solo[..|solo| - 1] == Only(front, x);
      } else {
        OtherStep(sha, f, t, last, x, d);
        assert Only(events, x) == Only(front, x);
        assert OutcomesOf(sha, s, events, x) == OutcomesOf(sha, s, front, x);
      }
    }
  }

  /** For every interleaving with safe destinations, and every destination `d` that no other transfer is
      given: the transfer's outcomes, its standing and the file at `d` are those of its messages alone. */
  lemma TransfersAreIsolated(sha: Digest, s: State, events: seq<Event>, x: Id, d: Path)
    requires s.incoming == map[] && TempFilesExact(s) && NamesHaveData(s.disk)
    requires AllowedAndSafe(sha, s, events) && !TempShaped(d)
    requires forall e :: e in events ==> LeavesAlone(s.disk.cwd, e, x, d)
    ensures var solo := Only(events, x);
            && AllowedAndSafe(sha, s, solo)
            && OutcomesOf(sha, s, events, x) == Outcomes(sha, s, solo)
            && Content(After(sha, s, events).disk, d) == Content(After(sha, s, solo).disk, d)
            && (x in After(sha, s, events).incoming <==> x in After(sha, s, solo).incoming)
            && (x in After(sha, s, events).incoming ==>
                  After(sha, s, events).incoming[x] == After(sha, s, solo).incoming[x])
  {
    RunsAlike(sha, s, events, x, d);
  }
}
