/** Every sequence of open, body and commit messages handled one at a time. */
module TransferRuns {
  import opened BigEndian
  import opened Wrappers
  import opened TransferBody
  import opened TransferReceiver

  datatype Event =
    | OpenEvent(req: Request, plan: Plan, temp: Temp)
    | BodyEvent(payload: seq<byte>, end: CopyEnd)
    | CommitEvent(id: Id, renames: bool, removes: bool)

  datatype Outcome = Opened(resp: Response) | Received(body: BodyOutcome) | Committed(result: Result)

  type Digest = seq<byte> -> string

  function Step(sha: Digest, s: State, e: Event): (State, Outcome) {
    match e
    case OpenEvent(req, plan, temp) => var (s', r) := Open(s, req, plan, temp); (s', Opened(r))
    case BodyEvent(payload, end) => var (s', o) := ReceiveBody(s, payload, end); (s', Received(o))
    case CommitEvent(id, renames, removes) => var (s', r) := Commit(sha, s, id, renames, removes); (s', Committed(r))
  }

  function After(sha: Digest, s: State, events: seq<Event>): State {
    if events == [] then s
    else Step(sha, After(sha, s, events[..|events| - 1]), events[|events| - 1]).0
  }

  function Outcomes(sha: Digest, s: State, events: seq<Event>): (outcomes: seq<Outcome>)
    ensures |outcomes| == |events|
  {
    if events == [] then []
    else
      var front := events[..|events| - 1];
      Outcomes(sha, s, front) + [Step(sha, After(sha, s, front), events[|events| - 1]).1]
  }

  /** The receiver object over a sequence of messages: what is proved of `After` and `Outcomes` holds of it. */
  method HandleAll(ft: FileTransfer, events: seq<Event>) returns (outcomes: seq<Outcome>)
    modifies ft
    ensures ft.Current() == After(ft.sha, old(ft.Current()), events)
    ensures outcomes == Outcomes(ft.sha, old(ft.Current()), events)
  {
    hide Step;
    ghost var start := ft.Current();
    outcomes := [];
    var i := 0;
    while i < |events|
      invariant i <= |events| && |outcomes| == i
      invariant ft.Current() == After(ft.sha, start, events[..i])
      invariant outcomes == Outcomes(ft.sha, start, events[..i])
    {
      assert events[..i + 1][..i] == events[..i];
      var outcome := HandleOne(ft, events[i]);
      outcomes := outcomes + [outcome];
      i := i + 1;
    }
    assert events[..i] == events;
  }

  method HandleOne(ft: FileTransfer, e: Event) returns (outcome: Outcome)
    modifies ft
    ensures (ft.Current(), outcome) == Step(ft.sha, old(ft.Current()), e)
  {
    match e {
      case OpenEvent(req, plan, temp) =>
        var resp := ft.HandleOpen(req, plan, temp);
        outcome := Opened(resp);
      case BodyEvent(payload, end) =>
        var body := ft.HandleBody(payload, end);
        outcome := Received(body);
      case CommitEvent(id, renames, removes) =>
        var result := ft.HandleCommit(id, renames, removes);
        outcome := Committed(result);
    }
  }

  /** What the operating system guarantees of a new temporary file. */
  ghost predicate Possible(s: State, e: Event) {
    e.OpenEvent? && e.plan.Destination? && e.temp.Created? ==>
      && TempFor(s.disk.cwd, e.plan.path, e.temp.path) && e.temp.path !in s.disk.names
      && e.temp.inode !in s.disk.data && e.temp.inode !in s.disk.names.Values
  }

  /** Every message of the run is possible; nothing else is asked of it. */
  ghost predicate Allowed(sha: Digest, s: State, events: seq<Event>) {
    if events == [] then true
    else
      var front := events[..|events| - 1];
      Allowed(sha, s, front) && Possible(After(sha, s, front), events[|events| - 1])
  }

  /** A run seen from its first message. */
  lemma {:induction false} AfterFirst(sha: Digest, s: State, e: Event, rest: seq<Event>)
    ensures After(sha, s, [e] + rest) == After(sha, Step(sha, s, e).0, rest)
    ensures Allowed(sha, s, [e] + rest) <==> Possible(s, e) && Allowed(sha, Step(sha, s, e).0, rest)
  {
    hide Step;
    hide Possible;
    var events := [e] + rest;
    if rest == [] {
      assert events[..|events| - 1] == [];
      assert events == [e];
    } else {
      assert events[..|events| - 1] == [e] + rest[..|rest| - 1];
      AfterFirst(sha, s, e, rest[..|rest| - 1]);
    }
  }

  lemma StepKeepsDirectory(sha: Digest, s: State, e: Event)
    ensures Step(sha, s, e).0.disk.cwd == s.disk.cwd
  {
    hide DecodeBody;
    hide CommitErrorOf;
    hide OpenErrorOf;
  }

  lemma {:induction false} RunKeepsDirectory(sha: Digest, s: State, events: seq<Event>)
    ensures After(sha, s, events).disk.cwd == s.disk.cwd
  {
    if events != [] {
      RunKeepsDirectory(sha, s, events[..|events| - 1]);
      StepKeepsDirectory(sha, After(sha, s, events[..|events| - 1]), events[|events| - 1]);
    }
  }

  // ----- the transfers under way and their temporary files -----

  /** No other name stands for this file. */
  ghost predicate OnlyName(names: map<Path, Inode>, inode: Inode, path: Path) {
    forall p :: p in names && names[p] == inode ==> p == path
  }

  /** A body that has been written is in the transfer's own file, in the hash and in the byte count. The name of its
      temporary file exists, and no other name stands for the transfer's own file. */
  ghost predicate EntryOk(inc: Incoming, disk: Disk) {
    && inc.tempPath in disk.names && inc.inode in disk.data && OnlyName(disk.names, inc.inode, inc.tempPath)
    && (inc.isOpen ==> !inc.bodyWritten && inc.hashed == [] && disk.data[inc.inode] == [])
    && (inc.bodyWritten ==> disk.data[inc.inode] == inc.hashed && |inc.hashed| == inc.bytesWritten)
  }

  /** The temporary name still stands for the transfer's own file. */
  predicate Intact(inc: Incoming, disk: Disk) {
    inc.tempPath in disk.names && disk.names[inc.tempPath] == inc.inode
  }

  ghost predicate EntriesOk(incoming: map<Id, Incoming>, disk: Disk) {
    forall id :: id in incoming ==> EntryOk(incoming[id], disk)
  }

  ghost predicate Apart(incoming: map<Id, Incoming>) {
    forall x, y :: x in incoming && y in incoming && x != y ==>
      incoming[x].tempPath != incoming[y].tempPath && incoming[x].inode != incoming[y].inode
  }

  ghost predicate Inv(s: State) {
    EntriesOk(s.incoming, s.disk) && Apart(s.incoming)
  }

  /** A new file leaves this entry as it should be, and has a name and an inode of its own. */
  lemma CreatedKept(disk: Disk, inc: Incoming, path: Path, inode: Inode)
    requires EntryOk(inc, disk) && path !in disk.names && inode !in disk.data
    ensures inc.tempPath != path && inc.inode != inode
    ensures EntryOk(inc, disk.(names := disk.names[path := inode], data := disk.data[inode := []]))
  {}

  lemma NewEntryOk(disk: Disk, req: Request, path: Path, temp: Temp)
    requires temp.Created? && temp.inode !in disk.names.Values
    ensures EntryOk(NewIncoming(req, path, temp),
                    disk.(names := disk.names[temp.path := temp.inode], data := disk.data[temp.inode := []]))
  {}

  lemma OpenKept(s: State, req: Request, plan: Plan, temp: Temp)
    requires Inv(s) && Possible(s, OpenEvent(req, plan, temp))
    ensures Inv(Open(s, req, plan, temp).0)
  {
    hide TempFor;
    hide Where;
    hide EntryOk;
    if OpenErrorOf(s, req, plan, temp) == NoError {
      forall id | id in s.incoming
        ensures s.incoming[id].tempPath != temp.path && s.incoming[id].inode != temp.inode
        ensures EntryOk(s.incoming[id], Open(s, req, plan, temp).0.disk)
      {
        CreatedKept(s.disk, s.incoming[id], temp.path, temp.inode);
      }
      NewEntryOk(s.disk, req, Where(s.disk.cwd, plan.path), temp);
    }
  }

  lemma StoresOk(disk: Disk, inc: Incoming, content: seq<byte>, end: CopyEnd)
    requires EntryOk(inc, disk) && !inc.bodyWritten
    ensures var (disk', inc', outcome) := Stores(disk, inc, content, end);
            && EntryOk(inc', disk')
            && inc'.tempPath == inc.tempPath && inc'.finalPath == inc.finalPath && inc'.inode == inc.inode
            && inc'.expected == inc.expected
            && disk'.cwd == disk.cwd && disk'.names == disk.names && disk'.data.Keys == disk.data.Keys
            && (forall inode :: inode in disk.data && inode != inc.inode ==> disk'.data[inode] == disk.data[inode])
  {
    hide OnlyName;
    assert [] + content == content;
  }

  lemma BodyKept(s: State, payload: seq<byte>, end: CopyEnd)
    requires Inv(s)
    ensures Inv(ReceiveBody(s, payload, end).0)
  {
    hide Stores;
    hide OnlyName;
    var body := DecodeBody(payload);
    if body.Body? && body.id in s.incoming && !s.incoming[body.id].bodyWritten {
      StoresOk(s.disk, s.incoming[body.id], body.content, end);
    }
  }

  /** A rename of another transfer's temporary file over anything leaves this entry as it should be. */
  lemma RenamedKept(disk: Disk, inc: Incoming, from: Path, to: Path)
    requires EntryOk(inc, disk) && from in disk.names && from != inc.tempPath
    ensures EntryOk(inc, Renamed(disk, from, to))
  {}

  lemma CommitKept(sha: Digest, s: State, id: Id, renames: bool, removes: bool)
    requires Inv(s)
    ensures Inv(Commit(sha, s, id, renames, removes).0)
  {
    hide CommitErrorOf;
    hide Renamed;
    var s' := Commit(sha, s, id, renames, removes).0;
    if id in s.incoming {
      assert EntryOk(s.incoming[id], s.disk);
      forall other | other in s'.incoming
        ensures EntryOk(s'.incoming[other], s'.disk)
      {
        assert EntryOk(s.incoming[other], s.disk);
        RenamedKept(s.disk, s.incoming[other], s.incoming[id].tempPath, s.incoming[id].finalPath);
      }
    }
  }

  /** Every possible message keeps this, whatever its destination is. */
  lemma StepKept(sha: Digest, s: State, e: Event)
    requires Inv(s) && Possible(s, e)
    ensures Inv(Step(sha, s, e).0)
  {
    hide Inv;
    match e
    case OpenEvent(req, plan, temp) => OpenKept(s, req, plan, temp);
    case BodyEvent(payload, end) => BodyKept(s, payload, end);
    case CommitEvent(id, renames, removes) => CommitKept(sha, s, id, renames, removes);
  }

  lemma {:induction false} RunKeepsInv(sha: Digest, s: State, events: seq<Event>)
    requires Inv(s) && Allowed(sha, s, events)
    ensures Inv(After(sha, s, events))
  {
    hide Inv;
    hide Possible;
    hide Step;
    if events != [] {
      var front := events[..|events| - 1];
      RunKeepsInv(sha, s, front);
      StepKept(sha, After(sha, s, front), events[|events| - 1]);
    }
  }

  // ----- transfers whose temporary file has been replaced -----

  /** An OK commit whose destination is the temporary file of another transfer under way, `x`. */
  predicate Replaces(sha: Digest, s: State, e: Event, x: Id) {
    && e.CommitEvent? && e.id in s.incoming && x in s.incoming && e.id != x
    && Step(sha, s, e).1.result.ok && s.incoming[e.id].finalPath == s.incoming[x].tempPath
  }

  /** Since the open of the transfer `x` that is under way, some message has replaced its temporary file. */
  predicate Replaced(sha: Digest, s: State, events: seq<Event>, x: Id) {
    if events == [] then false
    else
      var front := events[..|events| - 1];
      var last := events[|events| - 1];
      && x in After(sha, s, front).incoming && x in After(sha, s, events).incoming
      && (Replaced(sha, s, front, x) || Replaces(sha, After(sha, s, front), last, x))
  }

  lemma IntactOpen(s: State, req: Request, plan: Plan, temp: Temp, x: Id)
    requires Inv(s) && Possible(s, OpenEvent(req, plan, temp)) && x in s.incoming
    ensures var s' := Open(s, req, plan, temp).0;
            && x in s'.incoming && s'.incoming[x] == s.incoming[x]
            && (Intact(s'.incoming[x], s'.disk) <==> Intact(s.incoming[x], s.disk))
            && (!Intact(s.incoming[x], s.disk) ==>
                  Content(s'.disk, s.incoming[x].tempPath) == Content(s.disk, s.incoming[x].tempPath))
  {
    hide TempFor;
    hide Where;
    hide OnlyName;
    assert EntryOk(s.incoming[x], s.disk);
  }

  lemma IntactBody(s: State, payload: seq<byte>, end: CopyEnd, x: Id)
    requires Inv(s) && x in s.incoming
    ensures var s' := ReceiveBody(s, payload, end).0;
            && x in s'.incoming && s'.disk.names == s.disk.names
            && s'.incoming[x].tempPath == s.incoming[x].tempPath && s'.incoming[x].inode == s.incoming[x].inode
            && (!Intact(s.incoming[x], s.disk) ==>
                  Content(s'.disk, s.incoming[x].tempPath) == Content(s.disk, s.incoming[x].tempPath))
  {
    hide Stores;
    hide DecodeBody;
    assert EntryOk(s.incoming[x], s.disk);
    var body := DecodeBody(payload);
    if body.Body? && body.id in s.incoming && !s.incoming[body.id].bodyWritten {
      assert EntryOk(s.incoming[body.id], s.disk);
      StoresOk(s.disk, s.incoming[body.id], body.content, end);
    }
  }

  /** What a rename of another transfer's temporary file does to the name of this one. */
  lemma RenamedIntact(disk: Disk, inc: Incoming, from: Path, to: Path)
    requires EntryOk(inc, disk) && from in disk.names && from != inc.tempPath
    ensures Intact(inc, Renamed(disk, from, to)) <==> Intact(inc, disk) && to != inc.tempPath
    ensures to != inc.tempPath ==> Content(Renamed(disk, from, to), inc.tempPath) == Content(disk, inc.tempPath)
  {}

  lemma IntactCommit(sha: Digest, s: State, e: Event, x: Id)
    requires Inv(s) && e.CommitEvent? && x in s.incoming && x != e.id
    ensures var s' := Step(sha, s, e).0;
            && x in s'.incoming && s'.incoming[x] == s.incoming[x]
            && (Intact(s'.incoming[x], s'.disk) <==> Intact(s.incoming[x], s.disk) && !Replaces(sha, s, e, x))
            && (!Replaces(sha, s, e, x) ==>
                  Content(s'.disk, s.incoming[x].tempPath) == Content(s.disk, s.incoming[x].tempPath))
  {
    hide CommitErrorOf;
    hide Renamed;
    hide OnlyName;
    if e.id in s.incoming {
      assert EntryOk(s.incoming[x], s.disk) && EntryOk(s.incoming[e.id], s.disk);
      RenamedIntact(s.disk, s.incoming[x], s.incoming[e.id].tempPath, s.incoming[e.id].finalPath);
    }
  }

  /** A message takes a transfer's temporary name away from its file if and only if it replaces it. */
  lemma IntactUnlessReplaced(sha: Digest, s: State, e: Event, x: Id)
    requires Inv(s) && Possible(s, e) && x in s.incoming && x in Step(sha, s, e).0.incoming
    ensures var s' := Step(sha, s, e).0;
            && s'.incoming[x].tempPath == s.incoming[x].tempPath
            && (Intact(s'.incoming[x], s'.disk) <==> Intact(s.incoming[x], s.disk) && !Replaces(sha, s, e, x))
  {
    hide Inv;
    hide Possible;
    hide Open;
    hide ReceiveBody;
    match e
    case OpenEvent(req, plan, temp) => IntactOpen(s, req, plan, temp, x);
    case BodyEvent(payload, end) => IntactBody(s, payload, end, x);
    case CommitEvent(id, renames, removes) =>
      if id != x {
        IntactCommit(sha, s, e, x);
      } else {
        CommitEnds(sha, s, id, renames, removes);
      }
  }

  lemma CommitEnds(sha: Digest, s: State, id: Id, renames: bool, removes: bool)
    ensures id !in Commit(sha, s, id, renames, removes).0.incoming
  {
    hide CommitErrorOf;
  }

  lemma OpenedIntact(sha: Digest, s: State, e: Event, x: Id)
    requires x !in s.incoming && x in Step(sha, s, e).0.incoming
    ensures Intact(Step(sha, s, e).0.incoming[x], Step(sha, s, e).0.disk)
  {
    hide Where;
    hide DecodeBody;
    hide Stores;
    hide CommitErrorOf;
  }

  /** In every run, the temporary name of a transfer under way stands for its own file if and only if no OK commit
      since its open had that name as its destination. */
  lemma {:induction false} ReplacedExactly(sha: Digest, s: State, events: seq<Event>, x: Id)
    requires s.incoming == map[] && Allowed(sha, s, events) && x in After(sha, s, events).incoming
    ensures Intact(After(sha, s, events).incoming[x], After(sha, s, events).disk) <==> !Replaced(sha, s, events, x)
  {
    hide Step;
    hide Inv;
    hide Intact;
    hide Possible;
    hide Replaces;
    if events != [] {
      var front := events[..|events| - 1];
      var last := events[|events| - 1];
      var before := After(sha, s, front);
      InvAtStart(s);
      RunKeepsInv(sha, s, front);
      if x in before.incoming {
        ReplacedExactly(sha, s, front, x);
        IntactUnlessReplaced(sha, before, last, x);
      } else {
        OpenedIntact(sha, before, last, x);
      }
    }
  }

  lemma InvAtStart(s: State)
    requires s.incoming == map[]
    ensures Inv(s)
  {}

  function Content(disk: Disk, path: Path): Option<seq<byte>> {
    if path in disk.names && disk.names[path] in disk.data then Some(disk.data[disk.names[path]]) else None
  }

  /** The file that has replaced a transfer's changes no more, unless it is replaced in turn. */
  lemma ReplacementStays(sha: Digest, s: State, e: Event, x: Id)
    requires Inv(s) && Possible(s, e) && x in s.incoming && x in Step(sha, s, e).0.incoming
    requires !Intact(s.incoming[x], s.disk) && !Replaces(sha, s, e, x)
    ensures Content(Step(sha, s, e).0.disk, s.incoming[x].tempPath) == Content(s.disk, s.incoming[x].tempPath)
  {
    hide Inv;
    hide Possible;
    hide Open;
    hide ReceiveBody;
    hide Content;
    hide Intact;
    match e
    case OpenEvent(req, plan, temp) => IntactOpen(s, req, plan, temp, x);
    case BodyEvent(payload, end) => IntactBody(s, payload, end, x);
    case CommitEvent(id, renames, removes) =>
      if id != x {
        IntactCommit(sha, s, e, x);
      } else {
        CommitEnds(sha, s, id, renames, removes);
      }
  }

  lemma ReplacementIsTheirs(sha: Digest, s: State, e: Event, x: Id)
    requires Inv(s) && Replaces(sha, s, e, x)
    ensures Content(Step(sha, s, e).0.disk, s.incoming[x].tempPath) == Content(s.disk, s.incoming[e.id].tempPath)
  {
    hide CommitErrorOf;
    assert EntryOk(s.incoming[e.id], s.disk);
  }

  /** Message `k` replaced the temporary file of `x` for the last time, and what the replacing transfer had in its own
      temporary file is there still. */
  ghost predicate LastReplacedBy(sha: Digest, s: State, events: seq<Event>, x: Id, k: nat) {
    && k < |events| && x in After(sha, s, events).incoming
    && var at := After(sha, s, events[..k]);
       && Replaces(sha, at, events[k], x)
       && Content(After(sha, s, events).disk, After(sha, s, events).incoming[x].tempPath)
          == Content(at.disk, at.incoming[events[k].id].tempPath)
  }

  lemma {:induction false} ReplacedHolds(sha: Digest, s: State, events: seq<Event>, x: Id) returns (k: nat)
    requires s.incoming == map[] && Allowed(sha, s, events) && x in After(sha, s, events).incoming
    requires Replaced(sha, s, events, x)
    ensures LastReplacedBy(sha, s, events, x, k)
  {
    hide Step;
    hide Inv;
    hide Intact;
    hide Possible;
    hide Replaces;
    hide Content;
    var front := events[..|events| - 1];
    var last := events[|events| - 1];
    var before := After(sha, s, front);
    InvAtStart(s);
    RunKeepsInv(sha, s, front);
    IntactUnlessReplaced(sha, before, last, x);
    if Replaces(sha, before, last, x) {
      k := |front|;
      ReplacementIsTheirs(sha, before, last, x);
    } else {
      k := ReplacedHolds(sha, s, front, x);
      ReplacedExactly(sha, s, front, x);
      ReplacementStays(sha, before, last, x);
      assert events[..k] == front[..k];
    }
  }

  /** An OK commit gives the size and the digest of the received body, and moves what the temporary name stands for to
      the destination: the received body, if the name still stands for the transfer's own file. */
  lemma OkCommitDelivers(sha: Digest, s: State, e: Event)
    requires Inv(s) && e.CommitEvent? && Step(sha, s, e).1.result.ok
    ensures e.id in s.incoming
    ensures var inc := s.incoming[e.id];
            && inc.bodyWritten
            && Step(sha, s, e).1.result == Result(e.id, true, |inc.hashed|, sha(inc.hashed), Fine)
            && |inc.hashed| == inc.expected.size
            && DigestFits(inc.expected.sha256, sha(inc.hashed))
            && (inc.expected.sha256 != "" && NoCapitals(inc.expected.sha256) && NoCapitals(sha(inc.hashed)) ==>
                  sha(inc.hashed) == inc.expected.sha256)
            && Content(Step(sha, s, e).0.disk, inc.finalPath) == Content(s.disk, inc.tempPath)
            && (Intact(inc, s.disk) ==> Content(s.disk, inc.tempPath) == Some(inc.hashed))
  {
    hide EqualFold;
    hide SameButForCase;
    hide NoCapitals;
    hide OnlyName;
    EqualFoldExactly(sha(s.incoming[e.id].hashed), s.incoming[e.id].expected.sha256);
    assert EntryOk(s.incoming[e.id], s.disk);
  }

  // ----- where a delivered body comes from -----

  /** Some message of the run stored this content for this transfer. */
  ghost predicate StoredBy(events: seq<Event>, outcomes: seq<Outcome>, id: Id, content: seq<byte>) {
    && |outcomes| == |events|
    && exists k :: 0 <= k < |events| && events[k].BodyEvent? && outcomes[k] == Received(Stored)
                && DecodeBody(events[k].payload) == Body(id, content)
  }

  lemma StoredByLonger(events: seq<Event>, outcomes: seq<Outcome>, id: Id, content: seq<byte>, e: Event, o: Outcome)
    requires StoredBy(events, outcomes, id, content)
    ensures StoredBy(events + [e], outcomes + [o], id, content)
  {
    var k :| 0 <= k < |events| && events[k].BodyEvent? && outcomes[k] == Received(Stored)
             && DecodeBody(events[k].payload) == Body(id, content);
    assert (events + [e])[k] == events[k] && (outcomes + [o])[k] == outcomes[k];
  }

  ghost predicate Traced(events: seq<Event>, outcomes: seq<Outcome>, incoming: map<Id, Incoming>) {
    forall id :: id in incoming && incoming[id].bodyWritten ==> StoredBy(events, outcomes, id, incoming[id].hashed)
  }

  /** One message changes what is written for one transfer, and only by storing its body. */
  lemma WrittenByBody(sha: Digest, s: State, e: Event, id: Id)
    requires Inv(s) && id in Step(sha, s, e).0.incoming && Step(sha, s, e).0.incoming[id].bodyWritten
    ensures (id in s.incoming && s.incoming[id] == Step(sha, s, e).0.incoming[id])
         || (e.BodyEvent? && Step(sha, s, e).1 == Received(Stored)
             && DecodeBody(e.payload) == Body(id, Step(sha, s, e).0.incoming[id].hashed))
  {
    if e.BodyEvent? && DecodeBody(e.payload).Body? {
      var body := DecodeBody(e.payload);
      if body.id == id && id in s.incoming {
        assert EntryOk(s.incoming[id], s.disk);
        assert [] + body.content == body.content;
      }
    }
  }

  lemma {:induction false} RunIsTraced(sha: Digest, s: State, events: seq<Event>)
    requires s.incoming == map[] && Allowed(sha, s, events)
    ensures Traced(events, Outcomes(sha, s, events), After(sha, s, events).incoming)
  {
    if events != [] {
      var front := events[..|events| - 1];
      var last := events[|events| - 1];
      RunIsTraced(sha, s, front);
      RunKeepsInv(sha, s, front);
      var before := After(sha, s, front);
      var after := After(sha, s, events);
      assert events == front + [last];
      forall id | id in after.incoming && after.incoming[id].bodyWritten
        ensures StoredBy(events, Outcomes(sha, s, events), id, after.incoming[id].hashed)
      {
        hide Allowed;
        WrittenByBody(sha, before, last, id);
        if id in before.incoming && before.incoming[id] == after.incoming[id] {
          StoredByLonger(front, Outcomes(sha, s, front), id, after.incoming[id].hashed, last,
                         Step(sha, before, last).1);
        }
      }
    }
  }

  /** In every run, an OK commit has received a body for its transfer and reports its size and digest. What it leaves
      at the destination is that body, if no OK commit since the open had the temporary file as its destination;
      otherwise it is what the last such commit had put there, right only if the bytes happen to be equal. */
  lemma CommitsDeliverReceivedBodies(sha: Digest, s: State, events: seq<Event>, e: Event)
    requires s.incoming == map[] && Allowed(sha, s, events)
    requires e.CommitEvent? && Step(sha, After(sha, s, events), e).1.result.ok
    ensures var before := After(sha, s, events);
            && e.id in before.incoming
            && var inc := before.incoming[e.id];
               var left := Content(Step(sha, before, e).0.disk, inc.finalPath);
               && StoredBy(events, Outcomes(sha, s, events), e.id, inc.hashed) && |inc.hashed| == inc.expected.size
               && Step(sha, before, e).1.result == Result(e.id, true, |inc.hashed|, sha(inc.hashed), Fine)
               && left == Content(before.disk, inc.tempPath)
               && (!Replaced(sha, s, events, e.id) ==> left == Some(inc.hashed))
               && (Replaced(sha, s, events, e.id) ==> exists k :: LastReplacedBy(sha, s, events, e.id, k))
  {
    hide Step;
    hide Inv;
    hide Intact;
    hide Content;
    hide Replaced;
    hide LastReplacedBy;
    InvAtStart(s);
    RunKeepsInv(sha, s, events);
    RunIsTraced(sha, s, events);
    OkCommitDelivers(sha, After(sha, s, events), e);
    ReplacedExactly(sha, s, events, e.id);
    if Replaced(sha, s, events, e.id) {
      var k := ReplacedHolds(sha, s, events, e.id);
    }
  }

  // ----- what a replacement does to the other transfer -----

  /** If the body of the replaced transfer has been written, its commit succeeds too, and the destination gets the
      replacing transfer's file. */
  lemma ReplacingDeliversTheWrongFile(sha: Digest, s: State, e: Event, x: Id)
    requires Inv(s) && Replaces(sha, s, e, x) && Intact(s.incoming[e.id], s.disk)
    requires s.incoming[x].bodyWritten && s.incoming[x].bytesWritten == s.incoming[x].expected.size
    requires DigestFits(s.incoming[x].expected.sha256, sha(s.incoming[x].hashed))
    ensures var next := Step(sha, Step(sha, s, e).0, CommitEvent(x, true, true));
            && next.1.result == Result(x, true, |s.incoming[x].hashed|, sha(s.incoming[x].hashed), Fine)
            && Content(next.0.disk, s.incoming[x].finalPath) == Some(s.incoming[e.id].hashed)
            && (Content(next.0.disk, s.incoming[x].finalPath) == Some(s.incoming[x].hashed)
                <==> s.incoming[e.id].hashed == s.incoming[x].hashed)
  {
    hide EqualFold;
    hide SameButForCase;
    hide OnlyName;
    EqualFoldExactly(sha(s.incoming[x].hashed), s.incoming[x].expected.sha256);
    assert EntryOk(s.incoming[e.id], s.disk);
    assert EntryOk(s.incoming[x], s.disk);
    assert s.incoming[x].tempPath != s.incoming[e.id].tempPath;
  }

  /** The same for a transfer whose body has not come yet: the body and the commit that follow both succeed,
      and the destination gets the replacing transfer's file. */
  lemma ReplacingBeforeTheBody(sha: Digest, s: State, e: Event, x: Id, payload: seq<byte>)
    requires Inv(s) && Replaces(sha, s, e, x) && Intact(s.incoming[e.id], s.disk) && s.incoming[x].isOpen
    requires DecodeBody(payload).Body? && DecodeBody(payload).id == x
    requires |DecodeBody(payload).content| == s.incoming[x].expected.size
    requires DigestFits(s.incoming[x].expected.sha256, sha(DecodeBody(payload).content))
    ensures var content := DecodeBody(payload).content;
            var stored := Step(sha, Step(sha, s, e).0, BodyEvent(payload, Complete));
            var next := Step(sha, stored.0, CommitEvent(x, true, true));
            && stored.1 == Received(Stored)
            && next.1.result == Result(x, true, |content|, sha(content), Fine)
            && Content(next.0.disk, s.incoming[x].finalPath) == Some(s.incoming[e.id].hashed)
            && (Content(next.0.disk, s.incoming[x].finalPath) == Some(content) <==> s.incoming[e.id].hashed == content)
  {
    hide DecodeBody;
    hide EqualFold;
    hide SameButForCase;
    hide OnlyName;
    EqualFoldExactly(sha(DecodeBody(payload).content), s.incoming[x].expected.sha256);
    assert EntryOk(s.incoming[e.id], s.disk);
    assert EntryOk(s.incoming[x], s.disk);
    assert s.incoming[x].tempPath != s.incoming[e.id].tempPath;
    assert [] + DecodeBody(payload).content == DecodeBody(payload).content;
  }

  // ----- counting -----

  predicate AcceptsOpen(o: Outcome, id: Id) {
    o.Opened? && o.resp.accepted && o.resp.transferId == id
  }

  /** A commit that found its transfer, whether or not it succeeded. */
  predicate EndsTransfer(o: Outcome, id: Id) {
    o.Committed? && o.result.transferId == id && o.result.error != UnknownTransfer
  }

  function Count(outcomes: seq<Outcome>, counts: Outcome -> bool): nat {
    if outcomes == [] then 0
    else Count(outcomes[..|outcomes| - 1], counts) + (if counts(outcomes[|outcomes| - 1]) then 1 else 0)
  }

  function Accepts(outcomes: seq<Outcome>, id: Id): nat {
    Count(outcomes, o => AcceptsOpen(o, id))
  }

  function Ends(outcomes: seq<Outcome>, id: Id): nat {
    Count(outcomes, o => EndsTransfer(o, id))
  }

  function OkCommits(outcomes: seq<Outcome>, id: Id): nat {
    Count(outcomes, o => EndsTransfer(o, id) && o.result.ok)
  }

  lemma {:induction false} CountSmaller(outcomes: seq<Outcome>, fewer: Outcome -> bool, more: Outcome -> bool)
    requires forall o :: fewer(o) ==> more(o)
    ensures Count(outcomes, fewer) <= Count(outcomes, more)
  {
    if outcomes != [] {
      CountSmaller(outcomes[..|outcomes| - 1], fewer, more);
    }
  }

  function Live(s: State, id: Id): nat {
    if id in s.incoming then 1 else 0
  }

  lemma StepCounts(sha: Digest, s: State, e: Event, id: Id)
    ensures Live(s, id) + (if AcceptsOpen(Step(sha, s, e).1, id) then 1 else 0)
         == Live(Step(sha, s, e).0, id) + (if EndsTransfer(Step(sha, s, e).1, id) then 1 else 0)
  {
    hide Stores;
    hide DecodeBody;
  }

  lemma {:induction false} OpensAreEndedOrLive(sha: Digest, s: State, events: seq<Event>, id: Id)
    requires s.incoming == map[]
    ensures Accepts(Outcomes(sha, s, events), id)
         == Ends(Outcomes(sha, s, events), id) + Live(After(sha, s, events), id)
  {
    if events != [] {
      var front := events[..|events| - 1];
      OpensAreEndedOrLive(sha, s, front, id);
      StepCounts(sha, After(sha, s, front), events[|events| - 1], id);
      var outcomes := Outcomes(sha, s, events);
      assert outcomes[..|outcomes| - 1] == Outcomes(sha, s, front);
    }
  }

  /** Each accepted open is ended by one commit or is still under way, so it yields at most one OK commit. */
  lemma {:induction false} AtMostOneOkCommitPerOpen(sha: Digest, s: State, events: seq<Event>, id: Id)
    requires s.incoming == map[]
    ensures var outcomes := Outcomes(sha, s, events);
            && Accepts(outcomes, id) == Ends(outcomes, id) + Live(After(sha, s, events), id)
            && OkCommits(outcomes, id) + Live(After(sha, s, events), id) <= Accepts(outcomes, id)
  {
    OpensAreEndedOrLive(sha, s, events, id);
    CountSmaller(Outcomes(sha, s, events), o => EndsTransfer(o, id) && o.result.ok, o => EndsTransfer(o, id));
  }

  // ----- the temporary files on disk -----

  function Temps(incoming: map<Id, Incoming>): set<Path> {
    set id | id in incoming :: incoming[id].tempPath
  }

  /** The receiver's policy keeps destinations apart from the names temporary files have. */
  ghost predicate SafeDestination(s: State, e: Event) {
    e.OpenEvent? && e.plan.Destination? ==> !TempShaped(Where(s.disk.cwd, e.plan.path))
  }

  /** The temporary names on disk are those of the transfers under way, and the strays. */
  ghost predicate TempFilesExact(s: State) {
    && (forall p :: p in s.disk.names && TempShaped(p) <==> p in s.stray + Temps(s.incoming))
    && s.stray !! Temps(s.incoming)
    && (forall id :: id in s.incoming ==> !TempShaped(s.incoming[id].finalPath))
  }

  lemma SafeNeverReplaces(sha: Digest, s: State, e: Event, x: Id)
    requires TempFilesExact(s)
    ensures !Replaces(sha, s, e, x)
  {
    hide TempShaped;
    hide Step;
    if x in s.incoming {
      assert s.incoming[x].tempPath in Temps(s.incoming);
    }
  }

  lemma TempsOpened(incoming: map<Id, Incoming>, id: Id, inc: Incoming)
    requires id !in incoming
    ensures Temps(incoming[id := inc]) == Temps(incoming) + {inc.tempPath}
  {
    var after := incoming[id := inc];
    forall p | p in Temps(incoming) + {inc.tempPath}
      ensures p in Temps(after)
    {
      if p == inc.tempPath {
        assert after[id].tempPath == p;
      } else {
        var other :| other in incoming && incoming[other].tempPath == p;
        assert other in after && after[other].tempPath == p;
      }
    }
  }

  lemma TempsSame(incoming: map<Id, Incoming>, id: Id, inc: Incoming)
    requires id in incoming && inc.tempPath == incoming[id].tempPath
    ensures Temps(incoming[id := inc]) == Temps(incoming)
  {
    var after := incoming[id := inc];
    forall p | p in Temps(incoming)
      ensures p in Temps(after)
    {
      var other :| other in incoming && incoming[other].tempPath == p;
      assert other in after && after[other].tempPath == p;
    }
  }

  lemma TempsCommitted(incoming: map<Id, Incoming>, id: Id)
    requires id in incoming && Apart(incoming)
    ensures incoming[id].tempPath in Temps(incoming)
    ensures Temps(incoming - {id}) == Temps(incoming) - {incoming[id].tempPath}
  {
    var after := incoming - {id};
    forall p | p in Temps(incoming) - {incoming[id].tempPath}
      ensures p in Temps(after)
    {
      var other :| other in incoming && incoming[other].tempPath == p;
      assert other in after && after[other].tempPath == p;
    }
  }

  lemma TempFilesKept(sha: Digest, s: State, e: Event)
    requires Inv(s) && TempFilesExact(s) && Possible(s, e) && SafeDestination(s, e)
    ensures TempFilesExact(Step(sha, s, e).0)
  {
    hide TempShaped;
    hide TempFor;
    hide Where;
    hide EntriesOk;
    hide Temps;
    match e
    case OpenEvent(req, plan, temp) =>
      if OpenErrorOf(s, req, plan, temp) == NoError {
        TempForIsShaped(s.disk.cwd, plan.path, temp.path);
        TempsOpened(s.incoming, req.transferId, NewIncoming(req, Where(s.disk.cwd, plan.path), temp));
      }
    case BodyEvent(payload, end) =>
      var body := DecodeBody(payload);
      if body.Body? && body.id in s.incoming {
        var inc := s.incoming[body.id];
        TempsSame(s.incoming, body.id, Stores(s.disk, inc, body.content, end).1);
      }
    case CommitEvent(id, renames, removes) =>
      if id in s.incoming {
        TempsCommitted(s.incoming, id);
      }
  }

  ghost predicate AllowedAndSafe(sha: Digest, s: State, events: seq<Event>) {
    if events == [] then true
    else
      var front := events[..|events| - 1];
      var last := events[|events| - 1];
      AllowedAndSafe(sha, s, front) && Possible(After(sha, s, front), last) && SafeDestination(After(sha, s, front),
                                                                                               last)
  }

  lemma {:induction false} SafeFirst(sha: Digest, s: State, e: Event, rest: seq<Event>)
    requires Possible(s, e) && SafeDestination(s, e) && AllowedAndSafe(sha, Step(sha, s, e).0, rest)
    ensures AllowedAndSafe(sha, s, [e] + rest)
  {
    hide Step;
    hide Possible;
    hide SafeDestination;
    var events := [e] + rest;
    if rest == [] {
      assert events[..|events| - 1] == [];
      assert events == [e];
    } else {
      var front := rest[..|rest| - 1];
      assert events[..|events| - 1] == [e] + front;
      SafeFirst(sha, s, e, front);
      AfterFirst(sha, s, e, front);
    }
  }

  lemma StrayStep(sha: Digest, s: State, e: Event)
    ensures s.stray <= Step(sha, s, e).0.stray
    ensures (e.CommitEvent? ==> e.removes) ==> Step(sha, s, e).0.stray == s.stray
  {
    hide DecodeBody;
    hide Stores;
    hide CommitErrorOf;
  }

  ghost predicate AllIntact(s: State) {
    forall id :: id in s.incoming ==> Intact(s.incoming[id], s.disk)
  }

  lemma AllIntactKept(sha: Digest, s: State, e: Event)
    requires Inv(s) && AllIntact(s) && TempFilesExact(s) && Possible(s, e)
    ensures AllIntact(Step(sha, s, e).0)
  {
    hide Step;
    hide Inv;
    hide Intact;
    hide TempFilesExact;
    hide Replaces;
    var s' := Step(sha, s, e).0;
    forall x | x in s'.incoming
      ensures Intact(s'.incoming[x], s'.disk)
    {
      if x in s.incoming {
        IntactUnlessReplaced(sha, s, e, x);
        SafeNeverReplaces(sha, s, e, x);
      } else {
        OpenedIntact(sha, s, e, x);
      }
    }
  }

  /** When no destination is shaped like a temporary name, no temporary file is replaced, and at every moment the
      temporary files on disk are exactly those of the transfers under way and the strays; there are no
      new strays while removals succeed. */
  lemma {:induction false} TempFilesAreIncoming(sha: Digest, s: State, events: seq<Event>)
    requires s.incoming == map[] && TempFilesExact(s) && AllowedAndSafe(sha, s, events)
    ensures Allowed(sha, s, events) && Inv(After(sha, s, events)) && AllIntact(After(sha, s, events))
    ensures TempFilesExact(After(sha, s, events))
    ensures (forall e :: e in events && e.CommitEvent? ==> e.removes) ==> After(sha, s, events).stray == s.stray
  {
    hide TempFilesExact;
    hide Inv;
    hide TempShaped;
    hide Possible;
    hide Step;
    hide SafeDestination;
    if events != [] {
      var front := events[..|events| - 1];
      var last := events[|events| - 1];
      TempFilesAreIncoming(sha, s, front);
      assert events == front + [last];
      var before := After(sha, s, front);
      StepKept(sha, before, last);
      AllIntactKept(sha, before, last);
      TempFilesKept(sha, before, last);
      StrayStep(sha, before, last);
    } else {
      InvAtStart(s);
    }
  }
}
