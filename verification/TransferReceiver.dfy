/** The receiving side of file transfer: open, body and commit, over a small file system. */
module TransferReceiver {
  import opened BigEndian
  import opened Wrappers
  import opened TransferBody
  import Paths

  /** The place a file has, as its segments from the root; two spellings of a path are one place. */
  type Path = seq<string>

  /** An inode stands for an open or named file, so that a file can be renamed over while it is open. */
  type Inode = nat

  /** `cwd` is the working directory, from which relative paths start. */
  datatype Disk = Disk(names: map<Path, Inode>, data: map<Inode, seq<byte>>, cwd: string)

  function Where(cwd: string, path: string): Path {
    Paths.Place(Some(cwd), path)
  }

  datatype Request = Request(transferId: Id, name: string, destination: string, size: int, sha256: string)

  datatype OpenError =
    | NoError | NeedsId | NegativeSize | AlreadyExists | NoReceiver | Refused | NeedsDestination | NoTempFile

  datatype Response = Response(transferId: Id, accepted: bool, error: OpenError)

  datatype CommitError = Fine | UnknownTransfer | NoBody | SizeMismatch | ChecksumMismatch | RenameFailed

  datatype Result = Result(transferId: Id, ok: bool, size: int, sha256: string, error: CommitError)

  datatype BodyOutcome = Stored | BadHeader(error: BodyError) | UnknownId | AlreadyWritten | CopyFailed | CloseFailed

  /** A transfer under way; `hashed` are the bytes given to the hash so far. */
  datatype Incoming = Incoming(
    finalPath: Path,
    tempPath: Path,
    inode: Inode,
    expected: Request,
    isOpen: bool,
    hashed: seq<byte>,
    bodyWritten: bool,
    bytesWritten: nat)

  /** `stray` is history: temporary files that are not those of `incoming`, left over from before or by a
      removal that failed. */
  datatype State = State(incoming: map<Id, Incoming>, disk: Disk, stray: set<Path>)

  // ----- what the surroundings decide -----

  /** The receiver's policy: no handler, a refusal, or a destination path. */
  datatype Plan = NoHandler | Refuse | Destination(path: string)

  /** The new temporary file, unless the directory or the file cannot be made. */
  datatype Temp = Created(path: Path, inode: Inode) | NotCreated

  /** How the copy ends: whole, with some bytes stored and hashed, or with an error of the final close. */
  datatype CopyEnd = Complete | Broken(stored: nat, hashed: nat) | NotClosed

  function TempName(base: string, random: string): string {
    "." + base + ".part-" + random
  }

  /** `os.CreateTemp` makes a file of such a name in the destination's directory, and refuses a base that
      holds a slash. */
  ghost predicate TempFor(cwd: string, destination: string, path: Path) {
    && '/' !in Paths.Base(destination)
    && exists random: string :: '/' !in random
         && path == Where(cwd, Paths.Dir(destination)) + [TempName(Paths.Base(destination), random)]
  }

  /** The name at this place is one that temporary files have. */
  ghost predicate TempShaped(path: Path) {
    path != [] && exists base: string, random: string :: path[|path| - 1] == TempName(base, random)
  }

  lemma TempForIsShaped(cwd: string, destination: string, path: Path)
    requires TempFor(cwd, destination, path)
    ensures TempShaped(path)
  {
    hide TempName;
    hide Where;
    var random: string :| path == Where(cwd, Paths.Dir(destination)) + [TempName(Paths.Base(destination), random)];
  }

  function Lower(c: char): char {
    if 'A' <= c <= 'Z' then c - 'A' + 'a' else c
  }

  predicate EqualFold(a: string, b: string) {
    |a| == |b| && forall i :: 0 <= i < |a| ==> Lower(a[i]) == Lower(b[i])
  }

  /** The small letter of a capital one, 32 places on. */
  predicate IsCapitalOf(capital: char, small: char) {
    'A' <= capital <= 'Z' && small as int == capital as int + 32
  }

  /** The same text but for the case of its letters A to Z. */
  predicate SameButForCase(a: string, b: string) {
    |a| == |b| && forall i :: 0 <= i < |a| ==> a[i] == b[i] || IsCapitalOf(a[i], b[i]) || IsCapitalOf(b[i], a[i])
  }

  predicate NoCapitals(s: string) {
    forall i :: 0 <= i < |s| ==> !('A' <= s[i] <= 'Z')
  }

  lemma LowerExactly(a: char, b: char)
    ensures Lower(a) == Lower(b) <==> a == b || IsCapitalOf(a, b) || IsCapitalOf(b, a)
  {}

  /** The comparison of digests ignores the case of letters and nothing else. On texts with no capitals, as digests in
      hexadecimal are written, it is equality. */
  lemma EqualFoldExactly(a: string, b: string)
    ensures EqualFold(a, b) <==> SameButForCase(a, b)
    ensures NoCapitals(a) && NoCapitals(b) ==> (EqualFold(a, b) <==> a == b)
  {
    forall i | 0 <= i < |a| && i < |b|
      ensures Lower(a[i]) == Lower(b[i]) <==> a[i] == b[i] || IsCapitalOf(a[i], b[i]) || IsCapitalOf(b[i], a[i])
    {
      LowerExactly(a[i], b[i]);
    }
  }

  /** Whether the digest fits the one asked for: none was, or it is the same but for the case of its letters. */
  predicate DigestFits(wanted: string, digest: string) {
    wanted == "" || SameButForCase(digest, wanted)
  }

  /** A digest and a request for one that are both written in small letters fit only if they are equal. */
  lemma SmallDigestsAreEqual(wanted: string, digest: string)
    requires wanted != "" && NoCapitals(wanted) && NoCapitals(digest)
    ensures DigestFits(wanted, digest) <==> digest == wanted
  {
    EqualFoldExactly(digest, wanted);
  }

  // ----- the handlers -----

  function OpenErrorOf(s: State, req: Request, plan: Plan, temp: Temp): OpenError {
    if req.transferId == [] then NeedsId
    else if req.size < 0 then NegativeSize
    else if req.transferId in s.incoming then AlreadyExists
    else
      match plan
      case NoHandler => NoReceiver
      case Refuse => Refused
      case Destination(path) =>
        if path == "" then NeedsDestination else if temp == NotCreated then NoTempFile else NoError
  }

  function NewIncoming(req: Request, path: Path, temp: Temp): Incoming
    requires temp.Created?
  {
    Incoming(path, temp.path, temp.inode, req, true, [], false, 0)
  }

  function Open(s: State, req: Request, plan: Plan, temp: Temp): (State, Response) {
    var error := OpenErrorOf(s, req, plan, temp);
    if error != NoError then (s, Response(req.transferId, false, error))
    else
      var disk := s.disk.(names := s.disk.names[temp.path := temp.inode], data := s.disk.data[temp.inode := []]);
      (s.(incoming := s.incoming[req.transferId := NewIncoming(req, Where(s.disk.cwd, plan.path), temp)], disk := disk),
       Response(req.transferId, true, NoError))
  }

  function Append(disk: Disk, inode: Inode, bytes: seq<byte>): Disk {
    if inode in disk.data then disk.(data := disk.data[inode := disk.data[inode] + bytes]) else disk
  }

  /** The copy of a body's content into the temporary file and the hash. A closed file takes no bytes and
      fails to close again. */
  function Stores(disk: Disk, inc: Incoming, content: seq<byte>, end: CopyEnd): (Disk, Incoming, BodyOutcome) {
    if !inc.isOpen then (disk, inc, if content == [] then CloseFailed else CopyFailed)
    else
      match end
      case Complete =>
        (Append(disk, inc.inode, content),
         inc.(isOpen := false, hashed := inc.hashed + content, bodyWritten := true, bytesWritten := |content|),
         Stored)
      case Broken(stored, hashed) =>
        var f := if stored <= |content| then stored else |content|;
        var h := if hashed <= f then hashed else f;
        (Append(disk, inc.inode, content[..f]), inc.(isOpen := false, hashed := inc.hashed + content[..h]), CopyFailed)
      case NotClosed =>
        (Append(disk, inc.inode, content), inc.(isOpen := false, hashed := inc.hashed + content), CloseFailed)
  }

  function ReceiveBody(s: State, payload: seq<byte>, end: CopyEnd): (State, BodyOutcome) {
    match DecodeBody(payload)
    case NotDecoded(error) => (s, BadHeader(error))
    case Body(id, content) =>
      if id !in s.incoming then (s, UnknownId)
      else if s.incoming[id].bodyWritten then (s, AlreadyWritten)
      else
        var (disk, inc, outcome) := Stores(s.disk, s.incoming[id], content, end);
        (s.(disk := disk, incoming := s.incoming[id := inc]), outcome)
  }

  function CommitErrorOf(inc: Incoming, sum: string, disk: Disk, renames: bool): CommitError {
    if !inc.bodyWritten then NoBody
    else if inc.bytesWritten != inc.expected.size then SizeMismatch
    else if inc.expected.sha256 != "" && !EqualFold(sum, inc.expected.sha256) then ChecksumMismatch
    else if !renames || inc.tempPath !in disk.names then RenameFailed
    else Fine
  }

  function Renamed(disk: Disk, from: Path, to: Path): Disk
    requires from in disk.names
  {
    if from == to then disk else disk.(names := (disk.names - {from})[to := disk.names[from]])
  }

  /** `sha` gives the hexadecimal digest; `renames` and `removes` say whether the file operations work. */
  function Commit(sha: seq<byte> -> string, s: State, id: Id, renames: bool, removes: bool): (State, Result) {
    if id !in s.incoming then (s, Result(id, false, 0, "", UnknownTransfer))
    else
      var inc := s.incoming[id];
      var rest := s.incoming - {id};
      var sum := sha(inc.hashed);
      var error := CommitErrorOf(inc, sum, s.disk, renames);
      if error == Fine then
        (s.(incoming := rest, disk := Renamed(s.disk, inc.tempPath, inc.finalPath)),
         Result(id, true, inc.bytesWritten, sum, Fine))
      else if removes then
        (s.(incoming := rest, disk := s.disk.(names := s.disk.names - {inc.tempPath})), Result(id, false, 0, "", error))
      else
        (s.(incoming := rest, stray := s.stray + {inc.tempPath}), Result(id, false, 0, "", error))
  }

  /** The file that had the name `from` has the name `to` instead, and no other name changes its file. */
  predicate MovedTo(names: map<Path, Inode>, names': map<Path, Inode>, from: Path, to: Path) {
    && from in names && to in names' && names'[to] == names[from]
    && (from != to ==> from !in names')
    && (forall p :: p in names && p != from && p != to ==> p in names' && names'[p] == names[p])
    && (forall p :: p in names' && p != to ==> p in names)
  }

  /** A body that the copy took, whole or in part, closes the file. The file and the hash gain the same bytes when it is
      stored or only the closing fails, and else a part of the content each. A file that is closed takes nothing. */
  ghost predicate BodyTaken(was: Incoming, now: Incoming, disk: Disk, disk': Disk, content: seq<byte>,
                            outcome: BodyOutcome)
  {
    && now == was.(isOpen := false, hashed := now.hashed, bodyWritten := now.bodyWritten,
                   bytesWritten := now.bytesWritten)
    && (now.bodyWritten <==> outcome == Stored)
    && now.bytesWritten == (if outcome == Stored then |content| else was.bytesWritten)
    && (!was.isOpen ==> now == was && disk' == disk)
    && (was.isOpen && outcome != CopyFailed ==> now.hashed == was.hashed + content)
    && was.hashed <= now.hashed <= was.hashed + content
    && disk'.names == disk.names && disk'.cwd == disk.cwd && disk'.data.Keys == disk.data.Keys
    && (forall n :: n in disk.data && n != was.inode ==> disk'.data[n] == disk.data[n])
    && (was.inode in disk.data ==>
          && disk.data[was.inode] <= disk'.data[was.inode] <= disk.data[was.inode] + content
          && |now.hashed| - |was.hashed| <= |disk'.data[was.inode]| - |disk.data[was.inode]|
          && (was.isOpen && outcome != CopyFailed ==> disk'.data[was.inode] == disk.data[was.inode] + content))
  }

  lemma EqualFoldAlways()
    ensures forall a, b :: EqualFold(a, b) <==> SameButForCase(a, b)
  {
    forall a, b ensures EqualFold(a, b) <==> SameButForCase(a, b) {
      EqualFoldExactly(a, b);
    }
  }

  // ----- the receiver as the program holds it -----

  class FileTransfer {
    const sha: seq<byte> -> string
    var incoming: map<Id, Incoming>
    var disk: Disk
    ghost var stray: set<Path>

    constructor (sha: seq<byte> -> string, disk: Disk, ghost stray: set<Path>)
      ensures this.sha == sha && Current() == State(map[], disk, stray)
    {
      this.sha, this.disk, this.stray := sha, disk, stray;
      incoming := map[];
    }

    ghost function Current(): State
      reads this
    {
      State(incoming, disk, stray)
    }

    method HandleOpen(req: Request, plan: Plan, temp: Temp) returns (resp: Response)
      modifies this
      ensures (Current(), resp) == Open(old(Current()), req, plan, temp)
      ensures resp.transferId == req.transferId && (resp.accepted <==> resp.error == NoError)
      ensures resp.error == NeedsId <==> req.transferId == []
      ensures resp.error == NegativeSize <==> req.transferId != [] && req.size < 0
      ensures resp.error == AlreadyExists <==> req.transferId != [] && req.size >= 0 && req.transferId in old(incoming)
      ensures resp.error in {NoError, NoReceiver, Refused, NeedsDestination, NoTempFile} <==>
                req.transferId != [] && req.size >= 0 && req.transferId !in old(incoming)
      ensures resp.error == NoReceiver ==> plan.NoHandler?
      ensures resp.error == Refused ==> plan.Refuse?
      ensures resp.error == NeedsDestination ==> plan == Destination("")
      ensures resp.error == NoTempFile ==> plan.Destination? && plan.path != "" && temp == NotCreated
      ensures resp.accepted ==>
                && plan.Destination? && plan.path != "" && temp.Created?
                && incoming == old(incoming)[req.transferId :=
                     Incoming(Where(disk.cwd, plan.path), temp.path, temp.inode, req, true, [], false, 0)]
                && disk == Disk(old(disk.names)[temp.path := temp.inode], old(disk.data)[temp.inode := []],
                                old(disk.cwd))
      ensures !resp.accepted ==> incoming == old(incoming) && disk == old(disk)
      ensures stray == old(stray)
    {
      resp := Response(req.transferId, false, NoError);
      if req.transferId == [] {
        return resp.(error := NeedsId);
      }
      if req.size < 0 {
        return resp.(error := NegativeSize);
      }
      if req.transferId in incoming {
        return resp.(error := AlreadyExists);
      }
      match plan
      case NoHandler => return resp.(error := NoReceiver);
      case Refuse => return resp.(error := Refused);
      case Destination(path) =>
        if path == "" {
          return resp.(error := NeedsDestination);
        }
        if temp == NotCreated {
          return resp.(error := NoTempFile);
        }
        incoming := incoming[req.transferId := NewIncoming(req, Where(disk.cwd, path), temp)];
        disk := disk.(names := disk.names[temp.path := temp.inode], data := disk.data[temp.inode := []]);
        return resp.(accepted := true);
    }

    method HandleBody(payload: seq<byte>, end: CopyEnd) returns (outcome: BodyOutcome)
      modifies this
      ensures (Current(), outcome) == ReceiveBody(old(Current()), payload, end)
      ensures var body := DecodeBody(payload);
              && (outcome.BadHeader? <==> body.NotDecoded?)
              && (outcome.BadHeader? ==> outcome.error == body.error)
              && (outcome == UnknownId <==> body.Body? && body.id !in old(incoming))
              && (outcome == AlreadyWritten <==> body.Body? && body.id in old(incoming)
                                                 && old(incoming)[body.id].bodyWritten)
      ensures outcome.BadHeader? || outcome == UnknownId || outcome == AlreadyWritten ==> Current() == old(Current())
      ensures outcome in {Stored, CopyFailed, CloseFailed} ==>
                var body := DecodeBody(payload);
                var was := old(incoming)[body.id];
                && (outcome == Stored <==> was.isOpen && end == Complete)
                && (outcome == CloseFailed <==> if was.isOpen then end == NotClosed else body.content == [])
                && incoming.Keys == old(incoming).Keys && incoming == old(incoming)[body.id := incoming[body.id]]
                && BodyTaken(was, incoming[body.id], old(disk), disk, body.content, outcome)
      ensures stray == old(stray)
    {
      var body := DecodeBody(payload);
      if body.NotDecoded? {
        return BadHeader(body.error);
      }
      if body.id !in incoming {
        return UnknownId;
      }
      var inc := incoming[body.id];
      if inc.bodyWritten {
        return AlreadyWritten;
      }
      var stored := Stores(disk, inc, body.content, end);
      disk := stored.0;
      incoming := incoming[body.id := stored.1];
      return stored.2;
    }

    method HandleCommit(id: Id, renames: bool, removes: bool) returns (result: Result)
      modifies this
      ensures (Current(), result) == Commit(sha, old(Current()), id, renames, removes)
      ensures result.transferId == id && (result.ok <==> result.error == Fine)
      ensures result.error == UnknownTransfer <==> id !in old(incoming)
      ensures incoming == old(incoming) - {id}
      ensures id in old(incoming) ==>
                var inc := old(incoming)[id];
                var sized := inc.bodyWritten && inc.bytesWritten == inc.expected.size;
                var fits := sized && DigestFits(inc.expected.sha256, sha(inc.hashed));
                && (result.error == NoBody <==> !inc.bodyWritten)
                && (result.error == SizeMismatch <==> inc.bodyWritten && !sized)
                && (result.error == ChecksumMismatch <==> sized && !fits)
                && (result.error == RenameFailed <==> fits && !(renames && inc.tempPath in old(disk.names)))
                && disk.data == old(disk.data) && disk.cwd == old(disk.cwd)
                && (result.ok ==>
                      && result.size == inc.expected.size && result.sha256 == sha(inc.hashed)
                      && MovedTo(old(disk.names), disk.names, inc.tempPath, inc.finalPath))
                && (!result.ok ==>
                      disk.names == if removes then old(disk.names) - {inc.tempPath} else old(disk.names))
                && stray == if result.ok || removes then old(stray) else old(stray) + {inc.tempPath}
      ensures !result.ok ==> result.size == 0 && result.sha256 == ""
      ensures id !in old(incoming) ==> disk == old(disk) && stray == old(stray)
    {
      EqualFoldAlways();
      result := Result(id, false, 0, "", Fine);
      if id !in incoming {
        return result.(error := UnknownTransfer);
      }
      var inc := incoming[id];
      incoming := incoming - {id};
      var sum := sha(inc.hashed);
      if !inc.bodyWritten {
        result := result.(error := NoBody);
      } else if inc.bytesWritten != inc.expected.size {
        result := result.(error := SizeMismatch);
      } else if inc.expected.sha256 != "" && !EqualFold(sum, inc.expected.sha256) {
        result := result.(error := ChecksumMismatch);
      } else if !renames || inc.tempPath !in disk.names {
        result := result.(error := RenameFailed);
      } else {
        disk := Renamed(disk, inc.tempPath, inc.finalPath);
        result := Result(id, true, inc.bytesWritten, sum, Fine);
      }
      if !result.ok {
        if removes {
          disk := disk.(names := disk.names - {inc.tempPath});
        } else {
          stray := stray + {inc.tempPath};
        }
      }
    }
  }
}
