/** A run in which a transfer reports success and its destination holds another transfer's file. */
module TransferClobber {
  import opened BigEndian
  import opened Wrappers
  import opened TransferBody
  import opened TransferReceiver
  import opened TransferRuns
  import Paths

  const FIRST: Id := [1]
  const SECOND: Id := [2]
  const FIRST_NAME: string := "a"
  const FIRST_TEMP: string := ".a.part-1"
  const SECOND_TEMP: string := "..a.part-1.part-2"

  /** A receiver that works in the directory `cwd`, with an empty disk. */
  function Fresh(cwd: string): State {
    State(map[], Disk(map[], map[], cwd), {})
  }

  function In(cwd: string, name: string): Path {
    Paths.Segments(cwd) + [name]
  }

  /** The request that `SendFile` makes for this content: with its name, its size and its digest. */
  function Asking(sha: Digest, id: Id, content: seq<byte>): Request {
    Request(id, "file", "", |content|, sha(content))
  }

  function Started(sha: Digest, id: Id, content: seq<byte>, path: Path, temp: Path, inode: Inode): Incoming {
    Incoming(path, temp, inode, Asking(sha, id, content), true, [], false, 0)
  }

  function Written(sha: Digest, id: Id, content: seq<byte>, path: Path, temp: Path, inode: Inode): Incoming {
    Incoming(path, temp, inode, Asking(sha, id, content), false, content, true, |content|)
  }

  function BodyOf(id: Id, content: seq<byte>): seq<byte>
    requires EncodeId(id).Prefix?
  {
    EncodeId(id).bytes + content
  }

  /** The second transfer is given the plain name of the first one's temporary file as its destination. */
  function Steps(sha: Digest, cwd: string, a: seq<byte>, b: seq<byte>): (steps: seq<Event>)
    ensures |steps| == 6 && forall k :: 2 <= k < 6 ==> !steps[k].OpenEvent?
  {
    [OpenEvent(Asking(sha, FIRST, a), Destination(FIRST_NAME), Created(In(cwd, FIRST_TEMP), 1)),
     OpenEvent(Asking(sha, SECOND, b), Destination(FIRST_TEMP), Created(In(cwd, SECOND_TEMP), 2)),
     BodyEvent(BodyOf(FIRST, a), Complete),
     BodyEvent(BodyOf(SECOND, b), Complete),
     CommitEvent(SECOND, true, true),
     CommitEvent(FIRST, true, true)]
  }

  ghost predicate AllPossible(sha: Digest, s: State, events: seq<Event>) {
    forall k :: 0 <= k < |events| ==> Possible(After(sha, s, events[..k]), events[k])
  }

  lemma AfterOneMore(sha: Digest, s: State, events: seq<Event>, k: nat)
    requires k < |events|
    ensures After(sha, s, events[..k + 1]) == Step(sha, After(sha, s, events[..k]), events[k]).0
  {
    assert events[..k + 1][..k] == events[..k];
  }

  function Both(x: Incoming, y: Incoming): map<Id, Incoming> {
    map[FIRST := x, SECOND := y]
  }

  /** Both transfers under way, with `x` and `y` in their temporary files. */
  function Two(cwd: string, first: Incoming, second: Incoming, x: seq<byte>, y: seq<byte>): State {
    State(Both(first, second), Disk(map[In(cwd, FIRST_TEMP) := 1, In(cwd, SECOND_TEMP) := 2], map[1 := x, 2 := y],
                                    cwd), {})
  }

  function Opened(sha: Digest, cwd: string, a: seq<byte>, b: seq<byte>): State {
    Two(cwd, Started(sha, FIRST, a, In(cwd, FIRST_NAME), In(cwd, FIRST_TEMP), 1),
        Started(sha, SECOND, b, In(cwd, FIRST_TEMP), In(cwd, SECOND_TEMP), 2), [], [])
  }

  function Received(sha: Digest, cwd: string, a: seq<byte>, b: seq<byte>): State {
    Two(cwd, Written(sha, FIRST, a, In(cwd, FIRST_NAME), In(cwd, FIRST_TEMP), 1),
        Written(sha, SECOND, b, In(cwd, FIRST_TEMP), In(cwd, SECOND_TEMP), 2), a, b)
  }

  /** The names are those that `os.CreateTemp` gives for these destinations. */
  lemma Names(cwd: string)
    ensures Where(cwd, FIRST_NAME) == In(cwd, FIRST_NAME) && Where(cwd, FIRST_TEMP) == In(cwd, FIRST_TEMP)
    ensures TempFor(cwd, FIRST_NAME, In(cwd, FIRST_TEMP)) && TempFor(cwd, FIRST_TEMP, In(cwd, SECOND_TEMP))
    ensures In(cwd, FIRST_TEMP) != In(cwd, SECOND_TEMP)
  {
    hide Paths.Place;
    hide Paths.Base;
    hide Paths.Dir;
    hide Paths.Segments;
    Paths.PlainName(cwd, FIRST_NAME);
    Paths.PlainName(cwd, FIRST_TEMP);
    assert FIRST_TEMP == TempName(FIRST_NAME, "1") && SECOND_TEMP == TempName(FIRST_TEMP, "2");
    assert In(cwd, FIRST_TEMP)[|Paths.Segments(cwd)|] == FIRST_TEMP;
    assert In(cwd, SECOND_TEMP)[|Paths.Segments(cwd)|] == SECOND_TEMP;
  }

  lemma Opens(sha: Digest, cwd: string, a: seq<byte>, b: seq<byte>)
    ensures var s1 := Step(sha, Fresh(cwd), Steps(sha, cwd, a, b)[0]).0;
            && Possible(Fresh(cwd), Steps(sha, cwd, a, b)[0]) && Possible(s1, Steps(sha, cwd, a, b)[1])
            && Step(sha, s1, Steps(sha, cwd, a, b)[1]).0 == Opened(sha, cwd, a, b)
  {
    hide Where;
    hide TempFor;
    hide In;
    Names(cwd);
  }

  lemma Encodes()
    ensures EncodeId(FIRST).Prefix? && EncodeId(SECOND).Prefix?
  {}

  function HalfReceived(sha: Digest, cwd: string, a: seq<byte>, b: seq<byte>): State {
    Two(cwd, Written(sha, FIRST, a, In(cwd, FIRST_NAME), In(cwd, FIRST_TEMP), 1),
        Started(sha, SECOND, b, In(cwd, FIRST_TEMP), In(cwd, SECOND_TEMP), 2), a, [])
  }

  lemma FirstBody(sha: Digest, cwd: string, a: seq<byte>, b: seq<byte>)
    ensures Step(sha, Opened(sha, cwd, a, b), Steps(sha, cwd, a, b)[2]).0 == HalfReceived(sha, cwd, a, b)
  {
    hide DecodeBody;
    hide EncodeId;
    hide In;
    hide Where;
    Encodes();
    DecodeAfterEncode(FIRST, a);
    assert [] + a == a;
  }

  lemma SecondBody(sha: Digest, cwd: string, a: seq<byte>, b: seq<byte>)
    ensures Step(sha, HalfReceived(sha, cwd, a, b), Steps(sha, cwd, a, b)[3]).0 == Received(sha, cwd, a, b)
  {
    hide DecodeBody;
    hide EncodeId;
    hide In;
    hide Where;
    Encodes();
    DecodeAfterEncode(SECOND, b);
    assert [] + b == b;
  }

  lemma Commits(sha: Digest, cwd: string, a: seq<byte>, b: seq<byte>)
    ensures var s4 := Received(sha, cwd, a, b);
            var s5 := Step(sha, s4, Steps(sha, cwd, a, b)[4]).0;
            && Replaces(sha, s4, Steps(sha, cwd, a, b)[4], FIRST)
            && Step(sha, s5, Steps(sha, cwd, a, b)[5]).1 == Committed(Result(FIRST, true, |a|, sha(a), Fine))
            && Content(Step(sha, s5, Steps(sha, cwd, a, b)[5]).0.disk, In(cwd, FIRST_NAME)) == Some(b)
  {
    hide In;
    hide Where;
    hide TempFor;
    Names(cwd);
    var s4 := Received(sha, cwd, a, b);
    assert FIRST in s4.incoming && s4.incoming[FIRST].tempPath == s4.incoming[SECOND].finalPath;
  }

  /** The states of the run up to the clobbering commit. */
  lemma UpToTheCommits(sha: Digest, cwd: string, a: seq<byte>, b: seq<byte>)
    ensures var steps := Steps(sha, cwd, a, b);
            && AllPossible(sha, Fresh(cwd), steps)
            && After(sha, Fresh(cwd), steps[..4]) == Received(sha, cwd, a, b)
  {
    hide Step;
    hide After;
    hide Possible;
    hide Steps;
    hide Opened;
    hide HalfReceived;
    hide Received;
    hide Fresh;
    var steps := Steps(sha, cwd, a, b);
    AfterNothing(sha, cwd);
    AfterOneMore(sha, Fresh(cwd), steps, 0);
    AfterOneMore(sha, Fresh(cwd), steps, 1);
    AfterOneMore(sha, Fresh(cwd), steps, 2);
    AfterOneMore(sha, Fresh(cwd), steps, 3);
    assert steps[..0] == [];
    Opens(sha, cwd, a, b);
    FirstBody(sha, cwd, a, b);
    SecondBody(sha, cwd, a, b);
    forall k | 0 <= k < |steps|
      ensures Possible(After(sha, Fresh(cwd), steps[..k]), steps[k])
    {
      if k > 1 {
        OnlyOpensNeedAnything(After(sha, Fresh(cwd), steps[..k]), steps[k]);
      }
    }
  }

  /** From a receiver with an empty disk, in any working directory: the first transfer announces and sends `a`, its size
      and digest are checked, it gets an OK result with them, and its destination then holds `b`. */
  lemma SucceedsWithTheWrongFile(sha: Digest, cwd: string, a: seq<byte>, b: seq<byte>)
    ensures var steps := Steps(sha, cwd, a, b);
            && AllPossible(sha, Fresh(cwd), steps)
            && Replaces(sha, After(sha, Fresh(cwd), steps[..4]), steps[4], FIRST)
            && Step(sha, After(sha, Fresh(cwd), steps[..5]), steps[5]).1
               == Committed(Result(FIRST, true, |a|, sha(a), Fine))
            && Content(After(sha, Fresh(cwd), steps).disk, Where(cwd, FIRST_NAME)) == Some(b)
  {
    hide Step;
    hide After;
    hide AllPossible;
    hide Steps;
    hide Received;
    hide Fresh;
    hide Content;
    hide Replaces;
    hide Where;
    hide TempFor;
    hide In;
    hide Possible;
    var steps := Steps(sha, cwd, a, b);
    Names(cwd);
    UpToTheCommits(sha, cwd, a, b);
    AfterOneMore(sha, Fresh(cwd), steps, 4);
    AfterOneMore(sha, Fresh(cwd), steps, 5);
    assert steps[..6] == steps;
    Commits(sha, cwd, a, b);
  }

  lemma AfterNothing(sha: Digest, cwd: string)
    ensures After(sha, Fresh(cwd), []) == Fresh(cwd)
  {}

  lemma OnlyOpensNeedAnything(s: State, e: Event)
    requires !e.OpenEvent?
    ensures Possible(s, e)
  {}
}
