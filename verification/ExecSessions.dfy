/** Process sessions of the execution broker: capacity, the sliding output window, and reading it page by page. */
module ExecSessions {
  import opened Sequences
  import opened WorkspaceEdit
  import opened Wrappers

  const MAX_OUTPUT := 1048576
  const RETENTION_MS := 1800000
  const DEFAULT_PAGE := 65536
  const MAX_PAGE := 262144

  datatype Session = Session(output: Code, exitCode: Option<int>, closedAt: Option<int>)

  type Sessions = map<string, Session>

  datatype SessionError = SessionCapacity | StartRefused | SessionNotFound

  datatype Page = Page(running: bool, exitCode: Option<int>, output: Code, nextOffset: int, truncated: bool)

  /* The window. */

  predicate IsPair(high: CodeUnit, low: CodeUnit) {
    0xD800 <= high < 0xDC00 && 0xDC00 <= low < 0xE000
  }

  /** Bytes after UTF-8 encoding; a lone surrogate is replaced by a three-byte mark. */
  function ByteLength(s: Code): (n: nat)
    ensures n >= |s|
  {
    if s == [] then 0
    else if |s| > 1 && IsPair(s[0], s[1]) then 4 + ByteLength(s[2..])
    else (if s[0] < 0x80 then 1 else if s[0] < 0x800 then 2 else 3) + ByteLength(s[1..])
  }

  function Last(s: Code, n: nat): Code {
    if |s| <= n then s else s[|s| - n..]
  }

  /** The length is measured in bytes and cut in code units. */
  function AppendStep(output: Code, add: Code): Code {
    if ByteLength(output + add) > MAX_OUTPUT then Last(output + add, MAX_OUTPUT) else output + add
  }

  function Window(adds: seq<Code>): Code {
    if adds == [] then [] else AppendStep(Window(adds[..|adds| - 1]), adds[|adds| - 1])
  }

  function Written(adds: seq<Code>): Code {
    if adds == [] then [] else Written(adds[..|adds| - 1]) + adds[|adds| - 1]
  }

  lemma LastAppends(all: Code, add: Code, n: nat)
    ensures Last(Last(all, n) + add, n) == Last(all + add, n)
  {
  }

  /** Whatever the mix of one- to four-byte characters, the window is the last code units of everything written. */
  lemma {:induction false} WindowIsLast(adds: seq<Code>)
    ensures Window(adds) == Last(Written(adds), MAX_OUTPUT)
  {
    if adds != [] {
      var before, add := adds[..|adds| - 1], adds[|adds| - 1];
      WindowIsLast(before);
      LastAppends(Written(before), add, MAX_OUTPUT);
      var all := Window(before) + add;
      if ByteLength(all) <= MAX_OUTPUT {
        assert |all| <= MAX_OUTPUT && Last(all, MAX_OUTPUT) == all;
      }
    }
  }

  /* Pages. */

  /** Zero, missing and unreadable numbers count as not given. */
  function OffsetOf(offset: Option<int>): nat {
    if offset.None? || offset.value < 0 then 0 else offset.value
  }

  function LimitOf(limit: Option<int>): (n: nat)
    ensures 1 <= n <= MAX_PAGE
  {
    var n := if limit.None? || limit.value == 0 then DEFAULT_PAGE else limit.value;
    if n < 1 then 1 else if n > MAX_PAGE then MAX_PAGE else n
  }

  function Slice(s: Code, from: nat, to: nat): Code {
    if from >= |s| || to <= from then [] else if to >= |s| then s[from..] else s[from..to]
  }

  function PageOf(s: Session, offset: nat, limit: nat): Page {
    var output := Slice(s.output, offset, offset + limit);
    Page(s.closedAt.None?, s.exitCode, output, offset + |output|, offset + |output| < |s.output|)
  }

  /** Reading on from where each page ends, until nothing is left. */
  function ReadOn(s: Session, offset: nat, limit: nat): Code
    requires limit >= 1
    decreases |s.output| - offset
  {
    var page := PageOf(s, offset, limit);
    page.output + if page.truncated then ReadOn(s, offset + |page.output|, limit) else []
  }

  lemma PageThenRest(output: Code, offset: nat, limit: nat)
    requires limit >= 1 && offset <= |output|
    ensures var page := Slice(output, offset, offset + limit);
            && offset + |page| <= |output| && output[offset..] == page + output[offset + |page|..]
            && (offset + |page| < |output| ==> |page| == limit)
  {
  }

  /** While nothing is written, reading on from an offset gives the rest of the window, whole and once. */
  lemma {:induction false} PagesCoverWindow(s: Session, offset: nat, limit: nat)
    requires limit >= 1 && offset <= |s.output|
    ensures ReadOn(s, offset, limit) == s.output[offset..]
    decreases |s.output| - offset
  {
    var page := PageOf(s, offset, limit);
    PageThenRest(s.output, offset, limit);
    if page.truncated {
      PagesCoverWindow(s, offset + |page.output|, limit);
    }
  }

  /** How much of what was written has left the window. */
  function Dropped(all: Code): nat {
    if |all| <= MAX_OUTPUT then 0 else |all| - MAX_OUTPUT
  }

  lemma PieceOfLast(all: Code, offset: nat, limit: nat)
    requires limit >= 1 && offset <= |Last(all, MAX_OUTPUT)|
    ensures var piece, from := Slice(Last(all, MAX_OUTPUT), offset, offset + limit), Dropped(all) + offset;
            && from + |piece| <= |all| && piece == all[from..from + |piece|]
            && (offset + |piece| < |Last(all, MAX_OUTPUT)| <==> from + |piece| < |all|)
  {
    assert Last(all, MAX_OUTPUT) == all[Dropped(all)..];
  }

  /** A page is a piece of everything written, at the offset counted from where the window now begins. */
  lemma PageIsPiece(adds: seq<Code>, offset: nat, limit: nat, s: Session)
    requires s.output == Window(adds) && limit >= 1 && offset <= |s.output|
    ensures var page, all := PageOf(s, offset, limit), Written(adds);
            var from := Dropped(all) + offset;
            from + |page.output| <= |all| && page.output == all[from..from + |page.output|]
            && (page.truncated <==> from + |page.output| < |all|)
  {
    WindowIsLast(adds);
    PieceOfLast(Written(adds), offset, limit);
  }

  /**
    * When more was written between two reads, the second starts where the first ended exactly if the window did not
    * move; otherwise it skips as many code units as left the window.
    */
  lemma NextPageFollows(adds: seq<Code>, more: seq<Code>, offset: nat, limit: nat, s: Session)
    requires s.output == Window(adds) && adds <= more && limit >= 1 && offset <= |s.output|
    ensures var all, later, page := Written(adds), Written(more), PageOf(s, offset, limit);
            var end, next := Dropped(all) + offset + |page.output|, Dropped(later) + page.nextOffset;
            && all <= later && next - end == Dropped(later) - Dropped(all)
            && (next == end <==> |later| <= MAX_OUTPUT || |later| == |all|)
  {
    WrittenGrows(adds, more);
  }

  lemma {:induction false} WrittenGrows(adds: seq<Code>, more: seq<Code>)
    requires adds <= more
    ensures Written(adds) <= Written(more)
  {
    if |adds| == |more| {
      assert adds == more;
    } else {
      WrittenGrows(adds, more[..|more| - 1]);
    }
  }

  /* Sessions. */

  function ActiveIds(sessions: Sessions): set<string> {
    set id | id in sessions && sessions[id].closedAt.None?
  }

  /** A closing time of zero would count as none. */
  predicate Outlived(s: Session, now: int) {
    s.closedAt.Some? && s.closedAt.value != 0 && now - s.closedAt.value > RETENTION_MS
  }

  function Reaped(sessions: Sessions, now: int): Sessions {
    map id | id in sessions && !Outlived(sessions[id], now) :: sessions[id]
  }

  /** `granted`: directory, program and arguments pass their checks and the child is spawned. */
  function StartStep(sessions: Sessions, id: string, granted: bool, max: nat, now: int)
    : (Sessions, Result<string, SessionError>)
  {
    var kept := Reaped(sessions, now);
    if |ActiveIds(kept)| >= max then (kept, Err(SessionCapacity))
    else if !granted then (kept, Err(StartRefused))
    else (kept[id := Session([], None, None)], Ok(id))
  }

  function OutputStep(sessions: Sessions, id: string, add: Code): Sessions {
    if id in sessions then sessions[id := sessions[id].(output := AppendStep(sessions[id].output, add))] else sessions
  }

  function CloseStep(sessions: Sessions, id: string, code: Option<int>, now: int): Sessions {
    if id in sessions then sessions[id := sessions[id].(exitCode := code, closedAt := Some(now))] else sessions
  }

  class Sessioner {
    var sessions: Sessions
    const max: nat

    constructor (max: nat)
      ensures sessions == map[] && this.max == max
    {
      this.max := max;
      sessions := map[];
    }

    method ActiveSessionCount() returns (count: nat)
      ensures count == |ActiveIds(sessions)|
    {
      var ids := sessions.Keys;
      ghost var counted: set<string> := {};
      count := 0;
      while ids != {}
        invariant ids <= sessions.Keys && ids !! counted && count == |counted|
        invariant counted <= ActiveIds(sessions) <= counted + ids
        decreases ids
      {
        var id :| id in ids;
        ids := ids - {id};
        if sessions[id].closedAt.None? {
          counted := counted + {id};
          count := count + 1;
        }
      }
      assert counted == ActiveIds(sessions);
    }

    method Reap(now: int)
      modifies this
      ensures sessions == Reaped(old(sessions), now)
    {
      var ids := sessions.Keys;
      while ids != {}
        invariant ids <= old(sessions).Keys
        invariant sessions ==
                  map id | id in old(sessions) && (id in ids || !Outlived(old(sessions)[id], now)) :: old(sessions)[id]
        decreases ids
      {
        var id :| id in ids;
        if Outlived(sessions[id], now) {
          sessions := sessions - {id};
        }
        ids := ids - {id};
      }
    }

    method Start(id: string, granted: bool, now: int) returns (r: Result<string, SessionError>)
      modifies this
      ensures (sessions, r) == StartStep(old(sessions), id, granted, max, now)
    {
      Reap(now);
      var active := ActiveSessionCount();
      if active >= max {
        return Err(SessionCapacity);
      }
      if !granted {
        return Err(StartRefused);
      }
      sessions := sessions[id := Session([], None, None)];
      r := Ok(id);
    }

    method OnData(id: string, add: Code)
      modifies this
      ensures sessions == OutputStep(old(sessions), id, add)
    {
      if id in sessions {
        var output := sessions[id].output + add;
        if ByteLength(output) > MAX_OUTPUT {
          output := Last(output, MAX_OUTPUT);
        }
        sessions := sessions[id := sessions[id].(output := output)];
      }
    }

    method OnClose(id: string, code: Option<int>, now: int)
      modifies this
      ensures sessions == CloseStep(old(sessions), id, code, now)
    {
      if id in sessions {
        sessions := sessions[id := sessions[id].(exitCode := code, closedAt := Some(now))];
      }
    }

    method Read(id: string, offset: Option<int>, limit: Option<int>, now: int) returns (r: Result<Page, SessionError>)
      modifies this
      ensures sessions == Reaped(old(sessions), now)
      ensures r == if id in sessions then Ok(PageOf(sessions[id], OffsetOf(offset), LimitOf(limit)))
                   else Err(SessionNotFound)
    {
      Reap(now);
      if id !in sessions {
        return Err(SessionNotFound);
      }
      r := Ok(PageOf(sessions[id], OffsetOf(offset), LimitOf(limit)));
    }
  }

  datatype Op =
    | Start(id: string, granted: bool, now: int)
    | Output(id: string, add: Code)
    | Close(id: string, code: Option<int>, now: int)
    | Other(now: int)

  function Step(sessions: Sessions, op: Op, max: nat): Sessions {
    match op
    case Start(id, granted, now) => StartStep(sessions, id, granted, max, now).0
    case Output(id, add) => OutputStep(sessions, id, add)
    case Close(id, code, now) => CloseStep(sessions, id, code, now)
    case Other(now) => Reaped(sessions, now)
  }

  function Run(ops: seq<Op>, max: nat): Sessions {
    if ops == [] then map[] else Step(Run(ops[..|ops| - 1], max), ops[|ops| - 1], max)
  }

  lemma StepKeepsCapacity(sessions: Sessions, op: Op, max: nat)
    requires |ActiveIds(sessions)| <= max
    ensures |ActiveIds(Step(sessions, op, max))| <= max
  {
    var next := ActiveIds(Step(sessions, op, max));
    match op
    case Start(id, _, now) =>
      var kept := Reaped(sessions, now);
      SubsetIsSmaller(ActiveIds(kept), ActiveIds(sessions));
      SubsetIsSmaller(next, ActiveIds(kept) + {id});
    case _ => SubsetIsSmaller(next, ActiveIds(sessions));
  }

  /** However sessions start, write, end and are reaped, no more of them run than the configured number. */
  lemma {:induction false} CapacityHolds(ops: seq<Op>, max: nat)
    ensures |ActiveIds(Run(ops, max))| <= max
  {
    if ops != [] {
      CapacityHolds(ops[..|ops| - 1], max);
      StepKeepsCapacity(Run(ops[..|ops| - 1], max), ops[|ops| - 1], max);
    }
  }
}
