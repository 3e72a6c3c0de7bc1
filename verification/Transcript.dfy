/** The append-only transcript of `storage.py`: a log of entries linked by parent ids, read back
    from the end after any set of lines has been damaged.
*/
module Transcript {
  import opened Wrappers

  datatype Entry = Entry(uuid: string, parent: Option<string>, payload: string)

  /** A line of the file as the reader sees it; damage leaves a line that does not parse. */
  datatype Line = Good(entry: Entry) | Malformed | Blank

  const MAX_TRANSCRIPT_BYTES := 50 * 1024 * 1024

  datatype ReadError = TooLarge(size: nat)

  // ----- the chain a file denotes -----

  function Entries(lines: seq<Line>): seq<Entry> {
    if lines == [] then []
    else if lines[|lines| - 1].Good? then Entries(lines[..|lines| - 1]) + [lines[|lines| - 1].entry]
    else Entries(lines[..|lines| - 1])
  }

  /** Entries by id; a later entry replaces an earlier one with the same id. */
  function Index(entries: seq<Entry>): (index: map<string, Entry>)
    ensures forall k :: k in index ==> index[k].uuid == k
    ensures forall e :: e in entries ==> e.uuid in index
    ensures entries != [] ==> index[entries[|entries| - 1].uuid] == entries[|entries| - 1]
  {
    if entries == [] then map[]
    else
      var last := entries[|entries| - 1];
      assert forall e :: e in entries ==> e in entries[..|entries| - 1] || e == last;
      Index(entries[..|entries| - 1])[last.uuid := last]
  }

  /** The entry a parent pointer leads to; an absent or empty pointer leads nowhere. */
  function ParentOf(index: map<string, Entry>, e: Entry): Option<Entry> {
    if e.parent.Some? && e.parent.value != "" && e.parent.value in index
    then Some(index[e.parent.value]) else None
  }

  /** The chain that ends in `current`, root first, stopping before an id in `seen`. */
  function Walk(index: map<string, Entry>, current: Entry, seen: set<string>): seq<Entry>
    requires current.uuid in index && forall k :: k in index ==> index[k].uuid == k
    decreases index.Keys - seen, 0
  {
    if current.uuid in seen then []
    else WalkUp(index, ParentOf(index, current), seen + {current.uuid}) + [current]
  }

  function WalkUp(index: map<string, Entry>, current: Option<Entry>, seen: set<string>): seq<Entry>
    requires current.Some? ==> current.value.uuid in index
    requires forall k :: k in index ==> index[k].uuid == k
    decreases index.Keys - seen, 1
  {
    if current.None? then [] else Walk(index, current.value, seen)
  }

  function Chain(entries: seq<Entry>): seq<Entry> {
    if entries == [] then [] else Walk(Index(entries), entries[|entries| - 1], {})
  }

  // ----- the reader -----

  function Reversed(s: seq<Entry>): seq<Entry> {
    if s == [] then [] else [s[|s| - 1]] + Reversed(s[..|s| - 1])
  }

  /** Skips blank lines and lines that do not parse. */
  method ReadAll(lines: seq<Line>, size: nat) returns (r: Result<seq<Entry>, ReadError>)
    ensures r == if size > MAX_TRANSCRIPT_BYTES then Err(TooLarge(size)) else Ok(Entries(lines))
  {
    if size > MAX_TRANSCRIPT_BYTES {
      return Err(TooLarge(size));
    }
    var entries := [];
    for i := 0 to |lines|
      invariant entries == Entries(lines[..i])
    {
      assert lines[..i + 1][..i] == lines[..i];
      match lines[i] {
        case Good(e) => entries := entries + [e];
        case Malformed =>
        case Blank =>
      }
    }
    assert lines[..|lines|] == lines;
    return Ok(entries);
  }

  method BuildIndex(entries: seq<Entry>) returns (index: map<string, Entry>)
    ensures index == Index(entries)
  {
    index := map[];
    for i := 0 to |entries|
      invariant index == Index(entries[..i])
    {
      assert entries[..i + 1][..i] == entries[..i];
      index := index[entries[i].uuid := entries[i]];
    }
    assert entries[..|entries|] == entries;
  }

  method ReverseChain(s: seq<Entry>) returns (r: seq<Entry>)
    ensures r == Reversed(s)
  {
    r := [];
    for i := 0 to |s|
      invariant r == Reversed(s[..i])
    {
      assert s[..i + 1][..i] == s[..i];
      r := [s[i]] + r;
    }
    assert s[..|s|] == s;
  }

  /** Walks the parent pointers back from the last entry, remembering the ids met. */
  method ReadChain(lines: seq<Line>, size: nat) returns (r: Result<seq<Entry>, ReadError>)
    ensures r == if size > MAX_TRANSCRIPT_BYTES then Err(TooLarge(size)) else Ok(Chain(Entries(lines)))
  {
    var all := ReadAll(lines, size);
    if all.Err? {
      return Err(all.error);
    }
    var entries := all.value;
    if entries == [] {
      return Ok([]);
    }
    var index := BuildIndex(entries);
    var chain: seq<Entry> := [];
    var seen: set<string> := {};
    var current: Option<Entry> := Some(entries[|entries| - 1]);
    while current.Some?
      invariant current.Some? ==> current.value.uuid in index
      invariant Chain(entries) == WalkUp(index, current, seen) + Reversed(chain)
      decreases index.Keys - seen, current.Some?
    {
      var e := current.value;
      if e.uuid in seen {
        break;
      }
      ReversedSnoc(chain, e, WalkUp(index, ParentOf(index, e), seen + {e.uuid}));
      seen := seen + {e.uuid};
      chain := chain + [e];
      current := ParentOf(index, e);
    }
    assert [] + Reversed(chain) == Reversed(chain);
    chain := ReverseChain(chain);
    return Ok(chain);
  }

  lemma ReversedSnoc(chain: seq<Entry>, e: Entry, above: seq<Entry>)
    ensures (above + [e]) + Reversed(chain) == above + Reversed(chain + [e])
  {
    assert (chain + [e])[..|chain|] == chain;
  }

  // ----- arbitrary contents -----

  /** Each entry is the parent of the next. */
  ghost predicate Linked(chain: seq<Entry>) {
    forall i :: 0 < i < |chain| ==> chain[i].parent == Some(chain[i - 1].uuid)
  }

  ghost predicate Distinct(chain: seq<Entry>) {
    forall i, j :: 0 <= i < j < |chain| ==> chain[i].uuid != chain[j].uuid
  }

  lemma AppendLinked(above: seq<Entry>, e: Entry)
    requires Linked(above) && Distinct(above)
    requires above != [] ==> e.parent == Some(above[|above| - 1].uuid)
    requires forall x :: x in above ==> x.uuid != e.uuid
    ensures Linked(above + [e]) && Distinct(above + [e])
  {}

  lemma {:induction false} WalkIsChain(index: map<string, Entry>, current: Entry, seen: set<string>)
    requires current.uuid in index && forall k :: k in index ==> index[k].uuid == k
    ensures var c := Walk(index, current, seen);
            && Linked(c) && Distinct(c)
            && (forall x :: x in c ==> x.uuid !in seen && (x == current || x in index.Values))
            && (c != [] ==> c[|c| - 1] == current)
            && (c == [] ==> current.uuid in seen)
    decreases index.Keys - seen
  {
    if current.uuid !in seen {
      var p := ParentOf(index, current);
      if p.Some? {
        WalkIsChain(index, p.value, seen + {current.uuid});
        assert p.value in index.Values;
      }
      AppendLinked(WalkUp(index, p, seen + {current.uuid}), current);
    }
  }

  /** What a chain's first entry points to is unknown, in `seen`, or in the chain. */
  ghost predicate StopsWell(index: map<string, Entry>, seen: set<string>, c: seq<Entry>) {
    && c != []
    && (ParentOf(index, c[0]).None? || ParentOf(index, c[0]).value.uuid in seen
        || exists i :: 0 <= i < |c| && c[i].uuid == ParentOf(index, c[0]).value.uuid)
  }

  lemma StopsHere(index: map<string, Entry>, e: Entry, seen: set<string>)
    requires ParentOf(index, e).Some? ==> ParentOf(index, e).value.uuid in seen + {e.uuid}
    ensures StopsWell(index, seen, [e])
  {
    if ParentOf(index, e).Some? && ParentOf(index, e).value.uuid !in seen {
      assert [e][0].uuid == ParentOf(index, e).value.uuid;
    }
  }

  lemma StopsAbove(index: map<string, Entry>, e: Entry, seen: set<string>, above: seq<Entry>)
    requires StopsWell(index, seen + {e.uuid}, above)
    ensures StopsWell(index, seen, above + [e])
  {
    var c := above + [e];
    assert c[0] == above[0] && c[|above|] == e;
    if ParentOf(index, c[0]).Some? && ParentOf(index, c[0]).value.uuid !in seen {
      var id := ParentOf(index, c[0]).value.uuid;
      if id != e.uuid {
        var i :| 0 <= i < |above| && above[i].uuid == id;
        assert c[i].uuid == id;
      }
    }
  }

  lemma WalkSeen(index: map<string, Entry>, e: Entry, seen: set<string>)
    requires e.uuid in index && forall k :: k in index ==> index[k].uuid == k
    ensures e.uuid in seen ==> Walk(index, e, seen) == []
    ensures WalkUp(index, Some(e), seen) == Walk(index, e, seen)
  {}

  lemma WalkOne(index: map<string, Entry>, e: Entry, seen: set<string>)
    requires e.uuid in index && forall k :: k in index ==> index[k].uuid == k
    requires e.uuid !in seen
    ensures var p := ParentOf(index, e);
            Walk(index, e, seen)
            == (if p.Some? && p.value.uuid !in seen + {e.uuid} then Walk(index, p.value, seen + {e.uuid}) else []) + [e]
  {
    var p := ParentOf(index, e);
    assert Walk(index, e, seen) == WalkUp(index, p, seen + {e.uuid}) + [e];
    if p.Some? {
      WalkSeen(index, p.value, seen + {e.uuid});
    }
  }

  /** Where a chain starts: at an entry whose parent is unknown, or just after a cycle closed. */
  lemma {:induction false} WalkStops(index: map<string, Entry>, current: Entry, seen: set<string>)
    requires current.uuid in index && forall k :: k in index ==> index[k].uuid == k
    requires current.uuid !in seen
    ensures StopsWell(index, seen, Walk(index, current, seen))
    decreases index.Keys - seen
  {
    var p := ParentOf(index, current);
    WalkOne(index, current, seen);
    if p.Some? && p.value.uuid !in seen + {current.uuid} {
      WalkStops(index, p.value, seen + {current.uuid});
      StopsAbove(index, current, seen, Walk(index, p.value, seen + {current.uuid}));
    } else {
      StopsHere(index, current, seen);
      assert [] + [current] == [current];
    }
  }

  /** Whatever the file holds, cycles and dangling or duplicate ids included, reading it back
      terminates with distinct ids, every entry the parent of the next, ending in the last entry,
      and it cannot be continued upwards without repeating an id. */
  lemma ChainOfAnything(entries: seq<Entry>)
    requires entries != []
    ensures var c := Chain(entries);
            && Linked(c) && Distinct(c)
            && c != [] && c[|c| - 1] == entries[|entries| - 1]
            && (forall x :: x in c ==> x in entries)
            && (ParentOf(Index(entries), c[0]).None?
                || exists i :: 0 <= i < |c| && c[i].uuid == ParentOf(Index(entries), c[0]).value.uuid)
  {
    WalkIsChain(Index(entries), entries[|entries| - 1], {});
    WalkStops(Index(entries), entries[|entries| - 1], {});
    IndexValues(entries);
  }

  lemma {:induction false} IndexValues(entries: seq<Entry>)
    ensures forall x :: x in Index(entries).Values ==> x in entries
  {
    if entries != [] {
      var front, last := entries[..|entries| - 1], entries[|entries| - 1];
      IndexValues(front);
      forall x | x in Index(entries).Values
        ensures x in entries
      {
        var k :| k in Index(entries) && Index(entries)[k] == x;
        assert x == last || Index(front)[k] == x;
        assert x == last || x in front;
      }
    }
  }

  // ----- damage -----

  /** A log as successive appends leave it: distinct non-empty ids, each entry linked to the one
      before it. */
  ghost predicate Written(log: seq<Entry>) {
    && Distinct(log) && Linked(log)
    && (forall i :: 0 <= i < |log| ==> log[i].uuid != "")
    && (log != [] ==> log[0].parent == None)
  }

  /** The file after the lines outside `keep` have been damaged. */
  function Damaged(log: seq<Entry>, keep: seq<bool>): seq<Line>
    requires |keep| == |log|
  {
    seq(|log|, i requires 0 <= i < |log| => if keep[i] then Good(log[i]) else Malformed)
  }

  function Survivors(log: seq<Entry>, keep: seq<bool>): seq<Entry>
    requires |keep| == |log|
  {
    if log == [] then []
    else
      var n := |log| - 1;
      if keep[n] then Survivors(log[..n], keep[..n]) + [log[n]] else Survivors(log[..n], keep[..n])
  }

  lemma {:induction false} DamagedEntries(log: seq<Entry>, keep: seq<bool>)
    requires |keep| == |log|
    ensures Entries(Damaged(log, keep)) == Survivors(log, keep)
  {
    if log != [] {
      var n := |log| - 1;
      DamagedEntries(log[..n], keep[..n]);
      assert Damaged(log, keep)[..n] == Damaged(log[..n], keep[..n]);
    }
  }

  /** Start of the run of kept lines that ends at line `b`. */
  function RunStart(keep: seq<bool>, b: nat): (a: nat)
    requires b < |keep| && keep[b]
    ensures a <= b && (forall i :: a <= i <= b ==> keep[i]) && (a > 0 ==> !keep[a - 1])
  {
    if b > 0 && keep[b - 1] then RunStart(keep, b - 1) else b
  }

  /** A survivor is found under its id, and nothing else is. */
  lemma {:induction false} SurvivorIndex(log: seq<Entry>, keep: seq<bool>, i: nat)
    requires |keep| == |log| && Distinct(log) && i < |log|
    ensures var index := Index(Survivors(log, keep));
            (log[i].uuid in index <==> keep[i]) && (keep[i] ==> index[log[i].uuid] == log[i])
  {
    var n := |log| - 1;
    if i < n {
      SurvivorIndex(log[..n], keep[..n], i);
    } else {
      SurvivorIds(log[..n], keep[..n], log[n].uuid);
    }
    var front := Survivors(log[..n], keep[..n]);
    if keep[n] {
      assert (front + [log[n]])[..|front|] == front;
    }
  }

  lemma {:induction false} SurvivorIds(log: seq<Entry>, keep: seq<bool>, id: string)
    requires |keep| == |log| && forall i :: 0 <= i < |log| ==> log[i].uuid != id
    ensures id !in Index(Survivors(log, keep))
  {
    if log != [] {
      var n := |log| - 1;
      SurvivorIds(log[..n], keep[..n], id);
      var front := Survivors(log[..n], keep[..n]);
      if keep[n] {
        assert (front + [log[n]])[..|front|] == front;
      }
    }
  }

  /** An index that holds of the log exactly the lines kept. */
  ghost predicate Indexes(index: map<string, Entry>, log: seq<Entry>, keep: seq<bool>)
    requires |keep| == |log|
  {
    && (forall k :: k in index ==> index[k].uuid == k)
    && forall i :: 0 <= i < |log| ==> (log[i].uuid in index <==> keep[i]) && (keep[i] ==> index[log[i].uuid] == log[i])
  }

  lemma RunGrows(log: seq<Entry>, keep: seq<bool>, b: nat)
    requires |keep| == |log| && 0 < b < |log| && keep[b] && keep[b - 1]
    ensures log[RunStart(keep, b)..b + 1] == log[RunStart(keep, b - 1)..b] + [log[b]]
  {}

  lemma RunBegins(log: seq<Entry>, keep: seq<bool>, b: nat)
    requires |keep| == |log| && b < |log| && keep[b] && (b > 0 ==> !keep[b - 1])
    ensures log[RunStart(keep, b)..b + 1] == [] + [log[b]]
  {}

  lemma {:induction false} WalkRun(index: map<string, Entry>, log: seq<Entry>, keep: seq<bool>, b: nat,
                                   seen: set<string>)
    requires |keep| == |log| && Indexes(index, log, keep) && Written(log) && b < |log| && keep[b]
    requires forall i :: 0 <= i <= b ==> log[i].uuid !in seen
    ensures Walk(index, log[b], seen) == log[RunStart(keep, b)..b + 1]
    decreases b
  {
    WalkOne(index, log[b], seen);
    if b > 0 && keep[b - 1] {
      assert ParentOf(index, log[b]) == Some(log[b - 1]);
      WalkRun(index, log, keep, b - 1, seen + {log[b].uuid});
      RunGrows(log, keep, b);
    } else {
      assert b > 0 ==> log[b].parent == Some(log[b - 1].uuid);
      assert ParentOf(index, log[b]) == None;
      RunBegins(log, keep, b);
    }
  }

  lemma {:induction false} LastSurvivor(log: seq<Entry>, keep: seq<bool>, b: nat)
    requires |keep| == |log| && b < |log| && keep[b] && forall i :: b < i < |log| ==> !keep[i]
    ensures var s := Survivors(log, keep); s != [] && s[|s| - 1] == log[b]
    decreases |log|
  {
    var n := |log| - 1;
    if b < n {
      LastSurvivor(log[..n], keep[..n], b);
    }
  }

  /** After any set of lines of a written log is lost, reading it back yields exactly the maximal
      run of surviving lines that ends at the last survivor. */
  lemma DamagedLogRecovery(log: seq<Entry>, keep: seq<bool>, b: nat)
    requires |keep| == |log| && Written(log)
    requires b < |log| && keep[b] && forall i :: b < i < |log| ==> !keep[i]
    ensures Chain(Entries(Damaged(log, keep))) == log[RunStart(keep, b)..b + 1]
  {
    DamagedEntries(log, keep);
    LastSurvivor(log, keep, b);
    SurvivorsIndexed(log, keep);
    WalkRun(Index(Survivors(log, keep)), log, keep, b, {});
  }

  /** An undamaged log is read back whole. */
  lemma UndamagedLog(log: seq<Entry>)
    requires Written(log)
    ensures Chain(log) == log
  {
    if log != [] {
      var keep := seq(|log|, i => true);
      DamagedLogRecovery(log, keep, |log| - 1);
      DamagedEntries(log, keep);
      AllSurvive(log, keep);
    }
  }

  lemma {:induction false} AllSurvive(log: seq<Entry>, keep: seq<bool>)
    requires |keep| == |log| && forall i :: 0 <= i < |keep| ==> keep[i]
    ensures Survivors(log, keep) == log
  {
    if log != [] {
      AllSurvive(log[..|log| - 1], keep[..|log| - 1]);
    }
  }

  // ----- writing, and going on after recovery -----

  function LastUuid(entries: seq<Entry>): Option<string> {
    if entries == [] then None else Some(entries[|entries| - 1].uuid)
  }

  class TranscriptWriter {
    var lines: seq<Line>
    var lastUuid: Option<string>
    var messageCount: nat

    /** A writer on an existing file knows no last id until it is resumed. */
    constructor (file: seq<Line>, count: nat)
      ensures lines == file && lastUuid == None && messageCount == count
    {
      lines, lastUuid, messageCount := file, None, count;
    }

    /** Links the entry to the last one and appends it as one line. */
    method Append(uuid: string, payload: string)
      modifies this
      ensures lines == old(lines) + [Good(Entry(uuid, old(lastUuid), payload))]
      ensures lastUuid == Some(uuid) && messageCount == old(messageCount) + 1
    {
      var entry := Entry(uuid, lastUuid, payload);
      lastUuid := Some(uuid);
      lines := lines + [Good(entry)];
      messageCount := messageCount + 1;
    }

    /** Reads the chain back and points the writer at its last entry. */
    method Resume(size: nat) returns (r: Result<seq<Entry>, ReadError>)
      modifies this`lastUuid
      ensures r == if size > MAX_TRANSCRIPT_BYTES then Err(TooLarge(size)) else Ok(Chain(Entries(lines)))
      ensures lastUuid == if r.Ok? && r.value != [] then LastUuid(Entries(lines)) else old(lastUuid)
    {
      r := ReadChain(lines, size);
      if r.Ok? && r.value != [] {
        ChainOfAnything(Entries(lines));
        lastUuid := Some(r.value[|r.value| - 1].uuid);
      }
    }
  }

  /** Appending a fresh id to a written log leaves a written log. */
  lemma AppendKeepsWritten(log: seq<Entry>, uuid: string, payload: string)
    requires Written(log) && uuid != "" && forall i :: 0 <= i < |log| ==> log[i].uuid != uuid
    ensures Written(log + [Entry(uuid, LastUuid(log), payload)])
  {}

  datatype Record = Record(uuid: string, payload: string)

  predicate Holds(e: Entry, r: Record) {
    e.uuid == r.uuid && e.payload == r.payload
  }

  /** The log that successive appends to an empty file leave. */
  function Appended(records: seq<Record>): seq<Entry> {
    if records == [] then []
    else
      var log, r := Appended(records[..|records| - 1]), records[|records| - 1];
      log + [Entry(r.uuid, LastUuid(log), r.payload)]
  }

  /** One after the other, through the writer. */
  method AppendAll(w: TranscriptWriter, records: seq<Record>)
    requires w.lines == [] && w.lastUuid == None
    modifies w
    ensures w.lines == GoodLines(Appended(records)) && w.lastUuid == LastUuid(Appended(records))
  {
    for i := 0 to |records|
      invariant w.lines == GoodLines(Appended(records[..i])) && w.lastUuid == LastUuid(Appended(records[..i]))
    {
      assert records[..i + 1][..i] == records[..i];
      GoodSnoc(Appended(records[..i]), Entry(records[i].uuid, w.lastUuid, records[i].payload));
      w.Append(records[i].uuid, records[i].payload);
    }
    assert records[..|records|] == records;
  }

  function GoodLines(log: seq<Entry>): seq<Line> {
    seq(|log|, i requires 0 <= i < |log| => Good(log[i]))
  }

  lemma GoodSnoc(log: seq<Entry>, e: Entry)
    ensures GoodLines(log + [e]) == GoodLines(log) + [Good(e)]
  {}

  ghost predicate DistinctIds(records: seq<Record>) {
    && (forall i, j :: 0 <= i < j < |records| ==> records[i].uuid != records[j].uuid)
    && (forall i :: 0 <= i < |records| ==> records[i].uuid != "")
  }

  lemma {:induction false} AppendedIds(records: seq<Record>)
    ensures |Appended(records)| == |records|
    ensures forall i :: 0 <= i < |records| ==> Holds(Appended(records)[i], records[i])
  {
    if records != [] {
      AppendedIds(records[..|records| - 1]);
    }
  }

  /** Appends with distinct non-empty ids leave a written log. */
  lemma {:induction false} AppendsAreWritten(records: seq<Record>)
    requires DistinctIds(records)
    ensures Written(Appended(records))
  {
    if records != [] {
      var front, r := records[..|records| - 1], records[|records| - 1];
      AppendsAreWritten(front);
      AppendedIds(front);
      AppendKeepsWritten(Appended(front), r.uuid, r.payload);
    }
  }

  /** After any run of appends and the loss of any set of lines, reading the file back yields exactly
      the maximal run of surviving entries that ends at the last survivor. */
  lemma AppendsAreRecovered(records: seq<Record>, keep: seq<bool>, b: nat)
    requires DistinctIds(records) && |keep| == |records|
    requires b < |records| && keep[b] && forall i :: b < i < |records| ==> !keep[i]
    ensures |Appended(records)| == |records|
    ensures forall i :: 0 <= i < |records| ==> Holds(Appended(records)[i], records[i])
    ensures Chain(Entries(Damaged(Appended(records), keep))) == Appended(records)[RunStart(keep, b)..b + 1]
  {
    AppendedIds(records);
    AppendsAreWritten(records);
    DamagedLogRecovery(Appended(records), keep, b);
  }

  /** An id that is neither used nor pointed to. */
  ghost predicate Fresh(entries: seq<Entry>, id: string) {
    forall e :: e in entries ==> e.uuid != id && e.parent != Some(id)
  }

  lemma {:induction false} WalkUnchanged(index: map<string, Entry>, e: Entry, current: Entry, seen: set<string>)
    requires current.uuid in index && forall k :: k in index ==> index[k].uuid == k
    requires e.uuid !in index && current.parent != Some(e.uuid)
    requires forall x :: x in index.Values ==> x.parent != Some(e.uuid)
    ensures Walk(index[e.uuid := e], current, seen + {e.uuid}) == Walk(index, current, seen)
    decreases index.Keys - seen
  {
    if current.uuid !in seen {
      var p := ParentOf(index, current);
      assert ParentOf(index[e.uuid := e], current) == p;
      if p.Some? {
        assert p.value in index.Values;
        WalkUnchanged(index, e, p.value, seen + {current.uuid});
        assert seen + {current.uuid} + {e.uuid} == seen + {e.uuid} + {current.uuid};
      }
    }
  }

  /** Whatever a damaged file holds, an entry appended after resuming extends the recovered chain
      and nothing else. */
  lemma ResumeAndAppend(entries: seq<Entry>, uuid: string, payload: string)
    requires Fresh(entries, uuid) && (entries != [] ==> entries[|entries| - 1].uuid != "")
    ensures var e := Entry(uuid, LastUuid(entries), payload);
            Chain(entries + [e]) == Chain(entries) + [e]
  {
    var e := Entry(uuid, LastUuid(entries), payload);
    var more := entries + [e];
    assert more[..|entries|] == entries;
    var index := Index(entries);
    assert Index(more) == index[uuid := e];
    IndexValues(entries);
    var none: set<string> := {};
    assert none + {uuid} == {uuid};
    assert Chain(more) == Walk(Index(more), e, none) == WalkUp(Index(more), ParentOf(Index(more), e), {uuid}) + [e];
    if entries != [] {
      var last := entries[|entries| - 1];
      UnknownId(entries, uuid);
      assert ParentOf(Index(more), e) == Some(last);
      WalkUnchanged(index, e, last, none);
    }
  }

  lemma UnknownId(entries: seq<Entry>, id: string)
    requires Fresh(entries, id)
    ensures id !in Index(entries)
  {
    IndexValues(entries);
    var index := Index(entries);
    assert forall k :: k in index ==> index[k] in index.Values;
  }

  // ----- logs written over many sessions, with losses in between -----

  /** Every entry that points anywhere points to an entry before it. */
  ghost predicate PointsBack(log: seq<Entry>) {
    forall j :: 0 <= j < |log| && log[j].parent.Some? ==> exists i :: 0 <= i < j && log[i].uuid == log[j].parent.value
  }

  /** A log whose ids are distinct and not empty, and in which every link leads back. */
  ghost predicate Woven(log: seq<Entry>) {
    Distinct(log) && PointsBack(log) && forall i :: 0 <= i < |log| ==> log[i].uuid != ""
  }

  /** The position an entry points to. */
  ghost function ParentAt(log: seq<Entry>, b: nat): (i: nat)
    requires Woven(log) && b < |log| && log[b].parent.Some?
    ensures i < b && log[i].uuid == log[b].parent.value
  {
    var i: nat :| i < b && log[i].uuid == log[b].parent.value;
    i
  }

  /** What can be recovered from entry `b` upwards: its links, up to the first line lost. */
  ghost function Recoverable(log: seq<Entry>, keep: seq<bool>, b: nat): seq<Entry>
    requires |keep| == |log| && Woven(log) && b < |log|
    decreases b
  {
    if log[b].parent.Some? && keep[ParentAt(log, b)] then Recoverable(log, keep, ParentAt(log, b)) + [log[b]]
    else [log[b]]
  }

  lemma ParentKept(index: map<string, Entry>, log: seq<Entry>, keep: seq<bool>, b: nat)
    requires |keep| == |log| && Indexes(index, log, keep) && Woven(log) && b < |log|
    ensures ParentOf(index, log[b])
         == if log[b].parent.Some? && keep[ParentAt(log, b)] then Some(log[ParentAt(log, b)]) else None
  {}

  lemma {:induction false} WalkRecovers(index: map<string, Entry>, log: seq<Entry>, keep: seq<bool>, b: nat,
                                        seen: set<string>)
    requires |keep| == |log| && Indexes(index, log, keep) && Woven(log) && b < |log| && keep[b]
    requires forall i :: 0 <= i <= b ==> log[i].uuid !in seen
    ensures Walk(index, log[b], seen) == Recoverable(log, keep, b)
    decreases b
  {
    WalkOne(index, log[b], seen);
    ParentKept(index, log, keep, b);
    if log[b].parent.Some? && keep[ParentAt(log, b)] {
      WalkRecovers(index, log, keep, ParentAt(log, b), seen + {log[b].uuid});
    } else {
      assert [] + [log[b]] == [log[b]];
    }
  }

  lemma SurvivorsIndexed(log: seq<Entry>, keep: seq<bool>)
    requires |keep| == |log| && Distinct(log)
    ensures Indexes(Index(Survivors(log, keep)), log, keep)
  {
    forall i | 0 <= i < |log|
      ensures var index := Index(Survivors(log, keep));
              (log[i].uuid in index <==> keep[i]) && (keep[i] ==> index[log[i].uuid] == log[i])
    {
      SurvivorIndex(log, keep, i);
    }
  }

  /** Reading a woven log back after any loss yields the last survivor and what its links lead to, up to
      the first line lost. */
  lemma WovenLogRecovery(log: seq<Entry>, keep: seq<bool>, b: nat)
    requires |keep| == |log| && Woven(log)
    requires b < |log| && keep[b] && forall i :: b < i < |log| ==> !keep[i]
    ensures Chain(Entries(Damaged(log, keep))) == Recoverable(log, keep, b)
  {
    DamagedEntries(log, keep);
    LastSurvivor(log, keep, b);
    SurvivorsIndexed(log, keep);
    WalkRecovers(Index(Survivors(log, keep)), log, keep, b, {});
  }

  /** Everything ever appended, which lines of it are left, and the id the writer links to. */
  datatype File = File(log: seq<Entry>, keep: seq<bool>, last: Option<string>)

  /** An append, the loss of a line, or a new session: a new writer, resumed from what is left. */
  datatype Event = Append(r: Record) | Lose(i: nat) | Reopen

  function Contents(f: File): seq<Line>
    requires |f.keep| == |f.log|
  {
    Damaged(f.log, f.keep)
  }

  function Step(f: File, e: Event): (f': File)
    requires |f.keep| == |f.log|
    ensures |f'.keep| == |f'.log|
  {
    match e
    case Append(r) => File(f.log + [Entry(r.uuid, f.last, r.payload)], f.keep + [true], Some(r.uuid))
    case Lose(i) => if i < |f.keep| then f.(keep := f.keep[i := false]) else f
    case Reopen => f.(last := LastUuid(Entries(Contents(f))))
  }

  function Run(es: seq<Event>): (f: File)
    ensures |f.keep| == |f.log|
  {
    if es == [] then File([], [], None) else Step(Run(es[..|es| - 1]), es[|es| - 1])
  }

  /** What is appended in a run. */
  function Records(es: seq<Event>): seq<Record> {
    if es == [] then []
    else Records(es[..|es| - 1]) + if es[|es| - 1].Append? then [es[|es| - 1].r] else []
  }

  /** The log of a run holds what was appended, in order. */
  lemma {:induction false} RunHolds(es: seq<Event>)
    ensures |Run(es).log| == |Records(es)|
    ensures forall i :: 0 <= i < |Records(es)| ==> Holds(Run(es).log[i], Records(es)[i])
  {
    if es != [] {
      RunHolds(es[..|es| - 1]);
    }
  }

  ghost predicate LostAt(es: seq<Event>, j: nat, b: nat) {
    j < |es| && es[j] == Lose(b) && b < |Run(es[..j]).log|
  }

  /** Line `b` was lost at some time after it had been written. */
  ghost predicate WasLost(es: seq<Event>, b: nat) {
    exists j: nat :: LostAt(es, j, b)
  }

  lemma LostAtFront(es: seq<Event>, j: nat, b: nat)
    requires es != []
    ensures var n := |es| - 1;
            LostAt(es, j, b) <==> LostAt(es[..n], j, b) || (j == n && es[n] == Lose(b) && b < |Run(es[..n]).log|)
  {
    if j < |es| - 1 {
      assert es[..|es| - 1][..j] == es[..j];
    }
  }

  lemma WasLostSnoc(es: seq<Event>, b: nat)
    requires es != []
    ensures var n := |es| - 1;
            WasLost(es, b) <==> WasLost(es[..n], b) || (es[n] == Lose(b) && b < |Run(es[..n]).log|)
  {
    hide LostAt, Run;
    var n := |es| - 1;
    if j: nat :| LostAt(es, j, b) {
      LostAtFront(es, j, b);
    }
    if j: nat :| LostAt(es[..n], j, b) {
      LostAtFront(es, j, b);
    }
    LostAtFront(es, n, b);
  }

  lemma NotLostBefore(es: seq<Event>, b: nat)
    requires b >= |Run(es).log|
    ensures !WasLost(es, b)
  {
    forall j: nat
      ensures !LostAt(es, j, b)
    {
      if j < |es| {
        LogGrows(es, j);
      }
    }
  }

  /** A line is left exactly if it was never lost. */
  lemma {:induction false} KeptIff(es: seq<Event>, b: nat)
    requires b < |Run(es).log|
    ensures Run(es).keep[b] <==> !WasLost(es, b)
  {
    hide WasLost, LastUuid, Entries, Contents;
    var front := es[..|es| - 1];
    WasLostSnoc(es, b);
    if b < |Run(front).log| {
      KeptIff(front, b);
    } else {
      NotLostBefore(front, b);
    }
  }

  lemma {:induction false} LogGrows(es: seq<Event>, j: nat)
    requires j <= |es|
    ensures |Run(es[..j]).log| <= |Run(es).log|
    decreases |es|
  {
    if j == |es| {
      assert es[..j] == es;
    } else {
      LogGrows(es[..|es| - 1], j);
      assert es[..|es| - 1][..j] == es[..j];
    }
  }

  /** What the writer's `Append` does to the contents. */
  lemma AppendedLine(f: File, r: Record)
    requires |f.keep| == |f.log|
    ensures Contents(Step(f, Append(r))) == Contents(f) + [Good(Entry(r.uuid, f.last, r.payload))]
  {}

  /** No id is empty or used twice. */
  ghost predicate FreshIds(es: seq<Event>) {
    && (forall i :: 0 <= i < |es| && es[i].Append? ==> es[i].r.uuid != "")
    && (forall i, j :: 0 <= i < j < |es| && es[i].Append? && es[j].Append? ==> es[i].r.uuid != es[j].r.uuid)
  }

  /** The writer links to nothing or to an entry it has written. */
  ghost predicate LinksBack(f: File) {
    f.last.Some? ==> exists i :: 0 <= i < |f.log| && f.log[i].uuid == f.last.value
  }

  lemma {:induction false} IdsUsed(es: seq<Event>, k: nat)
    requires k < |Run(es).log|
    ensures exists i :: 0 <= i < |es| && es[i].Append? && es[i].r.uuid == Run(es).log[k].uuid
  {
    var front, e := es[..|es| - 1], es[|es| - 1];
    if k < |Run(front).log| {
      IdsUsed(front, k);
      var i :| 0 <= i < |front| && front[i].Append? && front[i].r.uuid == Run(front).log[k].uuid;
      assert es[i] == front[i];
    } else {
      assert es[|es| - 1].Append?;
    }
  }

  lemma AppendWeaves(f: File, r: Record)
    requires |f.keep| == |f.log| && Woven(f.log) && LinksBack(f)
    requires r.uuid != "" && forall i :: 0 <= i < |f.log| ==> f.log[i].uuid != r.uuid
    ensures Woven(Step(f, Append(r)).log) && LinksBack(Step(f, Append(r)))
  {
    var log := Step(f, Append(r)).log;
    var n := |f.log|;
    assert log[n].uuid == r.uuid && forall i :: 0 <= i < n ==> log[i] == f.log[i];
    forall j | 0 <= j < |log| && log[j].parent.Some?
      ensures exists i :: 0 <= i < j && log[i].uuid == log[j].parent.value
    {
      if j < n {
        var i :| 0 <= i < j && f.log[i].uuid == f.log[j].parent.value;
        assert log[i].uuid == log[j].parent.value;
      } else {
        var i :| 0 <= i < n && f.log[i].uuid == f.last.value;
        assert log[i].uuid == log[j].parent.value;
      }
    }
  }

  lemma ReopenLinksBack(f: File)
    requires |f.keep| == |f.log|
    ensures LinksBack(Step(f, Reopen))
  {
    DamagedEntries(f.log, f.keep);
    SurvivorsAreThere(f.log, f.keep);
    var left := Entries(Contents(f));
    if left != [] {
      assert left[|left| - 1] in Survivors(f.log, f.keep);
    }
  }

  lemma {:induction false} SurvivorsAreThere(log: seq<Entry>, keep: seq<bool>)
    requires |keep| == |log|
    ensures forall e :: e in Survivors(log, keep) ==> exists i :: 0 <= i < |log| && log[i] == e
  {
    if log != [] {
      var n := |log| - 1;
      SurvivorsAreThere(log[..n], keep[..n]);
      forall e | e in Survivors(log, keep)
        ensures exists i :: 0 <= i < |log| && log[i] == e
      {
        if e in Survivors(log[..n], keep[..n]) {
          var i :| 0 <= i < n && log[..n][i] == e;
          assert log[i] == e;
        } else {
          assert log[n] == e;
        }
      }
    }
  }

  lemma {:induction false} EveryRunWeaves(es: seq<Event>)
    requires FreshIds(es)
    ensures Woven(Run(es).log) && LinksBack(Run(es))
  {
    if es != [] {
      var front, e := es[..|es| - 1], es[|es| - 1];
      EveryRunWeaves(front);
      var f := Run(front);
      match e {
        case Append(r) =>
          forall k | 0 <= k < |f.log|
            ensures f.log[k].uuid != r.uuid
          {
            IdsUsed(front, k);
          }
          AppendWeaves(f, r);
        case Lose(i) =>
        case Reopen => ReopenLinksBack(f);
      }
    }
  }

  /** Over every sequence of appends, losses of lines and new sessions: reading the file back yields the
      last entry left and what its links lead to, up to the first line lost. */
  lemma EveryRunRecovers(es: seq<Event>, b: nat)
    requires FreshIds(es)
    requires b < |Run(es).log| && Run(es).keep[b] && forall i :: b < i < |Run(es).log| ==> !Run(es).keep[i]
    ensures Woven(Run(es).log) && Chain(Entries(Contents(Run(es)))) == Recoverable(Run(es).log, Run(es).keep, b)
    ensures |Run(es).log| == |Records(es)|
    ensures forall i :: 0 <= i < |Records(es)| ==> Holds(Run(es).log[i], Records(es)[i])
  {
    RunHolds(es);
    EveryRunWeaves(es);
    WovenLogRecovery(Run(es).log, Run(es).keep, b);
  }
}
