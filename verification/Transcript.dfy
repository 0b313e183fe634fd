/** The session_messages table: append-only rows per session, flagged superseded when a
    tier-2 compaction removes them from the live conversation. */
module Transcript {
  import opened Messages
  import opened Compaction

  datatype Row = Row(seqNo: nat, message: Message, superseded: bool)

  /** The messages the model still sees, in order: neither superseded nor markers. */
  function Live(rows: seq<Row>): History {
    if rows == [] then []
    else
      var last := rows[|rows| - 1];
      Live(rows[..|rows| - 1]) + (if last.superseded || last.message.System? then [] else [last.message])
  }

  function MarkUpTo(rows: seq<Row>, maxSeq: nat): (marked: seq<Row>)
    ensures |marked| == |rows|
  {
    seq(|rows|, i requires 0 <= i < |rows| =>
      if rows[i].seqNo <= maxSeq then rows[i].(superseded := true) else rows[i])
  }

  /** Rows are numbered from 1 without passing the session's counter. */
  predicate Numbered(rows: seq<Row>, counter: nat) {
    forall i :: 0 <= i < |rows| ==> 0 < rows[i].seqNo <= counter
  }

  lemma LiveAppend(rows: seq<Row>, r: Row)
    ensures Live(rows + [r]) == Live(rows) + (if r.superseded || r.message.System? then [] else [r.message])
  {
  }

  /** No message was numbered past maxSeq, only markers. */
  predicate OnlyMarkersAfter(rows: seq<Row>, maxSeq: nat) {
    forall i :: 0 <= i < |rows| ==> rows[i].seqNo <= maxSeq || rows[i].message.System?
  }

  /** Marking everything up to a row leaves only that row's successors alive. */
  lemma {:induction false} LiveMarked(rows: seq<Row>, maxSeq: nat)
    requires OnlyMarkersAfter(rows, maxSeq)
    ensures Live(MarkUpTo(rows, maxSeq)) == []
  {
    if rows != [] {
      var shorter := rows[..|rows| - 1];
      LiveMarked(shorter, maxSeq);
      assert MarkUpTo(rows, maxSeq)[..|rows| - 1] == MarkUpTo(shorter, maxSeq);
    }
  }

  class TranscriptStore {
    /** Rows per session, in insertion order. A session inserts with increasing seq, so
        this is also the order by seq. */
    var rows: map<string, seq<Row>>

    constructor ()
      ensures rows == map[]
    {
      rows := map[];
    }

    function RowsOf(id: string): seq<Row>
      reads this
    {
      if id in rows then rows[id] else []
    }

    method AppendSessionMessage(id: string, seqNo: nat, m: Message)
      modifies this
      ensures rows == old(rows)[id := old(RowsOf(id)) + [Row(seqNo, m, false)]]
    {
      rows := rows[id := RowsOf(id) + [Row(seqNo, m, false)]];
    }

    method MarkSessionMessagesSuperseded(id: string, maxSeq: nat)
      modifies this
      ensures rows == if id in old(rows) then old(rows)[id := MarkUpTo(old(rows)[id], maxSeq)] else old(rows)
    {
      if id in rows {
        rows := rows[id := MarkUpTo(rows[id], maxSeq)];
      }
    }
  }

  /** The live rows mirror the history: message for message the same, except that a tool
      result may show a stub where tier 1 elided it. */
  ghost predicate Mirrors(h: History, live: History) {
    && |h| == |live|
    && forall i :: 0 <= i < |h| ==> h[i] == live[i] || (SameShape(h[i], live[i]) && h[i].Tool? && IsStub(h[i].content))
  }

  /** Eliding the history keeps the mirror; the rows keep the original texts. */
  lemma ElisionMirrors(h: History, live: History, keep: nat)
    requires Mirrors(h, live)
    ensures Mirrors(Elided(h, keep), live)
  {
  }
}
