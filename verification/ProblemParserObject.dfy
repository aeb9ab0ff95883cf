/** The problem parser as the object that the host feeds with chunks of a log. */
module ProblemParserObject {
  import opened Faults
  import opened ControlStripper
  import opened RunLog
  import opened Problems

  lemma FedOne(g: Grammar, p: Parser, bytes: seq<Byte>, index: nat, offset: nat)
    requires index < |bytes|
    ensures Fed(g, p, bytes[index..], offset + index)
         == Fed(g, FedByte(g, p, bytes[index], offset + index + 1), bytes[index + 1..], offset + index + 1)
  {
    var rest := bytes[index..];
    assert rest[0] == bytes[index] && rest[1..] == bytes[index + 1..];
  }

  class ProblemParser {
    const g: Grammar
    const run: nat
    const generation: nat
    const controls: Controls
    var found: Found
    var partial: bool
    var line: seq<Byte>
    var lineOffset: nat
    var nextOffset: nat
    var lineLimited: bool
    var ambiguous: bool

    ghost function State(): Parser
      reads this, controls
    {
      Parser(found, partial, line, lineOffset, lineLimited, ambiguous, controls.state, controls.removed)
    }

    constructor (g: Grammar, run: nat, generation: nat)
      ensures State() == EMPTY && nextOffset == 0 && this.g == g && this.run == run && this.generation == generation
      ensures fresh(controls) && Bounded(State())
    {
      this.g, this.run, this.generation := g, run, generation;
      controls := new Controls();
      found := Found([], false, 0, None, None, None);
      partial, line, lineOffset, nextOffset, lineLimited, ambiguous := false, [], 0, 0, false, false;
    }

    /** `push`: a refused chunk changes nothing. */
    method Push(c: Chunk) returns (ok: bool)
      modifies this, controls
      ensures ok <==> Accepts(run, generation, old(nextOffset), c)
      ensures State() == if ok then Fed(g, old(State()), c.data.value, old(nextOffset)) else old(State())
      ensures nextOffset == if ok then c.next else old(nextOffset)
      ensures old(Bounded(State())) ==> Bounded(State())
    {
      if Bounded(State()) && c.data.Some? {
        FedKeepsBounds(g, State(), c.data.value, nextOffset);
      }
      if c.d.run != run || c.d.generation != generation || c.offset != nextOffset || c.encoded > MAX_ENCODED {
        return false;
      }
      if c.data.None? || c.offset + |c.data.value| != c.next || c.next > c.d.bytes {
        return false;
      }
      FeedAll(c.data.value, c.offset);
      nextOffset := c.next;
      ok := true;
    }

    /** The byte loop. */
    method FeedAll(bytes: seq<Byte>, offset: nat)
      modifies this, controls
      ensures State() == Fed(g, old(State()), bytes, offset) && nextOffset == old(nextOffset)
    {
      ghost var goal := Fed(g, State(), bytes, offset);
      var index := 0;
      assert bytes[0..] == bytes;
      while index < |bytes|
        invariant 0 <= index <= |bytes| && nextOffset == old(nextOffset)
        invariant Fed(g, State(), bytes[index..], offset + index) == goal
      {
        FedOne(g, State(), bytes, index, offset);
        FeedByte(bytes[index], offset + index + 1);
        index := index + 1;
      }
      assert bytes[index..] == [];
    }

    /** The body of the byte loop; `end` is where the byte ends in the log. */
    method FeedByte(b: Byte, end: nat)
      modifies this, controls
      ensures State() == FedByte(g, old(State()), b, end) && nextOffset == old(nextOffset)
    {
      if controls.state.Plain? && (b < 0x20 || b == 0x7f) && b != LF && b != CR && b != TAB && b != ESC {
        ambiguous := true;
      }
      var out := controls.Consume(b);
      if out.Some? {
        if out.value == LF {
          CompleteLine();
          lineOffset := end;
        } else if |line| < MAX_LINE {
          line := line + [out.value];
        } else {
          lineLimited := true;
          found := found.(limited := true);
        }
      }
    }

    method CompleteLine()
      modifies this, controls
      ensures State() == Completed(g, old(State())) && nextOffset == old(nextOffset)
    {
      var bytes := line;
      line := [];
      var text := g.decode(bytes);
      var hidden := text.Some? && exists c :: c in text.value && Forbidden(c);
      if hidden {
        controls.removed := true;
      }
      if lineLimited || ambiguous || hidden || text.None? {
        partial := true;
        found := found.(frame := None, uic := None, last := None);
      } else {
        found := Parsed(g, found, Clip(text.value, MAX_LINE), lineOffset);
      }
      lineLimited, ambiguous := false, false;
    }

    /** `finish`, unless the log is another one by now. */
    method Finish(d: LogDescriptor) returns (r: Option<ProblemSet>)
      modifies this, controls
      ensures r == if d.run == run && d.generation == generation then Some(Finished(g, old(State()), old(nextOffset), d)) else None
      ensures old(Bounded(State())) ==> Bounded(State())
    {
      if Bounded(State()) {
        CompletedKeepsBounds(g, State());
      }
      if d.run != run || d.generation != generation {
        return None;
      }
      CompleteLine();
      partial := partial || nextOffset < d.bytes || controls.state != Plain
                 || d.state in {Disabled, Recording, WriteFailed, Expired, Partial};
      found := found.(limited := found.limited || d.state.Limited? || d.observed > d.bytes);
      r := Some(ProblemSet(found.problems, nextOffset, found.limited, partial, controls.removed));
    }
  }
}
