/** From a run's output to its findings: what the writer lost, the findings admit. */
module LogPipeline {
  import opened RunLog
  import opened Problems
  import OutputSink

  /**
   Whatever the interleaving of producer, writer and host: a reader takes some bytes of the log file, later the
   descriptor, and parses. If the findings are called neither limited nor partial, they are the findings of the
   complete output observed by then.
   */
  lemma UnflaggedFindingsAreComplete(
      g: Grammar, limit: nat, disabled: bool, before: seq<OutputSink.Step>, after: seq<OutputSink.Step>, parsed: nat, run: nat, generation: nat)
    requires parsed <= |OutputSink.Run(OutputSink.Fresh(limit, disabled), before).log.file|
    ensures var early := OutputSink.Run(OutputSink.Fresh(limit, disabled), before);
      var late := OutputSink.Run(early, after);
      var d := OutputSink.Descriptor(late, run, generation);
      var findings := Finished(g, Fed(g, EMPTY, early.log.file[..parsed], 0), parsed, d);
      !findings.limited && !findings.partial ==> findings == Finished(g, Fed(g, EMPTY, late.feed.stream, 0), |late.feed.stream|, d)
  {
    OutputSink.LossIsVisible(limit, disabled, before, after, parsed, run, generation);
  }
}
