/** The loop and the OpenAI translator together. */
module AgentOnTheWire {
  import opened Messages
  import opened React
  import opened ReactTheorems
  import opened AgentSteps
  import opened AgentRuns
  import OpenAi
  import opened Results

  /** Every reply of the world came through the translator's parser. */
  ghost predicate Parsed(codec: OpenAi.Codec, world: World) {
    forall t :: world(t).reply.Received? ==>
      exists text, calls :: OpenAi.ReadReply(codec, text, calls) == Ok(world(t).reply.content)
  }

  lemma ParsedWorldsAreClean(codec: OpenAi.Codec, world: World)
    requires Parsed(codec, world)
    ensures CleanReplies(world)
  {
    forall t | world(t).reply.Received? ensures NoResults(world(t).reply.content) {
      var text, calls :| OpenAi.ReadReply(codec, text, calls) == Ok(world(t).reply.content);
      OpenAi.ParsedRepliesAreClean(codec, text, calls);
    }
  }

  /** Whatever happens over a whole history, every request an agent makes can be
      built, and its wire list answers every tool call at once and in order. */
  lemma {:induction false} EveryRequestFollowsTheProtocol(codec: OpenAi.Codec, cfg: AgentConfig, st: AgentState, k: nat)
    requires Parsed(codec, cfg.world) && Reachable(cfg, st) && k < |st.log|
    requires st.log[k].Ran? && st.log[k].event.Sent?
    ensures var buffer := st.log[k].event.buffer;
      && (forall i | 0 <= i < |buffer| :: OpenAi.Translatable(buffer[i]))
      && (forall i | 0 <= i < |OpenAi.Conversation(buffer)| :: OpenAi.Translatable(OpenAi.Conversation(buffer)[i]))
      && OpenAi.AllFollowProtocol(OpenAi.Regroup(OpenAi.Wire(codec, OpenAi.Conversation(buffer))))
      && WellPaired(buffer)
      && OpenAi.Regroup(OpenAi.Wire(codec, OpenAi.Conversation(buffer))) == OpenAi.Turns(codec, buffer)
  {
    var buffer := st.log[k].event.buffer;
    ParsedWorldsAreClean(codec, cfg.world);
    EveryBufferIsWellPaired(cfg, st);
    OpenAi.WellPairedBuffersSurviveTheWire(codec, buffer);
    OpenAi.ConversationOnTheWire(codec, buffer);
  }
}
