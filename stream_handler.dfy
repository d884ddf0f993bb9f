/**
 * `handle_streaming` as the handler runs it: one loop over the upstream chunks, updating the
 * handler's variables and appending the events it yields, with the inner loops over a
 * chunk's tool calls, over the CFP parser's events and over the blocks to stop at the finish.
 * Each method is proved to compute the step functions of `Streaming`, whose properties are
 * proved there.
 */
module StreamHandler {
  import opened Wrappers
  import opened Text
  import opened Json
  import CfpAdapter
  import opened Streaming

  /** The loop over one chunk's `delta.tool_calls` on the direct path. */
  method ApplyToolDeltas(uuids: nat -> string, s0: StreamState, tcs: seq<ToolCallDelta>)
    returns (s: StreamState, out: seq<Event>)
    ensures Step(s, out) == ToolDeltas(uuids, s0, tcs)
  {
    s, out := s0, [];
    var i := 0;
    while i < |tcs|
      invariant 0 <= i <= |tcs|
      invariant Step(s, out) == ToolDeltas(uuids, s0, tcs[..i])
    {
      assert tcs[..i + 1][..i] == tcs[..i];
      var r := ToolDeltaStep(uuids, s, tcs[i]);
      s, out := r.next, out + r.events;
      i := i + 1;
    }
    assert tcs[..i] == tcs;
  }

  /** The loop over the events the CFP parser returns for one chunk. */
  method ApplyCfpEvents(env: Env, s0: StreamState, evs: seq<CfpEvent>) returns (s: StreamState, out: seq<Event>)
    ensures Step(s, out) == CfpEvents(env, s0, evs)
  {
    s, out := s0, [];
    var i := 0;
    while i < |evs|
      invariant 0 <= i <= |evs|
      invariant Step(s, out) == CfpEvents(env, s0, evs[..i])
    {
      assert evs[..i + 1][..i] == evs[..i];
      var r := CfpEventStep(env, s, evs[i]);
      s, out := r.next, out + r.events;
      i := i + 1;
    }
    assert evs[..i] == evs;
  }

  /** The finish's loop over `tool_calls_in_progress`: a stop for every started block. */
  method CloseToolBlocks(tools: seq<ToolState>, offset: nat) returns (out: seq<Event>)
    ensures out == ToolStops(tools, offset)
  {
    out := [];
    var i := 0;
    while i < |tools|
      invariant 0 <= i <= |tools|
      invariant out == ToolStops(tools[..i], offset)
    {
      assert tools[..i + 1][..i] == tools[..i];
      if tools[i].started {
        out := out + [BlockStop(tools[i].index + offset)];
      }
      i := i + 1;
    }
    assert tools[..i] == tools;
  }

  /** The finish's loop over `cfp_active_calls`: a stop for every recorded call. */
  method CloseCallBlocks(calls: seq<CfpCall>) returns (out: seq<Event>)
    ensures out == CallStops(calls)
  {
    out := [];
    var i := 0;
    while i < |calls|
      invariant 0 <= i <= |calls|
      invariant out == CallStops(calls[..i])
    {
      assert calls[..i + 1][..i] == calls[..i];
      out := out + [BlockStop(calls[i].index)];
      i := i + 1;
    }
    assert calls[..i] == calls;
  }

  /** The plain text of `parse_cfp_response(accumulated_text)`; its tool calls are dropped. */
  method PlainReply(env: Env, text: string) returns (plain: Option<string>)
    requires RepliesAsCfp(env)
    ensures plain == env.reply(text)
  {
    var calls;
    plain, calls := CfpAdapter.ParseCfpResponse(env.codec, text);
  }

  /** The plain text a CFP stream without calls sends at the finish, in the text block. */
  method SendPlainText(env: Env, s0: StreamState) returns (s: StreamState, out: seq<Event>)
    requires RepliesAsCfp(env)
    ensures Step(s, out) == PlainStep(env, s0)
  {
    s, out := s0, [];
    if s.cfpUsed && !s.cfpHasToolCalls && Strip(s.accumulated) != "" {
      var plain := PlainReply(env, s.accumulated);
      if plain.Some? && Strip(plain.value) != "" {
        var r := SendText(s, plain.value);
        s, out := r.next, r.events;
      }
    }
  }

  /**
   * The finish branch: every open block is stopped, a CFP stream without calls sends the
   * plain text `parse_cfp_response` finds, the text block is stopped, `message_delta`,
   * `message_stop` and `[DONE]` follow, and the stop is marked sent.
   */
  method FinishMessage(env: Env, s0: StreamState) returns (s: StreamState, out: seq<Event>)
    requires RepliesAsCfp(env)
    ensures Step(s, out) == FinishStream(env, s0)
  {
    var toolStops := CloseToolBlocks(s0.tools, Offset(s0));
    var callStops := CloseCallBlocks(s0.cfpCalls);
    var plain;
    s, plain := SendPlainText(env, s0);
    out := toolStops + callStops + plain;
    ghost var b := FinishBody(env, s0);
    if s.textSent && !s.textClosed {
      s := s.(textClosed := true);
      out := out + [BlockStop(0)];
    } else {
      assert out == out + [];
    }
    assert Step(s, out) == b;
    out := out + Tail(StopReasonOf(s.finish, s.cfpHasToolCalls, s.tools != []), s.outputTokens);
    s := s.(stopSent := true);
  }

  /** The body of the `async for`: one chunk, with the finish branch when its finish reason is set. */
  method ProcessChunk(env: Env, s0: StreamState, chunk: Chunk) returns (s: StreamState, out: seq<Event>)
    requires RepliesAsCfp(env)
    ensures Step(s, out) == ChunkStep(env, s0, chunk)
  {
    s, out := s0, [];
    if chunk.completionTokens.Some? {
      s := s.(outputTokens := chunk.completionTokens.value);
    }
    if chunk.choice.Some? {
      var choice := chunk.choice.value;
      var d := choice.delta;
      s := s.(finish := choice.finishReason);
      assert s == Received(s0, chunk);
      if d.toolCalls != [] && !s.cfpUsed {
        s, out := ApplyToolDeltas(env.uuids, s, d.toolCalls);
        s := s.(finish := Some("tool_use"));
      } else if s.cfpUsed && d.content.Some? && d.content.value != "" {
        s := s.(accumulated := s.accumulated + d.content.value);
        match chunk.cfpEvents {
          case Some(evs) =>
            s, out := ApplyCfpEvents(env, s, evs);
          case None =>
            if !s.cfpHasToolCalls {
              var r := SendText(s, d.content.value);
              s, out := r.next, r.events;
            }
        }
      } else if !s.cfpUsed && d.content.Some? && d.content.value != "" && d.toolCalls == [] {
        s := s.(accumulated := s.accumulated + d.content.value);
        if s.toolIndex.None? && !s.textClosed {
          var r := SendText(s, d.content.value);
          s, out := r.next, r.events;
        }
      }
      assert Step(s, out) == ChunkBody(env, Received(s0, chunk), d, chunk.cfpEvents);
      if ShouldFinish(s) {
        var fin, closing := FinishMessage(env, s);
        s, out := fin, out + closing;
      }
    }
  }

  /** The `async for` over the chunks, left by the `return` of the finish branch. */
  method RunChunks(env: Env, cfpUsed: bool, chunks: seq<Chunk>) returns (s: StreamState, body: seq<Event>)
    requires RepliesAsCfp(env)
    ensures Step(s, body) == Run(env, Initial(cfpUsed), chunks)
  {
    s, body := Initial(cfpUsed), [];
    var i := 0;
    while i < |chunks| && !s.stopSent
      invariant 0 <= i <= |chunks|
      invariant Step(s, body) == Run(env, Initial(cfpUsed), chunks[..i])
    {
      assert chunks[..i + 1][..i] == chunks[..i];
      var next, evs := ProcessChunk(env, s, chunks[i]);
      s, body := next, body + evs;
      i := i + 1;
    }
    if s.stopSent {
      RunAfterStop(env, Initial(cfpUsed), chunks[..i], chunks[i..]);
      assert chunks[..i] + chunks[i..] == chunks;
    } else {
      assert chunks[..i] == chunks;
    }
  }

  /**
   * `handle_streaming`: `message_start`, then the chunks until one sends the stop, then, when
   * none did, the closing events of the last finish reason, or those of an `error` when the
   * upstream raised.
   */
  method HandleStreaming(env: Env, cfpUsed: bool, messageId: string, model: string, chunks: seq<Chunk>,
                         upstreamFails: bool) returns (out: seq<Event>)
    requires RepliesAsCfp(env)
    ensures out == Stream(env, cfpUsed, messageId, model, chunks, upstreamFails)
  {
    out := [MessageStart(messageId, model)];
    var s, body := RunChunks(env, cfpUsed, chunks);
    out := out + body;
    if !s.stopSent {
      if upstreamFails {
        out := out + Tail("error", 0);
      } else {
        out := out + Tail(StopReasonOf(s.finish, s.cfpHasToolCalls, s.tools != []), s.outputTokens);
      }
    }
  }
}
