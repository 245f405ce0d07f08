/**
 * The explanation gateway of Smart Study Buddy (src/study_buddy.py): it
 * resolves audience shorthand, builds the user prompt, asks the provider
 * client for an explanation, and keeps an in-memory log with one record
 * per `explain` call.
 */
module StudyBuddy {
  import opened Wrappers
  import opened Prompts
  import opened AiClient

  /** One entry of the conversation history; `explanation` is absent until attached. */
  datatype Record = Record(topic: string, audience: string, tone: Option<string>,
                           length: Option<string>, prompt: string, explanation: Option<string>)

  /** What `explain` hands back: the full text, or a stream not yet consumed. */
  datatype Reply = Text(text: string) | Chunks(stream: PendingStream)

  /** `AUDIENCE_LEVELS.get(audience, audience)`. */
  function ResolveAudience(audience: string): (r: string)
    ensures r !in AudienceLevels
    ensures r == audience <==> audience !in AudienceLevels
  {
    LabelsAreNotKeys();
    if audience in AudienceLevels then AudienceLevels[audience] else audience
  }

  /** No catalog label is itself a catalog key. */
  lemma LabelsAreNotKeys()
    ensures forall k :: k in AudienceLevels ==> AudienceLevels[k] !in AudienceLevels
  {
  }

  /**
   * A known key is replaced by its label, and any other string is kept
   * verbatim; either way the result is never a key, so resolving again
   * changes nothing.
   */
  lemma ResolveAudienceSpec(audience: string)
    ensures var r := ResolveAudience(audience);
      && (audience in AudienceLevels ==> r == AudienceLevels[audience] && r != audience)
      && (audience !in AudienceLevels ==> r == audience)
      && r !in AudienceLevels
      && ResolveAudience(r) == r
  {
  }

  /** The record `explain` appends for these inputs, with the given explanation. */
  function Logged(topic: string, audience: string, tone: Option<string>, length: Option<string>,
                  explanation: Option<string>): Record
  {
    var resolved := ResolveAudience(audience);
    Record(topic, resolved, tone, length, CreateUserPrompt(topic, resolved, tone, length), explanation)
  }

  /**
   * The logged record keeps the inputs, carries the resolved audience, and
   * its prompt mentions the topic and the resolved audience.
   */
  lemma LoggedRecord(topic: string, audience: string, tone: Option<string>, length: Option<string>,
                     explanation: Option<string>)
    ensures var rec := Logged(topic, audience, tone, length, explanation);
      && rec.topic == topic && rec.tone == tone && rec.length == length
      && rec.explanation == explanation
      && rec.audience == ResolveAudience(audience)
      && rec.audience !in AudienceLevels
      && Header(topic, rec.audience) <= rec.prompt
      && Contains(rec.prompt, "\nAudience: " + rec.audience)
  {
    var resolved := ResolveAudience(audience);
    ResolveAudienceSpec(audience);
    PromptStartsWithHeader(topic, resolved, tone, length);
    PromptMentionsHeader(topic, resolved, tone, length);
  }

  /**
   * A known key such as "child", with no tone and no length, logs a prompt
   * made of the header naming the key's label and the trailer alone.
   */
  lemma KnownAudiencePrompt(topic: string, key: string)
    requires key in AudienceLevels
    ensures Logged(topic, key, None, None, None).prompt == Header(topic, AudienceLevels[key]) + Trailer
  {
    PromptLayout(topic, AudienceLevels[key], None, None);
  }

  /**
   * An audience outside the catalog, such as "unknown_level", with a tone
   * and no length, logs a prompt with the audience verbatim, a tone line,
   * and no length line.
   */
  lemma UnknownAudienceWithTone(topic: string, audience: string, tone: string)
    requires audience !in AudienceLevels && tone != ""
    ensures Logged(topic, audience, Some(tone), None, None).prompt
         == Header(topic, audience) + "\nTone: " + tone + Trailer
  {
    PromptLayout(topic, audience, Some(tone), None);
  }

  /**
   * The reply `explain` returned for a logged record: its explanation when
   * one was attached, otherwise the pending stream for its prompt.
   */
  function ReplyOf(rec: Record, provider: Provider): Reply
  {
    match rec.explanation
    case Some(text) => Text(text)
    case None => Chunks(PendingStream(provider, SystemPrompt, rec.prompt))
  }

  /**
   * The explanation `explain` attaches to its record for a given outcome:
   * the generated text of a blocking success, and nothing for a stream or
   * a failure.
   */
  function Explained(r: Result<Reply, GenerationError>): Option<string>
  {
    if r.Success? && r.value.Text? then Some(r.value.text) else None
  }

  /** The result dictionary of `batch_explain`, filled in record order. */
  function Collected(records: seq<Record>, provider: Provider): (m: map<string, Reply>)
    ensures m.Keys == set rec | rec in records :: rec.topic
  {
    if records == [] then map[]
    else
      var front, last := records[..|records| - 1], records[|records| - 1];
      assert records == front + [last];
      assert (set rec | rec in records :: rec.topic)
          == (set rec | rec in front :: rec.topic) + {last.topic};
      Collected(front, provider)[last.topic := ReplyOf(last, provider)]
  }

  /** For a repeated topic the last record wins. */
  lemma {:induction false} CollectedLastWins(records: seq<Record>, provider: Provider, i: nat)
    requires i < |records|
    requires forall j :: i < j < |records| ==> records[j].topic != records[i].topic
    ensures records[i].topic in Collected(records, provider)
    ensures Collected(records, provider)[records[i].topic] == ReplyOf(records[i], provider)
  {
    var n := |records|;
    if i < n - 1 {
      var front := records[..n - 1];
      assert front[i] == records[i];
      CollectedLastWins(front, provider, i);
    }
  }

  /** Appending a record updates the result for its topic. */
  lemma CollectedSnoc(records: seq<Record>, rec: Record, provider: Provider)
    ensures Collected(records + [rec], provider) == Collected(records, provider)[rec.topic := ReplyOf(rec, provider)]
  {
  }

  /** Records made one per topic collect into a result keyed by exactly those topics. */
  lemma BatchKeys(records: seq<Record>, topics: seq<string>, audience: string,
                  tone: Option<string>, length: Option<string>, provider: Provider)
    requires |records| == |topics|
    requires LogsBatch(records, topics, audience, tone, length)
    ensures Collected(records, provider).Keys == set t | t in topics
  {
    forall t | t in topics ensures t in set rec | rec in records :: rec.topic {
      var k :| 0 <= k < |topics| && topics[k] == t;
      assert LogsCall(records[k], topics[k], audience, tone, length);
      assert records[k] in records;
    }
    forall rec | rec in records ensures rec.topic in topics {
      var k :| 0 <= k < |records| && records[k] == rec;
      assert LogsCall(records[k], topics[k], audience, tone, length);
    }
  }

  /** A record that `explain` appended for `topic` with these settings. */
  predicate LogsCall(rec: Record, topic: string, audience: string,
                     tone: Option<string>, length: Option<string>)
  {
    rec == Logged(topic, audience, tone, length, rec.explanation)
  }

  /**
   * The records are those `explain` appends for the first topics of the
   * list, one per topic and in list order.
   */
  predicate LogsBatch(records: seq<Record>, topics: seq<string>, audience: string,
                      tone: Option<string>, length: Option<string>)
  {
    && |records| <= |topics|
    && forall k {:trigger LogsCall(records[k], topics[k], audience, tone, length)} ::
         0 <= k < |records| ==> LogsCall(records[k], topics[k], audience, tone, length)
  }

  /** Logging the call for the next topic extends a batch log. */
  lemma LogsBatchSnoc(records: seq<Record>, rec: Record, topics: seq<string>, audience: string,
                      tone: Option<string>, length: Option<string>)
    requires LogsBatch(records, topics, audience, tone, length)
    requires |records| < |topics|
    requires LogsCall(rec, topics[|records|], audience, tone, length)
    ensures LogsBatch(records + [rec], topics, audience, tone, length)
  {
    var all := records + [rec];
    forall k | 0 <= k < |all| ensures LogsCall(all[k], topics[k], audience, tone, length) {
      if k < |records| {
        assert all[k] == records[k];
      } else {
        assert all[k] == rec;
      }
    }
  }

  /**
   * One step of a batch: appending the record of the next topic's call
   * keeps the earlier history, extends the batch log, and updates the
   * result for that topic.
   */
  lemma BatchStep(before: seq<Record>, rec: Record, start: nat, topics: seq<string>,
                  audience: string, tone: Option<string>, length: Option<string>,
                  results: map<string, Reply>, provider: Provider, stream: bool)
    requires start <= |before| < start + |topics|
    requires LogsBatch(before[start..], topics, audience, tone, length)
    requires LogsCall(rec, topics[|before| - start], audience, tone, length)
    requires results == Collected(before[start..], provider)
    requires AllExplained(before[start..], stream)
    ensures (before + [rec])[..start] == before[..start]
    ensures (before + [rec])[start..|before|] == before[start..]
    ensures LogsBatch((before + [rec])[start..], topics, audience, tone, length)
    ensures results[rec.topic := ReplyOf(rec, provider)] == Collected((before + [rec])[start..], provider)
    ensures (rec.explanation.Some? <==> !stream) ==> AllExplained((before + [rec])[start..], stream)
  {
    assert (before + [rec])[start..] == before[start..] + [rec];
    LogsBatchSnoc(before[start..], rec, topics, audience, tone, length);
    CollectedSnoc(before[start..], rec, provider);
  }

  /**
   * Every record carries an explanation exactly when the calls were not
   * streamed: a blocking `explain` attaches one, a streamed one never does.
   */
  predicate AllExplained(records: seq<Record>, stream: bool)
  {
    forall k :: 0 <= k < |records| ==> (records[k].explanation.Some? <==> !stream)
  }

  /**
   * A batch of blocking calls collects full texts, and a batch of streamed
   * calls collects pending streams.
   */
  lemma {:induction false} CollectedReplyKinds(records: seq<Record>, stream: bool, provider: Provider)
    requires AllExplained(records, stream)
    ensures forall t :: t in Collected(records, provider) ==>
      (Collected(records, provider)[t].Text? <==> !stream)
  {
    if records != [] {
      var front := records[..|records| - 1];
      assert AllExplained(front, stream) by {
        forall k | 0 <= k < |front| ensures (front[k].explanation.Some? <==> !stream) {
          assert front[k] == records[k];
        }
      }
      CollectedReplyKinds(front, stream, provider);
    }
  }

  class SmartStudyBuddy {
    const client: Client
    const systemPrompt := SystemPrompt
    var conversationHistory: seq<Record>

    /**
     * A new buddy talks to the named provider, with the model its client
     * chooses, and has an empty history.
     */
    constructor(provider: string, model: Option<string>, env: map<string, string>)
      requires ParseProvider(provider).Some?
      ensures client.provider == ParseProvider(provider).value
      ensures Given(model) ==> client.model == model.value
      ensures !Given(model) && "DEFAULT_MODEL" in env ==> client.model == env["DEFAULT_MODEL"]
      ensures !Given(model) && "DEFAULT_MODEL" !in env ==> client.model == "gpt-4o"
      ensures conversationHistory == []
    {
      client := new Client(provider, model, env);
      conversationHistory := [];
    }

    /**
     * Explains `topic` to `audience`. The history grows by one record at the
     * end, whatever happens; the record's explanation is attached only when
     * a blocking generation succeeds.
     */
    method Explain(topic: string, audience: string, tone: Option<string>, length: Option<string>,
                   stream: bool)
      returns (r: Result<Reply, GenerationError>)
      modifies this
      ensures conversationHistory == old(conversationHistory) + [Logged(topic, audience, tone, length, Explained(r))]
      ensures stream ==> r.Success? && r.value.Chunks?
      ensures !stream && r.Success? ==> r.value.Text?
      ensures r.Success? ==> r.value == ReplyOf(conversationHistory[|conversationHistory| - 1], client.provider)
      ensures r.Failure? ==> r.error.provider == client.provider
    {
      var resolved := ResolveAudience(audience);
      var userPrompt := CreateUserPrompt(topic, resolved, tone, length);
      conversationHistory := conversationHistory
        + [Record(topic, resolved, tone, length, userPrompt, None)];
      if stream {
        r := Success(Chunks(client.StreamExplanation(systemPrompt, userPrompt)));
      } else {
        var generated := client.GenerateExplanation(systemPrompt, userPrompt);
        match generated
        case Success(explanation) =>
          var last := |conversationHistory| - 1;
          conversationHistory := conversationHistory[last :=
            conversationHistory[last].(explanation := Some(explanation))];
          r := Success(Text(explanation));
        case Failure(e) =>
          r := Failure(e);
      }
    }

    /**
     * Explains each topic in list order for the same audience, tone and
     * length. On success the history grows by one record per topic and the
     * result maps every topic to its reply, the last one for a repeated
     * topic. A failed generation stops the batch after logging its record.
     */
    method BatchExplain(topics: seq<string>, audience: string, tone: Option<string>,
                        length: Option<string>, stream: bool)
      returns (r: Result<map<string, Reply>, GenerationError>)
      modifies this
      ensures |old(conversationHistory)| <= |conversationHistory| <= |old(conversationHistory)| + |topics|
      ensures conversationHistory[..|old(conversationHistory)|] == old(conversationHistory)
      ensures LogsBatch(conversationHistory[|old(conversationHistory)|..], topics, audience, tone, length)
      ensures r.Success? ==>
        && |conversationHistory| == |old(conversationHistory)| + |topics|
        && r.value == Collected(conversationHistory[|old(conversationHistory)|..], client.provider)
        && r.value.Keys == set t | t in topics
      ensures r.Success? ==>
        && AllExplained(conversationHistory[|old(conversationHistory)|..], stream)
        && forall t :: t in r.value ==> (r.value[t].Text? <==> !stream)
      ensures r.Failure? ==>
        && !stream && |old(conversationHistory)| < |conversationHistory|
        && conversationHistory[|conversationHistory| - 1].explanation == None
        && r.error.provider == client.provider
        && AllExplained(conversationHistory[|old(conversationHistory)|..|conversationHistory| - 1], stream)
    {
      ghost var start := |conversationHistory|;
      var results := map[];
      var i := 0;
      while i < |topics|
        invariant 0 <= i <= |topics|
        invariant |conversationHistory| == start + i
        invariant conversationHistory[..start] == old(conversationHistory)
        invariant LogsBatch(conversationHistory[start..], topics, audience, tone, length)
        invariant results == Collected(conversationHistory[start..], client.provider)
        invariant AllExplained(conversationHistory[start..], stream)
      {
        ghost var before := conversationHistory;
        var reply := Explain(topics[i], audience, tone, length, stream);
        ghost var rec := conversationHistory[start + i];
        assert conversationHistory == before + [rec];
        BatchStep(before, rec, start, topics, audience, tone, length, results, client.provider, stream);
        if reply.Failure? {
          return Failure(reply.error);
        }
        results := results[topics[i] := reply.value];
        i := i + 1;
      }
      ghost var added := conversationHistory[start..];
      BatchKeys(added, topics, audience, tone, length, client.provider);
      CollectedReplyKinds(added, stream, client.provider);
      r := Success(results);
    }

    /** The conversation history, oldest record first. */
    method GetHistory() returns (h: seq<Record>)
      ensures h == conversationHistory
    {
      h := conversationHistory;
    }

    /** Discards every record; clearing an empty history keeps it empty. */
    method ClearHistory()
      modifies this
      ensures conversationHistory == []
    {
      conversationHistory := [];
    }
  }
}
