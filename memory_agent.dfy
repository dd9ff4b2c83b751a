/** The memory-aware agent: recall before answering, write the exchange back
    afterwards. The language-model chain is the abstract `Completion`. */
module MemoryAgent {
  import opened Wrappers
  import opened Text
  import opened MemoryTypes
  import opened ChromaMemory

  /** The completion call: from the goal, the formatted memories and the
      context, the model's response, or None when the call raises. */
  type Completion = (string, string, string) -> Option<string>

  /** The similarity threshold of the agent's own recall, and how many
      memories `run_agent` recalls by default. */
  const RecallThreshold: real := 0.3
  const DefaultRecallLimit: nat := 5

  const NoMemoriesText: string := "No relevant memories found."

  /** The importance each convenience adder stores when the caller gives none. */
  const ObservationImportance: real := 0.5
  const LearningImportance: real := 0.8
  const ReflectionImportance: real := 0.7

  // ---------------------------------------------------------------------
  // _format_memories

  /** One bullet line; `scoreText` renders the importance with two decimals. */
  function MemoryLine(m: MemoryEntry, scoreText: real -> string): string
    requires m.importanceScore.Some?
  {
    "- [" + Value(m.memoryType) + "] " + m.content + " (Importance: " + scoreText(m.importanceScore.value) + ")"
  }

  predicate Scored(mems: seq<MemoryEntry>) {
    forall m :: m in mems ==> m.importanceScore.Some?
  }

  function MemoryLines(mems: seq<MemoryEntry>, scoreText: real -> string): (lines: seq<string>)
    requires Scored(mems)
    ensures |lines| == |mems|
  {
    seq(|mems|, i requires 0 <= i < |mems| => MemoryLine(mems[i], scoreText))
  }

  /** The sentinel for no memories, else one line per memory joined by newlines. */
  function FormatMemories(mems: seq<MemoryEntry>, scoreText: real -> string): (s: string)
    requires Scored(mems)
    ensures s == NoMemoriesText <==> mems == []
  {
    if mems == [] then NoMemoriesText
    else
      var lines := MemoryLines(mems, scoreText);
      assert lines[0][0] == '-';
      JoinStartsWith(lines, "\n");
      Join(lines, "\n")
  }

  /** A non-empty join starts with its first part. */
  lemma {:induction false} JoinStartsWith(parts: seq<string>, sep: string)
    requires parts != []
    ensures parts[0] <= Join(parts, sep)
  {
  }

  /** Each further memory adds exactly its own line at the end, after a
      newline: the lines follow the input order. */
  lemma FormatMemoriesAppend(mems: seq<MemoryEntry>, m: MemoryEntry, scoreText: real -> string)
    requires Scored(mems) && mems != [] && m.importanceScore.Some?
    ensures Scored(mems + [m])
    ensures FormatMemories(mems + [m], scoreText)
         == FormatMemories(mems, scoreText) + "\n" + MemoryLine(m, scoreText)
  {
    var lines := MemoryLines(mems, scoreText);
    assert MemoryLines(mems + [m], scoreText) == lines + [MemoryLine(m, scoreText)];
    JoinSnoc(lines, MemoryLine(m, scoreText), "\n");
  }

  /** A single memory is formatted as its own line alone. */
  lemma FormatSingleMemory(m: MemoryEntry, scoreText: real -> string)
    requires m.importanceScore.Some?
    ensures FormatMemories([m], scoreText) == MemoryLine(m, scoreText)
  {
    assert MemoryLines([m], scoreText) == [MemoryLine(m, scoreText)];
  }

  // ---------------------------------------------------------------------
  // _store_interaction

  function GoalMetadata(context: string): Metadata {
    map["context" := Str(context)]
  }

  function ActionMetadata(goal: string, context: string): Metadata {
    map["goal" := Str(goal), "context" := Str(context)]
  }

  /** The two records one exchange writes: the goal, then the response. */
  function InteractionRecords(goalId: string, actionId: string, goal: string, response: string,
                              context: string, now: string): seq<Record>
  {
    [NewRecord(goalId, goal, Goal, now, None, GoalMetadata(context)),
     NewRecord(actionId, response, Action, now, None, ActionMetadata(goal, context))]
  }

  /** Both records of an exchange are storable and read back as a goal and
      an action carrying the exchange's text, context and default importance. */
  lemma InteractionReadsBack(goalId: string, actionId: string, goal: string, response: string,
                             context: string, now: string)
    ensures var recs := InteractionRecords(goalId, actionId, goal, response, context, now);
      && Storable(recs[0].metadata) && Storable(recs[1].metadata)
      && ToEntry(recs[0]) == Ok(MemoryEntry(goalId, goal, Goal, now, Some(GoalMetadata(context)), None, Some(0.5)))
      && ToEntry(recs[1]) == Ok(MemoryEntry(actionId, response, Action, now,
                                            Some(ActionMetadata(goal, context)), None, Some(0.5)))
  {
    StoredRecordReadsBack(goalId, goal, Goal, now, None, GoalMetadata(context));
    StoredRecordReadsBack(actionId, response, Action, now, None, ActionMetadata(goal, context));
    StringMetadataStorable(Goal, now, None, GoalMetadata(context));
    StringMetadataStorable(Action, now, None, ActionMetadata(goal, context));
  }

  /** Metadata whose values are all strings passes the store's check. */
  lemma StringMetadataStorable(t: MemoryType, now: string, score: Option<real>, extra: Metadata)
    requires forall k :: k in extra ==> extra[k].Str?
    ensures Storable(AssembleMetadata(t, now, score, extra))
  {
  }

  /** _store_interaction from the store's state before it: the goal's
      write, then the response's unless the goal's raised. */
  function Interact(reachable: nat -> bool, uuid4: nat -> string, goal: string, response: string, context: string,
                    now: string, m: Memory): Effect<Outcome<Failure>>
  {
    var g := Add(reachable, uuid4, goal, Goal, GoalMetadata(context), None, now, m);
    if g.value.Err? then Effect(Fail(g.value.error), g.memory)
    else
      var a := Add(reachable, uuid4, response, Action, ActionMetadata(goal, context), None, now, g.memory);
      Effect(if a.value.Err? then Fail(a.value.error) else Pass, a.memory)
  }

  /** An exchange written back in one piece: exactly the writes before the
      first unanswered one are stored, an id is drawn for each write
      attempted, and a failure is the store's unavailability. */
  lemma InteractLanded(reachable: nat -> bool, uuid4: nat -> string, goal: string, response: string,
                       context: string, now: string, m: Memory)
    ensures var i := Interact(reachable, uuid4, goal, response, context, now, m);
            var k := Landed(reachable, m.calls, 2);
            var n := Min(k + 1, 2);
      && (i.value == Pass <==> k == 2)
      && (i.value != Pass ==> i.value == Fail(BackendUnavailable))
      && i.memory == Memory(m.records + InteractionRecords(uuid4(m.draws), uuid4(m.draws + 1), goal, response,
                                                           context, now)[..k],
                            m.draws + n, m.calls + 2 * n)
  {
    var recs := InteractionRecords(uuid4(m.draws), uuid4(m.draws + 1), goal, response, context, now);
    LandedTwo(reachable, m.calls);
    StringMetadataStorable(Goal, now, None, GoalMetadata(context));
    StringMetadataStorable(Action, now, None, ActionMetadata(goal, context));
    var k := Landed(reachable, m.calls, 2);
    if k == 0 {
      assert recs[..k] == [];
    } else if k == 1 {
      assert recs[..k] == [recs[0]];
    } else {
      assert recs[..k] == [recs[0]] + [recs[1]];
    }
  }

  /** What run_agent answers once the store has answered the recall: the
      recall's error, a failed completion, or the completion's response. */
  function Answer(goal: string, context: string, limit: nat, nearest: Ranker, complete: Completion,
                  scoreText: real -> string, records: seq<Record>): Result<string, Failure>
  {
    var found := SearchResult(nearest(goal, None, limit, records), RecallThreshold);
    if found.Err? then Err(found.error)
    else
      match complete(goal, FormatMemories(found.value, scoreText), context)
      case None => Err(CompletionFailed)
      case Some(response) => Ok(response)
  }

  /** run_agent from the store's state before it: the recall and the
      completion first, then the exchange written back; the completion's
      response is answered once both writes are stored. */
  function Exchange(reachable: nat -> bool, uuid4: nat -> string, goal: string, context: string, limit: nat,
                    nearest: Ranker, complete: Completion, scoreText: real -> string, now: string, m: Memory)
    : Effect<Result<string, Failure>>
  {
    Reply(reachable, uuid4, goal, Answer(goal, context, limit, nearest, complete, scoreText, m.records), context,
          now, m)
  }

  /** run_agent around a given answer: the recall's requests, then, if the
      answer is a response, the exchange written back. */
  function Reply(reachable: nat -> bool, uuid4: nat -> string, goal: string, answer: Result<string, Failure>,
                 context: string, now: string, m: Memory): Effect<Result<string, Failure>>
  {
    var recalled := Memory(m.records, m.draws, m.calls + 2);
    if !Answered(reachable, m.calls) then Effect(Err(BackendUnavailable), recalled)
    else
      match answer
      case Err(e) => Effect(Err(e), recalled)
      case Ok(response) =>
        var i := Interact(reachable, uuid4, goal, response, context, now, recalled);
        Effect(if i.value.Fail? then Err(i.value.error) else answer, i.memory)
  }

  /** The effect of run_agent for any answer: an unanswered recall or a
      failed answer raises with nothing written; otherwise the writes before
      the first unanswered one land, and the answer is returned once both do. */
  lemma ReplyLanded(reachable: nat -> bool, uuid4: nat -> string, goal: string, answer: Result<string, Failure>,
                    context: string, now: string, m: Memory)
    ensures !Answered(reachable, m.calls) || answer.Err? ==>
      Reply(reachable, uuid4, goal, answer, context, now, m)
        == Effect(if Answered(reachable, m.calls) then answer else Err(BackendUnavailable),
                  Memory(m.records, m.draws, m.calls + 2))
    ensures var k := Landed(reachable, m.calls + 2, 2);
            var n := Min(k + 1, 2);
      Answered(reachable, m.calls) && answer.Ok? ==>
        Reply(reachable, uuid4, goal, answer, context, now, m)
          == Effect(if k == 2 then answer else Err(BackendUnavailable),
                    Memory(m.records + InteractionRecords(uuid4(m.draws), uuid4(m.draws + 1), goal, answer.value,
                                                          context, now)[..k],
                           m.draws + n, m.calls + 2 + 2 * n))
  {
    if Answered(reachable, m.calls) && answer.Ok? {
      InteractLanded(reachable, uuid4, goal, answer.value, context, now, Memory(m.records, m.draws, m.calls + 2));
    }
  }

  /** run_agent in one piece: a failed recall or completion raises before
      anything is written; otherwise the response is answered unchanged
      once the goal and the response are stored, and the first unanswered
      write raises after the writes before it. */
  lemma ExchangeLanded(reachable: nat -> bool, uuid4: nat -> string, goal: string, context: string, limit: nat,
                       nearest: Ranker, complete: Completion, scoreText: real -> string, now: string, m: Memory)
    ensures var answer := Answer(goal, context, limit, nearest, complete, scoreText, m.records);
      !Answered(reachable, m.calls) || answer.Err? ==>
        Exchange(reachable, uuid4, goal, context, limit, nearest, complete, scoreText, now, m)
          == Effect(if Answered(reachable, m.calls) then answer else Err(BackendUnavailable),
                    Memory(m.records, m.draws, m.calls + 2))
    ensures var answer := Answer(goal, context, limit, nearest, complete, scoreText, m.records);
            var k := Landed(reachable, m.calls + 2, 2);
            var n := Min(k + 1, 2);
      Answered(reachable, m.calls) && answer.Ok? ==>
        Exchange(reachable, uuid4, goal, context, limit, nearest, complete, scoreText, now, m)
          == Effect(if k == 2 then answer else Err(BackendUnavailable),
                    Memory(m.records + InteractionRecords(uuid4(m.draws), uuid4(m.draws + 1), goal, answer.value,
                                                          context, now)[..k],
                           m.draws + n, m.calls + 2 + 2 * n))
  {
    ReplyLanded(reachable, uuid4, goal, Answer(goal, context, limit, nearest, complete, scoreText, m.records),
                context, now, m);
  }

  /** run_agent only appends to the store's records. */
  lemma ExchangeAppends(reachable: nat -> bool, uuid4: nat -> string, goal: string, context: string, limit: nat,
                        nearest: Ranker, complete: Completion, scoreText: real -> string, now: string, m: Memory)
    ensures m.records <= Exchange(reachable, uuid4, goal, context, limit, nearest, complete, scoreText, now, m).memory.records
  {
    ExchangeLanded(reachable, uuid4, goal, context, limit, nearest, complete, scoreText, now, m);
  }

  /** run_agent when the recall and both writes are answered: the
      completion's response, with the goal and the response stored. */
  lemma ExchangeAnswered(reachable: nat -> bool, uuid4: nat -> string, goal: string, context: string, limit: nat,
                         nearest: Ranker, complete: Completion, scoreText: real -> string, now: string, m: Memory)
    requires Answered(reachable, m.calls) && Landed(reachable, m.calls + 2, 2) == 2
    requires Answer(goal, context, limit, nearest, complete, scoreText, m.records).Ok?
    ensures var answer := Answer(goal, context, limit, nearest, complete, scoreText, m.records);
      Exchange(reachable, uuid4, goal, context, limit, nearest, complete, scoreText, now, m)
        == Effect(answer, Memory(m.records + InteractionRecords(uuid4(m.draws), uuid4(m.draws + 1), goal, answer.value,
                                                                context, now),
                                 m.draws + 2, m.calls + 6))
  {
    var answer := Answer(goal, context, limit, nearest, complete, scoreText, m.records);
    var recs := InteractionRecords(uuid4(m.draws), uuid4(m.draws + 1), goal, answer.value, context, now);
    InteractLanded(reachable, uuid4, goal, answer.value, context, now, m.(calls := m.calls + 2));
    assert recs[..2] == recs;
  }

  /** add_observation, add_learning and add_reflection from the store's
      state before them: add_memory's write of the adder's kind, its id
      dropped. */
  function Note(reachable: nat -> bool, uuid4: nat -> string, text: string, t: MemoryType, score: real,
                extra: Metadata, now: string, m: Memory): Effect<Outcome<Failure>>
  {
    var a := Add(reachable, uuid4, text, t, extra, Some(score), now, m);
    Effect(if a.value.Ok? then Pass else Fail(a.value.error), a.memory)
  }

  /** An adder in one piece: the record of the adder's kind with the given
      importance is appended exactly when the store accepts its metadata
      and both requests are answered, and nothing else is written. */
  lemma NoteSpec(reachable: nat -> bool, uuid4: nat -> string, text: string, t: MemoryType, score: real,
                 extra: Metadata, now: string, m: Memory)
    ensures var n := Note(reachable, uuid4, text, t, score, extra, now, m);
            var rec := NewRecord(uuid4(m.draws), text, t, now, Some(score), extra);
      && (n.value == Pass <==> Storable(rec.metadata) && Answered(reachable, m.calls))
      && (n.value == Fail(InvalidMetadata) <==> reachable(m.calls) && !Storable(rec.metadata))
      && (n.value.Fail? ==> n.value.error in {InvalidMetadata, BackendUnavailable})
      && n.memory == Memory(m.records + (if n.value == Pass then [rec] else []), m.draws + 1, m.calls + 2)
  {
    AddSpec(reachable, uuid4, text, t, extra, Some(score), now, m);
  }

  class MemoryAwareAgent {
    const store: MemoryManager

    constructor (store: MemoryManager)
      ensures this.store == store
    {
      this.store := store;
    }

    /** _get_relevant_memories: recall at the agent's low threshold, no kind filter. */
    method GetRelevantMemories(query: string, nearest: Ranker, limit: nat := DefaultRecallLimit)
      returns (r: Result<seq<MemoryEntry>, Failure>)
      modifies store`calls
      ensures store.calls == old(store.calls) + 2
      ensures r == if Answered(store.reachable, old(store.calls))
                   then SearchResult(nearest(query, None, limit, store.records), RecallThreshold)
                   else Err(BackendUnavailable)
    {
      r := store.SearchMemories(query, nearest, None, limit, RecallThreshold);
    }

    /** search_memories: recall at the store's default threshold. */
    method SearchMemories(query: string, nearest: Ranker, filter: Option<MemoryType> := None,
                          limit: nat := DefaultSearchLimit)
      returns (r: Result<seq<MemoryEntry>, Failure>)
      modifies store`calls
      ensures store.calls == old(store.calls) + 2
      ensures r == if Answered(store.reachable, old(store.calls))
                   then SearchResult(nearest(query, filter, limit, store.records), DefaultSimilarityThreshold)
                   else Err(BackendUnavailable)
    {
      r := store.SearchMemories(query, nearest, filter, limit);
    }

    /** _store_interaction: the goal, then the response. An add that raises
        ends the call, so exactly the writes before the first unanswered
        one are stored, and an id is drawn for each write attempted. */
    method StoreInteraction(goal: string, response: string, now: string, context: string := "")
      returns (r: Outcome<Failure>)
      requires store.Valid()
      modifies store
      ensures store.Valid()
      ensures Effect(r, store.Snapshot()) == Interact(store.reachable, store.uuid4, goal, response, context, now,
                                                      old(store.Snapshot()))
    {
      var g := store.AddMemory(goal, Goal, GoalMetadata(context), None, now);
      if g.Err? {
        return Fail(g.error);
      }
      var a := store.AddMemory(response, Action, ActionMetadata(goal, context), None, now);
      r := if a.Err? then Fail(a.error) else Pass;
    }

    /** run_agent: recall, complete, write the exchange back, and return the
        response unchanged. A failed recall or completion raises before
        anything is written; a failed write raises after the writes before
        it were stored. */
    method RunAgent(goal: string, nearest: Ranker, complete: Completion, scoreText: real -> string, now: string,
                    context: string := "", limit: nat := DefaultRecallLimit)
      returns (r: Result<string, Failure>)
      requires store.Valid()
      modifies store
      ensures store.Valid()
      ensures Effect(r, store.Snapshot()) == Exchange(store.reachable, store.uuid4, goal, context, limit, nearest,
                                                      complete, scoreText, now, old(store.Snapshot()))
    {
      ghost var before := store.Snapshot();
      ghost var answer := Answer(goal, context, limit, nearest, complete, scoreText, before.records);
      ReplyLanded(store.reachable, store.uuid4, goal, answer, context, now, before);
      var found := GetRelevantMemories(goal, nearest, limit);
      assert store.Snapshot() == Memory(before.records, before.draws, before.calls + 2);
      if found.Err? {
        return Err(found.error);
      }
      var memoriesText := FormatMemories(found.value, scoreText);
      var response := complete(goal, memoriesText, context);
      if response.None? {
        assert answer == Err(CompletionFailed);
        return Err(CompletionFailed);
      }
      assert answer == Ok(response.value);
      var stored := StoreInteraction(goal, response.value, now, context);
      if stored.Fail? {
        return Err(stored.error);
      }
      r := Ok(response.value);
    }

    /** add_observation, add_learning and add_reflection: one record of the
        adder's kind with the given importance and metadata; the store's
        failure is passed on, and nothing is returned on success. */
    method AddObservation(observation: string, now: string, score: real := ObservationImportance, extra: Metadata := map[])
      returns (r: Outcome<Failure>)
      requires store.Valid()
      modifies store
      ensures store.Valid()
      ensures Effect(r, store.Snapshot()) == Note(store.reachable, store.uuid4, observation, Observation, score, extra, now,
                                                  old(store.Snapshot()))
    {
      var id := store.AddMemory(observation, Observation, extra, Some(score), now);
      r := if id.Ok? then Pass else Fail(id.error);
    }

    method AddLearning(learning: string, now: string, score: real := LearningImportance, extra: Metadata := map[])
      returns (r: Outcome<Failure>)
      requires store.Valid()
      modifies store
      ensures store.Valid()
      ensures Effect(r, store.Snapshot()) == Note(store.reachable, store.uuid4, learning, Learning, score, extra, now,
                                                  old(store.Snapshot()))
    {
      var id := store.AddMemory(learning, Learning, extra, Some(score), now);
      r := if id.Ok? then Pass else Fail(id.error);
    }

    method AddReflection(reflection: string, now: string, score: real := ReflectionImportance, extra: Metadata := map[])
      returns (r: Outcome<Failure>)
      requires store.Valid()
      modifies store
      ensures store.Valid()
      ensures Effect(r, store.Snapshot()) == Note(store.reachable, store.uuid4, reflection, Reflection, score, extra, now,
                                                  old(store.Snapshot()))
    {
      var id := store.AddMemory(reflection, Reflection, extra, Some(score), now);
      r := if id.Ok? then Pass else Fail(id.error);
    }
  }
}
