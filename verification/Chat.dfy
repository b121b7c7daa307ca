/** A chat turn as statements: the conversation repository's loops, and answer_question.py run without interruption. */
module Chat {
  import opened Prelude
  import opened Conversations
  import opened Turns

  /** The mutable entity; the use case appends to its list of messages. */
  class ConversationEntity {
    const id: Uuid
    const tenantId: string
    var messages: seq<Message>

    function Value(): Conversation
      reads this
    {
      Conversation(id, tenantId, messages)
    }

    constructor (c: Conversation)
      ensures Value() == c
    {
      id, tenantId, messages := c.id, c.tenantId, c.messages;
    }
  }

  /** conversation_repository.py; `store` is what the session's transaction sees. */
  class ConversationRepository {
    var store: Store

    constructor (store: Store)
      ensures this.store == store
    {
      this.store := store;
    }

    /** The loop shared by `add` and `update`: a row for every message not stored yet, at its list position. */
    method InsertMissing(conversation: ConversationEntity, stored: set<Uuid>) returns (ok: bool)
      modifies this
      ensures store.tenants == old(store).tenants
      ensures store.rows == old(store).rows + Missing(conversation.messages, conversation.id, stored, 0)
      ensures ok == UniqueRows(store.rows)
    {
      ghost var before := store;
      var ms := conversation.messages;
      for k := 0 to |ms|
        invariant store.tenants == before.tenants && conversation.messages == ms
        invariant store.rows + Missing(ms, conversation.id, stored, k) == before.rows + Missing(ms, conversation.id, stored, 0)
      {
        if ms[k].id !in stored {
          store := store.(rows := store.rows + [ToRow(ms[k], conversation.id, k)]);
        }
      }
      ok := UniqueRows(store.rows);
    }

    method Add(conversation: ConversationEntity) returns (ok: bool)
      modifies this
      ensures ok == Added(old(store), conversation.Value()).Some?
      ensures store == if ok then Added(old(store), conversation.Value()).value else old(store)
    {
      var before := store;
      if conversation.id in store.tenants { return false; }
      store := store.(tenants := store.tenants[conversation.id := conversation.tenantId]);
      ok := InsertMissing(conversation, {});
      if !ok { store := before; }
    }

    method Update(conversation: ConversationEntity) returns (ok: bool)
      modifies this
      ensures ok == Updated(old(store), conversation.Value()).Some?
      ensures store == if ok then Updated(old(store), conversation.Value()).value else old(store)
    {
      var before := store;
      if conversation.id !in store.tenants { return true; }
      ok := InsertMissing(conversation, IdsOf(store.rows, conversation.id));
      if !ok { store := before; }
    }

    method Load(tenantId: string, c: Uuid) returns (conversation: ConversationEntity?)
      ensures conversation == null <==> Get(store, tenantId, c).None?
      ensures conversation != null <==> c in store.tenants && store.tenants[c] == tenantId
      ensures conversation != null ==> fresh(conversation) && conversation.Value() == Get(store, tenantId, c).value
    {
      conversation := null;
      if c in store.tenants && store.tenants[c] == tenantId {
        conversation := new ConversationEntity(Conversation(c, store.tenants[c], History(store, c)));
      }
    }
  }

  /** One search result; the payload may lack a content. */
  datatype Hit = Hit(id: string, score: real, content: Option<string>)

  datatype Source = Source(chunkId: string, score: real)

  datatype Reply =
    | Answered(answer: string, conversationId: Uuid, sources: seq<Source>)
    | RetrievalFailed | NotFound | ModelFailed | Stale

  /** Embedding model, search of the tenant's chunks, and language model: arbitrary functions that may fail. */
  datatype Providers = Providers(
    embed: string -> Option<seq<real>>,
    search: (seq<real>, int, string) -> Option<seq<Hit>>,
    model: seq<Line> -> Option<string>)

  function ContentOf(hit: Hit): string {
    if hit.content.Some? then hit.content.value else ""
  }

  /** `"\n\n".join(...)` of the contents. */
  function Context(hits: seq<Hit>): string {
    if hits == [] then ""
    else if |hits| == 1 then ContentOf(hits[0])
    else Context(hits[..|hits| - 1]) + "\n\n" + ContentOf(hits[|hits| - 1])
  }

  /** It is a join: the pieces of a split list of results are joined by a blank line, and one result is its content. */
  lemma {:induction false} ContextJoins(a: seq<Hit>, b: seq<Hit>)
    requires a != [] && b != []
    ensures Context(a + b) == Context(a) + "\n\n" + Context(b)
    ensures |b| == 1 ==> Context(b) == if b[0].content.Some? then b[0].content.value else ""
    decreases |b|
  {
    var n := |b| - 1;
    assert (a + b)[..|a| + n] == a + b[..n];
    if n == 0 {
      assert a + b[..n] == a;
    } else {
      ContextJoins(a, b[..n]);
      var h := ContentOf(b[n]);
      assert Context(a + b) == Context(a + b[..n]) + "\n\n" + h;
      assert Context(b) == Context(b[..n]) + "\n\n" + h;
      assert Context(a + b) == Context(a) + "\n\n" + (Context(b[..n]) + "\n\n" + h);
    }
  }

  function SourcesOf(hits: seq<Hit>): (sources: seq<Source>)
    ensures |sources| == |hits| && forall i | 0 <= i < |hits| :: sources[i] == Source(hits[i].id, hits[i].score)
  {
    seq(|hits|, i requires 0 <= i < |hits| => Source(hits[i].id, hits[i].score))
  }

  /** The conversation does not exist or belongs to another tenant. */
  predicate Foreign(s: Store, tenantId: string, c: Uuid) {
    c !in s.tenants || s.tenants[c] != tenantId
  }

  /** answer_question.py */
  class AnswerQuestionUseCase {
    const conversations: ConversationRepository
    const historyWindow: int
    const systemPrompt: string
    const providers: Providers

    constructor (conversations: ConversationRepository, historyWindow: int, systemPrompt: string, providers: Providers)
      ensures this.conversations == conversations && this.historyWindow == historyWindow
      ensures this.systemPrompt == systemPrompt && this.providers == providers
    {
      this.conversations, this.historyWindow := conversations, historyWindow;
      this.systemPrompt, this.providers := systemPrompt, providers;
    }

    /** The contents of the results, blank lines between them. */
    method JoinContents(hits: seq<Hit>) returns (context: string)
      ensures context == Context(hits)
    {
      context := "";
      for k := 0 to |hits|
        invariant context == Context(hits[..k])
      {
        var content := if hits[k].content.Some? then hits[k].content.value else "";
        context := if k == 0 then content else context + "\n\n" + content;
        assert hits[..k + 1][..k] == hits[..k];
      }
      assert hits[..|hits|] == hits;
    }

    method Cite(hits: seq<Hit>) returns (sources: seq<Source>)
      ensures sources == SourcesOf(hits)
    {
      sources := [];
      for k := 0 to |hits|
        invariant |sources| == k && forall i | 0 <= i < k :: sources[i] == Source(hits[i].id, hits[i].score)
      {
        sources := sources + [Source(hits[k].id, hits[k].score)];
      }
    }

    /** Python slicing with a negative start. */
    method Tail(ms: seq<Message>) returns (history: seq<Message>)
      ensures history == Window(ms, historyWindow)
    {
      var start := -historyWindow;
      if start < 0 { start := start + |ms|; if start < 0 { start := 0; } }
      if start > |ms| { start := |ms|; }
      history := ms[start..];
    }

    /** System line, windowed history, question. */
    method Compose(ms: seq<Message>, question: string, system: string) returns (messages: seq<Line>)
      ensures messages == Prompt(system, historyWindow, ms, question)
    {
      var history := Tail(ms);
      messages := [Line(System, system)];
      for k := 0 to |history|
        invariant messages == [Line(System, system)] + Lines(history[..k])
      {
        messages := messages + [Line(history[k].role, history[k].content)];
      }
      assert history[..|history|] == history;
      messages := messages + [Line(User, question)];
    }

    method Execute(tenantId: string, existing: Option<Uuid>, newId: Uuid, question: string, topK: int, q: Uuid, a: Uuid)
      returns (r: Reply)
      modifies conversations
      ensures existing.Some? && Foreign(old(conversations.store), tenantId, existing.value) ==>
                (r == NotFound || r == RetrievalFailed) && conversations.store == old(conversations.store)
      ensures r.Answered? && existing.Some? ==>
                r.conversationId == existing.value && !Foreign(old(conversations.store), tenantId, existing.value)
      ensures var s := old(conversations.store);
              var vector := providers.embed(question);
              var hits := if vector.None? then None else providers.search(vector.value, topK, tenantId);
              if hits.None? then r == RetrievalFailed && conversations.store == s
              else
                var c := if existing.None? then newId else existing.value;
                var system := systemPrompt + "\n\nContext:\n" + Context(hits.value);
                var turn := Opening(historyWindow, s, existing.None?, Ask(tenantId, c, question, system));
                if turn.None? then r == NotFound && conversations.store == s
                else if providers.model(turn.value.prompt).None? then r == ModelFailed && conversations.store == s
                else
                  var answer := providers.model(turn.value.prompt).value;
                  var after := Written(s, turn.value, answer, q, a);
                  if after.None? then r == Stale && conversations.store == s
                  else r == Answered(answer, turn.value.conv.id, SourcesOf(hits.value)) && conversations.store == after.value
    {
      var embedding := providers.embed(question);
      if embedding.None? { return RetrievalFailed; }
      var results := providers.search(embedding.value, topK, tenantId);
      if results.None? { return RetrievalFailed; }
      var context := JoinContents(results.value);
      var system := systemPrompt + "\n\nContext:\n" + context;

      var conversation: ConversationEntity?;
      if existing.None? {
        conversation := new ConversationEntity(Conversation(newId, tenantId, []));
      } else {
        conversation := conversations.Load(tenantId, existing.value);
        if conversation == null { return NotFound; }
      }
      ghost var loaded := conversation.messages;
      var messages := Compose(conversation.messages, question, system);
      var completion := providers.model(messages);
      if completion.None? { return ModelFailed; }

      conversation.messages := conversation.messages + [Message(q, User, question)];
      conversation.messages := conversation.messages + [Message(a, Assistant, completion.value)];
      assert conversation.messages == loaded + [Message(q, User, question), Message(a, Assistant, completion.value)];
      var ok;
      if existing.Some? {
        ok := conversations.Update(conversation);
      } else {
        ok := conversations.Add(conversation);
      }
      if !ok { return Stale; }
      var sources := Cite(results.value);
      return Answered(completion.value, conversation.id, sources);
    }
  }

  /** A turn run alone is the opening move followed at once by its Finish. */
  lemma AloneIsOpenThenFinish(window: int, s: Store, t: nat, tenantId: string, c: Uuid, question: string, system: string,
                              answer: string, q: Uuid, a: Uuid)
    requires StoreOk(s) && Get(s, tenantId, c).Some? && q != a
    requires forall k | 0 <= k < |s.rows| :: s.rows[k].id != q && s.rows[k].id != a
    ensures var alone := State(s, map[], []);
            var begun := Moved(window, alone, Continue(t, tenantId, c, question, system));
            && t in begun.open && Legal(begun, Finish(t, answer, q, a))
            && var done := Moved(window, begun, Finish(t, answer, q, a));
               && History(done.store, c)
                    == History(s, c) + [Message(q, User, question), Message(a, Assistant, answer)]
               && done.open == map[]
  {
    var turn := Opening(window, s, false, Ask(tenantId, c, question, system)).value;
    OldTurnCommitsIff(s, turn, answer, q, a);
    ExtendedIsDistinct(s, c, Message(q, User, question), Message(a, Assistant, answer));
    Pair(turn, answer, q, a);
    UpdateThenGet(s, Extended(turn, answer, q, a));
    assert Closed(map[t := turn], t) == map[];
  }
}
