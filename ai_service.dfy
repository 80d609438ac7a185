/** The provider-independent logic of `backend/ai_service.py`: the Q:/A:
    flashcard parser, the per-difficulty generation loop, the choice of
    provider for a request, the key check of the OpenAI service, the request
    each provider sends and the choice of summary instruction. Model replies,
    Ollama's availability and whether the `openai` package imports are
    inputs. */
module AiService {
  import opened Wrappers
  import opened Text
  import opened Markers
  import opened Arith

  /** A card as `_parse_flashcards` returns it. */
  datatype Card = Card(question: string, answer: string)

  /** One section of `_parse_flashcards`: cut once at the first `A:` marker;
      the answer is what follows, cut again at a `Q:` marker. */
  function CardOf(section: string): (r: Option<Card>)
    ensures r.Some? ==> r.value.question != [] && r.value.answer != []
    ensures r.Some? ==> IsStripped(r.value.question) && IsStripped(r.value.answer)
  {
    var parts := SplitOnce(section, 'A');
    if |parts| == 2 then
      var question := Strip(parts[0]);
      var answer := Strip(Split(parts[1], 'Q')[0]);
      if question != [] && answer != [] then Some(Card(question, answer)) else None
    else None
  }

  /** `_parse_flashcards(text)` */
  function Cards(text: string): (r: seq<Card>)
    ensures |r| < |Split(text, 'Q')|
    ensures forall c :: c in r ==> exists s :: s in Split(text, 'Q')[1..] && CardOf(s) == Some(c)
  {
    KeptFrom(Split(text, 'Q')[1..], CardOf);
    Kept(Split(text, 'Q')[1..], CardOf)
  }

  /** Within a section that has no `Q:` marker, the second split of the answer
      changes nothing, and the answer holds no marker. */
  lemma CardOfSection(section: string)
    requires NoMarker(section, 'Q')
    ensures |SplitOnce(section, 'A')| == 2 ==> Split(SplitOnce(section, 'A')[1], 'Q') == [SplitOnce(section, 'A')[1]]
    ensures CardOf(section).Some? ==> NoMarker(CardOf(section).value.answer, 'Q')
  {
    var parts := SplitOnce(section, 'A');
    NoMarkerAfterSplitOnce(section, 'A', 'Q');
    if |parts| == 2 {
      SplitOfNoMarker(parts[1], 'Q');
      NoMarkerStrip(parts[1], 'Q');
    }
  }

  /** The cards of a reply: at most one per section after the first marker,
      each with a non-empty question and an answer that never runs on into
      the next `Q:` marker. */
  lemma CardsShape(text: string)
    ensures forall c :: c in Cards(text) ==> c.question != [] && c.answer != [] && NoMarker(c.answer, 'Q')
  {
    var sections := Split(text, 'Q')[1..];
    KeptFrom(sections, CardOf);
    SplitPiecesHaveNoMarker(text, 'Q');
    forall s | s in sections
      ensures CardOf(s).Some? ==> NoMarker(CardOf(s).value.answer, 'Q')
    {
      var k :| 0 <= k < |sections| && sections[k] == s;
      assert s == Split(text, 'Q')[k + 1];
      CardOfSection(s);
    }
  }

  /** A reply without any newline-then-`Q:` marker yields no cards. */
  lemma NoMarkerNoCards(text: string)
    requires NoMarker(text, 'Q')
    ensures Cards(text) == []
  {
    SplitOfNoMarker(text, 'Q');
  }

  /** `_parse_flashcards`: the loop over the sections after the first marker. */
  method ParseFlashcards(text: string) returns (flashcards: seq<Card>)
    ensures flashcards == Cards(text)
  {
    var sections := Split(text, 'Q')[1..];
    flashcards := [];
    var i := 0;
    while i < |sections|
      invariant 0 <= i <= |sections|
      invariant flashcards == Kept(sections[..i], CardOf)
    {
      assert sections[..i + 1][..i] == sections[..i];
      var section := sections[i];
      var parts := SplitOnce(section, 'A');
      if |parts| == 2 {
        var question := Strip(parts[0]);
        var answer := Strip(Split(parts[1], 'Q')[0]);
        if question != [] && answer != [] {
          flashcards := flashcards + [Card(question, answer)];
        }
      }
      i := i + 1;
    }
    assert sections[..i] == sections;
  }

  /** The levels of `generate_flashcards`, in the dictionary's order. */
  const DIFFICULTIES: seq<string> := ["easy", "medium", "hard"]

  /** A card tagged with the level it was generated for. */
  datatype Flashcard = Flashcard(question: string, answer: string, difficulty: string)

  function Tagged(cards: seq<Card>, difficulty: string): (r: seq<Flashcard>)
    ensures |r| == |cards|
    ensures forall k :: 0 <= k < |r| ==> r[k] == Flashcard(cards[k].question, cards[k].answer, difficulty)
  {
    if cards == [] then []
    else
      var n := |cards|;
      Tagged(cards[..n - 1], difficulty) + [Flashcard(cards[n - 1].question, cards[n - 1].answer, difficulty)]
  }

  /** The cards one level's reply parses to; `None` when its model call
      raised. */
  function Parsed(reply: Result<string, string>): (r: Option<seq<Card>>)
    ensures r.Some? <==> reply.Ok?
  {
    match reply
    case Err(_) => None
    case Ok(text) => Some(Cards(text))
  }

  /** The parsed replies of all levels. */
  function ParsedLevels(replies: seq<Result<string, string>>): (r: seq<Option<seq<Card>>>)
    ensures |r| == |replies|
    ensures forall k :: 0 <= k < |r| ==> r[k] == Parsed(replies[k])
  {
    seq(|replies|, k requires 0 <= k < |replies| => Parsed(replies[k]))
  }

  /** What one level contributes: its cards, tagged and cut to
      `cards_per_difficulty`; nothing when its model call raised. */
  function LevelCards(parsed: Option<seq<Card>>, difficulty: string, n: int): (r: seq<Flashcard>)
    ensures parsed.None? ==> r == []
    ensures 0 <= n ==> |r| <= n
    ensures forall c :: c in r ==> c.difficulty == difficulty
  {
    match parsed
    case None => []
    case Some(cards) => SliceTo(Tagged(cards, difficulty), n)
  }

  /** The cards of the first `|levels|` levels, level after level. */
  function Collected(levels: seq<Option<seq<Card>>>, n: int): seq<Flashcard>
    requires |levels| <= |DIFFICULTIES|
  {
    if levels == [] then []
    else
      var k := |levels| - 1;
      Collected(levels[..k], n) + LevelCards(levels[k], DIFFICULTIES[k], n)
  }

  /** Everything `generate_flashcards` returns for the three replies. */
  function AllCards(replies: seq<Result<string, string>>, n: int): (r: seq<Flashcard>)
    requires |replies| == |DIFFICULTIES|
    ensures r == LevelCards(Parsed(replies[0]), "easy", n) + LevelCards(Parsed(replies[1]), "medium", n)
                 + LevelCards(Parsed(replies[2]), "hard", n)
  {
    CollectedLevels(ParsedLevels(replies), n);
    Collected(ParsedLevels(replies), n)
  }

  /** The rank of a level in the generation order. */
  function LevelRank(difficulty: string): nat {
    if difficulty == "easy" then 0 else if difficulty == "medium" then 1 else 2
  }

  lemma LevelRanks()
    ensures forall k :: 0 <= k < |DIFFICULTIES| ==> LevelRank(DIFFICULTIES[k]) == k
  {
  }

  /** Every card collected so far comes from one of the levels so far. */
  lemma {:induction false} CollectedRanks(levels: seq<Option<seq<Card>>>, n: int)
    requires |levels| <= |DIFFICULTIES|
    ensures forall c :: c in Collected(levels, n) ==> c.difficulty in DIFFICULTIES
    ensures forall c :: c in Collected(levels, n) ==> LevelRank(c.difficulty) < |levels|
  {
    if levels != [] {
      var k := |levels| - 1;
      CollectedRanks(levels[..k], n);
      LevelRanks();
      assert LevelRank(DIFFICULTIES[k]) == k;
      assert DIFFICULTIES[k] in DIFFICULTIES;
    }
  }

  /** At most `cards_per_difficulty` cards per level. */
  lemma {:induction false} CollectedLength(levels: seq<Option<seq<Card>>>, n: int)
    requires |levels| <= |DIFFICULTIES|
    requires 0 <= n
    ensures |Collected(levels, n)| <= |levels| * n
  {
    if levels != [] {
      var k := |levels| - 1;
      CollectedLength(levels[..k], n);
      MulSucc(k, n);
    }
  }

  /** The cards come level by level, in the order of the levels. */
  lemma {:induction false} CollectedOrdered(levels: seq<Option<seq<Card>>>, n: int)
    requires |levels| <= |DIFFICULTIES|
    ensures forall j, k :: 0 <= j < k < |Collected(levels, n)| ==>
              LevelRank(Collected(levels, n)[j].difficulty) <= LevelRank(Collected(levels, n)[k].difficulty)
  {
    if levels != [] {
      var k := |levels| - 1;
      var before := Collected(levels[..k], n);
      var level := LevelCards(levels[k], DIFFICULTIES[k], n);
      var all := before + level;
      assert Collected(levels, n) == all;
      CollectedOrdered(levels[..k], n);
      CollectedRanks(levels[..k], n);
      LevelRanks();
      var rank := LevelRank(DIFFICULTIES[k]);
      assert rank == k;
      forall j, i | 0 <= j < i < |all|
        ensures LevelRank(all[j].difficulty) <= LevelRank(all[i].difficulty)
      {
        if i >= |before| {
          assert all[i] == level[i - |before|] && all[i] in level;
          if j < |before| {
            assert all[j] == before[j] && before[j] in before;
          } else {
            assert all[j] == level[j - |before|] && all[j] in level;
          }
        } else {
          assert all[i] == before[i] && all[j] == before[j];
        }
      }
    }
  }

  /** `generate_flashcards`'s result is grouped by level, easy first, with at
      most `cards_per_difficulty` cards per level. */
  lemma AllCardsOrdered(replies: seq<Result<string, string>>, n: int)
    requires |replies| == |DIFFICULTIES|
    ensures forall c :: c in AllCards(replies, n) ==> c.difficulty in DIFFICULTIES
    ensures forall j, k :: 0 <= j < k < |AllCards(replies, n)| ==>
              LevelRank(AllCards(replies, n)[j].difficulty) <= LevelRank(AllCards(replies, n)[k].difficulty)
    ensures 0 <= n ==> |AllCards(replies, n)| <= 3 * n
  {
    var levels := ParsedLevels(replies);
    CollectedRanks(levels, n);
    CollectedOrdered(levels, n);
    if 0 <= n {
      CollectedLength(levels, n);
    }
  }

  /** The three levels' contributions, in order. */
  lemma CollectedLevels(levels: seq<Option<seq<Card>>>, n: int)
    requires |levels| == |DIFFICULTIES|
    ensures Collected(levels, n) == LevelCards(levels[0], "easy", n) + LevelCards(levels[1], "medium", n)
                                    + LevelCards(levels[2], "hard", n)
  {
    assert levels[..2][..1] == levels[..1];
    assert levels[..1][..0] == [];
    assert Collected(levels[..1], n) == LevelCards(levels[0], "easy", n);
    assert Collected(levels[..2], n) == Collected(levels[..1], n) + LevelCards(levels[1], "medium", n);
    assert Collected(levels, n) == Collected(levels[..2], n) + LevelCards(levels[2], "hard", n);
  }

  /** Nothing removes repeated questions: three levels answered with the same
      reply holding at least `n` cards give the same question three times. */
  lemma NoDeduplication(text: string, n: nat)
    requires 1 <= n <= |Cards(text)|
    ensures |AllCards([Ok(text), Ok(text), Ok(text)], n)| == 3 * n
    ensures var all := AllCards([Ok(text), Ok(text), Ok(text)], n);
            all[0].question == all[n].question == all[2 * n].question == Cards(text)[0].question
  {
    var levels := ParsedLevels([Ok(text), Ok(text), Ok(text)]);
    CollectedLevels(levels, n);
  }

  /** `generate_flashcards(text, cards_per_difficulty)`, given the replies to
      its three model calls. */
  method GenerateFlashcards(replies: seq<Result<string, string>>, cardsPerDifficulty: int)
    returns (allFlashcards: seq<Flashcard>)
    requires |replies| == |DIFFICULTIES|
    ensures allFlashcards == AllCards(replies, cardsPerDifficulty)
  {
    ghost var levels := ParsedLevels(replies);
    allFlashcards := [];
    var i := 0;
    while i < |DIFFICULTIES|
      invariant 0 <= i <= |DIFFICULTIES|
      invariant allFlashcards == Collected(levels[..i], cardsPerDifficulty)
    {
      CollectedStep(levels, i, cardsPerDifficulty);
      var flashcards := LevelFlashcards(replies[i], DIFFICULTIES[i], cardsPerDifficulty);
      assert levels[i] == Parsed(replies[i]);
      allFlashcards := allFlashcards + flashcards;
      i := i + 1;
    }
    assert levels[..i] == levels;
  }

  lemma CollectedStep(levels: seq<Option<seq<Card>>>, i: nat, n: int)
    requires i < |levels| <= |DIFFICULTIES|
    ensures Collected(levels[..i + 1], n) == Collected(levels[..i], n) + LevelCards(levels[i], DIFFICULTIES[i], n)
  {
    assert levels[..i + 1][..i] == levels[..i];
  }

  /** One level of `generate_flashcards`: the cards of its reply, tagged and
      cut to `cards_per_difficulty`; none when its model call raised. */
  method LevelFlashcards(reply: Result<string, string>, difficulty: string, n: int)
    returns (flashcards: seq<Flashcard>)
    ensures flashcards == LevelCards(Parsed(reply), difficulty, n)
  {
    flashcards := [];
    if reply.Ok? {
      var cards := ParseFlashcards(reply.value);
      flashcards := TagCards(cards, difficulty);
      flashcards := SliceTo(flashcards, n);
    }
  }

  /** The loop that sets every card's `difficulty`. */
  method TagCards(cards: seq<Card>, difficulty: string) returns (flashcards: seq<Flashcard>)
    ensures flashcards == Tagged(cards, difficulty)
  {
    flashcards := [];
    var j := 0;
    while j < |cards|
      invariant 0 <= j <= |cards|
      invariant flashcards == Tagged(cards[..j], difficulty)
    {
      assert cards[..j + 1][..j] == cards[..j];
      flashcards := flashcards + [Flashcard(cards[j].question, cards[j].answer, difficulty)];
      j := j + 1;
    }
    assert cards[..j] == cards;
  }

  /** The service a request is served by. */
  datatype Provider = Ollama | OpenAI(apiKey: string, model: Option<string>)

  /** Why no service could be made. */
  datatype ServiceError = OllamaNotRunning | KeyMissing | KeyFormat | KeyRejected | LibraryMissing

  /** `OpenAIService(api_key, model)`: refuses an empty or placeholder key, and
      fails when the `openai` package does not import. */
  function NewOpenAIService(apiKey: string, model: Option<string>, libraryInstalled: bool): (r: Result<Provider, ServiceError>)
    ensures r.Ok? <==> apiKey != "" && apiKey != "placeholder" && libraryInstalled
    ensures r.Ok? ==> r.value == OpenAI(apiKey, model)
  {
    if apiKey == "" || apiKey == "placeholder" then Err(KeyRejected)
    else if !libraryInstalled then Err(LibraryMissing)
    else Ok(OpenAI(apiKey, model))
  }

  /** Whether a provider tag asks for the local models. */
  predicate WantsOllama(tag: string) {
    tag == "llama" || tag == "ollama"
  }

  /** The tag after `ai_model.lower().strip()`, or `openai` when it is empty. */
  function ProviderTag(aiModel: Option<string>): string {
    match aiModel
    case Some(m) => if m != "" then Strip(Lower(m)) else "openai"
    case None => "openai"
  }

  /** A key that passes the length and prefix checks. */
  predicate KeyLooksValid(apiKey: string) {
    |apiKey| >= 20 && (StartsWith(apiKey, "sk-") || StartsWith(apiKey, "sk-proj-"))
  }

  /** `get_ai_service_for_request(ai_model, openai_model, api_key)` */
  function ServiceForRequest(aiModel: Option<string>, openaiModel: Option<string>, apiKey: string,
                             ollamaRunning: bool, libraryInstalled: bool): (r: Result<Provider, ServiceError>)
    ensures WantsOllama(ProviderTag(aiModel)) ==>
              r == if ollamaRunning then Ok(Ollama) else Err(OllamaNotRunning)
    ensures !WantsOllama(ProviderTag(aiModel)) ==>
              (r.Ok? <==> KeyLooksValid(apiKey) && libraryInstalled)
              && (r.Ok? ==> r.value == OpenAI(apiKey, openaiModel))
  {
    var tag := ProviderTag(aiModel);
    if WantsOllama(tag) then
      if ollamaRunning then Ok(Ollama) else Err(OllamaNotRunning)
    else if apiKey == "" || |apiKey| < 20 then Err(KeyMissing)
    else if !(StartsWith(apiKey, "sk-") || StartsWith(apiKey, "sk-proj-")) then Err(KeyFormat)
    else NewOpenAIService(apiKey, openaiModel, libraryInstalled)
  }

  /** Every `sk-proj-` key is an `sk-` key: the second prefix check adds nothing. */
  lemma ProjectKeysAreKeys(apiKey: string)
    ensures KeyLooksValid(apiKey) <==> |apiKey| >= 20 && StartsWith(apiKey, "sk-")
  {
    if StartsWith(apiKey, "sk-proj-") {
      assert apiKey[..3] == apiKey[..8][..3];
    }
  }

  /** `get_ai_service_from_header` in `backend/main.py`: an absent provider
      header means `openai`, an absent key means the empty key, and any error
      falls back to Ollama without checking that it runs. */
  function ServiceFromHeaders(xAiModel: Option<string>, xOpenaiModel: Option<string>, xApiKey: Option<string>,
                              ollamaRunning: bool, libraryInstalled: bool): (p: Provider)
    ensures p.OpenAI? <==> (!WantsOllama(ProviderTag(Some(Lower(xAiModel.GetOr("")))))
                            && KeyLooksValid(xApiKey.GetOr("")) && libraryInstalled)
    ensures p.OpenAI? ==> p == OpenAI(xApiKey.GetOr(""), xOpenaiModel)
  {
    var preference := Lower(if xAiModel.Some? && xAiModel.value != "" then xAiModel.value else "openai");
    var apiKey := if xApiKey.Some? then xApiKey.value else "";
    assert ProviderTag(Some(preference)) == ProviderTag(Some(Lower(xAiModel.GetOr("")))) by {
      if xAiModel.None? || xAiModel.value == "" {
        assert Strip(Lower("openai")) == "openai";
      }
    }
    match ServiceForRequest(Some(preference), xOpenaiModel, apiKey, ollamaRunning, libraryInstalled)
    case Ok(p) => p
    case Err(_) => Ollama
  }

  /** The JSON body `OllamaService._generate` posts. */
  datatype OllamaPayload = OllamaPayload(model: string, prompt: string, stream: bool,
                                         temperature: real, topP: real, system: Option<string>)

  /** The payload of `OllamaService._generate`: never streamed, with a
      `system` field exactly when the system prompt is not empty. */
  method BuildOllamaPayload(model: string, prompt: string, systemPrompt: string) returns (payload: OllamaPayload)
    ensures !payload.stream
    ensures payload.model == model && payload.prompt == prompt
    ensures payload.temperature == 0.7 && payload.topP == 0.9
    ensures payload.system.Some? <==> systemPrompt != ""
    ensures payload.system.Some? ==> payload.system.value == systemPrompt
  {
    payload := OllamaPayload(model, prompt, false, 0.7, 0.9, None);
    if systemPrompt != "" {
      payload := payload.(system := Some(systemPrompt));
    }
  }

  datatype Message = Message(role: string, content: string)

  /** The keyword arguments `OpenAIService._generate` passes to the client. */
  datatype ChatRequest = ChatRequest(model: string, messages: seq<Message>, maxCompletionTokens: Option<nat>,
                                     temperature: Option<real>, maxTokens: Option<nat>)

  /** The request of `OpenAIService._generate`: a system message first exactly
      when the system prompt is not empty, the user message last; `gpt-5`
      models get `max_completion_tokens` and no temperature, others a
      temperature and `max_tokens`. Without a model name the `startswith`
      call raises. */
  method BuildChatRequest(model: Option<string>, prompt: string, systemPrompt: string) returns (r: Result<ChatRequest, string>)
    ensures r.Ok? <==> model.Some?
    ensures r.Ok? ==> r.value.model == model.value
    ensures r.Ok? ==> var m := r.value.messages;
                      && |m| == (if systemPrompt != "" then 2 else 1)
                      && m[|m| - 1] == Message("user", prompt)
                      && (systemPrompt != "" ==> m[0] == Message("system", systemPrompt))
                      && ((exists k :: 0 <= k < |m| && m[k].role == "system") <==> systemPrompt != "")
    ensures r.Ok? && StartsWith(model.value, "gpt-5") ==>
              r.value.maxCompletionTokens == Some(2000) && r.value.temperature.None? && r.value.maxTokens.None?
    ensures r.Ok? && !StartsWith(model.value, "gpt-5") ==>
              r.value.maxCompletionTokens.None? && r.value.temperature == Some(0.7) && r.value.maxTokens == Some(2000)
  {
    var messages: seq<Message> := [];
    if systemPrompt != "" {
      messages := messages + [Message("system", systemPrompt)];
    }
    messages := messages + [Message("user", prompt)];
    if model.None? {
      return Err("'NoneType' object has no attribute 'startswith'");
    }
    var request := ChatRequest(model.value, messages, None, None, None);
    if StartsWith(model.value, "gpt-5") {
      request := request.(maxCompletionTokens := Some(2000));
    } else {
      request := request.(temperature := Some(0.7), maxTokens := Some(2000));
    }
    r := Ok(request);
  }

  /** What `_generate` returns from the reply text: the text stripped. */
  function ReplyText(content: string): (r: string)
    ensures IsStripped(r) && |r| <= |content|
  {
    Strip(content)
  }

  /** The instruction lengths `summarize_text` knows. */
  datatype SummaryLength = Short | Medium | Detailed

  /** `length_instructions.get(max_length, length_instructions["detailed"])` */
  function SummaryInstruction(maxLength: string): (r: SummaryLength)
    ensures r == Short <==> maxLength == "short"
    ensures r == Medium <==> maxLength == "medium"
    ensures r == Detailed <==> maxLength != "short" && maxLength != "medium"
  {
    if maxLength == "short" then Short
    else if maxLength == "medium" then Medium
    else Detailed
  }
}
