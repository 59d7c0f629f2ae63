/** `takeAllCommands` (`backend/command.py`): one user turn. The query is
    echoed to the front end, the first keyword of the command mapping it
    contains picks a handler; without one, a weather question is answered
    for the city it names, and anything else goes to the chat service and
    into the conversation log, which keeps its last ten entries. */
module Command {
  import opened Common
  import opened Feature
  import Ui

  /** The keys of `command_mapping`, in insertion order. */
  const Keywords: seq<string> := ["open", "send message", "call", "video call", "on youtube", "time"]

  /** `MAX_HISTORY_MESSAGES`. */
  const MaxHistoryMessages: nat := 10

  /** What the user says, when the code asks: the query `takecommand`
      recognises (`None` when recognition fails), the message content asked
      for by a WhatsApp request, the clock as `get_time_command` formats it,
      and the report `get_weather` gives for a city. */
  datatype Inputs = Inputs(
    heard: Option<string>,
    dictation: Option<string>,
    clock: string,
    weather: string -> string)

  // ---------------------------------------------------------------------
  // Dispatch
  // ---------------------------------------------------------------------

  /** The first keyword from index `i` on that the query contains. */
  function FirstKeyFrom(query: string, i: nat): (r: Option<nat>)
    requires i <= |Keywords|
    ensures r.Some? ==> i <= r.value < |Keywords| && Contains(query, Keywords[r.value])
    ensures r.Some? ==> forall j :: i <= j < r.value ==> !Contains(query, Keywords[j])
    ensures r.None? <==> forall j :: i <= j < |Keywords| ==> !Contains(query, Keywords[j])
    decreases |Keywords| - i
  {
    if i == |Keywords| then None
    else if Contains(query, Keywords[i]) then Some(i)
    else FirstKeyFrom(query, i + 1)
  }

  /** The handler that runs: the first key, in mapping order, that is a
      substring of the query. */
  function FirstKey(query: string): Option<nat> {
    FirstKeyFrom(query, 0)
  }

  /** The loop over `command_mapping.items()` with its `break`. */
  method MatchKeyword(query: string) returns (index: Option<nat>)
    ensures index == FirstKey(query)
  {
    var i := 0;
    while i < |Keywords|
      invariant 0 <= i <= |Keywords|
      invariant FirstKey(query) == FirstKeyFrom(query, i)
    {
      if Contains(query, Keywords[i]) {
        return Some(i);
      }
      i := i + 1;
    }
    return None;
  }

  /** "call" comes before "video call" and is part of it, so the
      "video call" key never picks the handler. */
  lemma VideoCallKeyUnreachable(query: string)
    ensures FirstKey(query) != Some(3)
  {
    if Contains(query, "video call") {
      assert OccursAt("video call", "call", 6);
      ContainsTransitive(query, "video call", "call");
    }
  }

  // ---------------------------------------------------------------------
  // handle_whatsapp_request
  // ---------------------------------------------------------------------

  const NoFlagPrompt: string := "Could not determine WhatsApp action. Please specify send message, call, or video call."

  /** The flag `handle_whatsapp_request` chooses from the query. */
  function WhatsAppFlag(query: string): (r: Option<string>)
    ensures r.Some? <==> Contains(query, "send message") || Contains(query, "call") || Contains(query, "video call")
  {
    if Contains(query, "send message") then Some("message")
    else if Contains(query, "call") then Some("call")
    else if Contains(query, "video call") then Some("video call")
    else None
  }

  /** The 'video call' flag is never chosen, for the same reason as the
      key: a query holding "video call" holds "call". */
  lemma VideoFlagUnreachable(query: string)
    ensures WhatsAppFlag(query) != Some("video call")
  {
    if Contains(query, "video call") {
      assert OccursAt("video call", "call", 6);
      ContainsTransitive(query, "video call", "call");
    }
  }

  /** Every query the mapping sends to `handle_whatsapp_request` yields a
      flag, 'message' or 'call'. */
  lemma DispatchedRequestsHaveFlag(query: string)
    requires FirstKey(query) == Some(1) || FirstKey(query) == Some(2)
    ensures WhatsAppFlag(query) == Some("message") || WhatsAppFlag(query) == Some("call")
  {
  }

  /** What happens once the contact is known: a message asks for its
      content first, and nothing is sent without it. */
  function ContactAction(query: string, phone: string, name: string, flag: string, w: World, dictation: Option<string>): seq<Effect> {
    if flag == "message" then
      [Speak("What message would you like to send to " + name + "?")] +
      (if dictation.Some? && dictation.value != "" then WhatsAppTrace(phone, Lower(dictation.value), flag, name, w.shellFails, w.keysFail)
       else [Speak("No message content provided for " + name + ". WhatsApp action cancelled.")])
    else WhatsAppTrace(phone, query, flag, name, w.shellFails, w.keysFail)
  }

  /** `handle_whatsapp_request(query)`. */
  function RequestTrace(query: string, w: World, dictation: Option<string>): seq<Effect> {
    match WhatsAppFlag(query)
    case None => [Speak(NoFlagPrompt)]
    case Some(flag) =>
      var lookup := FindContact(query, w);
      match lookup.found
      case None => lookup.said
      case Some((phone, name)) =>
        if phone == "" || name == "" then [] else ContactAction(query, phone, name, flag, w, dictation)
  }

  /** The 'message' branch: ask for the content, then send it. */
  method SendDictated(query: string, phone: string, name: string, w: World, dictation: Option<string>)
    returns (trace: seq<Effect>)
    ensures trace == ContactAction(query, phone, name, "message", w, dictation)
  {
    var ask := [Speak("What message would you like to send to " + name + "?")];
    if dictation.Some? && dictation.value != "" {
      var sent := WhatsApp(phone, Lower(dictation.value), "message", name, w.shellFails, w.keysFail);
      return ask + sent;
    }
    return ask + [Speak("No message content provided for " + name + ". WhatsApp action cancelled.")];
  }

  method ActOnContact(query: string, phone: string, name: string, flag: string, w: World, dictation: Option<string>)
    returns (trace: seq<Effect>)
    ensures trace == ContactAction(query, phone, name, flag, w, dictation)
  {
    if flag == "message" {
      trace := SendDictated(query, phone, name, w, dictation);
    } else {
      trace := WhatsApp(phone, query, flag, name, w.shellFails, w.keysFail);
    }
  }

  /** `handle_whatsapp_request`, calling `whatsApp` with its Tab loop. */
  method HandleWhatsAppRequest(query: string, w: World, dictation: Option<string>) returns (trace: seq<Effect>)
    ensures trace == RequestTrace(query, w, dictation)
  {
    var flag := WhatsAppFlag(query);
    if flag.None? {
      return [Speak(NoFlagPrompt)];
    }
    var lookup := FindContact(query, w);
    if lookup.found.None? {
      return lookup.said;
    }
    var (phone, name) := lookup.found.value;
    if phone == "" || name == "" {
      return [];
    }
    trace := ActOnContact(query, phone, name, flag.value, w, dictation);
  }

  /** A query made only of the removed words searches for the empty name:
      it matches the first contact, and the empty name then stops the
      request without a word to the user. */
  lemma EmptyNameIsSilent(query: string, w: World, dictation: Option<string>)
    requires WhatsAppFlag(query).Some? && ContactQuery(query, w) == ""
    requires !w.dbFails && |w.contacts| > 0
    ensures RequestTrace(query, w, dictation) == []
  {
    ContainsEmpty(Lower(w.contacts[0].name));
  }

  // ---------------------------------------------------------------------
  // Weather
  // ---------------------------------------------------------------------

  /** The weather fallback applies. */
  predicate WeatherAsked(query: string) {
    || Contains(query, "weather in") || Contains(query, "how's the weather in")
    || Contains(query, "temperature in") || Contains(query, "forecast for")
    || StartsWith(query, "weather ")
  }

  /** The text after the first phrase, in priority order, stripped. */
  function RawCity(query: string): string {
    if Contains(query, "weather in") then Strip(After(query, "weather in"))
    else if Contains(query, "how's the weather in") then Strip(After(query, "how's the weather in"))
    else if Contains(query, "temperature in") then Strip(After(query, "temperature in"))
    else if Contains(query, "forecast for") then Strip(After(query, "forecast for"))
    else if StartsWith(query, "weather ") then Strip(After(query, "weather "))
    else ""
  }

  /** The city asked about: one trailing '?' dropped and stripped again. */
  function WeatherCity(query: string): (city: string)
    ensures |city| > 0 ==> !IsSpace(city[0]) && !IsSpace(city[|city| - 1])
  {
    var city := RawCity(query);
    if EndsWith(city, "?") then Strip(city[..|city| - 1]) else city
  }

  /** "how's the weather in" holds "weather in", which is tried first, so
      the second phrase never decides the city. */
  lemma SecondPhraseNeverDecides(query: string)
    requires Contains(query, "how's the weather in")
    ensures RawCity(query) == Strip(After(query, "weather in"))
  {
    assert OccursAt("how's the weather in", "weather in", 10);
    ContainsTransitive(query, "how's the weather in", "weather in");
  }

  const AskCity: string := "Which city's weather are you interested in? Please try again, for example, say 'weather in London'."

  /** The weather branch: no city gives the clarification and no lookup. */
  function WeatherTrace(query: string, weather: string -> string): seq<Effect> {
    var city := WeatherCity(query);
    if city == "" then [Speak(AskCity)] else [WeatherLookup(city), Speak(weather(city))]
  }

  /** `get_weather` is asked only for a non-empty city; without one the
      user is asked which city. */
  lemma LookupOnlyWithCity(query: string, weather: string -> string)
    ensures WeatherCity(query) == "" ==> WeatherTrace(query, weather) == [Speak(AskCity)]
    ensures WeatherCity(query) != "" ==> WeatherTrace(query, weather)[0] == WeatherLookup(WeatherCity(query))
    ensures forall c :: WeatherLookup(c) in WeatherTrace(query, weather) ==> c == WeatherCity(query) && c != ""
  {
  }

  lemma AfterExample()
    ensures After("weather in paris?", "weather in") == " paris?"
  {
    var q := "weather in paris?";
    assert q[..10] == "weather in";
    assert Find(q, "weather in") == Some(0);
  }

  lemma RawCityExample()
    ensures RawCity("weather in paris?") == "paris?"
  {
    var q := "weather in paris?";
    assert OccursAt(q, "weather in", 0);
    AfterExample();
    var s := " paris?";
    assert IsSpace(s[0]) && s[1..] == "paris?" && !IsSpace('p') && !IsSpace('?');
    assert TrimLeft(s) == TrimLeft("paris?") == "paris?";
    assert TrimRight("paris?") == "paris?";
  }

  lemma StripExample()
    ensures "paris?"[..5] == "paris" && Strip("paris") == "paris"
  {
    assert !IsSpace('p') && !IsSpace('s');
    assert TrimLeft("paris") == "paris";
    assert TrimRight("paris") == "paris";
  }

  /** "weather in paris?" asks about "paris": the text after the phrase,
      stripped, without its question mark. */
  lemma CityExample()
    ensures WeatherCity("weather in paris?") == "paris"
  {
    RawCityExample();
    StripExample();
  }

  // ---------------------------------------------------------------------
  // The conversation log
  // ---------------------------------------------------------------------

  /** The entries one chat turn adds: the user's query, then the answer,
      each only when non-empty. */
  function Turn(query: string, answer: string): (r: seq<Message>)
    ensures |r| <= 2
  {
    (if query != "" then [Message("user", query)] else []) +
    (if answer != "" then [Message("assistant", answer)] else [])
  }

  /** `conversation_log[len(conversation_log) - n:]` when it is longer
      than `n`. */
  function KeepLast(log: seq<Message>, n: nat): (r: seq<Message>)
    ensures |r| <= n && |r| <= |log| && r == log[|log| - |r|..]
    ensures |log| <= n ==> r == log
    ensures |log| > n ==> |r| == n
  {
    if |log| > n then log[|log| - n..] else log
  }

  /** The log after a chat turn. */
  function ChatLog(query: string, answer: string, log: seq<Message>): seq<Message> {
    KeepLast(log + Turn(query, answer), MaxHistoryMessages)
  }

  /** A chat turn keeps the log within ten entries, ends it with the turn's
      own entries, and keeps before them the newest of the old ones. */
  lemma ChatLogKeepsNewest(query: string, answer: string, log: seq<Message>)
    ensures var r := ChatLog(query, answer, log);
      var t := Turn(query, answer);
      && |r| <= MaxHistoryMessages
      && r[|r| - |t|..] == t
      && r[..|r| - |t|] == log[|log| - (|r| - |t|)..]
      && (|log| + |t| <= MaxHistoryMessages ==> r == log + t)
  {
    var t := Turn(query, answer);
    var all := log + t;
    var r := ChatLog(query, answer, log);
    assert r == all[|all| - |r|..];
    assert r[|r| - |t|..] == all[|all| - |t|..] == t;
    assert r[..|r| - |t|] == all[|all| - |r|..|all| - |t|] == log[|log| - (|r| - |t|)..];
  }

  /** The chat request built from a log within bounds holds at most twelve
      messages. */
  lemma ChatRequestBounded(query: string, log: seq<Message>)
    requires |log| <= MaxHistoryMessages
    ensures |ChatMessages(query, log)| <= MaxHistoryMessages + 2
  {
  }

  // ---------------------------------------------------------------------
  // takeAllCommands
  // ---------------------------------------------------------------------

  /** The query of the turn: a typed message lower-cased, or what was
      heard; `None` when nothing was heard. */
  function Query(message: Option<string>, io: Inputs): Option<string> {
    if message.Some? then Some(Lower(message.value))
    else if io.heard.Some? && io.heard.value != "" then Some(Lower(io.heard.value))
    else None
  }

  /** `get_time_command`. */
  function TellTime(clock: string): seq<Effect> {
    [Speak("The current time is " + clock)]
  }

  /** What the outer `except` of `takeAllCommands` speaks. */
  const CommandFailed: string := "Sorry, something went wrong while processing your command."

  /** The handler of key `k` of the mapping. */
  function KeyTrace(k: nat, query: string, w: World, io: Inputs): seq<Effect> {
    if k == 0 then OpenCommand(query, w)
    else if k <= 3 then RequestTrace(query, w, io.dictation)
    else if k == 4 then PlayYoutube(query, w)
    else TellTime(io.clock)
  }

  /** What the `try` block of `takeAllCommands` does for `query`. */
  function Handled(query: string, w: World, io: Inputs, log: seq<Message>): seq<Effect> {
    match FirstKey(query)
    case Some(k) => KeyTrace(k, query, w, io)
    case None =>
      if WeatherAsked(query) then WeatherTrace(query, io.weather)
      else match ChatBot(query, log, w)
        case Answered(answer) => [Speak(answer)]
        case Escapes => [Speak(CommandFailed)]
  }

  /** The log after the turn: only a chat turn that gets an answer changes it. */
  function NextLog(query: string, w: World, log: seq<Message>): seq<Message> {
    if FirstKey(query).None? && !WeatherAsked(query) && ChatBot(query, log, w).Answered? then
      ChatLog(query, ChatBot(query, log, w).answer, log)
    else log
  }

  /** The handler the key selects. */
  method RunHandler(k: nat, query: string, w: World, io: Inputs) returns (trace: seq<Effect>)
    ensures trace == KeyTrace(k, query, w, io)
  {
    if k == 0 {
      trace := OpenCommand(query, w);
    } else if k <= 3 {
      trace := HandleWhatsAppRequest(query, w, io.dictation);
    } else if k == 4 {
      trace := PlayYoutube(query, w);
    } else {
      trace := TellTime(io.clock);
    }
  }

  /** The assistant's session state: the global `conversation_log` and the
      calls made to the outside world so far. */
  class Assistant {
    var log: seq<Message>
    var effects: seq<Effect>

    ghost predicate Valid()
      reads this
    {
      |log| <= MaxHistoryMessages
    }

    constructor ()
      ensures Valid() && log == [] && effects == []
    {
      log := [];
      effects := [];
    }

    /** The end of a chat turn that got an answer: speak it, record the
        turn, trim the log. */
    method ChatTurn(query: string, answer: string)
      requires Valid()
      modifies this
      ensures Valid()
      ensures log == ChatLog(query, answer, old(log))
      ensures effects == old(effects) + [Speak(answer)]
    {
      effects := effects + [Speak(answer)];
      ghost var before := log;
      if query != "" {
        log := log + [Message("user", query)];
      }
      if answer != "" {
        log := log + [Message("assistant", answer)];
      }
      assert log == before + Turn(query, answer);
      if |log| > MaxHistoryMessages {
        log := log[|log| - MaxHistoryMessages..];
      }
    }

    /** `takeAllCommands(message)`. */
    method TakeAllCommands(message: Option<string>, w: World, io: Inputs)
      requires Valid()
      modifies this
      ensures Valid()
      ensures Query(message, io).None? ==> log == old(log) && effects == old(effects) + [ShowHood]
      ensures Query(message, io).Some? ==>
        var query := Query(message, io).value;
        && log == NextLog(query, w, old(log))
        && effects == old(effects) + ([SenderText(query)] + Handled(query, w, io, old(log)) + [ShowHood])
    {
      var query: string;
      if message.None? {
        if io.heard.None? || io.heard.value == "" {
          effects := effects + [ShowHood];
          return;
        }
        query := Lower(io.heard.value);
      } else {
        query := Lower(message.value);
      }
      effects := effects + [SenderText(query)];
      ghost var e1 := effects;
      var key := MatchKeyword(query);
      if key.Some? {
        var trace := RunHandler(key.value, query, w, io);
        effects := effects + trace;
      } else if WeatherAsked(query) {
        effects := effects + WeatherTrace(query, io.weather);
      } else {
        var outcome := ChatBot(query, log, w);
        if outcome.Escapes? {
          // the outer `except Exception`: nothing was spoken or recorded
          effects := effects + [Speak(CommandFailed)];
        } else {
          ChatTurn(query, outcome.answer);
        }
      }
      effects := effects + [ShowHood];
      Ui.Regroup(old(effects), [SenderText(query)], Handled(query, w, io, old(log)), [ShowHood]);
    }
  }

  /** The query of the repository's own test, "what time is it", picks
      the "time" key: it holds no 'o', 'd', 'c' or 'v', so no earlier key
      occurs in it. */
  lemma TimeQueryKey()
    ensures FirstKey("what time is it") == Some(5)
  {
    var q := "what time is it";
    MissingChar(q, "open", 0);
    MissingChar(q, "send message", 3);
    MissingChar(q, "call", 0);
    MissingChar(q, "video call", 0);
    MissingChar(q, "on youtube", 0);
    assert OccursAt(q, "time", 5);
  }

  /** So a typed "what time is it" is echoed, answered with the time and
      followed by `ShowHood`, and leaves the log alone. */
  lemma TimeQueryTellsTime(w: World, io: Inputs, log: seq<Message>)
    ensures Query(Some("what time is it"), io) == Some("what time is it")
    ensures Handled("what time is it", w, io, log) == [Speak("The current time is " + io.clock)]
    ensures NextLog("what time is it", w, log) == log
  {
    TimeQueryKey();
    var q := "what time is it";
    assert Lower(q) == q;
  }

  /** A chat turn whose completion raises ends in the outer handler: the
      apology is spoken and the log stays as it was, where the intended
      `chatBot` would answer with the handler's own, different message. */
  lemma ChatErrorSaysSorry(query: string, w: World, io: Inputs, log: seq<Message>)
    requires FirstKey(query).None? && !WeatherAsked(query)
    requires ApiService.GetOpenAIApiKey(w.env, w.files).Some? && !w.clientFails
    requires w.chat(ChatMessages(query, log)).Raises?
    ensures Handled(query, w, io, log) == [Speak(CommandFailed)]
    ensures NextLog(query, w, log) == log
    ensures ChatBotIntended(query, log, w) == ErrorAnswer(w.chat(ChatMessages(query, log)).error)
    ensures ChatBotIntended(query, log, w) != CommandFailed
  {
    ChatBotAsWritten(query, log, w);
    AnswersLongerThanApology(w.chat(ChatMessages(query, log)).error);
  }

  lemma AnswersLongerThanApology(e: ChatError)
    ensures |ErrorAnswer(e)| > |CommandFailed|
  {
    match e
    case ConnectionFailed =>
    case RateLimited =>
    case AuthenticationFailed =>
    case ServiceFailed =>
    case OtherFailure =>
  }
}
