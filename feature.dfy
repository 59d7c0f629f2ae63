/** The assistant's actions (`backend/feature.py`): opening an application or
    a site, finding a contact, driving WhatsApp and building the chat
    request. What they do to the outside world is a trace of `Effect`s; the
    database, the shell and the chat service are oracles in a `World`. */
module Feature {
  import opened Common
  import ApiService
  import Ui
  import UrlQuote

  /** One call into the outside world, in the order the code makes it. */
  datatype Effect =
    | Speak(text: string)          // `speak(text)`
    | StartFile(path: string)      // `os.startfile(path)`
    | OpenBrowser(url: string)     // `webbrowser.open(url)`
    | System(command: string)      // `os.system(command)`
    | Shell(command: string)       // `subprocess.run(command, shell=True, check=True)`
    | Hotkey(key: string)          // `pyautogui.hotkey(key)`
    | PlayOnYoutube(term: string)  // `kit.playonyt(term)`
    | WeatherLookup(city: string)  // `get_weather(city)`
    | SenderText(text: string)     // `eel.senderText(text)`
    | ShowHood                     // `eel.ShowHood()`

  /** A row of the `contacts` table. */
  datatype Contact = Contact(name: string, phone: string)

  /** One entry of a chat request or of the conversation log. */
  datatype Message = Message(role: string, content: string)

  /** The exceptions the completion call can raise, named after the
      handler of `chatBot` each is meant for. */
  datatype ChatError =
    | ConnectionFailed      // `APIConnectionError`
    | RateLimited           // `RateLimitError`
    | AuthenticationFailed  // `AuthenticationError`
    | ServiceFailed         // any other `APIError`
    | OtherFailure          // anything else

  /** What the chat completion does with a request: it answers, or it raises. */
  datatype Reply = Completed(content: string) | Raises(error: ChatError)

  /** What a call of `chatBot` gives its caller: an answer, or an exception
      that leaves it. */
  datatype ChatOutcome = Answered(answer: string) | Escapes

  /** What the actions depend on and cannot see: the configured assistant
      name, the two text helpers of `backend.helper`, the database, whether
      the launch calls raise, the key press at which the keyboard raises
      (none when it never does), the environment and configuration files
      the chat key comes from, and the chat service. */
  datatype World = World(
    assistantName: string,
    removeWords: string -> string,
    youtubeTerm: string -> string,
    sysCommands: map<string, string>,
    webCommands: map<string, string>,
    contacts: seq<Contact>,
    dbFails: bool,
    startFails: bool,
    shellFails: bool,
    keysFail: Option<nat>,
    env: ApiService.Env,
    files: ApiService.Files,
    clientFails: bool,
    chat: seq<Message> -> Reply)

  // ---------------------------------------------------------------------
  // openCommand
  // ---------------------------------------------------------------------

  const OpenFailed: string := "Something went wrong while trying to open the application or website."

  /** The query once the assistant's name and every "open" are deleted.
      `query.lower()` is called but its result dropped, so case is kept. */
  function CleanQuery(query: string, assistant: string): string {
    RemoveAll(RemoveAll(query, assistant), "open")
  }

  /** The name looked up in the database. */
  function AppName(query: string, assistant: string): string {
    Strip(CleanQuery(query, assistant))
  }

  /** `openCommand(query)`: the `sys_command` table first, then
      `web_command`, then the shell's `start`. The announcement uses the
      unstripped query. */
  function OpenCommand(query: string, w: World): (r: seq<Effect>)
    ensures r == [] <==> AppName(query, w.assistantName) == ""
  {
    var q := CleanQuery(query, w.assistantName);
    var app := Strip(q);
    if app == "" then []
    else if w.dbFails then [Speak(OpenFailed)]
    else if app in w.sysCommands then
      [Speak("Opening " + q), StartFile(w.sysCommands[app])] + (if w.startFails then [Speak(OpenFailed)] else [])
    else if app in w.webCommands then [Speak("Opening " + q), OpenBrowser(w.webCommands[app])]
    else [Speak("Opening " + q), System("start " + q)]
  }

  /** Exactly one way of opening is tried, in table order: a name in
      `sys_command` is never looked up on the web or in the shell, and the
      shell is the last resort. */
  lemma OpenLookupOrder(query: string, w: World)
    requires AppName(query, w.assistantName) != "" && !w.dbFails
    ensures var app := AppName(query, w.assistantName);
      var r := OpenCommand(query, w);
      && (app in w.sysCommands <==> exists p :: StartFile(p) in r)
      && (app !in w.sysCommands && app in w.webCommands <==> exists u :: OpenBrowser(u) in r)
      && (app !in w.sysCommands && app !in w.webCommands <==> exists c :: System(c) in r)
  {
    var q := CleanQuery(query, w.assistantName);
    var app := AppName(query, w.assistantName);
    var r := OpenCommand(query, w);
    if app in w.sysCommands {
      assert r[1] == StartFile(w.sysCommands[app]);
    } else if app in w.webCommands {
      assert r[1] == OpenBrowser(w.webCommands[app]);
    } else {
      assert r[1] == System("start " + q);
    }
  }

  /** `str.replace` makes one pass: a name that only spells "open" once
      the inner one is deleted still reaches the lookup as "open". */
  lemma ReplaceIsSinglePass()
    ensures CleanQuery("oopenpen", "") == "open"
  {
    var s := "oopenpen";
    assert RemoveAll(s, "") == s;
    assert s[..4][1] != "open"[1];
    assert s[1..][..4] == "open";
    assert s[1..][4..] == "pen";
    assert [s[0]] + "pen" == "open";
  }

  // ---------------------------------------------------------------------
  // findContact
  // ---------------------------------------------------------------------

  const ContactError: string := "An error occurred while searching for the contact."

  /** `mobile_number_str.lstrip('0')`. */
  function StripZeros(s: string): (r: string)
    ensures |r| <= |s| && r == s[|s| - |r|..]
    ensures forall i :: 0 <= i < |s| - |r| ==> s[i] == '0'
    ensures |r| > 0 ==> r[0] != '0'
  {
    if |s| > 0 && s[0] == '0' then StripZeros(s[1..]) else s
  }

  /** The standardised number: "+91" in front, unless it is there already,
      with the leading zeros of the local number dropped. */
  function NormalizePhone(s: string): (r: string)
    ensures StartsWith(r, "+91")
    ensures StartsWith(s, "+91") ==> r == s
    ensures !StartsWith(s, "+91") ==> r == "+91" + StripZeros(s)
  {
    if StartsWith(s, "+91") then s else "+91" + StripZeros(s)
  }

  /** Standardising twice is standardising once. */
  lemma NormalizeIdempotent(s: string)
    ensures NormalizePhone(NormalizePhone(s)) == NormalizePhone(s)
  {
  }

  /** The first contact, in table order, whose lower-cased name contains
      `q`; the two `LIKE` patterns of the query amount to that. */
  function FirstMatch(contacts: seq<Contact>, q: string): (r: Option<Contact>)
    ensures r.Some? ==> r.value in contacts && Contains(Lower(r.value.name), q)
    ensures r.None? <==> forall c :: c in contacts ==> !Contains(Lower(c.name), q)
    ensures r.Some? ==> exists i :: (0 <= i < |contacts| && contacts[i] == r.value
      && forall j :: 0 <= j < i ==> !Contains(Lower(contacts[j].name), q))
  {
    if |contacts| == 0 then None
    else if Contains(Lower(contacts[0].name), q) then Some(contacts[0])
    else
      var r := FirstMatch(contacts[1..], q);
      assert forall c :: c in contacts[1..] ==> c in contacts;
      if r.Some? then
        var i :| 0 <= i < |contacts[1..]| && contacts[1..][i] == r.value
          && forall j :: 0 <= j < i ==> !Contains(Lower(contacts[1..][j].name), q);
        assert contacts[i + 1] == r.value;
        r
      else r
  }

  /** What `findContact` returns: the standardised number and the name
      searched for, or `(None, None)`. */
  datatype Lookup = Lookup(found: Option<(string, string)>, said: seq<Effect>)

  /** The name `findContact` searches for. */
  function ContactQuery(query: string, w: World): string {
    Lower(Strip(w.removeWords(query)))
  }

  /** `findContact(query)`. */
  function FindContact(query: string, w: World): (r: Lookup)
    ensures r.found.Some? ==> |r.found.value.0| >= 3 && StartsWith(r.found.value.0, "+91")
    ensures r.found.Some? ==> r.found.value.1 == ContactQuery(query, w) && r.said == []
    ensures r.found.None? <==> w.dbFails || FirstMatch(w.contacts, ContactQuery(query, w)).None?
    ensures r.found.Some? ==>
      r.found.value.0 == NormalizePhone(FirstMatch(w.contacts, ContactQuery(query, w)).value.phone)
    ensures r.found.None? ==>
      r.said == (if w.dbFails then [Speak(ContactError)]
                 else [Speak("Contact " + ContactQuery(query, w) + " not found.")])
  {
    var q := ContactQuery(query, w);
    if w.dbFails then Lookup(None, [Speak(ContactError)])
    else match FirstMatch(w.contacts, q)
      case Some(c) => Lookup(Some((NormalizePhone(c.phone), q)), [])
      case None => Lookup(None, [Speak("Contact " + q + " not found.")])
  }

  // ---------------------------------------------------------------------
  // whatsApp
  // ---------------------------------------------------------------------

  /** Python's `shlex.quote`: characters that need no quoting. */
  predicate SafeChar(c: char) {
    || 'a' <= c <= 'z' || 'A' <= c <= 'Z' || '0' <= c <= '9'
    || c in {'_', '@', '%', '+', '=', ':', ',', '.', '/', '-'}
  }

  predicate AllSafe(s: string) {
    forall i :: 0 <= i < |s| ==> SafeChar(s[i])
  }

  const QuoteInQuotes: string := ['\'', '"', '\'', '"', '\'']

  /** Every `'` becomes `'"'"'`: close the quotes, a double-quoted `'`,
      reopen. */
  function EscapeQuotes(s: string): string {
    if |s| == 0 then []
    else (if s[0] == '\'' then QuoteInQuotes else [s[0]]) + EscapeQuotes(s[1..])
  }

  /** `shlex.quote(s)`, which `whatsApp` applies to the text it puts in the URL. */
  function Quote(s: string): string {
    if |s| == 0 then "''"
    else if AllSafe(s) then s
    else "'" + EscapeQuotes(s) + "'"
  }

  function Cons(c: char, r: Option<string>): Option<string> {
    if r.Some? then Some([c] + r.value) else None
  }

  /** How a POSIX shell reads one word made of bare safe characters,
      single-quoted runs and double-quoted runs without escapes; `None`
      for anything else. */
  function ReadWord(w: string): Option<string>
    decreases |w|, 0
  {
    if |w| == 0 then Some([])
    else if w[0] == '\'' then ReadSingle(w[1..])
    else if w[0] == '"' then ReadDouble(w[1..])
    else if SafeChar(w[0]) then Cons(w[0], ReadWord(w[1..]))
    else None
  }

  function ReadSingle(w: string): Option<string>
    decreases |w|, 1
  {
    if |w| == 0 then None
    else if w[0] == '\'' then ReadWord(w[1..])
    else Cons(w[0], ReadSingle(w[1..]))
  }

  function ReadDouble(w: string): Option<string>
    decreases |w|, 1
  {
    if |w| == 0 then None
    else if w[0] == '"' then ReadWord(w[1..])
    else if w[0] in {'\\', '$', '`'} then None
    else Cons(w[0], ReadDouble(w[1..]))
  }

  lemma {:induction false} ReadSafe(s: string)
    requires AllSafe(s)
    ensures ReadWord(s) == Some(s)
    decreases |s|
  {
    if |s| > 0 {
      ReadSafe(s[1..]);
      assert [s[0]] + s[1..] == s;
    }
  }

  /** Inside single quotes, `'"'"'` reads as one quote and the single
      quotes go on. */
  lemma ReadQuoteEscape(tail: string)
    ensures ReadSingle(QuoteInQuotes + tail) == Cons('\'', ReadSingle(tail))
  {
    var w := QuoteInQuotes + tail;
    assert w[0] == '\'' && w[1] == '"' && w[2] == '\'' && w[3] == '"' && w[4] == '\'';
    assert w[5..] == tail;
    assert ReadWord(w[4..]) == ReadSingle(w[5..]);
    assert ReadDouble(w[3..]) == ReadWord(w[4..]);
    assert ReadDouble(w[2..]) == Cons('\'', ReadDouble(w[3..]));
    assert ReadWord(w[1..]) == ReadDouble(w[2..]);
  }

  /** Inside single quotes, any other character reads as itself. */
  lemma ReadSingleStep(c: char, tail: string)
    requires c != '\''
    ensures ReadSingle([c] + tail) == Cons(c, ReadSingle(tail))
  {
    assert ([c] + tail)[1..] == tail;
  }

  /** The closing quote ends the single-quoted part; the word goes on. */
  lemma ReadClosingQuote(rest: string)
    ensures ReadSingle("'" + rest) == ReadWord(rest)
  {
    assert ("'" + rest)[1..] == rest;
  }

  lemma {:induction false} ReadEscaped(s: string, rest: string)
    requires ReadWord(rest).Some?
    ensures ReadSingle(EscapeQuotes(s) + "'" + rest) == Some(s + ReadWord(rest).value)
    decreases |s|
  {
    var after := ReadWord(rest).value;
    if |s| == 0 {
      assert EscapeQuotes(s) + "'" + rest == "'" + rest;
      ReadClosingQuote(rest);
      assert s + after == after;
    } else {
      var tail := EscapeQuotes(s[1..]) + "'" + rest;
      ReadEscaped(s[1..], rest);
      if s[0] == '\'' {
        assert EscapeQuotes(s) + "'" + rest == QuoteInQuotes + tail;
        ReadQuoteEscape(tail);
      } else {
        assert EscapeQuotes(s) + "'" + rest == [s[0]] + tail;
        ReadSingleStep(s[0], tail);
      }
      assert [s[0]] + (s[1..] + after) == s + after;
    }
  }

  /** What `shlex.quote` is for: a POSIX shell reading the quoted word gets
      back exactly the text that was quoted. */
  lemma QuoteRoundTrip(s: string)
    ensures ReadWord(Quote(s)) == Some(s)
  {
    if |s| == 0 {
      var w := Quote(s);
      assert w[0] == '\'' && w[1..][0] == '\'' && w[1..][1..] == [];
      assert ReadWord(w) == ReadSingle(w[1..]) == ReadWord(w[1..][1..]);
    } else if AllSafe(s) {
      ReadSafe(s);
    } else {
      ReadEscaped(s, "");
      assert Quote(s) == ['\''] + (EscapeQuotes(s) + "'" + "");
      assert s + "" == s;
    }
  }

  /** The Tab presses before Enter: 12 for a message, 7 for a call and 6
      for anything else. */
  function TargetTab(flag: string): (n: nat)
    ensures n == 12 || n == 7 || n == 6
  {
    if flag == "message" then 12 else if flag == "call" then 7 else 6
  }

  /** The text sent: the message for 'message', nothing for a call. */
  function SentText(flag: string, message: string): string {
    if flag == "message" then message else ""
  }

  function Confirmation(flag: string, name: string): string {
    if flag == "message" then "Message sent successfully to " + name
    else if flag == "call" then "Calling to " + name
    else "Starting video call with " + name
  }

  /** The URL `whatsApp` opens, with `field` as the value of its `text` field. */
  function UrlWithText(phone: string, field: string): string {
    "whatsapp://send?phone=" + phone + "&text=" + field
  }

  /** The URL as the source builds it: the text is shell-quoted. */
  function ShellQuotedUrl(phone: string, text: string): string {
    UrlWithText(phone, Quote(text))
  }

  lemma QuoteSpace()
    ensures Quote("a b") == "'a b'"
  {
    assert "a b"[1] == ' ' && !SafeChar(' ');
    assert EscapeQuotes("a b") == "a b" by {
      assert "a b"[1..] == " b" && " b"[1..] == "b" && "b"[1..] == "";
    }
  }

  lemma QuoteAmpersand()
    ensures Quote("a&b") == "'a&b'"
  {
    assert "a&b"[1] == '&' && !SafeChar('&');
    assert EscapeQuotes("a&b") == "a&b" by {
      assert "a&b"[1..] == "&b" && "&b"[1..] == "b" && "b"[1..] == "";
    }
  }

  /** Shell quoting is not URL encoding: the application reading the `text`
      field of the URL the source builds gets the quotes as part of the
      message, and a `&` in the message cuts it short. */
  lemma ShellQuotingInUrl(phone: string)
    ensures ShellQuotedUrl(phone, "a b") == UrlWithText(phone, "'a b'")
    ensures UrlQuote.ReceivedText("'a b'") == Some("'a b'")
    ensures ShellQuotedUrl(phone, "a&b") == UrlWithText(phone, "'a&b'")
    ensures UrlQuote.ReceivedText("'a&b'") == Some("'a")
  {
    QuoteSpace();
    QuoteAmpersand();
    assert UrlQuote.FieldValue("'a&b'") == UrlQuote.FieldValue("'a") by {
      assert "'a&b'"[1..] == "a&b'" && "a&b'"[1..] == "&b'";
      assert "'a"[1..] == "a" && "a"[1..] == "";
    }
    UrlQuote.PlainText("'a");
    UrlQuote.PlainText("'a b'");
  }

  /** The URL `whatsApp` is meant to open: the text percent-encoded, as
      `urllib.parse.quote` does, so that the application reads it back
      unchanged (`UrlQuote.PercentRoundTrip`). */
  function WhatsAppUrl(phone: string, text: string): string {
    UrlWithText(phone, UrlQuote.PercentEncode(text))
  }

  function StartCommand(url: string): string {
    "start \"\" \"" + url + "\""
  }

  function Presses(n: nat): (r: seq<Effect>)
    ensures |r| == n && forall i :: 0 <= i < n ==> r[i] == Hotkey("tab")
  {
    if n == 0 then [] else Presses(n - 1) + [Hotkey("tab")]
  }

  const WhatsAppUnexpected: string := "An unexpected error occurred with WhatsApp."

  /** What `whatsApp(Phone, message, flag, name)` does. A failing `start`
      ends it after the first run; a key press that raises ends it with the
      handler of any other exception, after the presses made before it. */
  function WhatsAppTrace(phone: string, message: string, flag: string, name: string, shellFails: bool, keysFail: Option<nat>): seq<Effect> {
    if phone == "" then [Speak("Cannot perform WhatsApp action for " + name + " due to missing phone number.")]
    else
      var command := StartCommand(ShellQuotedUrl(phone, SentText(flag, message)));
      if shellFails then [Shell(command), Speak("Sorry, I couldn't complete the WhatsApp action for " + name + ".")]
      else if keysFail.Some? && keysFail.value <= TargetTab(flag) then
        [Shell(command), Shell(command)] + Presses(keysFail.value) + [Speak(WhatsAppUnexpected)]
      else [Shell(command), Shell(command)] + Presses(TargetTab(flag)) + [Hotkey("enter"), Speak(Confirmation(flag, name))]
  }

  /** `whatsApp`, with its loop of Tab presses. */
  method WhatsApp(phone: string, message: string, flag: string, name: string, shellFails: bool, keysFail: Option<nat>)
    returns (trace: seq<Effect>)
    ensures trace == WhatsAppTrace(phone, message, flag, name, shellFails, keysFail)
  {
    if phone == "" {
      return [Speak("Cannot perform WhatsApp action for " + name + " due to missing phone number.")];
    }
    var targetTab := TargetTab(flag);
    var text := SentText(flag, message);
    var command := StartCommand(ShellQuotedUrl(phone, text));
    trace := [Shell(command)];
    if shellFails {
      return trace + [Speak("Sorry, I couldn't complete the WhatsApp action for " + name + ".")];
    }
    trace := trace + [Shell(command)];
    var i := 0;
    while i < targetTab
      invariant 0 <= i <= targetTab
      invariant trace == [Shell(command), Shell(command)] + Presses(i)
      invariant keysFail.Some? ==> i <= keysFail.value
    {
      if keysFail == Some(i) {
        return trace + [Speak(WhatsAppUnexpected)];
      }
      trace := trace + [Hotkey("tab")];
      i := i + 1;
    }
    if keysFail == Some(targetTab) {
      return trace + [Speak(WhatsAppUnexpected)];
    }
    trace := trace + [Hotkey("enter"), Speak(Confirmation(flag, name))];
    Ui.Regroup2([Shell(command), Shell(command)] + Presses(targetTab), [Hotkey("enter")], [Speak(Confirmation(flag, name))]);
  }

  function CountOf(trace: seq<Effect>, e: Effect): nat {
    if |trace| == 0 then 0 else (if trace[0] == e then 1 else 0) + CountOf(trace[1..], e)
  }

  lemma {:induction false} CountAppend(a: seq<Effect>, b: seq<Effect>, e: Effect)
    ensures CountOf(a + b, e) == CountOf(a, e) + CountOf(b, e)
    decreases |a|
  {
    if |a| == 0 {
      assert a + b == b;
    } else {
      assert (a + b)[1..] == a[1..] + b;
      CountAppend(a[1..], b, e);
    }
  }

  lemma {:induction false} CountPresses(n: nat, e: Effect)
    ensures CountOf(Presses(n), e) == if e == Hotkey("tab") then n else 0
    decreases n
  {
    if n > 0 {
      CountPresses(n - 1, e);
      CountAppend(Presses(n - 1), [Hotkey("tab")], e);
      assert CountOf([Hotkey("tab")], e) == if e == Hotkey("tab") then 1 else 0;
    }
  }

  /** When the shell works, exactly `TargetTab(flag)` Tab presses come
      before a single Enter, which is followed only by the confirmation;
      the text sent for a call is empty. */
  lemma TabsThenEnter(phone: string, message: string, flag: string, name: string)
    requires phone != ""
    ensures var t := WhatsAppTrace(phone, message, flag, name, false, None);
      && CountOf(t, Hotkey("tab")) == TargetTab(flag)
      && CountOf(t, Hotkey("enter")) == 1
      && t[|t| - 2] == Hotkey("enter")
      && forall i :: 0 <= i < |t| && t[i] == Hotkey("tab") ==> i < |t| - 2
  {
    var command := StartCommand(ShellQuotedUrl(phone, SentText(flag, message)));
    var head := [Shell(command), Shell(command)];
    var tail := [Hotkey("enter"), Speak(Confirmation(flag, name))];
    var n := TargetTab(flag);
    CountAppend(head + Presses(n), tail, Hotkey("tab"));
    CountAppend(head, Presses(n), Hotkey("tab"));
    CountPresses(n, Hotkey("tab"));
    CountAppend(head + Presses(n), tail, Hotkey("enter"));
    CountAppend(head, Presses(n), Hotkey("enter"));
    CountPresses(n, Hotkey("enter"));
    assert CountOf(head, Hotkey("tab")) == 0 && CountOf(head, Hotkey("enter")) == 0;
    assert tail[1..][1..] == [];
    assert CountOf(tail, Hotkey("tab")) == 0 && CountOf(tail, Hotkey("enter")) == 1;
  }

  /** A key press that raises cuts the run short: only the Tabs before it
      are pressed, Enter never is, and the apology of the generic handler
      ends the trace. */
  lemma KeyFailureStops(phone: string, message: string, flag: string, name: string, k: nat)
    requires phone != "" && k <= TargetTab(flag)
    ensures var t := WhatsAppTrace(phone, message, flag, name, false, Some(k));
      && CountOf(t, Hotkey("tab")) == k
      && CountOf(t, Hotkey("enter")) == 0
      && t[|t| - 1] == Speak(WhatsAppUnexpected)
  {
    var command := StartCommand(ShellQuotedUrl(phone, SentText(flag, message)));
    var head := [Shell(command), Shell(command)];
    var tail := [Speak(WhatsAppUnexpected)];
    CountAppend(head + Presses(k), tail, Hotkey("tab"));
    CountAppend(head, Presses(k), Hotkey("tab"));
    CountPresses(k, Hotkey("tab"));
    CountAppend(head + Presses(k), tail, Hotkey("enter"));
    CountAppend(head, Presses(k), Hotkey("enter"));
    CountPresses(k, Hotkey("enter"));
    assert CountOf(head, Hotkey("tab")) == 0 && CountOf(head, Hotkey("enter")) == 0;
    assert CountOf(tail, Hotkey("tab")) == 0 && CountOf(tail, Hotkey("enter")) == 0;
  }

  /** Only a message is carried in the URL. A call clears the text, but the
      cleared text is still shell-quoted, so the `text` field of the URL is
      `''` and the application reads two apostrophes; with the intended
      encoding (`WhatsAppUrl`) the field is empty. */
  lemma CallsSendQuotedEmpty(phone: string, message: string, flag: string, name: string)
    requires phone != "" && flag != "message"
    ensures WhatsAppTrace(phone, message, flag, name, false, None)[0] == Shell(StartCommand(UrlWithText(phone, "''")))
    ensures UrlQuote.ReceivedText("''") == Some("''")
    ensures WhatsAppUrl(phone, SentText(flag, message)) == UrlWithText(phone, "")
  {
    UrlQuote.PlainText("''");
  }

  // ---------------------------------------------------------------------
  // chatBot
  // ---------------------------------------------------------------------

  const SystemPrompt: string := "You are Jarvis, a helpful and concise AI assistant."
  const NoKeyAnswer: string := "OpenAI API key is not configured. Please set it up to use the advanced chat features."
  const ClientAnswer: string := "Sorry, there was an issue initializing the smart chat service."

  /** The request: the system prompt, the history as given, the query. */
  function ChatMessages(query: string, history: seq<Message>): (r: seq<Message>)
    ensures |r| == |history| + 2
    ensures r[0] == Message("system", SystemPrompt) && r[|r| - 1] == Message("user", query)
    ensures r[1..|r| - 1] == history
  {
    [Message("system", SystemPrompt)] + history + [Message("user", query)]
  }

  /** A key is found, the client is made, and the completion call raises. */
  predicate ChatRaises(query: string, history: seq<Message>, w: World) {
    && ApiService.GetOpenAIApiKey(w.env, w.files).Some? && !w.clientFails
    && w.chat(ChatMessages(query, history)).Raises?
  }

  /** `chatBot(query, conversation_history)`, as written. When the
      completion call raises, the first handler's class expression
      `OpenAI.APIConnectionError` is evaluated; `OpenAI` is the client class,
      which has no such attribute (the library defines its exceptions at
      module level), so the `AttributeError` this raises leaves `chatBot`
      whatever the original exception was, and none of the handlers' answers
      is ever given. */
  function ChatBot(query: string, history: seq<Message>, w: World): (r: ChatOutcome)
    ensures ApiService.GetOpenAIApiKey(w.env, w.files).None? ==> r == Answered(NoKeyAnswer)
    ensures ApiService.GetOpenAIApiKey(w.env, w.files).Some? && w.clientFails ==> r == Answered(ClientAnswer)
    ensures (ApiService.GetOpenAIApiKey(w.env, w.files).Some? && !w.clientFails
      && w.chat(ChatMessages(query, history)).Completed?) ==>
      r == Answered(Strip(w.chat(ChatMessages(query, history)).content))
  {
    if ApiService.GetOpenAIApiKey(w.env, w.files).None? then Answered(NoKeyAnswer)
    else if w.clientFails then Answered(ClientAnswer)
    else match w.chat(ChatMessages(query, history))
      case Completed(content) => Answered(Strip(content))
      case Raises(_) => Escapes
  }

  /** The answer of the handler meant for each exception. */
  function ErrorAnswer(e: ChatError): string {
    match e
    case ConnectionFailed => "Sorry, I couldn't connect to the OpenAI service. Please check your internet connection."
    case RateLimited => "Sorry, the smart chat service is experiencing high demand. Please try again later."
    case AuthenticationFailed => "OpenAI API authentication failed. Please check your API key."
    case ServiceFailed => "Sorry, an unexpected error occurred with the smart chat service."
    case OtherFailure => "Sorry, I encountered an unexpected issue while trying to process your chat request."
  }

  /** `chatBot` as its handlers are evidently meant to work, with the
      exception classes taken from the library module: every call answers,
      and a raising completion gets the answer of its own handler. */
  function ChatBotIntended(query: string, history: seq<Message>, w: World): (r: string)
    ensures (ApiService.GetOpenAIApiKey(w.env, w.files).Some? && !w.clientFails
      && w.chat(ChatMessages(query, history)).Raises?) ==>
      r == ErrorAnswer(w.chat(ChatMessages(query, history)).error)
  {
    if ApiService.GetOpenAIApiKey(w.env, w.files).None? then NoKeyAnswer
    else if w.clientFails then ClientAnswer
    else match w.chat(ChatMessages(query, history))
      case Completed(content) => Strip(content)
      case Raises(e) => ErrorAnswer(e)
  }

  /** The program and the intended `chatBot` differ exactly where the
      completion raises: there the program's call escapes, and otherwise it
      answers what the intended one answers. */
  lemma ChatBotAsWritten(query: string, history: seq<Message>, w: World)
    ensures ChatBot(query, history, w).Escapes? <==> ChatRaises(query, history, w)
    ensures ChatBot(query, history, w).Answered? ==>
      ChatBot(query, history, w).answer == ChatBotIntended(query, history, w)
    ensures ChatBot(query, history, w).Escapes? ==>
      ChatBotIntended(query, history, w) == ErrorAnswer(w.chat(ChatMessages(query, history)).error)
  {
  }

  /** `PlayYoutube(query)`. */
  function PlayYoutube(query: string, w: World): seq<Effect> {
    var term := w.youtubeTerm(query);
    [Speak("Playing " + term + " on YouTube"), PlayOnYoutube(term)]
  }
}
