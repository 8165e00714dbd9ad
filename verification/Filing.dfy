/** The other end of the conversation: a client that files of each answer what
    was really heard. `On` is the client on values, one event at a time; the
    class computes it on its fields. */
module Filing {

  datatype Role = User | AssistantRole | Other

  datatype Message = Message(role: Role, content: string, item: string)

  /** A synthesis unit, and the sample where its audio starts. */
  datatype Unit = Unit(text: string, start: nat)

  datatype Ui = Idle | Listening | Thinking | Speaking

  /** What the host hears of an answer: its start, then its end, with the units
      it had, the samples played by then and what was filed; or its end by a
      cleared conversation, which files nothing. */
  datatype Callback = Started | Ended(units: seq<Unit>, played: nat, filed: string) | Dropped

  datatype Client = Client(
    ui: Ui,
    generation: int,
    queued: nat,
    played: nat,
    units: seq<Unit>,
    answerDone: bool,
    answering: bool,
    history: seq<Message>,
    userItem: string,
    calls: seq<Callback>,
    pushed: seq<seq<Message>>)

  /** Server events, reports of the player, and what the host asks for. */
  datatype Event =
    | SpeechStarted
    | Transcript(text: string, item: string)
    | Created
    | TextDelta
    | ToolCall
    | UnitDelta(text: string)
    | AudioDelta(samples: nat)
    | CancelledEvent
    | DoneEvent
    | Played(generation: int, played: nat)
    | Cancel
    | Clear
    | SetHistory(messages: seq<Message>)
    | Connected
    | Reconnect
    | Teardown

  // ------------------------------------------------------------ closing

  /** The units whose audio started playing. */
  function Heard(units: seq<Unit>, played: nat): seq<Unit> {
    if units == [] then []
    else
      var rest := Heard(units[1..], played);
      if units[0].start < played then [units[0]] + rest else rest
  }

  function JoinTexts(units: seq<Unit>): string {
    if units == [] then ""
    else if |units| == 1 then units[0].text
    else units[0].text + " " + JoinTexts(units[1..])
  }

  function Content(trim: string -> string, units: seq<Unit>, played: nat): string {
    trim(JoinTexts(Heard(units, played)))
  }

  function Push(c: Client): Client {
    c.(pushed := c.pushed + [c.history])
  }

  function Close(trim: string -> string, c: Client): Client {
    if !c.answering then c
    else
      var content := Content(trim, c.units, c.played);
      Push(c.(
        units := [],
        answerDone := false,
        answering := false,
        history := if content != "" then c.history + [Message(AssistantRole, content, "")] else c.history,
        calls := c.calls + [Ended(c.units, c.played, content)]))
  }

  function Bare(m: Message): Message {
    m.(item := "")
  }

  function Forget(c: Client): Client {
    c.(userItem := "", history := seq(|c.history|, i requires 0 <= i < |c.history| => Bare(c.history[i])))
  }

  function Replace(c: Client, messages: seq<Message>): Client {
    Push(c.(history := seq(|messages|, i requires 0 <= i < |messages| => Bare(messages[i])), userItem := ""))
  }

  // ------------------------------------------------------------ events

  /** A later transcript of the turn last filed. */
  predicate Revises(c: Client, item: string) {
    item != "" && item == c.userItem && c.history != [] && c.history[|c.history| - 1].role == User
  }

  function On(trim: string -> string, c: Client, e: Event): Client {
    match e
    case SpeechStarted =>
      (if c.ui == Speaking || c.ui == Thinking then Close(trim, c) else c).(ui := Listening)
    case Transcript(text, item) =>
      var last := |c.history| - 1;
      c.(history := if Revises(c, item) then c.history[last := c.history[last].(content := text)]
                    else c.history + [Message(User, text, item)],
         userItem := item)
    case Created =>
      var d := Close(trim, c);
      d.(answering := true, answerDone := false, generation := d.generation + 1, queued := 0, played := 0,
         ui := Thinking, calls := d.calls + [Started])
    case TextDelta => c
    case ToolCall => c
    case UnitDelta(text) => if c.answering then c.(units := c.units + [Unit(text, c.queued)]) else c
    case AudioDelta(n) => if c.answering then c.(queued := c.queued + n, ui := Speaking) else c
    case CancelledEvent => Close(trim, c).(ui := Listening)
    case DoneEvent =>
      var d := c.(answerDone := true);
      if d.played >= d.queued then Close(trim, d).(ui := Listening) else d
    case Played(generation, played) =>
      if generation != c.generation then c
      else
        var d := c.(played := played);
        if d.answerDone && d.played >= d.queued then Close(trim, d).(ui := Listening) else d
    case Cancel => Close(trim, c).(ui := Listening)
    case Clear =>
      var d := if c.answering then
                 c.(units := [], answerDone := false, answering := false, calls := c.calls + [Dropped], ui := Listening)
               else c;
      Replace(d, [])
    case SetHistory(messages) => Replace(c, messages)
    case Connected => Push(c)
    case Reconnect => Forget(Close(trim, c)).(ui := Listening)
    case Teardown => Forget(Close(trim, c)).(ui := Idle)
  }

  function Fresh(): Client {
    Client(Idle, 0, 0, 0, [], false, false, [], "", [], [])
  }

  function Run(trim: string -> string, c: Client, events: seq<Event>): Client {
    if events == [] then c else On(trim, Run(trim, c, events[..|events| - 1]), events[|events| - 1])
  }

  // ------------------------------------------------------------ the client

  class S2SClient {
    const trim: string -> string
    var ui: Ui
    var generation: int
    var queued: nat
    var played: nat
    var units: seq<Unit>
    var answerDone: bool
    var answering: bool
    var history: seq<Message>
    var userItem: string
    ghost var calls: seq<Callback>
    ghost var pushed: seq<seq<Message>>

    ghost function Value(): Client
      reads this
    {
      Client(ui, generation, queued, played, units, answerDone, answering, history, userItem, calls, pushed)
    }

    constructor (trim: string -> string)
      ensures this.trim == trim && Value() == Fresh()
    {
      this.trim := trim;
      ui, generation, queued, played, units := Idle, 0, 0, 0, [];
      answerDone, answering, history, userItem := false, false, [], "";
      calls, pushed := [], [];
    }

    method PushHistory()
      modifies this
      ensures Value() == Push(old(Value())) == On(trim, old(Value()), Connected)
    {
      pushed := pushed + [history];
    }

    /** Closes the answer in flight with what was actually heard. */
    method CloseAnswer()
      modifies this
      ensures Value() == Close(trim, old(Value()))
    {
      if !answering {
        return;
      }
      var heard := Filter(units, played);
      var content := trim(JoinTexts(heard));
      calls := calls + [Ended(units, played, content)];
      units := [];
      answerDone := false;
      answering := false;
      if content != "" {
        history := history + [Message(AssistantRole, content, "")];
      }
      PushHistory();
    }

    method Forgets()
      modifies this
      ensures Value() == Forget(old(Value()))
    {
      userItem := "";
      history := seq(|history|, i requires 0 <= i < |history| reads this => Bare(history[i]));
    }

    /** Seeds the conversation. */
    method Replaces(messages: seq<Message>)
      modifies this
      ensures Value() == Replace(old(Value()), messages) == On(trim, old(Value()), SetHistory(messages))
    {
      history := seq(|messages|, i requires 0 <= i < |messages| => Bare(messages[i]));
      userItem := "";
      PushHistory();
    }

    /** A later transcript of the turn last filed replaces its message. */
    method Transcribed(text: string, item: string)
      modifies this
      ensures Value() == On(trim, old(Value()), Transcript(text, item))
    {
      var n := |history|;
      if item != "" && item == userItem && n > 0 && history[n - 1].role == User {
        history := history[n - 1 := history[n - 1].(content := text)];
      } else {
        history := history + [Message(User, text, item)];
      }
      userItem := item;
    }

    method BeginAnswer()
      modifies this
      ensures Value() == On(trim, old(Value()), Created)
    {
      hide Close;
      CloseAnswer();
      answering := true;
      answerDone := false;
      generation := generation + 1;
      queued := 0;
      played := 0;
      calls := calls + [Started];
      ui := Thinking;
    }

    method OnServerEvent(e: Event)
      requires e.SpeechStarted? || e.Transcript? || e.Created? || e.TextDelta? || e.ToolCall? || e.UnitDelta?
            || e.AudioDelta? || e.CancelledEvent? || e.DoneEvent?
      modifies this
      ensures Value() == On(trim, old(Value()), e)
    {
      hide Close;
      match e {
        case SpeechStarted =>
          if ui == Speaking || ui == Thinking {
            CloseAnswer();
          }
          ui := Listening;
        case Transcript(text, item) =>
          Transcribed(text, item);
        case Created =>
          BeginAnswer();
        case UnitDelta(text) =>
          if answering {
            units := units + [Unit(text, queued)];
          }
        case AudioDelta(n) =>
          if answering {
            queued := queued + n;
            ui := Speaking;
          }
        case CancelledEvent =>
          CloseAnswer();
          ui := Listening;
        case DoneEvent =>
          answerDone := true;
          if played >= queued {
            CloseAnswer();
            ui := Listening;
          }
        case _ =>
      }
    }

    /** A report of the player; one of an earlier answer is ignored. */
    method OnPlayed(reported: int, samples: nat)
      modifies this
      ensures Value() == On(trim, old(Value()), Played(reported, samples))
    {
      if reported != generation {
        return;
      }
      played := samples;
      if answerDone && played >= queued {
        CloseAnswer();
        ui := Listening;
      }
    }

    /** The user takes the floor at this end. */
    method CancelAnswer()
      modifies this
      ensures Value() == On(trim, old(Value()), Cancel)
    {
      CloseAnswer();
      ui := Listening;
    }

    /** Forgets the conversation; nothing of an answer in flight is filed. */
    method ClearHistory()
      modifies this
      ensures Value() == On(trim, old(Value()), Clear)
    {
      hide Replace;
      if answering {
        units := [];
        answerDone := false;
        answering := false;
        calls := calls + [Dropped];
        ui := Listening;
      }
      Replaces([]);
    }

    method OnReconnect()
      modifies this
      ensures Value() == On(trim, old(Value()), Reconnect)
    {
      CloseAnswer();
      Forgets();
      ui := Listening;
    }

    method TearDown()
      modifies this
      ensures Value() == On(trim, old(Value()), Teardown)
    {
      CloseAnswer();
      Forgets();
      ui := Idle;
    }
  }

  method Filter(units: seq<Unit>, played: nat) returns (heard: seq<Unit>)
    ensures heard == Heard(units, played)
  {
    heard := [];
    var i := 0;
    while i < |units|
      invariant 0 <= i <= |units|
      invariant Heard(units, played) == heard + Heard(units[i..], played)
    {
      assert units[i..][1..] == units[i + 1..];
      if units[i].start < played {
        heard := heard + [units[i]];
      }
      i := i + 1;
    }
  }

  // ------------------------------------------------------------ every run

  /** Units come in the order of their audio. */
  predicate Sorted(units: seq<Unit>) {
    forall i, j :: 0 <= i < j < |units| ==> units[i].start <= units[j].start
  }

  /** Starts and ends alternate, a start first. */
  predicate Alternates(calls: seq<Callback>) {
    forall i :: 0 <= i < |calls| ==> (calls[i] == Started <==> i % 2 == 0)
  }

  /** What was filed of an answer is its units up to the first that never
      started to play. */
  ghost predicate FiledPrefix(trim: string -> string, call: Callback) {
    call.Ended? ==> exists n :: PlayedUpTo(call.units, call.played, n) && call.filed == trim(JoinTexts(call.units[..n]))
  }

  /** The first n units started playing, and no later one did. */
  predicate PlayedUpTo(units: seq<Unit>, played: nat, n: int) {
    && 0 <= n <= |units|
    && (forall i :: 0 <= i < n ==> units[i].start < played)
    && (forall i :: n <= i < |units| ==> units[i].start >= played)
  }

  ghost predicate Inv(trim: string -> string, c: Client) {
    && Sorted(c.units) && (forall i :: 0 <= i < |c.units| ==> c.units[i].start <= c.queued)
    && (!c.answering ==> c.units == [])
    && Alternates(c.calls) && (c.answering <==> |c.calls| % 2 == 1)
    && (forall i :: 0 <= i < |c.calls| ==> FiledPrefix(trim, c.calls[i]))
  }

  lemma {:induction false} NoneHeard(units: seq<Unit>, played: nat)
    requires forall i :: 0 <= i < |units| ==> units[i].start >= played
    ensures Heard(units, played) == []
  {
    if units != [] {
      NoneHeard(units[1..], played);
    }
  }

  lemma {:induction false} HeardIsPrefix(units: seq<Unit>, played: nat) returns (n: nat)
    requires Sorted(units)
    ensures PlayedUpTo(units, played, n) && Heard(units, played) == units[..n]
  {
    if units == [] || units[0].start >= played {
      n := 0;
      NoneHeard(units, played);
    } else {
      var rest := units[1..];
      var m := HeardIsPrefix(rest, played);
      assert forall i :: 0 < i < |units| ==> units[i] == rest[i - 1];
      n := m + 1;
    }
  }

  lemma CloseKeepsInv(trim: string -> string, c: Client)
    requires Inv(trim, c)
    ensures Inv(trim, Close(trim, c)) && !Close(trim, c).answering
  {
    if c.answering {
      var n := HeardIsPrefix(c.units, c.played);
      var call := Ended(c.units, c.played, Content(trim, c.units, c.played));
      assert FiledPrefix(trim, call);
      hide Heard, JoinTexts, FiledPrefix;
    }
  }

  lemma CreatedKeepsInv(trim: string -> string, c: Client)
    requires Inv(trim, c)
    ensures Inv(trim, On(trim, c, Created))
  {
    CloseKeepsInv(trim, c);
    assert FiledPrefix(trim, Started);
    hide Close, FiledPrefix;
  }

  lemma ClearKeepsInv(trim: string -> string, c: Client)
    requires Inv(trim, c)
    ensures Inv(trim, On(trim, c, Clear))
  {
  }

  lemma DoneKeepsInv(trim: string -> string, c: Client)
    requires Inv(trim, c)
    ensures Inv(trim, On(trim, c, DoneEvent))
  {
    CloseKeepsInv(trim, c.(answerDone := true));
    hide Close, FiledPrefix;
  }

  lemma PlayedKeepsInv(trim: string -> string, c: Client, e: Event)
    requires Inv(trim, c) && e.Played?
    ensures Inv(trim, On(trim, c, e))
  {
    CloseKeepsInv(trim, c.(played := e.played));
    hide Close, FiledPrefix;
  }

  lemma OthersKeepInv(trim: string -> string, c: Client, e: Event)
    requires Inv(trim, c) && !e.Created? && !e.Clear? && !e.DoneEvent? && !e.Played?
    ensures Inv(trim, On(trim, c, e))
  {
    hide Close, FiledPrefix, Revises;
    CloseKeepsInv(trim, c);
  }

  lemma OnKeepsInv(trim: string -> string, c: Client, e: Event)
    requires Inv(trim, c)
    ensures Inv(trim, On(trim, c, e))
  {
    hide Inv;
    if e.Created? {
      CreatedKeepsInv(trim, c);
    } else if e.Clear? {
      ClearKeepsInv(trim, c);
    } else if e.DoneEvent? {
      DoneKeepsInv(trim, c);
    } else if e.Played? {
      PlayedKeepsInv(trim, c, e);
    } else {
      OthersKeepInv(trim, c, e);
    }
  }

  // ------------------------------------------------------------ what is filed

  /** The answers a list of messages holds. */
  function Answers(history: seq<Message>): seq<string> {
    if history == [] then []
    else
      var last := history[|history| - 1];
      Answers(history[..|history| - 1]) + (if last.role == AssistantRole then [last.content] else [])
  }

  /** A text that says something. */
  function Said(text: string): seq<string> {
    if text != "" then [text] else []
  }

  /** The answers the host was told were filed, those that say something. */
  function FiledTexts(calls: seq<Callback>): seq<string> {
    if calls == [] then []
    else
      var last := calls[|calls| - 1];
      FiledTexts(calls[..|calls| - 1]) + (if last.Ended? then Said(last.filed) else [])
  }

  function Filed(history: seq<Message>, text: string): seq<Message> {
    history + (if text != "" then [Message(AssistantRole, text, "")] else [])
  }

  lemma AnswersAppend(history: seq<Message>, m: Message)
    ensures Answers(history + [m]) == Answers(history) + (if m.role == AssistantRole then [m.content] else [])
  {
    assert (history + [m])[..|history|] == history;
  }

  lemma AnswersFiled(history: seq<Message>, text: string)
    ensures Answers(Filed(history, text)) == Answers(history) + Said(text)
  {
    if text != "" {
      AnswersAppend(history, Message(AssistantRole, text, ""));
    } else {
      assert history + [] == history;
    }
  }

  lemma AnswersRevised(history: seq<Message>, text: string)
    requires history != [] && history[|history| - 1].role == User
    ensures Answers(history[|history| - 1 := history[|history| - 1].(content := text)]) == Answers(history)
  {
    var last := |history| - 1;
    assert history[last := history[last].(content := text)][..last] == history[..last];
  }

  lemma {:induction false} AnswersBare(history: seq<Message>, bare: seq<Message>)
    requires |bare| == |history| && forall i :: 0 <= i < |history| ==> bare[i] == Bare(history[i])
    ensures Answers(bare) == Answers(history)
  {
    if history != [] {
      AnswersBare(history[..|history| - 1], bare[..|history| - 1]);
    }
  }

  lemma AnswersForgotten(c: Client)
    ensures Answers(Forget(c).history) == Answers(c.history)
  {
    AnswersBare(c.history, Forget(c).history);
  }

  /** The answer in flight ends with this event, told to the host with its
      units; a cleared conversation drops it instead. */
  predicate Ends(trim: string -> string, c: Client, e: Event) {
    c.answering && !e.Clear? && (e.Created? || !On(trim, c, e).answering)
  }

  /** What was played when it ended. */
  function PlayedBy(c: Client, e: Event): nat {
    if e.Played? then e.played else c.played
  }

  /** What an event gains the host: at most one end, with the text of what was
      heard, and a start. */
  function Gained(trim: string -> string, c: Client, e: Event): seq<Callback> {
    (if Ends(trim, c, e) then [Ended(c.units, PlayedBy(c, e), Content(trim, c.units, PlayedBy(c, e)))]
     else if e.Clear? && c.answering then [Dropped] else [])
    + if e.Created? then [Started] else []
  }

  lemma CloseIs(trim: string -> string, c: Client)
    ensures var d := Close(trim, c);
            var text := Content(trim, c.units, c.played);
            if c.answering then
              && d.history == Filed(c.history, text) && d.pushed == c.pushed + [d.history]
              && d.calls == c.calls + [Ended(c.units, c.played, text)] && !d.answering
              && d.generation == c.generation && d.played == c.played
            else d == c
  {
  }

  /** The events that write the history in other ways than by filing. */
  predicate Rewrites(e: Event) {
    e.SetHistory? || e.Clear? || e.Transcript? || e.Reconnect? || e.Teardown?
  }

  /** Each event's ends and starts, and the lists pushed: every close pushes
      the list as it was with the message of the answer when it says
      something; only a new connection, a new list and a cleared one push
      otherwise. */
  lemma OnTells(trim: string -> string, c: Client, e: Event)
    ensures var d := On(trim, c, e);
            var filed := Filed(c.history, Content(trim, c.units, PlayedBy(c, e)));
            && d.calls == c.calls + Gained(trim, c, e)
            && (Ends(trim, c, e) ==> d.pushed == c.pushed + [filed])
            && (!Ends(trim, c, e) && !e.Connected? && !e.Clear? && !e.SetHistory? ==> d.pushed == c.pushed)
            && (!Rewrites(e) ==> d.history == if Ends(trim, c, e) then filed else c.history)
  {
    CloseIs(trim, c);
    CloseIs(trim, c.(answerDone := true));
    CloseIs(trim, c.(played := PlayedBy(c, e)));
    hide Close, Content, Filed, Revises;
  }

  /** The answers in the history after an event: those before it, and the text
      of an answer that ended when it says something. Only the host's own list
      or a cleared one replaces them. */
  lemma OnFiles(trim: string -> string, c: Client, e: Event)
    ensures var d := On(trim, c, e);
            Answers(d.history) ==
              match e {
                case SetHistory(messages) => Answers(messages)
                case Clear => []
                case _ => Answers(c.history)
                        + if Ends(trim, c, e) then Said(Content(trim, c.units, PlayedBy(c, e))) else []
              }
  {
    hide Content, Filed, Ends, Answers;
    if e.SetHistory? {
      AnswersBare(e.messages, On(trim, c, e).history);
    } else if e.Clear? {
      ClearedAnswers(trim, c);
    } else if e.Transcript? {
      TranscriptFiles(trim, c, e);
    } else if e.Reconnect? || e.Teardown? {
      ForgettingFiles(trim, c, e);
    } else {
      OnTells(trim, c, e);
      AnswersFiled(c.history, Content(trim, c.units, PlayedBy(c, e)));
    }
  }

  lemma ForgettingFiles(trim: string -> string, c: Client, e: Event)
    requires e.Reconnect? || e.Teardown?
    ensures Answers(On(trim, c, e).history)
            == Answers(c.history) + if Ends(trim, c, e) then Said(Content(trim, c.units, c.played)) else []
  {
    CloseIs(trim, c);
    AnswersFiled(c.history, Content(trim, c.units, c.played));
    AnswersForgotten(Close(trim, c));
    hide Close, Content, Filed, Answers;
  }

  lemma ClearedAnswers(trim: string -> string, c: Client)
    ensures Answers(On(trim, c, Clear).history) == []
  {
  }

  lemma TranscriptFiles(trim: string -> string, c: Client, e: Event)
    requires e.Transcript?
    ensures Answers(On(trim, c, e).history) == Answers(c.history) && !Ends(trim, c, e)
  {
    if Revises(c, e.item) {
      AnswersRevised(c.history, e.text);
    } else {
      AnswersAppend(c.history, Message(User, e.text, e.item));
    }
  }

  lemma FiledTextsAppend(calls: seq<Callback>, call: Callback)
    ensures FiledTexts(calls + [call]) == FiledTexts(calls) + if call.Ended? then Said(call.filed) else []
  {
    assert (calls + [call])[..|calls|] == calls;
  }

  lemma FiledOfGained(ended: Callback, ends: bool, starts: bool)
    requires ended.Ended?
    ensures FiledTexts((if ends then [ended] else []) + (if starts then [Started] else []))
            == if ends then Said(ended.filed) else []
  {
    var first := if ends then [ended] else [];
    FiledTextsAppend([], ended);
    FiledTextsAppend(first, Started);
    assert [] + [ended] == [ended] && first + [] == first;
  }

  /** What the host is told was filed is what the history gains. */
  lemma OnFilesWhatItTells(trim: string -> string, c: Client, e: Event)
    requires !e.SetHistory? && !e.Clear?
    ensures var d := On(trim, c, e);
            c.calls <= d.calls && Answers(d.history) == Answers(c.history) + FiledTexts(d.calls[|c.calls|..])
  {
    hide On, Content, Answers, FiledTexts, Ends;
    OnTells(trim, c, e);
    OnFiles(trim, c, e);
    var gained := Gained(trim, c, e);
    assert (c.calls + gained)[|c.calls|..] == gained;
    var ended := Ended(c.units, PlayedBy(c, e), Content(trim, c.units, PlayedBy(c, e)));
    FiledOfGained(ended, Ends(trim, c, e), e.Created?);
  }

  // --------------------------------------- the answers, from the events alone

  /** Samples of the last answer sent so far. */
  function Samples(events: seq<Event>): nat {
    if events == [] then 0
    else
      var before := events[..|events| - 1];
      match events[|events| - 1]
      case Created => 0
      case AudioDelta(n) => Samples(before) + n
      case _ => Samples(before)
  }

  /** Its units, each at the samples sent before it. */
  function UnitsSent(events: seq<Event>): seq<Unit> {
    if events == [] then []
    else
      var before := events[..|events| - 1];
      match events[|events| - 1]
      case Created => []
      case UnitDelta(text) => UnitsSent(before) + [Unit(text, Samples(before))]
      case _ => UnitsSent(before)
  }

  /** How many answers have begun. */
  function Begun(events: seq<Event>): nat {
    if events == [] then 0
    else Begun(events[..|events| - 1]) + if events[|events| - 1].Created? then 1 else 0
  }

  /** The last the player reported of it. */
  function LastReport(events: seq<Event>): nat {
    if events == [] then 0
    else
      var before := events[..|events| - 1];
      match events[|events| - 1]
      case Created => 0
      case Played(generation, n) => if generation == Begun(before) then n else LastReport(before)
      case _ => LastReport(before)
  }

  /** Whether the server has said that the last answer is whole. */
  predicate DoneSaid(events: seq<Event>) {
    if events == [] then false
    else
      match events[|events| - 1]
      case Created => false
      case DoneEvent => true
      case _ => DoneSaid(events[..|events| - 1])
  }

  /** Whether the last answer is still open: the user's voice and whatever stops
      it close it at once, its end only when all of it has been played. */
  predicate InFlight(events: seq<Event>) {
    if events == [] then false
    else
      var before := events[..|events| - 1];
      match events[|events| - 1]
      case Created => true
      case SpeechStarted => false
      case CancelledEvent => false
      case Cancel => false
      case Clear => false
      case Reconnect => false
      case Teardown => false
      case DoneEvent => InFlight(before) && LastReport(before) < Samples(before)
      case Played(generation, n) =>
        InFlight(before) && !(generation == Begun(before) && DoneSaid(before) && n >= Samples(before))
      case _ => InFlight(before)
  }

  predicate Sounds(ui: Ui) {
    ui == Speaking || ui == Thinking
  }

  /** The client's account of the answer in flight is what the events say. */
  predicate Accounts(c: Client, events: seq<Event>) {
    && c.generation == Begun(events) && c.played == LastReport(events)
    && c.answering == InFlight(events) == Sounds(c.ui)
    && (if c.answering then
          c.units == UnitsSent(events) && c.queued == Samples(events) && c.answerDone == DoneSaid(events)
        else c.units == [])
  }

  lemma CloseAccounts(trim: string -> string, c: Client)
    ensures var d := Close(trim, c);
            d.generation == c.generation && d.played == c.played && !d.answering && (c.answering ==> d.units == [])
            && (!c.answering ==> d == c)
  {
  }

  lemma OneMore(events: seq<Event>, e: Event)
    ensures var all := events + [e];
            && Begun(all) == Begun(events) + (if e.Created? then 1 else 0)
            && Samples(all) == (if e.Created? then 0
                                else Samples(events) + if e.AudioDelta? then e.samples else 0)
            && UnitsSent(all) == (if e.Created? then []
                                  else UnitsSent(events)
                                       + if e.UnitDelta? then [Unit(e.text, Samples(events))] else [])
            && LastReport(all) == (if e.Created? then 0
                                   else if e.Played? && e.generation == Begun(events) then e.played
                                   else LastReport(events))
            && DoneSaid(all) == (e.DoneEvent? || (!e.Created? && DoneSaid(events)))
  {
    assert (events + [e])[..|events|] == events;
    assert UnitsSent(events) + [] == UnitsSent(events);
  }

  /** Whether the answer in flight stays open. */
  predicate StaysOpen(c: Client, e: Event) {
    match e
    case Created => true
    case SpeechStarted => false
    case CancelledEvent => false
    case Cancel => false
    case Clear => false
    case Reconnect => false
    case Teardown => false
    case DoneEvent => c.answering && c.played < c.queued
    case Played(generation, n) =>
      c.answering && !(generation == c.generation && c.answerDone && n >= c.queued)
    case _ => c.answering
  }

  lemma OneMoreOpen(c: Client, events: seq<Event>, e: Event)
    requires Accounts(c, events)
    ensures InFlight(events + [e]) == StaysOpen(c, e)
  {
    hide Begun, Samples, UnitsSent, LastReport, DoneSaid;
    assert (events + [e])[..|events|] == events;
  }

  lemma OnStaysOpen(trim: string -> string, c: Client, e: Event)
    requires c.answering == Sounds(c.ui)
    ensures var d := On(trim, c, e); d.answering == Sounds(d.ui) == StaysOpen(c, e)
  {
    hide Close, Revises, Forget;
    CloseAccounts(trim, c);
    CloseAccounts(trim, c.(answerDone := true));
    CloseAccounts(trim, c.(played := PlayedBy(c, e)));
    ForgetAccounts(Close(trim, c));
  }

  lemma OnCounts(trim: string -> string, c: Client, e: Event)
    requires !c.answering ==> c.units == []
    ensures var d := On(trim, c, e);
            && d.generation == c.generation + (if e.Created? then 1 else 0)
            && d.played == (if e.Created? then 0
                            else if e.Played? && e.generation == c.generation then e.played else c.played)
            && (e.Created? ==> d.answering && d.units == [] && d.queued == 0 && !d.answerDone)
            && (!e.Created? && d.answering ==>
                  && c.answering
                  && d.answerDone == (c.answerDone || e.DoneEvent?)
                  && d.queued == c.queued + (if e.AudioDelta? then e.samples else 0)
                  && d.units == if e.UnitDelta? then c.units + [Unit(e.text, c.queued)] else c.units)
            && (!d.answering ==> d.units == [])
  {
    hide Close, Revises, Forget;
    CloseAccounts(trim, c);
    CloseAccounts(trim, c.(answerDone := true));
    CloseAccounts(trim, c.(played := PlayedBy(c, e)));
    ForgetAccounts(Close(trim, c));
  }

  lemma ForgetAccounts(c: Client)
    ensures var d := Forget(c);
            && d.generation == c.generation && d.played == c.played && d.answering == c.answering
            && d.units == c.units && d.queued == c.queued
  {
  }

  lemma OnAccounts(trim: string -> string, c: Client, events: seq<Event>, e: Event)
    requires Accounts(c, events)
    ensures Accounts(On(trim, c, e), events + [e])
  {
    hide On, Begun, Samples, UnitsSent, LastReport, DoneSaid, InFlight, Sounds, StaysOpen;
    OneMore(events, e);
    OneMoreOpen(c, events, e);
    OnStaysOpen(trim, c, e);
    OnCounts(trim, c, e);
    assert UnitsSent(events) + [] == UnitsSent(events);
  }

  /** The last answer ends with e, and is not dropped. */
  predicate EndsWith(before: seq<Event>, e: Event) {
    InFlight(before) && !e.Clear? && (e.Created? || !InFlight(before + [e]))
  }

  /** The answers a conversation should hold, from its events alone: those of
      the list the host last gave, then of each answer that ended the text of
      its units whose first sample had played, unless that says nothing. */
  function Kept(trim: string -> string, events: seq<Event>): seq<string> {
    if events == [] then []
    else
      var before, e := events[..|events| - 1], events[|events| - 1];
      match e
      case SetHistory(messages) => Answers(messages)
      case Clear => []
      case _ =>
        var played := LastReport(if e.Created? then before else events);
        Kept(trim, before)
        + if EndsWith(before, e) then Said(Content(trim, UnitsSent(before), played)) else []
  }

  lemma PlayedIsReported(trim: string -> string, c: Client, events: seq<Event>, e: Event)
    requires Accounts(c, events) && Ends(trim, c, e)
    ensures PlayedBy(c, e) == LastReport(if e.Created? then events else events + [e])
  {
    OneMore(events, e);
    hide Close, Begun, Samples, UnitsSent, LastReport, DoneSaid, InFlight, Sounds;
  }

  lemma EndsAsSaid(trim: string -> string, c: Client, events: seq<Event>, e: Event)
    requires Accounts(c, events)
    ensures Ends(trim, c, e) <==> EndsWith(events, e)
  {
    OnAccounts(trim, c, events, e);
    hide On, Begun, Samples, UnitsSent, LastReport, DoneSaid, InFlight, Sounds;
  }

  lemma OnKeeps(trim: string -> string, events: seq<Event>, e: Event)
    requires var c := Run(trim, Fresh(), events);
             Accounts(c, events) && Answers(c.history) == Kept(trim, events)
    ensures Answers(On(trim, Run(trim, Fresh(), events), e).history) == Kept(trim, events + [e])
  {
    hide Inv, On, Answers, Content, LastReport, UnitsSent, Samples, Begun, DoneSaid, InFlight, Sounds, Run, Ends,
         EndsWith;
    var c := Run(trim, Fresh(), events);
    assert (events + [e])[..|events|] == events;
    OnFiles(trim, c, e);
    EndsAsSaid(trim, c, events, e);
    if Ends(trim, c, e) {
      PlayedIsReported(trim, c, events, e);
      EndsOpen(trim, c, e);
    }
  }

  lemma EndsOpen(trim: string -> string, c: Client, e: Event)
    requires Ends(trim, c, e)
    ensures c.answering
  {
  }

  /** Over any events: one end per start, of each answer filed exactly the units
      that started to play, the first ones, and the history holds those texts
      in order and no other answer but the host's own. */
  lemma {:induction false} EveryRunFilesWhatWasHeard(trim: string -> string, events: seq<Event>)
    ensures var c := Run(trim, Fresh(), events);
            Inv(trim, c) && Accounts(c, events) && Answers(c.history) == Kept(trim, events)
  {
    hide Inv, On, Kept, Answers, Accounts;
    if events == [] {
      FreshIsKept(trim);
    } else {
      var before, e := events[..|events| - 1], events[|events| - 1];
      EveryRunFilesWhatWasHeard(trim, before);
      assert before + [e] == events;
      OnKeepsInv(trim, Run(trim, Fresh(), before), e);
      OnAccounts(trim, Run(trim, Fresh(), before), before, e);
      OnKeeps(trim, before, e);
    }
  }

  lemma FreshIsKept(trim: string -> string)
    ensures Inv(trim, Fresh()) && Accounts(Fresh(), []) && Answers(Fresh().history) == Kept(trim, [])
  {
  }

  /** What the server or the player still says of an answer. */
  predicate OfAnswer(e: Event) {
    || e.TextDelta? || e.ToolCall? || e.UnitDelta? || e.AudioDelta? || e.CancelledEvent? || e.DoneEvent? || e.Played?
  }

  /** The events that are not of an answer. */
  function Others(events: seq<Event>): seq<Event> {
    if events == [] then []
    else
      var last := events[|events| - 1];
      Others(events[..|events| - 1]) + if OfAnswer(last) then [] else [last]
  }

  /** Two closed clients that differ at most in what they remember of the
      answer that is over. */
  predicate Alike(c: Client, d: Client) {
    && !c.answering && !d.answering
    && c.history == d.history && c.userItem == d.userItem && c.pushed == d.pushed && c.calls == d.calls
  }

  lemma ClosedIgnores(trim: string -> string, c: Client, d: Client, e: Event)
    requires Alike(c, d) && !e.Created?
    ensures if OfAnswer(e) then Alike(On(trim, c, e), d) else Alike(On(trim, c, e), On(trim, d, e))
  {
  }

  /** A closed answer is closed: whatever is still said of it among the other
      events, up to the next answer, the history, the lists pushed and what
      the host hears are as if it had not been said. */
  lemma {:induction false} ClosedStaysClosed(trim: string -> string, c: Client, events: seq<Event>)
    requires !c.answering && forall i :: 0 <= i < |events| ==> !events[i].Created?
    ensures Alike(Run(trim, c, events), Run(trim, c, Others(events)))
  {
    if events != [] {
      var before, e := events[..|events| - 1], events[|events| - 1];
      ClosedStaysClosed(trim, c, before);
      ClosedIgnores(trim, Run(trim, c, before), Run(trim, c, Others(before)), e);
      if OfAnswer(e) {
        assert Others(before) + [] == Others(before);
      } else {
        assert (Others(before) + [e])[..|Others(before)|] == Others(before);
      }
      hide On, OfAnswer;
    }
  }
}
